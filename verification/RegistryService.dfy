/** The registry and its two stores as objects; a save that fails is a parameter of the call. */
module RegistryService {
  import opened Prelude
  import opened RegistryModel
  import opened RegistryListing
  import Sorting
  import SemVer

  class InMemoryRegistryStore {
    var records: Store

    constructor ()
      ensures records == Dict([], map[])
    {
      records := EmptyDict();
    }

    method Save(entry: Entry, works: bool) returns (saved: bool)
      modifies this
      ensures saved == works && records == (if works then Overwrite(old(records), entry) else old(records))
    {
      if works {
        records := records.Put(RecordOf(entry), entry);
      }
      saved := works;
    }

    method LoadSubjectType(subjectType: string) returns (entries: seq<Entry>)
      requires records.Valid()
      ensures entries == Loaded(records.order, records.items, subjectType)
    {
      entries := [];
      for i := 0 to |records.order|
        invariant entries == Loaded(records.order[..i], records.items, subjectType)
      {
        assert records.order[..i + 1][..i] == records.order[..i];
        var item := records.items[records.order[i]];
        if records.order[i].subjectType == subjectType {
          entries := entries + [item];
        }
      }
      assert records.order[..|records.order|] == records.order;
    }
  }

  // ----- The SQL store -----

  datatype Row = Row(
    subjectType: string, subjectId: string, version: string, tenantId: string, organizationId: string,
    workspaceId: string, contractPayload: Payload, digest: Digest, lifecycleState: string, createdBy: string,
    correlationId: string, createdAt: int, decisionId: Option<string>, releaseId: Option<string>)

  function StateName(s: RegistryState): string {
    match s
    case Draft => "DRAFT"
    case Approved => "APPROVED"
    case Active => "ACTIVE"
    case Suspended => "SUSPENDED"
    case Retired => "RETIRED"
  }

  /** `RegistryState(value)`, which raises on any other name. */
  function StateNamed(name: string): Option<RegistryState> {
    if name == "DRAFT" then Some(Draft)
    else if name == "APPROVED" then Some(Approved)
    else if name == "ACTIVE" then Some(Active)
    else if name == "SUSPENDED" then Some(Suspended)
    else if name == "RETIRED" then Some(Retired)
    else None
  }

  function RowOf(e: Entry): Row {
    Row(e.subjectType, e.subjectId, e.version, e.tenantId, e.organizationId, e.workspaceId, e.payload, e.digest,
        StateName(e.state), e.createdBy, e.correlationId, e.createdAt, e.decisionId, e.releaseId)
  }

  function EntryOf(r: Row): Option<Entry> {
    var state := StateNamed(r.lifecycleState);
    if state.None? then None
    else
      Some(Entry(r.subjectType, r.subjectId, r.version, r.tenantId, r.organizationId, r.workspaceId, r.contractPayload,
                 r.digest, state.value, r.createdBy, r.correlationId, r.createdAt, r.decisionId, r.releaseId))
  }

  /** An entry survives its row, and a row that can be read at all is the row of its entry. */
  lemma RowsKeepEntries(e: Entry, r: Row)
    ensures EntryOf(RowOf(e)) == Some(e)
    ensures EntryOf(r) == Some(e) <==> r == RowOf(e)
  {
    StateNames(r.lifecycleState);
  }

  lemma StateNames(name: string)
    ensures forall s :: StateNamed(StateName(s)) == Some(s)
    ensures StateNamed(name).Some? ==> StateName(StateNamed(name).value) == name
  {
  }

  class SqlRegistryStore {
    var rows: map<RecordKey, Row>

    ghost predicate Valid()
      reads this
    {
      forall k :: k in rows ==> EntryOf(rows[k]).Some?
    }

    /** What the rows say, read as entries. */
    ghost function Entries(): map<RecordKey, Entry>
      requires Valid()
      reads this
    {
      map k | k in rows :: EntryOf(rows[k]).value
    }

    constructor ()
      ensures Valid() && Entries() == map[]
    {
      rows := map[];
    }

    /** Inserts the row or assigns four of its columns; nothing is written unless the commit works. */
    method Save(entry: Entry, commits: bool) returns (saved: bool)
      requires Valid()
      modifies this
      ensures Valid() && saved == commits
      ensures Entries() == (if commits then PartialSave(old(Entries()), entry) else old(Entries()))
    {
      hide StateName, StateNamed;
      ghost var before := Entries();
      var key := RecordOf(entry);
      StateNames("");
      if commits {
        if key !in rows {
          rows := rows[key := RowOf(entry)];
        } else {
          rows := rows[key := rows[key].(lifecycleState := StateName(entry.state), correlationId := entry.correlationId,
          decisionId := entry.decisionId, releaseId := entry.releaseId)];
        }
        assert Entries() == PartialSave(before, entry);
      }
      saved := commits;
    }
  }

  // ----- The registry -----

  /** What a call did, given what it wanted to do and whether its save worked. */
  ghost predicate Performs(attempt: Attempt, works: bool, cache: Cache, store: Store,
                           newCache: Cache, newStore: Store, reply: Result<Entry, RegistryError>) {
    && reply == ReplyOf(attempt, works)
    && newCache == (if attempt.Save? && works then cache.Put(KeyOf(attempt.entry), attempt.entry) else cache)
    && newStore == (if attempt.Save? && works then Overwrite(store, attempt.entry) else store)
  }

  class VersionedContractRegistry {
    const subjectType: string
    const accepts: Accepts
    const store: InMemoryRegistryStore
    var entries: Cache

    ghost predicate Valid()
      reads this, store
    {
      entries.Valid() && store.records.Valid()
    }

    constructor (subjectType: string, accepts: Accepts, store: InMemoryRegistryStore)
      requires store.records.Valid()
      ensures Valid() && entries == Dict([], map[])
      ensures this.subjectType == subjectType && this.accepts == accepts && this.store == store
    {
      this.subjectType := subjectType;
      this.accepts := accepts;
      this.store := store;
      entries := EmptyDict();
    }

    method Register(payload: Payload, tenantId: string, organizationId: string, workspaceId: string,
                    actorId: string, correlationId: string, now: int, works: bool)
      returns (reply: Result<Entry, RegistryError>)
      requires Valid()
      modifies this, store
      ensures Valid()
      ensures var call := RegistryModel.Register(payload, tenantId, organizationId, workspaceId, actorId,
                                                 correlationId);
              Performs(AttemptOf(subjectType, accepts, old(entries), call, now), works,
                       old(entries), old(store.records), entries, store.records, reply)
    {
      if !accepts(subjectType, payload) { return Err(Invalid); }
      if !MatchesContext(payload, tenantId, organizationId, workspaceId) { return Err(Conflict); }
      var digest := Sha256(payload);
      var key := EntryKey(tenantId, workspaceId, payload.subjectId, payload.version);
      if key in entries.items {
        var existing := entries.items[key];
        if existing.digest == digest { return Ok(existing); }
        return Err(Conflict);
      }
      var entry := Entry(
        subjectType, payload.subjectId, payload.version, tenantId, organizationId, workspaceId, payload, digest,
        Draft, actorId, correlationId, now, None, None);
      var saved := store.Save(entry, works);
      if !saved { return Err(StoreFailure); }
      entries := entries.Put(key, entry);
      reply := Ok(entry);
    }

    method Approve(key: EntryKey, decisionId: string, authority: string, correlationId: string, works: bool)
      returns (reply: Result<Entry, RegistryError>)
      requires Valid()
      modifies this, store
      ensures Valid()
      ensures Performs(AttemptOf(subjectType, accepts, old(entries),
                                 RegistryModel.Approve(key, decisionId, authority, correlationId), 0),
                       works, old(entries), old(store.records), entries, store.records, reply)
    {
      if !IsAuthority(authority) { return Err(Conflict); }
      reply := Transition(key, Draft, Approved, Some(decisionId), None, correlationId, works);
    }

    method Activate(key: EntryKey, releaseId: string, correlationId: string, works: bool)
      returns (reply: Result<Entry, RegistryError>)
      requires Valid()
      modifies this, store
      ensures Valid()
      ensures Performs(AttemptOf(subjectType, accepts, old(entries),
                                 RegistryModel.Activate(key, releaseId, correlationId), 0),
                       works, old(entries), old(store.records), entries, store.records, reply)
    {
      reply := Transition(key, Approved, Active, None, Some(releaseId), correlationId, works);
    }

    method Suspend(key: EntryKey, correlationId: string, works: bool) returns (reply: Result<Entry, RegistryError>)
      requires Valid()
      modifies this, store
      ensures Valid()
      ensures Performs(AttemptOf(subjectType, accepts, old(entries), RegistryModel.Suspend(key, correlationId), 0),
                       works, old(entries), old(store.records), entries, store.records, reply)
    {
      reply := Transition(key, Active, Suspended, None, None, correlationId, works);
    }

    method Transition(key: EntryKey, expected: RegistryState, target: RegistryState, decisionId: Option<string>,
                      releaseId: Option<string>, correlationId: string, works: bool)
      returns (reply: Result<Entry, RegistryError>)
      requires Valid()
      modifies this, store
      ensures Valid()
      ensures Performs(RegistryModel.Transition(old(entries), key, expected, target, decisionId, releaseId,
                                                correlationId),
                       works, old(entries), old(store.records), entries, store.records, reply)
    {
      if key !in entries.items { return Err(NotFound); }
      var current := entries.items[key];
      if current.state != expected { return Err(Conflict); }
      var updated := current.(
        state := target,
        correlationId := correlationId,
        decisionId := Or(decisionId, current.decisionId),
        releaseId := Or(releaseId, current.releaseId));
      var saved := store.Save(updated, works);
      if !saved { return Err(StoreFailure); }
      entries := entries.Put(KeyOf(updated), updated);
      reply := Ok(updated);
    }

    method Hydrate()
      requires Valid()
      modifies this
      ensures Valid() && entries == Hydrated(Loaded(store.records.order, store.records.items, subjectType))
    {
      var loaded := store.LoadSubjectType(subjectType);
      var items: Cache := EmptyDict();
      for i := 0 to |loaded|
        invariant items.Valid() && items == Hydrated(loaded[..i])
      {
        assert loaded[..i + 1][..i] == loaded[..i];
        items := items.Put(KeyOf(loaded[i]), loaded[i]);
      }
      assert loaded[..|loaded|] == loaded;
      entries := items;
    }

    method Get(key: EntryKey) returns (reply: Result<Entry, RegistryError>)
      ensures reply == (if key in entries.items then Ok(entries.items[key]) else Err(NotFound))
    {
      if key in entries.items {
        reply := Ok(entries.items[key]);
      } else {
        reply := Err(NotFound);
      }
    }

    method ScopedEntries(s: Scope) returns (scoped: seq<Entry>)
      requires Valid()
      ensures scoped == Scoped(entries, s)
    {
      hide InScope;
      scoped := [];
      var values := Values(entries.order, entries.items);
      for i := 0 to |values|
        invariant scoped == Sorting.Filter(values[..i], ScopeFilter(s))
      {
        assert values[..i + 1][..i] == values[..i];
        if InScope(values[i], s) {
          scoped := scoped + [values[i]];
        }
      }
      assert values[..|values|] == values;
    }

    method ListEntries(s: Scope) returns (reply: Result<seq<Entry>, RegistryError>)
      requires Valid()
      ensures reply == Listing(entries, s)
    {
      hide Scoped, SemVer.Semver, Sorting.Sorted, EntryLe;
      var scoped := ScopedEntries(s);
      for i := 0 to |scoped|
        invariant forall k :: 0 <= k < i ==> HasVersion(scoped[k])
      {
        var key := SemVer.SemverKey(scoped[i].version);
        if key.None? { return Err(Conflict); }
      }
      reply := Ok(Sorting.Sorted(scoped, EntryLe));
    }

    method LatestEntry(s: Scope) returns (reply: Result<Entry, RegistryError>)
      requires Valid()
      ensures reply == Latest(entries, s)
    {
      var list := ListEntries(s);
      if list.Err? { return Err(list.error); }
      if list.value == [] { return Err(NotFound); }
      reply := Ok(list.value[|list.value| - 1]);
    }
  }
}
