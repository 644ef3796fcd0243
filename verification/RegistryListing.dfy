/** Listings of a registry: scoped, ordered by subject and semantic version, and the latest version. */
module RegistryListing {
  import opened Prelude
  import opened Sorting
  import opened RegistryModel
  import RegistryRuns
  import SemVer
  import Splitting

  datatype Scope = Scope(tenantId: string, organizationId: string, workspaceId: string, subjectId: Option<string>)

  predicate InScope(e: Entry, s: Scope) {
    && e.tenantId == s.tenantId && e.organizationId == s.organizationId && e.workspaceId == s.workspaceId
    && (s.subjectId.Some? ==> e.subjectId == s.subjectId.value)
  }

  function ScopeFilter(s: Scope): Entry -> bool {
    e => InScope(e, s)
  }

  /** The entries of a scope, in the order of the cache. */
  function Scoped(cache: Cache, s: Scope): seq<Entry>
    requires forall k :: k in cache.order ==> k in cache.items
  {
    Filter(Values(cache.order, cache.items), ScopeFilter(s))
  }

  predicate HasVersion(e: Entry) {
    SemVer.Semver(e.version).Some?
  }

  function OrderKey(version: string): SemVer.Key {
    var key := SemVer.Semver(version);
    if key.Some? then key.value else SemVer.Key(0, 0, 0, 0, [])
  }

  /** The pairs of subject and version key, compared as tuples. */
  predicate EntryLe(a: Entry, b: Entry) {
    if a.subjectId != b.subjectId then StringLe(a.subjectId, b.subjectId)
    else SemVer.KeyLe(OrderKey(a.version), OrderKey(b.version))
  }

  /** `list_entries`; the sort key of an invalid version raises. */
  function Listing(cache: Cache, s: Scope): Result<seq<Entry>, RegistryError>
    requires forall k :: k in cache.order ==> k in cache.items
  {
    var entries := Scoped(cache, s);
    if exists i :: 0 <= i < |entries| && !HasVersion(entries[i]) then Err(Conflict)
    else Ok(Sorted(entries, EntryLe))
  }

  function Latest(cache: Cache, s: Scope): Result<Entry, RegistryError>
    requires forall k :: k in cache.order ==> k in cache.items
  {
    var list := Listing(cache, s);
    if list.Err? then Err(list.error)
    else if list.value == [] then Err(NotFound)
    else Ok(list.value[|list.value| - 1])
  }

  // ----- The order -----

  lemma EntryOrder()
    ensures TotalPreorder(EntryLe)
  {
    hide StringLe, SemVer.KeyLe, OrderKey;
    StringOrder();
    SemVer.KeyOrder();
  }

  /** One entry is below another in the sense of section 11, for versions of one subject. */
  ghost predicate Precedes(a: Entry, b: Entry) {
    && HasVersion(a) && HasVersion(b)
    && SemVer.Below(SemVer.Parse(a.version).value, SemVer.Parse(b.version).value)
  }

  lemma EntryLeIsPrecedence(a: Entry, b: Entry)
    requires HasVersion(a) && HasVersion(b) && a.subjectId == b.subjectId
    ensures EntryLe(a, b) <==> !Precedes(b, a)
    ensures EntryLe(a, b) && EntryLe(b, a) <==>
            SemVer.Parse(a.version).value.(build := None) == SemVer.Parse(b.version).value.(build := None)
  {
    hide SemVer.KeyLe, SemVer.KeyOf, SemVer.Below;
    var v, w := SemVer.Parse(a.version).value, SemVer.Parse(b.version).value;
    SemVer.ParseThenRender(a.version);
    SemVer.ParseThenRender(b.version);
    SemVer.KeyOrder();
    SemVer.KeyOrderIsPrecedence(w, v);
    SemVer.KeyOrderIsPrecedence(v, w);
    SemVer.KeysTieUpToBuild(v, w);
  }

  /** Exactly the cached entries of the scope are listed. */
  lemma ScopedHolds(cache: Cache, s: Scope, e: Entry)
    requires cache.Valid()
    ensures e in Scoped(cache, s) <==> InScope(e, s) && exists k :: k in cache.items && cache.items[k] == e
  {
    hide Filter, InScope;
    var values := Values(cache.order, cache.items);
    FilterPasses(values, ScopeFilter(s), e);
    if e in values {
      var i :| 0 <= i < |values| && values[i] == e;
      assert cache.order[i] in cache.items;
    }
    if k :| k in cache.items && cache.items[k] == e {
      var i :| 0 <= i < |cache.order| && cache.order[i] == k;
      assert values[i] == e;
    }
  }

  // ----- Listings -----

  /** A listing raises exactly when one entry of the scope has an invalid version, which `register`
      lets in; otherwise it is a permutation of the scope's entries, subjects in string order, and no
      entry stands before one of its subject that section 11 puts below it. */
  lemma ListingIsSorted(cache: Cache, s: Scope)
    requires cache.Valid()
    ensures Listing(cache, s).Err? <==> exists i :: 0 <= i < |Scoped(cache, s)| && !HasVersion(Scoped(cache, s)[i])
    ensures Listing(cache, s).Ok? ==>
              var list := Listing(cache, s).value;
              && multiset(list) == multiset(Scoped(cache, s))
              && forall i, j :: 0 <= i < j < |list| ==>
                                  && StringLe(list[i].subjectId, list[j].subjectId)
                                  && (list[i].subjectId == list[j].subjectId ==> !Precedes(list[j], list[i]))
  {
    hide Scoped, Sorted, HasVersion, EntryLe, Precedes, StringLe, TotalPreorder;
    var entries := Scoped(cache, s);
    EntryOrder();
    SortedIsSorted(entries, EntryLe);
    if Listing(cache, s).Ok? {
      var list := Listing(cache, s).value;
      forall i, j | 0 <= i < j < |list|
        ensures StringLe(list[i].subjectId, list[j].subjectId)
        ensures list[i].subjectId == list[j].subjectId ==> !Precedes(list[j], list[i])
      {
        ListedHasVersion(entries, list, i);
        ListedHasVersion(entries, list, j);
        InOrderPair(list[i], list[j]);
      }
    }
  }

  lemma ListedHasVersion(entries: seq<Entry>, list: seq<Entry>, i: nat)
    requires i < |list| && multiset(list) == multiset(entries)
    requires forall k :: 0 <= k < |entries| ==> HasVersion(entries[k])
    ensures HasVersion(list[i])
  {
    hide HasVersion;
    assert list[i] in multiset(entries);
  }

  lemma InOrderPair(a: Entry, b: Entry)
    requires EntryLe(a, b) && HasVersion(a) && HasVersion(b)
    ensures StringLe(a.subjectId, b.subjectId)
    ensures a.subjectId == b.subjectId ==> !Precedes(b, a)
  {
    hide HasVersion, Precedes, StringLe, SemVer.KeyLe;
    if a.subjectId == b.subjectId {
      EntryLeIsPrecedence(a, b);
      StringLeReflexive(a.subjectId);
    }
  }

  /** Two versions of equal precedence. */
  predicate Ties(a: Entry, b: Entry) {
    a.subjectId == b.subjectId && OrderKey(a.version) == OrderKey(b.version)
  }

  /** The latest version of a subject is a maximum of precedence among the versions in scope, and of
      the maxima, which differ in build metadata only, the one registered last. */
  lemma LatestIsMaximum(cache: Cache, s: Scope) returns (at: nat)
    requires cache.Valid() && s.subjectId.Some? && Latest(cache, s).Ok?
    ensures var entries := Scoped(cache, s);
            && at < |entries| && entries[at] == Latest(cache, s).value
            && (forall k :: 0 <= k < |entries| ==> !Precedes(entries[at], entries[k]))
            && (forall k :: at < k < |entries| ==> !Ties(entries[at], entries[k]))
  {
    hide Scoped, Sorted, Filter, HasVersion, EntryLe, Ties, Precedes, TotalPreorder, InScope;
    var entries := Scoped(cache, s);
    var list := Sorted(entries, EntryLe);
    var latest := list[|list| - 1];
    EntryOrder();
    SortedIsSorted(entries, EntryLe);
    var p := (e: Entry) => Ties(latest, e);
    TiesAreMutual(latest);
    SortedIsStable(entries, EntryLe, p);
    FilterLast(list, p);
    at := LastOfFilter(entries, p);
    OneSubject(cache, s);
    forall k | 0 <= k < |entries| ensures !Precedes(entries[at], entries[k]) {
      assert entries[k] in multiset(list);
      var i :| 0 <= i < |list| && list[i] == entries[k];
      ListedHasVersion(entries, entries, k);
      assert entries[at] == latest;
      LatestIsAbove(list, i);
    }
  }

  lemma LatestIsAbove(list: seq<Entry>, i: nat)
    requires i < |list| && InOrder(list, EntryLe)
    requires list[|list| - 1].subjectId == list[i].subjectId
    ensures !Precedes(list[|list| - 1], list[i])
  {
    hide EntryLe, HasVersion;
    var latest := list[|list| - 1];
    if HasVersion(latest) && HasVersion(list[i]) {
      EntryLeIsPrecedence(list[i], latest);
      EntryOrder();
    }
  }

  lemma TiesAreMutual(latest: Entry)
    ensures forall y, z :: Ties(latest, y) && Ties(latest, z) ==> EntryLe(y, z)
    ensures Ties(latest, latest)
  {
    hide SemVer.KeyLe, OrderKey;
    SemVer.KeyOrder();
  }

  lemma OneSubject(cache: Cache, s: Scope)
    requires cache.Valid() && s.subjectId.Some?
    ensures forall k :: 0 <= k < |Scoped(cache, s)| ==> Scoped(cache, s)[k].subjectId == s.subjectId.value
  {
    hide Scoped;
    forall k | 0 <= k < |Scoped(cache, s)| ensures Scoped(cache, s)[k].subjectId == s.subjectId.value {
      ScopedHolds(cache, s, Scoped(cache, s)[k]);
    }
  }

  // ----- Invalid versions -----

  /** A version has dots. */
  lemma DotlessIsInvalid(version: string)
    requires '.' !in version
    ensures SemVer.Semver(version).None?
  {
    var core := Splitting.Cut(Splitting.Cut(version, '+').head, '-').head;
    Splitting.CutNowhere(core, '.');
    assert Splitting.Split(core, '.') == [core];
  }

  /** `register` does not look at the version: once an invalid one is in, every listing of its scope
      raises, after whatever else the registries do. */
  lemma {:induction false} InvalidVersionBlocksListings(w: World, accepts: Accepts, subjectType: string, c: Call,
                                                        now: int, ops: seq<Op>, s: Scope)
    requires RegistryRuns.WorldOk(w) && subjectType in w.caches
    requires forall k :: 0 <= k < |ops| ==> ops[k].subjectType in w.caches
    requires c.Register? && accepts(subjectType, c.payload) && SemVer.Semver(c.payload.version).None?
    requires MatchesContext(c.payload, c.tenantId, c.organizationId, c.workspaceId)
    requires KeyOf(NewEntry(subjectType, c, now)) !in w.caches[subjectType].items
    requires InScope(NewEntry(subjectType, c, now), s)
    ensures var after := Apply(w, accepts, CallOp(subjectType, c, true, now));
            && after.reply.Ok? && after.world.store.Valid() && after.world.caches.Keys == w.caches.Keys
            && var v := ApplyAll(after.world, accepts, ops);
               && subjectType in v.caches && v.caches[subjectType].Valid()
               && Listing(v.caches[subjectType], s) == Err(Conflict)
  {
    hide MatchesContext, ApplyAll, SemVer.Semver, Scoped, InScope, RegistryRuns.TypeKeys, RegistryRuns.Mirrors;
    var op := CallOp(subjectType, c, true, now);
    var e := NewEntry(subjectType, c, now);
    RegistryRuns.StepKeepsWorld(w, accepts, op);
    ApplyKeepsShape(w, accepts, op);
    var after := Apply(w, accepts, op).world;
    assert RecordOf(e) in after.store.items && after.store.items[RecordOf(e)] == e;
    RegistryRuns.DefinitionsAreImmutable(after, accepts, ops, RecordOf(e));
    RegistryRuns.EveryRunMirrorsTheStore(after, accepts, ops);
    var v := ApplyAll(after, accepts, ops);
    var kept := v.store.items[RecordOf(e)];
    StoredIsCached(v, subjectType, kept);
    SameScope(e, kept, s);
    ScopedHolds(v.caches[subjectType], s, kept);
    var i :| 0 <= i < |Scoped(v.caches[subjectType], s)| && Scoped(v.caches[subjectType], s)[i] == kept;
  }

  function EmptyWorld(subjectType: string): World {
    World(map[subjectType := Dict([], map[])], Dict([], map[]), map[])
  }

  /** A first registration with a version without dots, which the schema accepts, is answered with its
      draft; from then on its scope cannot be listed. */
  lemma DotlessVersionIsLetIn(accepts: Accepts, subjectType: string, c: Call, now: int, s: Scope)
    requires c.Register? && accepts(subjectType, c.payload) && '.' !in c.payload.version
    requires MatchesContext(c.payload, c.tenantId, c.organizationId, c.workspaceId)
    requires InScope(NewEntry(subjectType, c, now), s)
    ensures var after := Apply(EmptyWorld(subjectType), accepts, CallOp(subjectType, c, true, now));
            && after.reply == Ok(Some(NewEntry(subjectType, c, now)))
            && subjectType in after.world.caches && after.world.caches[subjectType].Valid()
            && Listing(after.world.caches[subjectType], s) == Err(Conflict)
  {
    hide MatchesContext, InScope, Listing;
    DotlessIsInvalid(c.payload.version);
    assert RegistryRuns.WorldOk(EmptyWorld(subjectType));
    InvalidVersionBlocksListings(EmptyWorld(subjectType), accepts, subjectType, c, now, [], s);
  }

  lemma SameScope(a: Entry, b: Entry, s: Scope)
    requires RegistryRuns.SameDefinition(a, b) && InScope(a, s)
    ensures InScope(b, s) && b.version == a.version
  {
  }

  lemma StoredIsCached(w: World, subjectType: string, e: Entry)
    requires RegistryRuns.WorldOk(w) && subjectType in w.caches && e.subjectType == subjectType
    requires RecordOf(e) in w.store.items && w.store.items[RecordOf(e)] == e
    ensures w.caches[subjectType].Valid()
    ensures KeyOf(e) in w.caches[subjectType].items && w.caches[subjectType].items[KeyOf(e)] == e
  {
    RegistryRuns.MirrorIsValid(w.caches[subjectType], w.store, subjectType);
  }
}
