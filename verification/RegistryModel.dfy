/** Versioned definition registries: entries, the store that several registries share, and every
    registry call as a step on a cache and a store. */
module RegistryModel {
  import opened Prelude

  datatype SkillRef = SkillRef(skillId: string, skillVersion: string)

  /** A definition as its schema accepts it. Lists that may be absent are optional; everything
      that no service reads is in `rest`. */
  datatype Payload = Payload(
    subjectId: string, version: string,
    tenantId: Option<string>, organizationId: Option<string>, workspaceId: Option<string>,
    owner: Option<string>, ownerActorId: Option<string>, riskLevel: Option<string>,
    skillRefs: Option<seq<SkillRef>>, permissionRefs: Option<seq<string>>, scopeRefs: Option<seq<string>>,
    toolIds: Option<seq<string>>, backingToolIds: Option<seq<string>>, requiredToolIds: Option<seq<string>>,
    rest: string)

  /** SHA-256 of the canonical encoding, taken to be injective. */
  datatype Digest = Sha256(of: Payload)

  datatype RegistryState = Draft | Approved | Active | Suspended | Retired

  datatype Entry = Entry(
    subjectType: string, subjectId: string, version: string, tenantId: string, organizationId: string,
    workspaceId: string, payload: Payload, digest: Digest, state: RegistryState, createdBy: string,
    correlationId: string, createdAt: int, decisionId: Option<string>, releaseId: Option<string>)

  datatype EntryKey = EntryKey(tenantId: string, workspaceId: string, subjectId: string, version: string)

  datatype RecordKey = RecordKey(subjectType: string, entry: EntryKey)

  type Cache = Dict<EntryKey, Entry>

  type Store = Dict<RecordKey, Entry>

  datatype RegistryError = Invalid | Conflict | NotFound | StoreFailure

  function KeyOf(e: Entry): EntryKey {
    EntryKey(e.tenantId, e.workspaceId, e.subjectId, e.version)
  }

  function RecordOf(e: Entry): RecordKey {
    RecordKey(e.subjectType, KeyOf(e))
  }

  /** Schema validation of a subject type. */
  type Accepts = (string, Payload) -> bool

  datatype Call =
    | Register(payload: Payload, tenantId: string, organizationId: string, workspaceId: string,
               actorId: string, correlationId: string)
    | Approve(key: EntryKey, decisionId: string, authority: string, correlationId: string)
    | Activate(key: EntryKey, releaseId: string, correlationId: string)
    | Suspend(key: EntryKey, correlationId: string)

  // ----- What a call wants to do -----

  datatype Attempt = Save(entry: Entry) | Existing(found: Entry) | Refused(error: RegistryError)

  predicate Matches(supplied: Option<string>, value: string) {
    supplied.Some? ==> supplied.value == value
  }

  predicate MatchesContext(p: Payload, tenantId: string, organizationId: string, workspaceId: string) {
    Matches(p.tenantId, tenantId) && Matches(p.organizationId, organizationId) && Matches(p.workspaceId, workspaceId)
  }

  function NewEntry(subjectType: string, c: Call, now: int): Entry
    requires c.Register?
  {
    Entry(subjectType, c.payload.subjectId, c.payload.version, c.tenantId, c.organizationId, c.workspaceId,
          c.payload, Sha256(c.payload), Draft, c.actorId, c.correlationId, now, None, None)
  }

  function Registration(subjectType: string, accepts: Accepts, cache: Cache, c: Call, now: int): Attempt
    requires c.Register?
  {
    if !accepts(subjectType, c.payload) then Refused(Invalid)
    else if !MatchesContext(c.payload, c.tenantId, c.organizationId, c.workspaceId) then Refused(Conflict)
    else
      var entry := NewEntry(subjectType, c, now);
      if KeyOf(entry) in cache.items then
        var existing := cache.items[KeyOf(entry)];
        if existing.digest == entry.digest then Existing(existing) else Refused(Conflict)
      else Save(entry)
  }

  function Moved(e: Entry, target: RegistryState, decisionId: Option<string>, releaseId: Option<string>,
                 correlationId: string): Entry {
    e.(state := target, correlationId := correlationId,
    decisionId := Or(decisionId, e.decisionId), releaseId := Or(releaseId, e.releaseId))
  }

  function Transition(cache: Cache, key: EntryKey, expected: RegistryState, target: RegistryState,
                      decisionId: Option<string>, releaseId: Option<string>, correlationId: string): Attempt {
    if key !in cache.items then Refused(NotFound)
    else if cache.items[key].state != expected then Refused(Conflict)
    else Save(Moved(cache.items[key], target, decisionId, releaseId, correlationId))
  }

  predicate IsAuthority(authority: string) {
    authority == "IT" || authority == "DIRECTOR"
  }

  function AttemptOf(subjectType: string, accepts: Accepts, cache: Cache, c: Call, now: int): Attempt {
    match c
    case Register(_, _, _, _, _, _) => Registration(subjectType, accepts, cache, c, now)
    case Approve(key, decisionId, authority, correlationId) =>
      if !IsAuthority(authority) then Refused(Conflict)
      else Transition(cache, key, Draft, Approved, Some(decisionId), None, correlationId)
    case Activate(key, releaseId, correlationId) =>
      Transition(cache, key, Approved, Active, None, Some(releaseId), correlationId)
    case Suspend(key, correlationId) =>
      Transition(cache, key, Active, Suspended, None, None, correlationId)
  }

  /** What the caller hears of an attempt, given whether its save worked. */
  function ReplyOf(attempt: Attempt, works: bool): Result<Entry, RegistryError> {
    match attempt
    case Refused(error) => Err(error)
    case Existing(found) => Ok(found)
    case Save(e) => if works then Ok(e) else Err(StoreFailure)
  }

  // ----- Saving and loading -----

  /** The overwriting store of tests. */
  function Overwrite(store: Store, e: Entry): Store {
    store.Put(RecordOf(e), e)
  }

  /** The SQL store: an existing row has only four of its columns assigned. */
  function PartialSave(rows: map<RecordKey, Entry>, e: Entry): map<RecordKey, Entry> {
    var key := RecordOf(e);
    if key !in rows then rows[key := e]
    else
      rows[key := rows[key].(state := e.state, correlationId := e.correlationId,
      decisionId := e.decisionId, releaseId := e.releaseId)]
  }

  /** `load_subject_type`. */
  function Loaded(order: seq<RecordKey>, items: map<RecordKey, Entry>, subjectType: string): seq<Entry>
    requires forall k :: k in order ==> k in items
  {
    if order == [] then []
    else
      var last := order[|order| - 1];
      Loaded(order[..|order| - 1], items, subjectType)
      + (if last.subjectType == subjectType then [items[last]] else [])
  }

  /** `hydrate` builds the cache from the loaded entries. */
  function Hydrated(entries: seq<Entry>): Cache {
    if entries == [] then Dict([], map[])
    else
      var e := entries[|entries| - 1];
      Hydrated(entries[..|entries| - 1]).Put(KeyOf(e), e)
  }

  // ----- Registries that share a store -----

  /** One cache for each subject type, the overwriting store, and the SQL rows that the same saves
      would have made. */
  datatype World = World(caches: map<string, Cache>, store: Store, rows: map<RecordKey, Entry>)

  /** A save may fail; the exception then leaves the call before the cache changes. */
  datatype Op =
    | CallOp(subjectType: string, call: Call, saves: bool, now: int)
    | HydrateOp(subjectType: string)

  datatype Effect = Effect(world: World, reply: Result<Option<Entry>, RegistryError>)

  function Apply(w: World, accepts: Accepts, op: Op): Effect
    requires op.subjectType in w.caches && w.store.Valid()
  {
    match op
    case CallOp(t, call, saves, now) => (
      match AttemptOf(t, accepts, w.caches[t], call, now)
      case Refused(error) => Effect(w, Err(error))
      case Existing(found) => Effect(w, Ok(Some(found)))
      case Save(e) =>
        if !saves then Effect(w, Err(StoreFailure))
        else Effect(Saved(w, t, e), Ok(Some(e))))
    case HydrateOp(t) =>
      Effect(w.(caches := w.caches[t := Hydrated(Loaded(w.store.order, w.store.items, t))]), Ok(None))
  }

  function Saved(w: World, subjectType: string, e: Entry): World
    requires subjectType in w.caches
  {
    World(w.caches[subjectType := w.caches[subjectType].Put(KeyOf(e), e)], Overwrite(w.store, e),
          PartialSave(w.rows, e))
  }

  lemma ApplyKeepsShape(w: World, accepts: Accepts, op: Op)
    requires op.subjectType in w.caches && w.store.Valid()
    ensures Apply(w, accepts, op).world.store.Valid() && Apply(w, accepts, op).world.caches.Keys == w.caches.Keys
  {
    hide AttemptOf, Hydrated, Loaded, PartialSave;
  }

  function ApplyAll(w: World, accepts: Accepts, ops: seq<Op>): (r: World)
    requires w.store.Valid() && forall k :: 0 <= k < |ops| ==> ops[k].subjectType in w.caches
    ensures r.store.Valid() && r.caches.Keys == w.caches.Keys
  {
    if ops == [] then w
    else
      var v, op := ApplyAll(w, accepts, ops[..|ops| - 1]), ops[|ops| - 1];
      ApplyKeepsShape(v, accepts, op);
      Apply(v, accepts, op).world
  }
}
