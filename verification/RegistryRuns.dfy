/** What every run of registries over one shared store keeps, whichever saves fail. */
module RegistryRuns {
  import opened Prelude
  import opened RegistryModel

  // ----- The cache mirrors the store -----

  function TypeKeys(order: seq<RecordKey>, subjectType: string): seq<EntryKey> {
    if order == [] then []
    else
      var last := order[|order| - 1];
      TypeKeys(order[..|order| - 1], subjectType) + (if last.subjectType == subjectType then [last.entry] else [])
  }

  /** The same entries of that type, in the same order. */
  ghost predicate Mirrors(cache: Cache, store: Store, subjectType: string) {
    && cache.order == TypeKeys(store.order, subjectType)
    && (forall k :: k in cache.items <==> RecordKey(subjectType, k) in store.items)
    && (forall k :: k in cache.items ==> cache.items[k] == store.items[RecordKey(subjectType, k)])
  }

  ghost predicate StoreOk(store: Store) {
    && store.Valid()
    && forall k :: k in store.items ==>
        RecordOf(store.items[k]) == k && store.items[k].digest == Sha256(store.items[k].payload)
  }

  /** The cache that `hydrate` makes of the first records. */
  ghost predicate HydratedFrom(h: Cache, order: seq<RecordKey>, items: map<RecordKey, Entry>, subjectType: string) {
    && h.order == TypeKeys(order, subjectType)
    && (forall k :: k in h.items <==> RecordKey(subjectType, k) in order)
    && (forall k :: k in h.items ==>
        RecordKey(subjectType, k) in items && h.items[k] == items[RecordKey(subjectType, k)])
  }

  lemma {:induction false} HydrateBuilds(order: seq<RecordKey>, items: map<RecordKey, Entry>, subjectType: string)
    requires forall k :: k in order ==> k in items && RecordOf(items[k]) == k
    requires forall i, j :: 0 <= i < j < |order| ==> order[i] != order[j]
    ensures HydratedFrom(Hydrated(Loaded(order, items, subjectType)), order, items, subjectType)
  {
    if order != [] {
      var front, last := order[..|order| - 1], order[|order| - 1];
      HydrateBuilds(front, items, subjectType);
      var before := Loaded(front, items, subjectType);
      assert forall k :: k in order <==> k in front || k == last;
      if last.subjectType == subjectType {
        assert (before + [items[last]])[..|before|] == before;
        assert last == RecordKey(subjectType, last.entry) && KeyOf(items[last]) == last.entry;
      } else {
        assert before + [] == before;
      }
    }
  }

  /** The caches that mirror a store are the ones that `hydrate` would build from it. */
  lemma MirrorsIffHydrated(cache: Cache, store: Store, subjectType: string)
    requires StoreOk(store)
    ensures Mirrors(cache, store, subjectType) <==> cache == Hydrated(Loaded(store.order, store.items, subjectType))
  {
    hide Hydrated, Loaded;
    HydrateBuilds(store.order, store.items, subjectType);
    var h := Hydrated(Loaded(store.order, store.items, subjectType));
    if Mirrors(cache, store, subjectType) {
      assert cache.items == h.items;
    }
  }

  // ----- Two stores -----

  /** The fields that `SqlRegistryStore.save` leaves as they are in an existing row. */
  predicate SameDefinition(a: Entry, b: Entry) {
    && RecordOf(a) == RecordOf(b) && a.organizationId == b.organizationId && a.payload == b.payload
    && a.digest == b.digest && a.createdBy == b.createdBy && a.createdAt == b.createdAt
  }

  /** A partial save does what an overwriting save does exactly when no row has the key, or the
      row agrees with the entry in all that is not assigned. */
  lemma PartialSaveIsEnoughIff(rows: map<RecordKey, Entry>, e: Entry)
    requires forall k :: k in rows ==> RecordOf(rows[k]) == k
    ensures PartialSave(rows, e) == rows[RecordOf(e) := e] <==>
            RecordOf(e) !in rows || SameDefinition(rows[RecordOf(e)], e)
  {
    var key := RecordOf(e);
    assert PartialSave(rows, e)[key] == e ==> PartialSave(rows, e) == rows[key := e];
    assert rows[key := e][key] == e;
  }

  // ----- Runs -----

  ghost predicate WorldOk(w: World) {
    && StoreOk(w.store)
    && w.rows == w.store.items
    && forall t :: t in w.caches ==> Mirrors(w.caches[t], w.store, t)
  }

  /** An entry that a call saves is new, or a stored entry that moved one step on. */
  ghost predicate ProperSave(store: Store, subjectType: string, e: Entry) {
    && e.subjectType == subjectType && e.digest == Sha256(e.payload)
    && (RecordOf(e) in store.items ==>
          SameDefinition(store.items[RecordOf(e)], e) && Next(store.items[RecordOf(e)].state) == Some(e.state))
    && (RecordOf(e) !in store.items ==> e.state == Draft)
  }

  function Next(s: RegistryState): Option<RegistryState> {
    match s
    case Draft => Some(Approved)
    case Approved => Some(Active)
    case Active => Some(Suspended)
    case _ => None
  }

  lemma SavesAreProper(cache: Cache, store: Store, subjectType: string, accepts: Accepts, c: Call, now: int)
    requires StoreOk(store) && Mirrors(cache, store, subjectType)
    requires AttemptOf(subjectType, accepts, cache, c, now).Save?
    ensures ProperSave(store, subjectType, AttemptOf(subjectType, accepts, cache, c, now).entry)
  {
    hide TypeKeys;
    if !c.Register? {
      assert c.key in cache.items;
      assert RecordKey(subjectType, c.key) in store.items;
    }
  }

  lemma {:induction false} TypeKeysMore(order: seq<RecordKey>, k: RecordKey, subjectType: string)
    ensures TypeKeys(order + [k], subjectType) ==
            TypeKeys(order, subjectType) + (if k.subjectType == subjectType then [k.entry] else [])
  {
    assert (order + [k])[..|order|] == order;
  }

  lemma SaveKeepsMirror(cache: Cache, store: Store, e: Entry, subjectType: string)
    requires Mirrors(cache, store, subjectType)
    ensures Mirrors(if e.subjectType == subjectType then cache.Put(KeyOf(e), e)
                    else cache, Overwrite(store, e), subjectType)
  {
    hide TypeKeys;
    TypeKeysMore(store.order, RecordOf(e), subjectType);
  }

  lemma {:induction false} TypeKeysAreDistinct(order: seq<RecordKey>, subjectType: string)
    requires forall i, j :: 0 <= i < j < |order| ==> order[i] != order[j]
    ensures forall k :: k in TypeKeys(order, subjectType) <==> RecordKey(subjectType, k) in order
    ensures forall i, j :: 0 <= i < j < |TypeKeys(order, subjectType)| ==>
                             TypeKeys(order, subjectType)[i] != TypeKeys(order, subjectType)[j]
  {
    if order != [] {
      var front, last := order[..|order| - 1], order[|order| - 1];
      TypeKeysAreDistinct(front, subjectType);
      assert forall k :: k in order <==> k in front || k == last;
      assert last !in front;
    }
  }

  lemma MirrorIsValid(cache: Cache, store: Store, subjectType: string)
    requires StoreOk(store) && Mirrors(cache, store, subjectType)
    ensures cache.Valid()
  {
    TypeKeysAreDistinct(store.order, subjectType);
  }

  lemma SaveKeepsStore(store: Store, e: Entry)
    requires StoreOk(store) && e.digest == Sha256(e.payload)
    ensures StoreOk(Overwrite(store, e))
  {
  }

  /** A call keeps every cache a mirror of the store and the SQL rows equal to the overwriting
      store's entries; caches of other subject types are not touched. */
  lemma StepKeepsWorld(w: World, accepts: Accepts, op: Op)
    requires WorldOk(w) && op.subjectType in w.caches
    ensures WorldOk(Apply(w, accepts, op).world)
    ensures forall t :: t in w.caches && t != op.subjectType ==> Apply(w, accepts, op).world.caches[t] == w.caches[t]
  {
    hide Mirrors, AttemptOf, Overwrite, PartialSave, Hydrated, Loaded;
    var t := op.subjectType;
    match op
    case HydrateOp(_) =>
      MirrorsIffHydrated(w.caches[t], w.store, t);
      assert w.caches[t := w.caches[t]] == w.caches;
    case CallOp(_, call, saves, now) =>
      var attempt := AttemptOf(t, accepts, w.caches[t], call, now);
      if attempt.Save? && saves {
        var e := attempt.entry;
        SavesAreProper(w.caches[t], w.store, t, accepts, call, now);
        SaveKeepsStore(w.store, e);
        SaveIsPartial(w, e);
        forall u | u in w.caches ensures Mirrors(Saved(w, t, e).caches[u], Overwrite(w.store, e), u) {
          SaveKeepsMirror(w.caches[u], w.store, e, u);
        }
      }
  }

  lemma SaveIsPartial(w: World, e: Entry)
    requires WorldOk(w) && ProperSave(w.store, e.subjectType, e)
    ensures PartialSave(w.rows, e) == Overwrite(w.store, e).items
  {
    hide Mirrors;
    PartialSaveIsEnoughIff(w.rows, e);
  }

  /** Starting hydrated, in every run, with any saves failing: each cache holds exactly the
      store's entries of its subject type in the store's order, and the SQL store holds the same
      entries as the overwriting one. */
  lemma {:induction false} EveryRunMirrorsTheStore(w: World, accepts: Accepts, ops: seq<Op>)
    requires WorldOk(w) && forall k :: 0 <= k < |ops| ==> ops[k].subjectType in w.caches
    ensures WorldOk(ApplyAll(w, accepts, ops))
  {
    hide Mirrors, RecordOf, Apply;
    if ops != [] {
      EveryRunMirrorsTheStore(w, accepts, ops[..|ops| - 1]);
      var v := ApplyAll(w, accepts, ops[..|ops| - 1]);
      StepKeepsWorld(v, accepts, ops[|ops| - 1]);
    }
  }

  /** So a restart changes nothing: `hydrate` gives back the cache that is there. */
  lemma HydrateIsIdentity(w: World, accepts: Accepts, ops: seq<Op>, subjectType: string)
    requires WorldOk(w) && subjectType in w.caches && forall k :: 0 <= k < |ops| ==> ops[k].subjectType in w.caches
    ensures Apply(ApplyAll(w, accepts, ops), accepts, HydrateOp(subjectType)).world == ApplyAll(w, accepts, ops)
  {
    hide Mirrors, Hydrated, Loaded, ApplyAll;
    EveryRunMirrorsTheStore(w, accepts, ops);
    var v := ApplyAll(w, accepts, ops);
    MirrorsIffHydrated(v.caches[subjectType], v.store, subjectType);
    assert v.caches[subjectType := v.caches[subjectType]] == v.caches;
  }

  // ----- Two registries on one store -----

  /** The part of a run that one registry made. */
  function OwnOps(ops: seq<Op>, subjectType: string): (own: seq<Op>)
    ensures forall k :: 0 <= k < |own| ==> own[k].subjectType == subjectType
  {
    if ops == [] then []
    else
      OwnOps(ops[..|ops| - 1], subjectType)
      + (if ops[|ops| - 1].subjectType == subjectType then [ops[|ops| - 1]] else [])
  }

  /** A registry's cache is that of the run of its own calls alone. */
  lemma {:induction false} RegistriesDoNotInterfere(w: World, accepts: Accepts, ops: seq<Op>, subjectType: string)
    requires WorldOk(w) && subjectType in w.caches && forall k :: 0 <= k < |ops| ==> ops[k].subjectType in w.caches
    ensures ApplyAll(w, accepts, ops).caches[subjectType]
            == ApplyAll(w, accepts, OwnOps(ops, subjectType)).caches[subjectType]
  {
    hide Mirrors, RecordOf, Apply, AttemptOf, Hydrated, Loaded;
    var own := OwnOps(ops, subjectType);
    if ops != [] {
      var front, op := ops[..|ops| - 1], ops[|ops| - 1];
      RegistriesDoNotInterfere(w, accepts, front, subjectType);
      EveryRunMirrorsTheStore(w, accepts, front);
      var v := ApplyAll(w, accepts, front);
      if op.subjectType == subjectType {
        var ownFront := OwnOps(front, subjectType);
        assert own[..|own| - 1] == ownFront && own[|own| - 1] == op;
        EveryRunMirrorsTheStore(w, accepts, ownFront);
        SameCacheSameStep(v, ApplyAll(w, accepts, ownFront), accepts, op);
      } else {
        assert own == OwnOps(front, subjectType);
        StepKeepsWorld(v, accepts, op);
      }
    }
  }

  lemma SameCacheSameStep(v: World, u: World, accepts: Accepts, op: Op)
    requires WorldOk(v) && WorldOk(u) && op.subjectType in v.caches && op.subjectType in u.caches
    requires v.caches[op.subjectType] == u.caches[op.subjectType]
    ensures Apply(v, accepts, op).reply == Apply(u, accepts, op).reply
    ensures Apply(v, accepts, op).world.caches[op.subjectType] == Apply(u, accepts, op).world.caches[op.subjectType]
  {
    hide Mirrors, AttemptOf, Hydrated, Loaded;
    MirrorsIffHydrated(v.caches[op.subjectType], v.store, op.subjectType);
    MirrorsIffHydrated(u.caches[op.subjectType], u.store, op.subjectType);
  }

  /** A registry behaves as if it had the store to itself: whatever it is asked after a run, it
      answers as it would after its own calls alone. */
  lemma AnswersDoNotInterfere(w: World, accepts: Accepts, ops: seq<Op>, op: Op)
    requires WorldOk(w) && op.subjectType in w.caches && forall k :: 0 <= k < |ops| ==> ops[k].subjectType in w.caches
    ensures Apply(ApplyAll(w, accepts, ops), accepts, op).reply
            == Apply(ApplyAll(w, accepts, OwnOps(ops, op.subjectType)), accepts, op).reply
  {
    hide Mirrors, RecordOf, Apply, ApplyAll, OwnOps;
    RegistriesDoNotInterfere(w, accepts, ops, op.subjectType);
    EveryRunMirrorsTheStore(w, accepts, ops);
    EveryRunMirrorsTheStore(w, accepts, OwnOps(ops, op.subjectType));
    SameCacheSameStep(ApplyAll(w, accepts, ops), ApplyAll(w, accepts, OwnOps(ops, op.subjectType)), accepts, op);
  }

  // ----- Entries are immutable, and their lifecycle goes one way -----

  function Rank(s: RegistryState): nat {
    match s
    case Draft => 0
    case Approved => 1
    case Active => 2
    case Suspended => 3
    case Retired => 4
  }

  predicate Later(a: Entry, b: Entry) {
    SameDefinition(a, b) && Rank(a.state) <= Rank(b.state)
  }

  lemma StepKeepsDefinitions(w: World, accepts: Accepts, op: Op, k: RecordKey)
    requires WorldOk(w) && op.subjectType in w.caches && k in w.store.items
    ensures k in Apply(w, accepts, op).world.store.items
    ensures Later(w.store.items[k], Apply(w, accepts, op).world.store.items[k])
  {
    hide Mirrors, AttemptOf, Hydrated, Loaded;
    if op.CallOp? {
      var attempt := AttemptOf(op.subjectType, accepts, w.caches[op.subjectType], op.call, op.now);
      if attempt.Save? {
        SavesAreProper(w.caches[op.subjectType], w.store, op.subjectType, accepts, op.call, op.now);
      }
    }
  }

  /** A registered version keeps its payload, digest, organization, author and date in every run,
      whatever is registered after it, and only moves forward. */
  lemma {:induction false} DefinitionsAreImmutable(w: World, accepts: Accepts, ops: seq<Op>, k: RecordKey)
    requires WorldOk(w) && k in w.store.items && forall i :: 0 <= i < |ops| ==> ops[i].subjectType in w.caches
    ensures k in ApplyAll(w, accepts, ops).store.items
    ensures Later(w.store.items[k], ApplyAll(w, accepts, ops).store.items[k])
  {
    hide Apply, Mirrors, RecordOf;
    if ops != [] {
      var front := ops[..|ops| - 1];
      DefinitionsAreImmutable(w, accepts, front, k);
      EveryRunMirrorsTheStore(w, accepts, front);
      StepKeepsDefinitions(ApplyAll(w, accepts, front), accepts, ops[|ops| - 1], k);
    }
  }

  /** A version that was registered once is taken for good: after any run, its own payload is
      answered with the stored entry and any other is a conflict, and neither changes anything. */
  lemma VersionIsTaken(w: World, accepts: Accepts, ops: seq<Op>, k: RecordKey, c: Call, saves: bool, now: int)
    requires WorldOk(w) && k in w.store.items && forall i :: 0 <= i < |ops| ==> ops[i].subjectType in w.caches
    requires k.subjectType in w.caches && c.Register? && accepts(k.subjectType, c.payload)
    requires MatchesContext(c.payload, c.tenantId, c.organizationId, c.workspaceId)
    requires KeyOf(NewEntry(k.subjectType, c, now)) == k.entry
    ensures var v := ApplyAll(w, accepts, ops);
            var after := Apply(v, accepts, CallOp(k.subjectType, c, saves, now));
            && k in v.store.items && after.world == v
            && after.reply == (if c.payload == w.store.items[k].payload then Ok(Some(v.store.items[k]))
                               else Err(Conflict))
  {
    hide TypeKeys, Apply, ApplyAll, MatchesContext;
    DefinitionsAreImmutable(w, accepts, ops, k);
    EveryRunMirrorsTheStore(w, accepts, ops);
    TakenNow(ApplyAll(w, accepts, ops), accepts, k, c, saves, now);
  }

  lemma TakenNow(v: World, accepts: Accepts, k: RecordKey, c: Call, saves: bool, now: int)
    requires WorldOk(v) && k in v.store.items && k.subjectType in v.caches
    requires c.Register? && accepts(k.subjectType, c.payload)
    requires MatchesContext(c.payload, c.tenantId, c.organizationId, c.workspaceId)
    requires KeyOf(NewEntry(k.subjectType, c, now)) == k.entry
    ensures var after := Apply(v, accepts, CallOp(k.subjectType, c, saves, now));
            && after.world == v
            && after.reply == (if c.payload == v.store.items[k].payload then Ok(Some(v.store.items[k]))
                               else Err(Conflict))
  {
    hide TypeKeys, MatchesContext;
    assert Mirrors(v.caches[k.subjectType], v.store, k.subjectType);
    assert k == RecordKey(k.subjectType, k.entry);
  }

  // ----- Decision and release ids -----

  /** A draft has no ids yet, and an approved version no release. */
  ghost predicate IdsOk(w: World) {
    forall k :: k in w.store.items ==>
                  && (w.store.items[k].state.Draft? ==> w.store.items[k].decisionId.None?)
                  && (w.store.items[k].state.Draft? || w.store.items[k].state.Approved? ==>
                      w.store.items[k].releaseId.None?)
  }

  predicate KeepsIds(a: Entry, b: Entry) {
    (a.decisionId.Some? ==> b.decisionId == a.decisionId) && (a.releaseId.Some? ==> b.releaseId == a.releaseId)
  }

  /** What a saved entry does to the ids of the one that it replaces. */
  lemma SavedIds(w: World, subjectType: string, accepts: Accepts, c: Call, now: int)
    requires WorldOk(w) && IdsOk(w) && subjectType in w.caches
    requires AttemptOf(subjectType, accepts, w.caches[subjectType], c, now).Save?
    ensures var e := AttemptOf(subjectType, accepts, w.caches[subjectType], c, now).entry;
            && (e.state.Draft? ==> e.decisionId.None?)
            && (e.state.Draft? || e.state.Approved? ==> e.releaseId.None?)
            && (RecordOf(e) in w.store.items ==> KeepsIds(w.store.items[RecordOf(e)], e))
            && (c.Approve? && c.decisionId != "" ==> e.decisionId == Some(c.decisionId))
            && (c.Activate? && c.releaseId != "" ==> e.releaseId == Some(c.releaseId))
  {
    hide TypeKeys;
    assert Mirrors(w.caches[subjectType], w.store, subjectType);
    if !c.Register? {
      assert c.key in w.caches[subjectType].items;
      assert RecordKey(subjectType, c.key) in w.store.items;
    }
  }

  lemma StepKeepsIds(w: World, accepts: Accepts, op: Op)
    requires WorldOk(w) && IdsOk(w) && op.subjectType in w.caches
    ensures IdsOk(Apply(w, accepts, op).world)
    ensures forall k :: k in w.store.items && k in Apply(w, accepts, op).world.store.items ==>
                          KeepsIds(w.store.items[k], Apply(w, accepts, op).world.store.items[k])
  {
    hide WorldOk, AttemptOf, Hydrated, Loaded;
    if op.CallOp? && AttemptOf(op.subjectType, accepts, w.caches[op.subjectType], op.call, op.now).Save? {
      SavedIds(w, op.subjectType, accepts, op.call, op.now);
    }
  }

  /** The decision that approved a version and the release that activated it are set once: no later
      call of any run replaces or drops them. */
  lemma {:induction false} IdsAreSetOnce(w: World, accepts: Accepts, ops: seq<Op>, k: RecordKey)
    requires WorldOk(w) && IdsOk(w) && k in w.store.items
    requires forall i :: 0 <= i < |ops| ==> ops[i].subjectType in w.caches
    ensures IdsOk(ApplyAll(w, accepts, ops)) && k in ApplyAll(w, accepts, ops).store.items
    ensures KeepsIds(w.store.items[k], ApplyAll(w, accepts, ops).store.items[k])
  {
    hide Apply, Mirrors, RecordOf, IdsOk;
    if ops != [] {
      var front := ops[..|ops| - 1];
      IdsAreSetOnce(w, accepts, front, k);
      EveryRunMirrorsTheStore(w, accepts, front);
      StepKeepsIds(ApplyAll(w, accepts, front), accepts, ops[|ops| - 1]);
      StepKeepsDefinitions(ApplyAll(w, accepts, front), accepts, ops[|ops| - 1], k);
    }
  }

  // ----- Why "starting hydrated" is needed, exactly -----

  /** The store's definitions came from `register`: the schema accepts them, under their keys and in
      their contexts. */
  ghost predicate Registered(store: Store, subjectType: string, accepts: Accepts) {
    forall k :: k in store.items && k.subjectType == subjectType ==> ComesFromRegister(store.items[k], accepts)
  }

  predicate ComesFromRegister(e: Entry, accepts: Accepts) {
    && accepts(e.subjectType, e.payload) && e.payload.subjectId == e.subjectId && e.payload.version == e.version
    && MatchesContext(e.payload, e.tenantId, e.organizationId, e.workspaceId)
  }

  lemma StepKeepsRegistered(w: World, accepts: Accepts, op: Op, subjectType: string)
    requires WorldOk(w) && op.subjectType in w.caches && Registered(w.store, subjectType, accepts)
    ensures Registered(Apply(w, accepts, op).world.store, subjectType, accepts)
  {
    hide Mirrors, Hydrated, Loaded, MatchesContext, AttemptOf;
    if op.CallOp? && AttemptOf(op.subjectType, accepts, w.caches[op.subjectType], op.call, op.now).Save? {
      SavedComesFromRegister(w, accepts, op, subjectType);
    }
  }

  lemma SavedComesFromRegister(w: World, accepts: Accepts, op: Op, subjectType: string)
    requires WorldOk(w) && op.CallOp? && op.subjectType in w.caches && Registered(w.store, subjectType, accepts)
    requires AttemptOf(op.subjectType, accepts, w.caches[op.subjectType], op.call, op.now).Save?
    ensures var e := AttemptOf(op.subjectType, accepts, w.caches[op.subjectType], op.call, op.now).entry;
            e.subjectType == subjectType ==> ComesFromRegister(e, accepts)
  {
    hide TypeKeys, MatchesContext;
    assert Mirrors(w.caches[op.subjectType], w.store, op.subjectType);
    if !op.call.Register? {
      assert op.call.key in w.caches[op.subjectType].items;
      assert RecordKey(op.subjectType, op.call.key) in w.store.items;
    }
  }

  /** In every run the definitions of the store come from `register`. */
  lemma {:induction false} DefinitionsComeFromRegister(w: World, accepts: Accepts, ops: seq<Op>, subjectType: string)
    requires WorldOk(w) && Registered(w.store, subjectType, accepts)
    requires forall k :: 0 <= k < |ops| ==> ops[k].subjectType in w.caches
    ensures Registered(ApplyAll(w, accepts, ops).store, subjectType, accepts)
  {
    hide Apply, Mirrors, RecordOf, Registered;
    if ops != [] {
      var front := ops[..|ops| - 1];
      DefinitionsComeFromRegister(w, accepts, front, subjectType);
      EveryRunMirrorsTheStore(w, accepts, front);
      StepKeepsRegistered(ApplyAll(w, accepts, front), accepts, ops[|ops| - 1], subjectType);
    }
  }

  /** A save that replaces a stored definition by another. */
  predicate Clobbers(store: Store, e: Entry) {
    RecordOf(e) in store.items && !SameDefinition(store.items[RecordOf(e)], e)
  }

  ghost predicate NeverClobbers(cache: Cache, store: Store, subjectType: string, accepts: Accepts) {
    forall c: Call, now: int :: c.Register? && AttemptOf(subjectType, accepts, cache, c, now).Save? ==>
      !Clobbers(store, AttemptOf(subjectType, accepts, cache, c, now).entry)
  }

  ghost predicate AllCached(cache: Cache, store: Store, subjectType: string) {
    forall k :: k in store.items && k.subjectType == subjectType ==> k.entry in cache.items
  }

  /** For any cache over a sound store: no `register` ever replaces a stored definition if and only if
      every stored version of the subject type is in the cache. */
  lemma NeverClobbersIffAllCached(cache: Cache, store: Store, subjectType: string, accepts: Accepts)
    requires StoreOk(store) && Registered(store, subjectType, accepts)
    ensures NeverClobbers(cache, store, subjectType, accepts) <==> AllCached(cache, store, subjectType)
  {
    hide MatchesContext;
    if AllCached(cache, store, subjectType) {
      forall c: Call, now: int | c.Register? && AttemptOf(subjectType, accepts, cache, c, now).Save?
        ensures !Clobbers(store, AttemptOf(subjectType, accepts, cache, c, now).entry)
      {
        var e := AttemptOf(subjectType, accepts, cache, c, now).entry;
        assert RecordOf(e) == RecordKey(subjectType, KeyOf(e));
      }
    } else {
      var k :| k in store.items && k.subjectType == subjectType && k.entry !in cache.items;
      var e := store.items[k];
      var c := Register(e.payload, e.tenantId, e.organizationId, e.workspaceId, e.createdBy, e.correlationId);
      assert ComesFromRegister(e, accepts) && RecordOf(e) == k;
      assert AttemptOf(subjectType, accepts, cache, c, e.createdAt + 1)
          == Save(NewEntry(subjectType, c, e.createdAt + 1));
      assert Clobbers(store, NewEntry(subjectType, c, e.createdAt + 1));
    }
  }

  /** What happens to a stored version that is not cached: any payload that the schema accepts for it is
      saved; the overwriting store then holds the new payload and the SQL store the old one. */
  lemma UncachedVersionIsOverwritten(w: World, accepts: Accepts, subjectType: string, c: Call, now: int)
    requires StoreOk(w.store) && w.rows == w.store.items && subjectType in w.caches
    requires c.Register? && accepts(subjectType, c.payload)
    requires MatchesContext(c.payload, c.tenantId, c.organizationId, c.workspaceId)
    requires RecordOf(NewEntry(subjectType, c, now)) in w.store.items
    requires KeyOf(NewEntry(subjectType, c, now)) !in w.caches[subjectType].items
    ensures var k := RecordOf(NewEntry(subjectType, c, now));
            var after := Apply(w, accepts, CallOp(subjectType, c, true, now));
            && after.reply.Ok? && k in after.world.store.items && k in after.world.rows
            && after.world.store.items[k].payload == c.payload
            && after.world.rows[k].payload == w.store.items[k].payload
            && (after.world.rows == after.world.store.items
                <==> SameDefinition(w.store.items[k], NewEntry(subjectType, c, now)))
  {
    hide MatchesContext;
    var e := NewEntry(subjectType, c, now);
    PartialSaveIsEnoughIff(w.rows, e);
  }

  // ----- The gap in `hydrate` -----

  predicate Saves(w: World, accepts: Accepts, op: Op, subjectType: string) {
    && op.CallOp? && op.subjectType == subjectType && op.saves && subjectType in w.caches
    && AttemptOf(subjectType, accepts, w.caches[subjectType], op.call, op.now).Save?
  }

  /** Some operation of the run saves an entry of the type. */
  predicate SavesAny(w: World, accepts: Accepts, ops: seq<Op>, subjectType: string)
    requires w.store.Valid() && forall k :: 0 <= k < |ops| ==> ops[k].subjectType in w.caches
  {
    ops != [] && (|| SavesAny(w, accepts, ops[..|ops| - 1], subjectType)
                  || Saves(ApplyAll(w, accepts, ops[..|ops| - 1]), accepts, ops[|ops| - 1], subjectType))
  }

  /** The second store has a version of the type that the first has not, or has further on. */
  ghost predicate Advanced(before: Store, after: Store, subjectType: string) {
    exists k :: k in after.items && k.subjectType == subjectType
                && (k in before.items ==> Rank(before.items[k].state) < Rank(after.items[k].state))
  }

  lemma AdvancedIsNotMirrored(cache: Cache, before: Store, after: Store, subjectType: string)
    requires Mirrors(cache, before, subjectType) && Advanced(before, after, subjectType)
    ensures !Mirrors(cache, after, subjectType)
  {
    hide TypeKeys;
    var k :| k in after.items && k.subjectType == subjectType
             && (k in before.items ==> Rank(before.items[k].state) < Rank(after.items[k].state));
    assert k == RecordKey(subjectType, k.entry);
  }

  lemma StepAdvances(w: World, v: World, accepts: Accepts, op: Op, subjectType: string)
    requires WorldOk(v) && op.subjectType in v.caches
    requires forall k :: k in w.store.items ==> k in v.store.items && Later(w.store.items[k], v.store.items[k])
    requires Advanced(w.store, v.store, subjectType) || Saves(v, accepts, op, subjectType)
    ensures Advanced(w.store, Apply(v, accepts, op).world.store, subjectType)
  {
    hide Mirrors, AttemptOf, Hydrated, Loaded;
    if Saves(v, accepts, op, subjectType) {
      SavesAreProper(v.caches[subjectType], v.store, subjectType, accepts, op.call, op.now);
      var e := AttemptOf(subjectType, accepts, v.caches[subjectType], op.call, op.now).entry;
      assert RecordOf(e) in Apply(v, accepts, op).world.store.items;
    } else {
      var k :| k in v.store.items && k.subjectType == subjectType
               && (k in w.store.items ==> Rank(w.store.items[k].state) < Rank(v.store.items[k].state));
      StepKeepsDefinitions(v, accepts, op, k);
    }
  }

  lemma StepWithoutSave(v: World, accepts: Accepts, op: Op, subjectType: string)
    requires WorldOk(v) && op.subjectType in v.caches && subjectType in v.caches && !Saves(v, accepts, op, subjectType)
    ensures Apply(v, accepts, op).world.caches[subjectType] == v.caches[subjectType]
  {
    hide Mirrors, AttemptOf, Hydrated, Loaded;
    if op.subjectType != subjectType {
      StepKeepsWorld(v, accepts, op);
    } else if op.HydrateOp? {
      MirrorsIffHydrated(v.caches[subjectType], v.store, subjectType);
    }
  }

  lemma {:induction false} RunAdvancesIffItSaves(w: World, accepts: Accepts, ops: seq<Op>, subjectType: string)
    requires WorldOk(w) && subjectType in w.caches && forall k :: 0 <= k < |ops| ==> ops[k].subjectType in w.caches
    ensures SavesAny(w, accepts, ops, subjectType) ==> Advanced(w.store, ApplyAll(w, accepts, ops).store, subjectType)
    ensures !SavesAny(w, accepts, ops, subjectType) ==>
            ApplyAll(w, accepts, ops).caches[subjectType] == w.caches[subjectType]
  {
    hide Apply, Mirrors, RecordOf, Advanced, Saves;
    if ops != [] {
      var front, op := ops[..|ops| - 1], ops[|ops| - 1];
      RunAdvancesIffItSaves(w, accepts, front, subjectType);
      EveryRunMirrorsTheStore(w, accepts, front);
      var v := ApplyAll(w, accepts, front);
      if SavesAny(w, accepts, ops, subjectType) {
        forall k | k in w.store.items ensures k in v.store.items && Later(w.store.items[k], v.store.items[k]) {
          DefinitionsAreImmutable(w, accepts, front, k);
        }
        StepAdvances(w, v, accepts, op, subjectType);
      } else {
        StepWithoutSave(v, accepts, op, subjectType);
      }
    }
  }

  /** `hydrate` reads the store before it takes the lock. Whatever runs between the reading and the
      installing, the installed cache mirrors the store if and only if no entry of the type was saved. */
  lemma InstalledMirrorsIffNothingSaved(w: World, accepts: Accepts, ops: seq<Op>, subjectType: string)
    requires WorldOk(w) && subjectType in w.caches && forall k :: 0 <= k < |ops| ==> ops[k].subjectType in w.caches
    ensures Mirrors(Hydrated(Loaded(w.store.order, w.store.items, subjectType)), ApplyAll(w, accepts, ops).store,
                    subjectType)
            <==> !SavesAny(w, accepts, ops, subjectType)
  {
    hide Mirrors, Hydrated, Loaded, SavesAny, ApplyAll, Advanced;
    MirrorsIffHydrated(w.caches[subjectType], w.store, subjectType);
    RunAdvancesIffItSaves(w, accepts, ops, subjectType);
    EveryRunMirrorsTheStore(w, accepts, ops);
    if SavesAny(w, accepts, ops, subjectType) {
      AdvancedIsNotMirrored(w.caches[subjectType], w.store, ApplyAll(w, accepts, ops).store, subjectType);
    }
  }
}
