/** Two assignments followed through: one whose draft goes on to run, and one that is answered with
    a version which another organization registered. */
module AssignmentWitness {
  import opened Prelude
  import opened Identity
  import opened RegistryModel
  import opened RegistryRuns
  import opened AuthorityView
  import opened Assignment
  import opened AgentRuns
  import Text

  /** The names that the example is about. */
  datatype Names = Names(tenant: string, workspace: string, own: string, foreign: string, agent: string, skill: string,
                         base: string, next: string, word: string)

  predicate Proper(n: Names) {
    n.own != n.foreign && n.base != n.next && n.next != "" && n.word != "" && !Text.IsBlank(n.word)
  }

  function PayloadOf(n: Names, subjectId: string, version: string, refs: Option<seq<SkillRef>>): Payload {
    Payload(subjectId, version, None, None, None, Some(n.word), None, Some(n.word), refs, None, Some([n.word]),
            None, None, None, "")
  }

  function EntryAt(n: Names, subjectType: string, organization: string, payload: Payload, state: RegistryState): Entry {
    Entry(subjectType, payload.subjectId, payload.version, n.tenant, organization, n.workspace, payload,
          Sha256(payload),
          state, n.word, n.word, 0, None, None)
  }

  function BaseAgent(n: Names): Entry {
    EntryAt(n, AGENT, n.own, PayloadOf(n, n.agent, n.base, None), Active)
  }

  function TheSkill(n: Names): Entry {
    EntryAt(n, SKILL, n.own, PayloadOf(n, n.skill, n.base, None), Active)
  }

  /** Registered beforehand, for the foreign organization, with what the draft will be. */
  function ForeignAgent(n: Names): Entry {
    EntryAt(n, AGENT, n.foreign, PayloadOf(n, n.agent, n.next, Some([SkillRef(n.skill, n.base)])), Draft)
  }

  function Platform(n: Names): World {
    var a, s, f := BaseAgent(n), TheSkill(n), ForeignAgent(n);
    var records := map[RecordOf(a) := a, RecordOf(s) := s, RecordOf(f) := f];
    World(map[AGENT := Dict([KeyOf(a), KeyOf(f)], map[KeyOf(a) := a, KeyOf(f) := f]),
              SKILL := Dict([KeyOf(s)], map[KeyOf(s) := s])],
          Dict([RecordOf(a), RecordOf(s), RecordOf(f)], records), records)
  }

  function Caller(n: Names): Principal {
    Principal(n.word, n.tenant, n.own, n.workspace, {}, {n.word}, true)
  }

  function Attach(n: Names): Request {
    Request(n.agent, n.base, n.skill, n.base, Some(n.next), n.word)
  }

  lemma TypeKeysOfThree(a: RecordKey, s: RecordKey, f: RecordKey, t: string)
    ensures TypeKeys([a, s, f], t)
            == (if a.subjectType == t then [a.entry] else []) + (if s.subjectType == t then [s.entry] else [])
               + (if f.subjectType == t then [f.entry] else [])
  {
    assert [a, s, f][..2] == [a, s] && [a, s][..1] == [a] && [a][..0] == [];
    assert TypeKeys([a], t) == (if a.subjectType == t then [a.entry] else []);
  }

  /** Three records mirror the caches of two agents and one skill. */
  lemma AgentsMirror(cache: Cache, store: Store, a: Entry, s: Entry, f: Entry)
    requires a.subjectType == f.subjectType == AGENT && s.subjectType == SKILL && KeyOf(a) != KeyOf(f) && AGENT != SKILL
    requires cache == Dict([KeyOf(a), KeyOf(f)], map[KeyOf(a) := a, KeyOf(f) := f])
    requires store.order == [RecordOf(a), RecordOf(s), RecordOf(f)]
    requires store.items == map[RecordOf(a) := a, RecordOf(s) := s, RecordOf(f) := f]
    ensures Mirrors(cache, store, AGENT)
  {
    hide TypeKeys;
    TypeKeysOfThree(RecordOf(a), RecordOf(s), RecordOf(f), AGENT);
  }

  lemma SkillsMirror(cache: Cache, store: Store, a: Entry, s: Entry, f: Entry)
    requires a.subjectType == f.subjectType == AGENT && s.subjectType == SKILL && KeyOf(a) != KeyOf(f) && AGENT != SKILL
    requires cache == Dict([KeyOf(s)], map[KeyOf(s) := s])
    requires store.order == [RecordOf(a), RecordOf(s), RecordOf(f)]
    requires store.items == map[RecordOf(a) := a, RecordOf(s) := s, RecordOf(f) := f]
    ensures Mirrors(cache, store, SKILL)
  {
    hide TypeKeys;
    TypeKeysOfThree(RecordOf(a), RecordOf(s), RecordOf(f), SKILL);
  }

  lemma ThreeRecordsAreOk(store: Store, a: Entry, s: Entry, f: Entry)
    requires a.subjectType == f.subjectType == AGENT && s.subjectType == SKILL && KeyOf(a) != KeyOf(f) && AGENT != SKILL
    requires store.order == [RecordOf(a), RecordOf(s), RecordOf(f)]
    requires store.items == map[RecordOf(a) := a, RecordOf(s) := s, RecordOf(f) := f]
    requires a.digest == Sha256(a.payload) && s.digest == Sha256(s.payload) && f.digest == Sha256(f.payload)
    ensures StoreOk(store)
  {
    hide KeyOf;
  }

  lemma PlatformIsOk(n: Names)
    requires Proper(n)
    ensures WorldOk(Platform(n))
  {
    hide Text.IsBlank, Mirrors, StoreOk;
    var w := Platform(n);
    var a, s, f := BaseAgent(n), TheSkill(n), ForeignAgent(n);
    assert AGENT != SKILL by { assert AGENT[0] != SKILL[0]; }
    AgentsMirror(w.caches[AGENT], w.store, a, s, f);
    SkillsMirror(w.caches[SKILL], w.store, a, s, f);
    ThreeRecordsAreOk(w.store, a, s, f);
  }

  lemma SkillFits(n: Names)
    requires Proper(n)
    ensures GetAuthorized(BaseAgent(n), Caller(n)).Ok? && GetAuthorized(TheSkill(n), Caller(n)).Ok?
    ensures Unmet(BaseAgent(n).payload, GetAuthorized(TheSkill(n), Caller(n)).value, SkillRef(n.skill, n.base)).None?
  {
    hide Text.IsBlank;
    assert Members(Some([n.word])) == {n.word};
  }

  /** All checks pass, nothing is registered, and the answer is the foreign organization's
      version, which the caller's own organization's skill does not cover. */
  lemma ForeignVersionIsAnswered(n: Names, accepts: Accepts, now: int)
    requires Proper(n) && accepts(AGENT, ForeignAgent(n).payload)
    ensures var w := Platform(n);
            && WorldOk(w) && Covered(BaseAgent(n), w.store)
            && var s := Assign(w, accepts, Attach(n), Caller(n), true, now);
               && s.reply == Ok(ForeignAgent(n)) && s.world == w && !Covered(ForeignAgent(n), s.world.store)
               && !DraftKeyIsOwn(w.caches[AGENT], Attach(n), Caller(n))
  {
    hide Text.IsBlank, GetAuthorized, Unmet, WorldOk;
    var w := Platform(n);
    PlatformIsOk(n);
    SkillFits(n);
    assert AGENT != SKILL by { assert AGENT[0] != SKILL[0]; }
    var ref := SkillRef(n.skill, n.base);
    assert [] + [ref] == [ref];
    assert ref in Items(ForeignAgent(n).payload.skillRefs);
    assert !CoversRef(ForeignAgent(n), w.store, ref);
  }

  // ----- A draft that goes on to run -----

  function OwnPlatform(n: Names): World {
    var a, s := BaseAgent(n), TheSkill(n);
    var records := map[RecordOf(a) := a, RecordOf(s) := s];
    World(map[AGENT := Dict([KeyOf(a)], map[KeyOf(a) := a]), SKILL := Dict([KeyOf(s)], map[KeyOf(s) := s])],
          Dict([RecordOf(a), RecordOf(s)], records), records)
  }

  lemma TypeKeysOfTwo(a: RecordKey, s: RecordKey, t: string)
    ensures TypeKeys([a, s], t)
            == (if a.subjectType == t then [a.entry] else []) + (if s.subjectType == t then [s.entry] else [])
  {
    assert [a, s][..1] == [a] && [a][..0] == [];
    assert TypeKeys([a], t) == (if a.subjectType == t then [a.entry] else []);
  }

  lemma OwnPlatformIsOk(n: Names)
    requires Proper(n)
    ensures WorldOk(OwnPlatform(n)) && Covered(BaseAgent(n), OwnPlatform(n).store)
  {
    hide Text.IsBlank, TypeKeys;
    var w := OwnPlatform(n);
    var a, s := BaseAgent(n), TheSkill(n);
    assert AGENT != SKILL by { assert AGENT[0] != SKILL[0]; }
    TypeKeysOfTwo(RecordOf(a), RecordOf(s), AGENT);
    TypeKeysOfTwo(RecordOf(a), RecordOf(s), SKILL);
    assert Mirrors(w.caches[AGENT], w.store, AGENT);
    assert Mirrors(w.caches[SKILL], w.store, SKILL);
  }

  function OwnDraft(n: Names): Entry {
    EntryAt(n, AGENT, n.own, PayloadOf(n, n.agent, n.next, Some([SkillRef(n.skill, n.base)])), Draft)
  }

  function Promotion(n: Names): seq<Op> {
    [CallOp(AGENT, Approve(KeyOf(OwnDraft(n)), n.word, "IT", n.word), true, 0),
     CallOp(AGENT, Activate(KeyOf(OwnDraft(n)), n.word, n.word), true, 0)]
  }

  lemma DraftIsAnswered(n: Names, accepts: Accepts)
    requires Proper(n) && accepts(AGENT, OwnDraft(n).payload)
    ensures var w := OwnPlatform(n);
            && w.store.Valid()
            && Assign(w, accepts, Attach(n), Caller(n), true, 0)
               == Assigned(Saved(w, AGENT, OwnDraft(n)), Ok(OwnDraft(n)))
  {
    hide Text.IsBlank, GetAuthorized, Unmet;
    SkillFits(n);
    assert AGENT != SKILL by { assert AGENT[0] != SKILL[0]; }
    var ref := SkillRef(n.skill, n.base);
    assert [] + [ref] == [ref];
  }

  /** A saved transition of an agent shows in the cache. */
  lemma TransitionShows(w: World, accepts: Accepts, op: Op, key: EntryKey)
    requires WorldOk(w) && AGENT in w.caches && key in w.caches[AGENT].items
    requires op.CallOp? && op.subjectType == AGENT && op.saves
    requires op.call.Approve? || op.call.Activate?
    requires op.call.key == key
    requires op.call.Approve? ==> IsAuthority(op.call.authority) && w.caches[AGENT].items[key].state.Draft?
    requires op.call.Activate? ==> w.caches[AGENT].items[key].state.Approved?
    ensures var after := Apply(w, accepts, op).world;
            && AGENT in after.caches && key in after.caches[AGENT].items
            && after.caches[AGENT].items[key].state == (if op.call.Approve? then Approved else Active)
  {
    hide TypeKeys;
    assert Mirrors(w.caches[AGENT], w.store, AGENT);
    assert RecordKey(AGENT, key) in w.store.items;
  }

  lemma TwoOps(w: World, accepts: Accepts, a: Op, b: Op)
    requires w.store.Valid() && a.subjectType in w.caches && b.subjectType in w.caches
    requires WorldOk(w)
    ensures var v := Apply(w, accepts, a).world;
            && v.store.Valid() && b.subjectType in v.caches
            && ApplyAll(w, accepts, [a, b]) == Apply(v, accepts, b).world
  {
    hide Apply, WorldOk;
    assert [a][..0] == [] && [a, b][..1] == [a];
    assert ApplyAll(w, accepts, [a]) == Apply(w, accepts, a).world;
    ApplyKeepsShape(w, accepts, a);
  }

  /** The caches after approval and activation. */
  lemma PromotedCaches(s: World, accepts: Accepts, key: EntryKey, a: Op, b: Op)
    requires WorldOk(s) && AGENT in s.caches && SKILL in s.caches && AGENT != SKILL
    requires key in s.caches[AGENT].items && s.caches[AGENT].items[key].state.Draft?
    requires a.CallOp? && a.subjectType == AGENT && a.saves && a.call.Approve? && a.call.key == key
    requires IsAuthority(a.call.authority)
    requires b.CallOp? && b.subjectType == AGENT && b.saves && b.call.Activate? && b.call.key == key
    ensures s.store.Valid()
    ensures var v := ApplyAll(s, accepts, [a, b]);
            && WorldOk(v) && AGENT in v.caches && SKILL in v.caches && v.caches[SKILL] == s.caches[SKILL]
            && key in v.caches[AGENT].items && v.caches[AGENT].items[key].state.Active?
  {
    hide WorldOk, Apply, ApplyAll, IsAuthority;
    ValidStore(s);
    TwoOps(s, accepts, a, b);
    TransitionShows(s, accepts, a, key);
    StepKeepsWorld(s, accepts, a);
    var m := Apply(s, accepts, a).world;
    ApplyKeepsShape(s, accepts, a);
    TransitionShows(m, accepts, b, key);
    StepKeepsWorld(m, accepts, b);
    ApplyKeepsShape(m, accepts, b);
  }

  lemma DraftAndSkillCached(n: Names)
    requires Proper(n)
    ensures var s := Saved(OwnPlatform(n), AGENT, OwnDraft(n));
            && s.caches.Keys == {AGENT, SKILL} && AGENT != SKILL && RecordOf(OwnDraft(n)) in s.store.items
            && s.store.items[RecordOf(OwnDraft(n))] == OwnDraft(n)
            && KeyOf(OwnDraft(n)) in s.caches[AGENT].items && s.caches[AGENT].items[KeyOf(OwnDraft(n))] == OwnDraft(n)
            && KeyOf(TheSkill(n)) in s.caches[SKILL].items && s.caches[SKILL].items[KeyOf(TheSkill(n))] == TheSkill(n)
  {
    hide Text.IsBlank;
    assert AGENT != SKILL by { assert AGENT[0] != SKILL[0]; }
  }

  lemma PromotedState(s: World, accepts: Accepts, draft: Entry, skill: Entry, ref: SkillRef, a: Op, b: Op)
    requires WorldOk(s) && AGENT in s.caches && SKILL in s.caches && AGENT != SKILL
    requires KeyOf(draft) in s.caches[AGENT].items && s.caches[AGENT].items[KeyOf(draft)] == draft
    requires KeyOf(skill) in s.caches[SKILL].items && s.caches[SKILL].items[KeyOf(skill)] == skill
    requires draft.state.Draft? && draft.subjectType == AGENT && skill.state.Active? && skill.subjectType == SKILL
    requires Items(draft.payload.skillRefs) == [ref] && SkillKey(draft, ref) == RecordOf(skill)
    requires a.CallOp? && a.subjectType == AGENT && a.saves && a.call.Approve? && a.call.key == KeyOf(draft)
    requires IsAuthority(a.call.authority)
    requires b.CallOp? && b.subjectType == AGENT && b.saves && b.call.Activate? && b.call.key == KeyOf(draft)
    ensures s.store.Valid()
    ensures var v := ApplyAll(s, accepts, [a, b]);
            && RecordOf(draft) in v.store.items && v.store.items[RecordOf(draft)].state.Active?
            && SkillsActive(v.store.items[RecordOf(draft)], v.store)
  {
    hide WorldOk, ApplyAll, IsAuthority, KeyOf;
    ValidStore(s);
    PromotedCaches(s, accepts, KeyOf(draft), a, b);
    var v := ApplyAll(s, accepts, [a, b]);
    CachedIsStored(s, AGENT, KeyOf(draft));
    CachedIsStored(v, AGENT, KeyOf(draft));
    CachedIsStored(v, SKILL, KeyOf(skill));
    DefinitionsAreImmutable(s, accepts, [a, b], RecordOf(draft));
    SameSkillKey(draft, v.store.items[RecordOf(draft)], ref);
  }

  lemma SameSkillKey(a: Entry, b: Entry, ref: SkillRef)
    requires RecordOf(a) == RecordOf(b)
    ensures SkillKey(a, ref) == SkillKey(b, ref)
  {
  }

  lemma CachedIsStored(w: World, subjectType: string, key: EntryKey)
    requires WorldOk(w) && subjectType in w.caches && key in w.caches[subjectType].items
    ensures RecordKey(subjectType, key) in w.store.items
    ensures w.store.items[RecordKey(subjectType, key)] == w.caches[subjectType].items[key]
  {
    hide TypeKeys;
    assert Mirrors(w.caches[subjectType], w.store, subjectType);
  }

  /** Attach the skill, approve and activate the draft: the draft and its skill are then ACTIVE, which is
      what `AssignmentImpliesAuthorization` asks for, so every fitting request is admitted. */
  lemma DraftGoesOnToRun(n: Names, accepts: Accepts, acceptsRun: RunRequest -> bool, r: RunRequest)
    requires Proper(n) && accepts(AGENT, OwnDraft(n).payload) && acceptsRun(r)
    ensures var s := Assign(OwnPlatform(n), accepts, Attach(n), Caller(n), true, 0);
            && s.reply == Ok(OwnDraft(n)) && s.world.store.Valid() && s.world.caches.Keys == {AGENT, SKILL}
            && var v := ApplyAll(s.world, accepts, Promotion(n));
               && RecordOf(OwnDraft(n)) in v.store.items
               && var agent := v.store.items[RecordOf(OwnDraft(n))];
                  && agent.state.Active? && SkillsActive(agent, v.store)
                  && (Fits(r, agent) ==> Admit(acceptsRun, Some(v.caches[SKILL]), r, agent, false)
                                         == Ok(SortedSet([SkillRef(n.skill, n.base)])))
  {
    hide Proper, WorldOk, ApplyAll, Assign, Covered, Fits, Admit, SortedSet, SkillsActive, Saved;
    var w := OwnPlatform(n);
    OwnPlatformIsOk(n);
    DraftIsAnswered(n, accepts);
    AssignKeepsCoverage(w, accepts, Attach(n), Caller(n), true, 0);
    DraftAndSkillCached(n);
    var s := Saved(w, AGENT, OwnDraft(n));
    PromotedState(s, accepts, OwnDraft(n), TheSkill(n), SkillRef(n.skill, n.base), Promotion(n)[0], Promotion(n)[1]);
    AssignmentImpliesAuthorization(w, accepts, Attach(n), Caller(n), true, 0, Promotion(n), acceptsRun, r, false);
  }
}
