/** Attaching a skill to an agent: the ordered checks, and the draft that they let through. */
module Assignment {
  import opened Prelude
  import opened Identity
  import opened RegistryModel
  import opened RegistryRuns
  import opened AuthorityView
  import SemVer

  const AGENT := "agent"
  const SKILL := "skill"

  datatype Request = Request(agentId: string, agentVersion: string, skillId: string, skillVersion: string,
                             proposedVersion: Option<string>, correlationId: string)

  datatype AssignmentError =
    | AgentVersionNotFound | AgentNotActive | SkillVersionNotFound | SkillNotActive
    | SkillPermissionMismatch | SkillScopeMismatch | AssignmentNotAuthorized | AgentSkillDuplicate
    | SkillToolRequirementUnmet | AgentVersionInvalid | AgentVersionConflict
    | ContractRejected | SaveFailed

  /** The code is chosen by the words of the message. */
  function CodeOf(e: AuthorizationError): AssignmentError {
    match e
    case LacksPermissions => SkillPermissionMismatch
    case OutsideOrganization => SkillScopeMismatch
    case OutsideRegistryScope => SkillScopeMismatch
    case NoScopeAuthority => SkillScopeMismatch
    case LacksScope => SkillScopeMismatch
    case _ => AssignmentNotAuthorized
  }

  function PlaceOf(p: Principal, id: string, version: string): EntryKey {
    EntryKey(p.tenantId, p.workspaceId, id, version)
  }

  /** Both definitions exist, are ACTIVE, and are the principal's to use. */
  function Problem(agents: Cache, skills: Cache, r: Request, p: Principal): Option<AssignmentError> {
    var agentKey, skillKey := PlaceOf(p, r.agentId, r.agentVersion), PlaceOf(p, r.skillId, r.skillVersion);
    if agentKey !in agents.items then Some(AgentVersionNotFound)
    else if !agents.items[agentKey].state.Active? then Some(AgentNotActive)
    else if skillKey !in skills.items then Some(SkillVersionNotFound)
    else if !skills.items[skillKey].state.Active? then Some(SkillNotActive)
    else
      var agent, skill := GetAuthorized(agents.items[agentKey], p), GetAuthorized(skills.items[skillKey], p);
      if agent.Err? then Some(CodeOf(agent.error))
      else if skill.Err? then Some(CodeOf(skill.error))
      else Unmet(agents.items[agentKey].payload, skill.value, SkillRef(r.skillId, r.skillVersion))
  }

  /** What the agent must bring for the skill. */
  function Unmet(agent: Payload, skill: View, ref: SkillRef): Option<AssignmentError> {
    if ref in Items(agent.skillRefs) then Some(AgentSkillDuplicate)
    else if !(skill.permissions <= Members(agent.permissionRefs)) then Some(SkillPermissionMismatch)
    else if !(skill.scope <= Members(agent.scopeRefs)) then Some(SkillScopeMismatch)
    else if !(skill.tools <= Members(agent.toolIds)) then Some(SkillToolRequirementUnmet)
    else None
  }

  function DraftVersion(r: Request): Option<string> {
    Or(r.proposedVersion, SemVer.NextMinor(r.agentVersion))
  }

  function DraftPayload(agent: Payload, version: string, ref: SkillRef): Payload {
    agent.(version := version, skillRefs := Some(Items(agent.skillRefs) + [ref]))
  }

  /** The registration that `assign` ends in, or why it does not get there. */
  function DraftCall(agents: Cache, skills: Cache, r: Request, p: Principal): Result<Call, AssignmentError> {
    var problem := Problem(agents, skills, r, p);
    if problem.Some? then Err(problem.value)
    else if DraftVersion(r).None? then Err(AgentVersionInvalid)
    else
      var base := agents.items[PlaceOf(p, r.agentId, r.agentVersion)];
      var payload := DraftPayload(base.payload, DraftVersion(r).value, SkillRef(r.skillId, r.skillVersion));
      Ok(Register(payload, p.tenantId, p.organizationId, p.workspaceId, p.actorId, r.correlationId))
  }

  /** What `assign` makes of the registry's answer. */
  function AnswerOf(reply: Result<Entry, RegistryError>): Result<Entry, AssignmentError> {
    match reply
    case Ok(e) => Ok(e)
    case Err(Conflict) => Err(AgentVersionConflict)
    case Err(StoreFailure) => Err(SaveFailed)
    case Err(_) => Err(ContractRejected)
  }

  datatype Assigned = Assigned(world: World, reply: Result<Entry, AssignmentError>)

  function Assign(w: World, accepts: Accepts, r: Request, p: Principal, saves: bool, now: int): Assigned
    requires AGENT in w.caches && SKILL in w.caches && w.store.Valid()
  {
    var draft := DraftCall(w.caches[AGENT], w.caches[SKILL], r, p);
    if draft.Err? then Assigned(w, Err(draft.error))
    else
      Assigned(Apply(w, accepts, CallOp(AGENT, draft.value, saves, now)).world,
               AnswerOf(ReplyOf(AttemptOf(AGENT, accepts, w.caches[AGENT], draft.value, now), saves)))
  }

  // ----- Coverage -----

  function SkillKey(agent: Entry, ref: SkillRef): RecordKey {
    RecordKey(SKILL, EntryKey(agent.tenantId, agent.workspaceId, ref.skillId, ref.skillVersion))
  }

  /** The agent's own grants include all that the skill asks for. */
  predicate Covers(agent: Entry, skill: Entry) {
    && skill.organizationId == agent.organizationId
    && Members(skill.payload.permissionRefs) <= Members(agent.payload.permissionRefs)
    && Members(skill.payload.scopeRefs) <= Members(agent.payload.scopeRefs)
    && Members(skill.payload.requiredToolIds) <= Members(agent.payload.toolIds)
  }

  ghost predicate CoversRef(agent: Entry, store: Store, ref: SkillRef) {
    SkillKey(agent, ref) in store.items && Covers(agent, store.items[SkillKey(agent, ref)])
  }

  /** Every skill of the agent is registered and covered. */
  ghost predicate Covered(agent: Entry, store: Store) {
    forall ref :: ref in Items(agent.payload.skillRefs) ==> CoversRef(agent, store, ref)
  }

  predicate SameGrants(a: Payload, b: Payload) {
    a.permissionRefs == b.permissionRefs && a.scopeRefs == b.scopeRefs && a.toolIds == b.toolIds
  }

  /** What the checks have established when `assign` goes on to register. */
  lemma ChecksCoverTheSkill(w: World, r: Request, p: Principal)
    requires WorldOk(w) && AGENT in w.caches && SKILL in w.caches
    requires Problem(w.caches[AGENT], w.caches[SKILL], r, p).None?
    ensures PlaceOf(p, r.agentId, r.agentVersion) in w.caches[AGENT].items
    ensures var base := w.caches[AGENT].items[PlaceOf(p, r.agentId, r.agentVersion)];
            && RecordKey(AGENT, PlaceOf(p, r.agentId, r.agentVersion)) in w.store.items
            && base == w.store.items[RecordKey(AGENT, PlaceOf(p, r.agentId, r.agentVersion))]
            && base.state.Active? && base.tenantId == p.tenantId && base.workspaceId == p.workspaceId
            && base.organizationId == p.organizationId
            && SkillRef(r.skillId, r.skillVersion) !in Items(base.payload.skillRefs)
            && CoversRef(base, w.store, SkillRef(r.skillId, r.skillVersion))
            && w.store.items[SkillKey(base, SkillRef(r.skillId, r.skillVersion))].state.Active?
  {
    hide TypeKeys, Text.IsBlank, Members;
    var agentKey, skillKey := PlaceOf(p, r.agentId, r.agentVersion), PlaceOf(p, r.skillId, r.skillVersion);
    assert Mirrors(w.caches[AGENT], w.store, AGENT) && Mirrors(w.caches[SKILL], w.store, SKILL);
    assert RecordKey(AGENT, agentKey) in w.store.items && RecordKey(SKILL, skillKey) in w.store.items;
    ViewIsWithinThePrincipal(w.caches[AGENT].items[agentKey], p);
    ViewIsWithinThePrincipal(w.caches[SKILL].items[skillKey], p);
  }

  /** The entry that a successful registration answers with. */
  lemma RegisteredEntry(w: World, accepts: Accepts, c: Call, saves: bool, now: int)
    requires WorldOk(w) && c.Register? && AGENT in w.caches
    requires ReplyOf(AttemptOf(AGENT, accepts, w.caches[AGENT], c, now), saves).Ok?
    ensures var effect := Apply(w, accepts, CallOp(AGENT, c, saves, now));
            && effect.reply.Ok?
            && var e := ReplyOf(AttemptOf(AGENT, accepts, w.caches[AGENT], c, now), saves).value;
               && e.payload == c.payload && e.subjectType == AGENT
               && KeyOf(e) == EntryKey(c.tenantId, c.workspaceId, c.payload.subjectId, c.payload.version)
               && RecordOf(e) in effect.world.store.items && effect.world.store.items[RecordOf(e)] == e
               && (RecordOf(e) !in w.store.items ==> e.state.Draft? && e.organizationId == c.organizationId)
               && e == (if KeyOf(e) in w.caches[AGENT].items then w.caches[AGENT].items[KeyOf(e)]
                        else NewEntry(AGENT, c, now))
  {
    hide TypeKeys;
    assert Mirrors(w.caches[AGENT], w.store, AGENT);
    var key := EntryKey(c.tenantId, c.workspaceId, c.payload.subjectId, c.payload.version);
    if key in w.caches[AGENT].items {
      assert RecordKey(AGENT, key) in w.store.items;
    }
  }

  /** The version that the draft will have is free, or the principal's organization registered it: what
      `assign` does not look at, and its caller can. */
  predicate DraftKeyIsOwn(agents: Cache, r: Request, p: Principal) {
    var place := PlaceOf(p, r.agentId, r.agentVersion);
    place in agents.items && DraftVersion(r).Some? ==>
      var key := PlaceOf(p, agents.items[place].payload.subjectId, DraftVersion(r).value);
      key in agents.items ==> agents.items[key].organizationId == p.organizationId
  }

  /** The draft has the base's grants and its skills with the new one behind them. If the base is covered,
      the draft is covered exactly under the guard on its version. */
  lemma AssignKeepsCoverage(w: World, accepts: Accepts, r: Request, p: Principal, saves: bool, now: int)
    requires WorldOk(w) && AGENT in w.caches && SKILL in w.caches
    requires Assign(w, accepts, r, p, saves, now).reply.Ok?
    ensures var after := Assign(w, accepts, r, p, saves, now);
            var draft := after.reply.value;
            var key := PlaceOf(p, r.agentId, r.agentVersion);
            && WorldOk(after.world)
            && RecordOf(draft) in after.world.store.items && after.world.store.items[RecordOf(draft)] == draft
            && key in w.caches[AGENT].items
            && var base := w.caches[AGENT].items[key];
               && SameGrants(draft.payload, base.payload)
               && draft.payload.skillRefs == Some(Items(base.payload.skillRefs) + [SkillRef(r.skillId, r.skillVersion)])
               && SkillRef(r.skillId, r.skillVersion) !in Items(base.payload.skillRefs)
               && (draft.organizationId == p.organizationId <==> DraftKeyIsOwn(w.caches[AGENT], r, p))
               && (Covered(base, w.store) ==>
                     (Covered(draft, after.world.store) <==> DraftKeyIsOwn(w.caches[AGENT], r, p)))
               && (RecordOf(draft) !in w.store.items ==> draft.state.Draft? && draft.organizationId == p.organizationId)
  {
    hide WorldOk, Problem, Apply, AttemptOf, ReplyOf, Covered, CoversRef, Members;
    ValidStore(w);
    var after := Assign(w, accepts, r, p, saves, now);
    ChecksCoverTheSkill(w, r, p);
    var base := w.caches[AGENT].items[PlaceOf(p, r.agentId, r.agentVersion)];
    var call := DraftCall(w.caches[AGENT], w.caches[SKILL], r, p).value;
    var op := CallOp(AGENT, call, saves, now);
    RegisteredEntry(w, accepts, call, saves, now);
    StepKeepsWorld(w, accepts, op);
    var draft := after.reply.value;
    if Covered(base, w.store) {
      if draft.organizationId == p.organizationId {
        DraftIsCovered(w, accepts, op, base, draft, SkillRef(r.skillId, r.skillVersion));
      } else {
        ForeignDraftIsNot(w, accepts, op, base, draft, SkillRef(r.skillId, r.skillVersion));
      }
    }
  }

  /** The skill that was attached is stored, and is of the principal's organization. */
  lemma AttachedSkillIsOwn(w: World, accepts: Accepts, r: Request, p: Principal, saves: bool, now: int)
    requires WorldOk(w) && AGENT in w.caches && SKILL in w.caches
    requires Assign(w, accepts, r, p, saves, now).reply.Ok?
    ensures var after := Assign(w, accepts, r, p, saves, now);
            var key := SkillKey(after.reply.value, SkillRef(r.skillId, r.skillVersion));
            key in after.world.store.items && after.world.store.items[key].organizationId == p.organizationId
  {
    hide WorldOk, Problem, Apply, AttemptOf, ReplyOf, Covered, Members;
    ValidStore(w);
    ChecksCoverTheSkill(w, r, p);
    var base := w.caches[AGENT].items[PlaceOf(p, r.agentId, r.agentVersion)];
    var call := DraftCall(w.caches[AGENT], w.caches[SKILL], r, p).value;
    RegisteredEntry(w, accepts, call, saves, now);
    StepKeepsDefinitions(w, accepts, CallOp(AGENT, call, saves, now),
                         SkillKey(base, SkillRef(r.skillId, r.skillVersion)));
  }

  lemma ValidStore(w: World)
    requires WorldOk(w)
    ensures w.store.Valid() && StoreOk(w.store)
  {
  }

  lemma RefPersists(w: World, accepts: Accepts, op: Op, agent: Entry, draft: Entry, ref: SkillRef)
    requires WorldOk(w) && op.subjectType in w.caches && CoversRef(agent, w.store, ref)
    requires draft.tenantId == agent.tenantId && draft.workspaceId == agent.workspaceId
    requires SameGrants(draft.payload, agent.payload)
    ensures draft.organizationId == agent.organizationId ==> CoversRef(draft, Apply(w, accepts, op).world.store, ref)
    ensures draft.organizationId != agent.organizationId ==> !CoversRef(draft, Apply(w, accepts, op).world.store, ref)
  {
    hide WorldOk, Apply, Members;
    ValidStore(w);
    StepKeepsDefinitions(w, accepts, op, SkillKey(agent, ref));
  }

  lemma DraftIsCovered(w: World, accepts: Accepts, op: Op, base: Entry, draft: Entry, ref: SkillRef)
    requires WorldOk(w) && op.subjectType in w.caches && Covered(base, w.store) && CoversRef(base, w.store, ref)
    requires draft.tenantId == base.tenantId && draft.workspaceId == base.workspaceId
    requires SameGrants(draft.payload, base.payload) && draft.organizationId == base.organizationId
    requires draft.payload.skillRefs == Some(Items(base.payload.skillRefs) + [ref])
    ensures w.store.Valid() && Covered(draft, Apply(w, accepts, op).world.store)
  {
    hide WorldOk, Apply, CoversRef;
    ValidStore(w);
    forall s | s in Items(draft.payload.skillRefs) ensures CoversRef(draft, Apply(w, accepts, op).world.store, s) {
      RefPersists(w, accepts, op, base, draft, s);
    }
  }

  lemma ForeignDraftIsNot(w: World, accepts: Accepts, op: Op, base: Entry, draft: Entry, ref: SkillRef)
    requires WorldOk(w) && op.subjectType in w.caches && CoversRef(base, w.store, ref)
    requires draft.tenantId == base.tenantId && draft.workspaceId == base.workspaceId
    requires SameGrants(draft.payload, base.payload) && draft.organizationId != base.organizationId
    requires draft.payload.skillRefs == Some(Items(base.payload.skillRefs) + [ref])
    ensures w.store.Valid() && !Covered(draft, Apply(w, accepts, op).world.store)
  {
    hide WorldOk, Apply, CoversRef;
    ValidStore(w);
    RefPersists(w, accepts, op, base, draft, ref);
    assert ref in Items(draft.payload.skillRefs);
  }

  /** Coverage never lapses: it survives every further run of the registries. */
  lemma CoverageIsPermanent(w: World, accepts: Accepts, ops: seq<Op>, agent: Entry)
    requires WorldOk(w) && forall k :: 0 <= k < |ops| ==> ops[k].subjectType in w.caches
    requires RecordOf(agent) in w.store.items && w.store.items[RecordOf(agent)] == agent && Covered(agent, w.store)
    ensures var v := ApplyAll(w, accepts, ops);
            && RecordOf(agent) in v.store.items
            && v.store.items[RecordOf(agent)].payload == agent.payload
            && Covered(v.store.items[RecordOf(agent)], v.store)
  {
    hide Mirrors, Members, Apply;
    DefinitionsAreImmutable(w, accepts, ops, RecordOf(agent));
    var v := ApplyAll(w, accepts, ops);
    forall ref | ref in Items(agent.payload.skillRefs) ensures CoversRef(v.store.items[RecordOf(agent)], v.store, ref) {
      assert CoversRef(agent, w.store, ref);
      DefinitionsAreImmutable(w, accepts, ops, SkillKey(agent, ref));
    }
  }
}
