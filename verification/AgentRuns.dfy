/** Starting an agent run: the checks of the run authority against the registries of the moment. */
module AgentRuns {
  import opened Prelude
  import opened Identity
  import opened Sorting
  import opened RegistryModel
  import opened RegistryRuns
  import opened AuthorityView
  import opened Assignment

  datatype Context = Context(
    tenantId: string, organizationId: string, workspaceId: string, actorId: string, correlationId: string,
    permissionRefs: Option<seq<string>>, scopeRefs: Option<seq<string>>, allowedToolIds: Option<seq<string>>)

  datatype RunRequest = RunRequest(
    runId: string, rootRunId: string, parentRunId: Option<string>, agentId: string, agentVersion: string,
    capabilityId: string, executionMode: Option<string>, requestedToolIds: Option<seq<string>>,
    authorizedSkillRefs: Option<seq<SkillRef>>, context: Context, rest: string)

  datatype RunError =
    | ContractViolation | ContextMismatch | LifecycleNotAuthorized | MissingPermissions | MissingScope | ForeignTool
    | SkillRefNotAssigned | SkillRegistryUnavailable | SkillVersionMissing | SkillContextMismatch | SkillInactive
    | SkillPermissionMissing | SkillScopeMissing | SkillToolMissing
    | RunExists | RunNotFound | RunTerminal | ResultMismatch | ResultNotTerminal

  // ----- Skills of a run -----

  /** Tuples of strings in order. */
  predicate RefLe(a: SkillRef, b: SkillRef) {
    if a.skillId != b.skillId then StringLe(a.skillId, b.skillId) else StringLe(a.skillVersion, b.skillVersion)
  }

  /** `set(refs)`, listed by first occurrence. */
  function Unique(refs: seq<SkillRef>): (d: seq<SkillRef>)
    ensures forall r :: r in d <==> r in refs
    ensures Distinct(d)
  {
    if refs == [] then []
    else
      var front, last := Unique(refs[..|refs| - 1]), refs[|refs| - 1];
      if last in front then front else front + [last]
  }

  /** `tuple(sorted(set(refs)))`. */
  function SortedSet(refs: seq<SkillRef>): seq<SkillRef> {
    Sorted(Unique(refs), RefLe)
  }

  lemma RefOrder()
    ensures TotalPreorder(RefLe)
    ensures forall a, b :: RefLe(a, b) && RefLe(b, a) ==> a == b
  {
    hide StringLe;
    StringOrder();
  }

  /** The set's members in strictly increasing order: no other list has this property. */
  lemma SortedSetIsTheSet(refs: seq<SkillRef>)
    ensures forall r :: r in SortedSet(refs) <==> r in refs
    ensures forall i, j :: 0 <= i < j < |SortedSet(refs)| ==>
                             RefLe(SortedSet(refs)[i], SortedSet(refs)[j]) && SortedSet(refs)[i] != SortedSet(refs)[j]
  {
    hide Sorted, RefLe, TotalPreorder, Unique;
    var d, s := Unique(refs), SortedSet(refs);
    RefOrder();
    SortedIsSorted(d, RefLe);
    forall r ensures r in s <==> r in refs {
      assert r in s <==> r in multiset(s);
      assert r in d <==> r in multiset(d);
    }
    forall i, j | 0 <= i < j < |s| ensures s[i] != s[j] { SortedKeepsDistinct(d, RefLe, i, j); }
  }

  /** Why a reference is refused, in the order of the checks. */
  function RefProblem(skills: Option<Cache>, r: RunRequest, agent: Entry, ref: SkillRef): Option<RunError> {
    var permissions := Members(r.context.permissionRefs) * Members(agent.payload.permissionRefs);
    var scopes := Members(r.context.scopeRefs) * Members(agent.payload.scopeRefs);
    var tools := Members(r.context.allowedToolIds) * Members(agent.payload.toolIds);
    var key := EntryKey(agent.tenantId, agent.workspaceId, ref.skillId, ref.skillVersion);
    if ref !in Items(agent.payload.skillRefs) then Some(SkillRefNotAssigned)
    else if skills.None? then Some(SkillRegistryUnavailable)
    else if key !in skills.value.items then Some(SkillVersionMissing)
    else
      var skill := skills.value.items[key];
      if skill.organizationId != agent.organizationId then Some(SkillContextMismatch)
      else if !skill.state.Active? then Some(SkillInactive)
      else if !(Members(skill.payload.permissionRefs) <= permissions) then Some(SkillPermissionMissing)
      else if !(Members(skill.payload.scopeRefs) <= scopes) then Some(SkillScopeMissing)
      else if !(Members(skill.payload.requiredToolIds) <= tools) then Some(SkillToolMissing)
      else None
  }

  function FirstProblem(skills: Option<Cache>, r: RunRequest, agent: Entry, refs: seq<SkillRef>): Option<RunError> {
    if refs == [] then None
    else
      var earlier := FirstProblem(skills, r, agent, refs[..|refs| - 1]);
      if earlier.Some? then earlier else RefProblem(skills, r, agent, refs[|refs| - 1])
  }

  /** The references of the run: those that it names, or else all of the agent's. */
  function RawRefs(r: RunRequest, agent: Entry): seq<SkillRef> {
    if r.authorizedSkillRefs.Some? then r.authorizedSkillRefs.value else Items(agent.payload.skillRefs)
  }

  function AuthorizeSkills(skills: Option<Cache>, r: RunRequest, agent: Entry): Result<seq<SkillRef>, RunError> {
    var problem := FirstProblem(skills, r, agent, RawRefs(r, agent));
    if problem.Some? then Err(problem.value) else Ok(SortedSet(RawRefs(r, agent)))
  }

  lemma {:induction false} NoProblemAtAll(skills: Option<Cache>, r: RunRequest, agent: Entry, refs: seq<SkillRef>)
    ensures FirstProblem(skills, r, agent, refs).None? <==>
            forall ref :: ref in refs ==> RefProblem(skills, r, agent, ref).None?
  {
    hide RefProblem;
    if refs != [] {
      NoProblemAtAll(skills, r, agent, refs[..|refs| - 1]);
      assert forall ref :: ref in refs <==> ref in refs[..|refs| - 1] || ref == refs[|refs| - 1];
    }
  }

  /** An accepted run never has a skill that its agent was not given, and never one that is not
      ACTIVE or that reaches past the intersection of the context's and the agent's grants. */
  lemma AuthorizedSkillsAreWithinGrants(skills: Option<Cache>, r: RunRequest, agent: Entry, ref: SkillRef)
    requires AuthorizeSkills(skills, r, agent).Ok? && ref in AuthorizeSkills(skills, r, agent).value
    ensures ref in Items(agent.payload.skillRefs) && ref in RawRefs(r, agent) && skills.Some?
    ensures var key := EntryKey(agent.tenantId, agent.workspaceId, ref.skillId, ref.skillVersion);
            && key in skills.value.items
            && var skill := skills.value.items[key];
               && skill.state.Active? && skill.organizationId == agent.organizationId
               && Members(skill.payload.permissionRefs)
                  <= Members(r.context.permissionRefs) * Members(agent.payload.permissionRefs)
               && Members(skill.payload.scopeRefs) <= Members(r.context.scopeRefs) * Members(agent.payload.scopeRefs)
               && Members(skill.payload.requiredToolIds)
                  <= Members(r.context.allowedToolIds) * Members(agent.payload.toolIds)
  {
    hide SortedSet, FirstProblem, Members;
    NoProblemAtAll(skills, r, agent, RawRefs(r, agent));
    SortedSetIsTheSet(RawRefs(r, agent));
  }

  // ----- Assignment implies authorization -----

  /** The context grants at least what the agent has. */
  predicate ContextCovers(c: Context, agent: Entry) {
    && Members(agent.payload.permissionRefs) <= Members(c.permissionRefs)
    && Members(agent.payload.scopeRefs) <= Members(c.scopeRefs)
    && Members(agent.payload.toolIds) <= Members(c.allowedToolIds)
  }

  ghost predicate SkillsActive(agent: Entry, store: Store) {
    forall ref :: ref in Items(agent.payload.skillRefs) ==>
                    SkillKey(agent, ref) in store.items && store.items[SkillKey(agent, ref)].state.Active?
  }

  lemma CoveredRefIsAuthorized(w: World, r: RunRequest, agent: Entry, ref: SkillRef)
    requires WorldOk(w) && SKILL in w.caches && ContextCovers(r.context, agent)
    requires ref in Items(agent.payload.skillRefs) && CoversRef(agent, w.store, ref)
    ensures RefProblem(Some(w.caches[SKILL]), r, agent, ref)
            == (if w.store.items[SkillKey(agent, ref)].state.Active? then None else Some(SkillInactive))
  {
    hide Members, TypeKeys;
    assert Mirrors(w.caches[SKILL], w.store, SKILL);
    var key := EntryKey(agent.tenantId, agent.workspaceId, ref.skillId, ref.skillVersion);
    assert key in w.caches[SKILL].items;
    var skill := w.caches[SKILL].items[key];
    assert skill == w.store.items[SkillKey(agent, ref)];
    WithinBoth(Members(skill.payload.permissionRefs), Members(agent.payload.permissionRefs),
               Members(r.context.permissionRefs));
    WithinBoth(Members(skill.payload.scopeRefs), Members(agent.payload.scopeRefs), Members(r.context.scopeRefs));
    WithinBoth(Members(skill.payload.requiredToolIds), Members(agent.payload.toolIds),
               Members(r.context.allowedToolIds));
  }

  lemma WithinBoth(a: set<string>, b: set<string>, c: set<string>)
    requires a <= b <= c
    ensures a <= c * b
  {
  }

  /** For a covered agent, a run that names no references and whose context covers the agent gets its
      skills authorized exactly when all of them are ACTIVE, and then gets exactly the set of the
      agent's references in order; otherwise the one thing reported is an inactive skill. */
  lemma CoveredAgentIsAuthorized(w: World, r: RunRequest, agent: Entry)
    requires WorldOk(w) && SKILL in w.caches && Covered(agent, w.store)
    requires r.authorizedSkillRefs.None? && ContextCovers(r.context, agent)
    ensures AuthorizeSkills(Some(w.caches[SKILL]), r, agent)
            == (if SkillsActive(agent, w.store) then Ok(SortedSet(Items(agent.payload.skillRefs)))
                else Err(SkillInactive))
  {
    hide WorldOk, RefProblem, CoversRef, ContextCovers, SortedSet;
    var refs := Items(agent.payload.skillRefs);
    forall ref | ref in refs
      ensures SkillKey(agent, ref) in w.store.items
      ensures RefProblem(Some(w.caches[SKILL]), r, agent, ref)
              == (if w.store.items[SkillKey(agent, ref)].state.Active? then None else Some(SkillInactive))
    {
      assert CoversRef(agent, w.store, ref);
      CoveredIsStored(agent, w.store, ref);
      CoveredRefIsAuthorized(w, r, agent, ref);
    }
    NoProblemAtAll(Some(w.caches[SKILL]), r, agent, refs);
    OneKindOfProblem(Some(w.caches[SKILL]), r, agent, refs);
  }

  lemma CoveredIsStored(agent: Entry, store: Store, ref: SkillRef)
    requires CoversRef(agent, store, ref)
    ensures SkillKey(agent, ref) in store.items
  {
  }

  lemma {:induction false} OneKindOfProblem(skills: Option<Cache>, r: RunRequest, agent: Entry, refs: seq<SkillRef>)
    requires forall ref :: ref in refs ==> RefProblem(skills, r, agent, ref) in {None, Some(SkillInactive)}
    ensures FirstProblem(skills, r, agent, refs) in {None, Some(SkillInactive)}
  {
    hide RefProblem;
    if refs != [] {
      assert refs[|refs| - 1] in refs;
      OneKindOfProblem(skills, r, agent, refs[..|refs| - 1]);
    }
  }

  // ----- The other checks -----

  function ContextProblem(r: RunRequest, agent: Entry, allowTestDrafts: bool): Option<RunError> {
    var c := r.context;
    if || c.tenantId != agent.tenantId || c.organizationId != agent.organizationId || c.workspaceId != agent.workspaceId
       || r.agentId != agent.subjectId || r.agentVersion != agent.version then Some(ContextMismatch)
    else if !agent.state.Active?
         && !(r.executionMode == Some("TEST") && allowTestDrafts && (agent.state.Draft? || agent.state.Approved?)) then
      Some(LifecycleNotAuthorized)
    else if !(Members(agent.payload.permissionRefs) <= Members(c.permissionRefs)) then Some(MissingPermissions)
    else if Members(agent.payload.scopeRefs) != {} && !(Members(agent.payload.scopeRefs) <= Members(c.scopeRefs)) then
      Some(MissingScope)
    else if !(Members(r.requestedToolIds) <= Members(agent.payload.toolIds)) then Some(ForeignTool)
    else None
  }

  /** All of `begin` before the record is made. */
  function Admit(accepts: RunRequest -> bool, skills: Option<Cache>, r: RunRequest, agent: Entry,
                 allowTestDrafts: bool):
    Result<seq<SkillRef>, RunError>
  {
    if !accepts(r) then Err(ContractViolation)
    else if ContextProblem(r, agent, allowTestDrafts).Some? then Err(ContextProblem(r, agent, allowTestDrafts).value)
    else AuthorizeSkills(skills, r, agent)
  }

  /** The request names the stored agent version, asks for no tool outside it, and grants it enough. */
  predicate Fits(r: RunRequest, agent: Entry) {
    && r.context.tenantId == agent.tenantId && r.context.organizationId == agent.organizationId
    && r.context.workspaceId == agent.workspaceId && r.agentId == agent.subjectId && r.agentVersion == agent.version
    && ContextCovers(r.context, agent) && Members(r.requestedToolIds) <= Members(agent.payload.toolIds)
    && r.authorizedSkillRefs.None?
  }

  lemma FittingRequestHasNoProblem(r: RunRequest, agent: Entry, allowTestDrafts: bool)
    requires Fits(r, agent) && agent.state.Active?
    ensures ContextProblem(r, agent, allowTestDrafts).None?
  {
    hide Members;
  }

  /** A skill of another organization is refused. */
  lemma ForeignSkillIsRefused(w: World, r: RunRequest, agent: Entry, ref: SkillRef)
    requires WorldOk(w) && SKILL in w.caches && r.authorizedSkillRefs.None?
    requires ref in Items(agent.payload.skillRefs) && SkillKey(agent, ref) in w.store.items
    requires w.store.items[SkillKey(agent, ref)].organizationId != agent.organizationId
    ensures AuthorizeSkills(Some(w.caches[SKILL]), r, agent).Err?
  {
    hide Members, TypeKeys, SortedSet, FirstProblem;
    assert Mirrors(w.caches[SKILL], w.store, SKILL);
    assert EntryKey(agent.tenantId, agent.workspaceId, ref.skillId, ref.skillVersion) in w.caches[SKILL].items;
    assert RefProblem(Some(w.caches[SKILL]), r, agent, ref) == Some(SkillContextMismatch);
    NoProblemAtAll(Some(w.caches[SKILL]), r, agent, Items(agent.payload.skillRefs));
  }

  /** The checks made when a skill is assigned imply those of every later run. Take a covered base
      agent, the draft that `assign` answered with, and any further run of the registries: once the
      draft and its skills are ACTIVE, every fitting request is admitted, with exactly the draft's
      references, if the version of the draft was free or the principal's own before the call; and
      if it was not, every fitting request is refused. */
  lemma AssignmentImpliesAuthorization(w: World, accepts: Accepts, a: Request, p: Principal, saves: bool, now: int,
                                       ops: seq<Op>, acceptsRun: RunRequest -> bool, r: RunRequest,
                                       allowTestDrafts: bool)
    requires WorldOk(w) && AGENT in w.caches && SKILL in w.caches
    requires forall k :: 0 <= k < |ops| ==> ops[k].subjectType in w.caches
    requires Assign(w, accepts, a, p, saves, now).reply.Ok?
    requires PlaceOf(p, a.agentId, a.agentVersion) in w.caches[AGENT].items
    requires Covered(w.caches[AGENT].items[PlaceOf(p, a.agentId, a.agentVersion)], w.store)
    ensures var s := Assign(w, accepts, a, p, saves, now);
            && s.world.store.Valid() && s.world.caches.Keys == w.caches.Keys
            && var v := ApplyAll(s.world, accepts, ops);
               && RecordOf(s.reply.value) in v.store.items
               && var agent := v.store.items[RecordOf(s.reply.value)];
                  && (Covered(agent, v.store) <==> DraftKeyIsOwn(w.caches[AGENT], a, p))
                  && (agent.state.Active? && SkillsActive(agent, v.store) && Fits(r, agent) && acceptsRun(r) ==>
                        var admitted := Admit(acceptsRun, Some(v.caches[SKILL]), r, agent, allowTestDrafts);
                        if DraftKeyIsOwn(w.caches[AGENT], a, p)
                        then admitted == Ok(SortedSet(Items(s.reply.value.payload.skillRefs)))
                        else admitted.Err?)
  {
    hide WorldOk, Assign, Covered, SkillsActive, ContextProblem, AuthorizeSkills, ApplyAll, SameGrants, ContextCovers;
    hide DraftKeyIsOwn;
    ValidStore(w);
    AssignKeepsCoverage(w, accepts, a, p, saves, now);
    AssignKeepsCaches(w, accepts, a, p, saves, now);
    AttachedSkillIsOwn(w, accepts, a, p, saves, now);
    var s := Assign(w, accepts, a, p, saves, now);
    ValidStore(s.world);
    EveryRunMirrorsTheStore(s.world, accepts, ops);
    DefinitionsAreImmutable(s.world, accepts, ops, RecordOf(s.reply.value));
    var v := ApplyAll(s.world, accepts, ops);
    var agent := v.store.items[RecordOf(s.reply.value)];
    var fits := agent.state.Active? && SkillsActive(agent, v.store) && Fits(r, agent) && acceptsRun(r);
    if fits { FittingRequestHasNoProblem(r, agent, allowTestDrafts); }
    if DraftKeyIsOwn(w.caches[AGENT], a, p) {
      CoverageIsPermanent(s.world, accepts, ops, s.reply.value);
      if fits { CoveredAgentIsAuthorized(v, r, agent); }
    } else {
      var ref := SkillRef(a.skillId, a.skillVersion);
      DefinitionsAreImmutable(s.world, accepts, ops, SkillKey(s.reply.value, ref));
      ForeignSkillIsNotCovered(agent, v.store, ref);
      if fits { ForeignSkillIsRefused(v, r, agent, ref); }
    }
  }

  lemma ForeignSkillIsNotCovered(agent: Entry, store: Store, ref: SkillRef)
    requires ref in Items(agent.payload.skillRefs) && SkillKey(agent, ref) in store.items
    requires store.items[SkillKey(agent, ref)].organizationId != agent.organizationId
    ensures !Covered(agent, store)
  {
    assert !CoversRef(agent, store, ref);
  }

  lemma AssignKeepsCaches(w: World, accepts: Accepts, a: Request, p: Principal, saves: bool, now: int)
    requires w.store.Valid() && AGENT in w.caches && SKILL in w.caches
    ensures Assign(w, accepts, a, p, saves, now).world.caches.Keys == w.caches.Keys
  {
    hide Apply, DraftCall;
    var draft := DraftCall(w.caches[AGENT], w.caches[SKILL], a, p);
    if draft.Ok? { ApplyKeepsShape(w, accepts, CallOp(AGENT, draft.value, saves, now)); }
  }
}
