/** The run authority and its in-memory store as objects. */
module RunAuthority {
  import opened Prelude
  import opened RegistryModel
  import opened RegistryService
  import opened AuthorityView
  import opened AgentRuns
  import opened RunRecords

  class InMemoryAgentRunStore {
    var runs: map<string, Record>

    constructor ()
      ensures runs == map[]
    {
      runs := map[];
    }

    method Create(record: Record) returns (created: bool)
      modifies this
      ensures created <==> record.runId !in old(runs)
      ensures runs == (if created then old(runs)[record.runId := record] else old(runs))
    {
      created := record.runId !in runs;
      if created {
        runs := runs[record.runId := record];
      }
    }

    method Update(record: Record) returns (updated: bool)
      modifies this
      ensures updated <==> record.runId in old(runs)
      ensures runs == (if updated then old(runs)[record.runId := record] else old(runs))
    {
      updated := record.runId in runs;
      if updated {
        runs := runs[record.runId := record];
      }
    }

    method Get(runId: string) returns (reply: Result<Record, RunError>)
      ensures reply == (if runId in runs then Ok(runs[runId]) else Err(RunNotFound))
    {
      if runId in runs {
        reply := Ok(runs[runId]);
      } else {
        reply := Err(RunNotFound);
      }
    }
  }

  class AgentRunAuthority {
    const contracts: Contracts
    const skills: VersionedContractRegistry?
    const allowTestDrafts: bool
    const store: InMemoryAgentRunStore
    var trail: seq<Event>

    ghost function State(): Runs
      reads this, store
    {
      Runs(store.runs, trail)
    }

    ghost function Skills(): Option<Cache>
      reads if skills == null then {} else {skills}
    {
      if skills == null then None else Some(skills.entries)
    }

    constructor (contracts: Contracts, skills: VersionedContractRegistry?, allowTestDrafts: bool,
                 store: InMemoryAgentRunStore)
      ensures this.contracts == contracts && this.skills == skills
      ensures this.allowTestDrafts == allowTestDrafts && this.store == store && trail == []
    {
      this.contracts := contracts;
      this.skills := skills;
      this.allowTestDrafts := allowTestDrafts;
      this.store := store;
      trail := [];
    }

    method Begin(request: RunRequest, agent: Entry, now: int) returns (reply: Result<Record, RunError>)
      requires RecordsOk(State())
      modifies this, store
      ensures RecordsOk(State())
      ensures var op := BeginOp(request, agent, old(Skills()), allowTestDrafts, now);
              var step := Step(contracts, old(State()), op);
              State() == step.state && reply == step.reply
    {
      hide ContextProblem, RunRecords.Started, RecordOk, Ended;
      ghost var op := BeginOp(request, agent, Skills(), allowTestDrafts, now);
      StepKeepsRecords(contracts, State(), op);
      if !contracts.request(request) { return Err(ContractViolation); }
      var problem := ContextProblem(request, agent, allowTestDrafts);
      if problem.Some? { return Err(problem.value); }
      var refs := AuthorizeSkills(request, agent);
      if refs.Err? { return Err(refs.error); }
      var record := RunRecords.Started(request, agent, refs.value, now);
      var created := store.Create(record);
      if !created { return Err(RunExists); }
      trail := trail + [Event(record.runId, RunStarted)];
      reply := Ok(record);
    }

    method Complete(result: RunResult, now: int) returns (reply: Result<Record, RunError>)
      requires RecordsOk(State())
      modifies this, store
      ensures RecordsOk(State())
      ensures var step := Step(contracts, old(State()), CompleteOp(result, now));
              State() == step.state && reply == step.reply
    {
      hide RecordOk, ResultMatches, StatusNamed, Admit;
      StepKeepsRecords(contracts, State(), CompleteOp(result, now));
      if !contracts.result(result) { return Err(ContractViolation); }
      var found := store.Get(result.runId);
      if found.Err? { return found; }
      var current := found.value;
      if !current.status.Running? { return Err(RunTerminal); }
      if !ResultMatches(current, result) { return Err(ResultMismatch); }
      var target := StatusNamed(result.status);
      if target.None? || target.value.Running? { return Err(ResultNotTerminal); }
      var updated := current.(status := target.value, completedAt := Some(now), result := Some(result));
      var stored := store.Update(updated);
      if !stored { return Err(RunNotFound); }
      trail := trail + [EndEvent(updated)];
      reply := Ok(updated);
    }

    /** The loop over the raw references, stopping at the first that is refused. */
    method AuthorizeSkills(request: RunRequest, agent: Entry) returns (reply: Result<seq<SkillRef>, RunError>)
      ensures reply == AgentRuns.AuthorizeSkills(Skills(), request, agent)
    {
      hide SortedSet, Members;
      var raw := RawRefs(request, agent);
      var authorized: seq<SkillRef> := [];
      var permissions := Members(request.context.permissionRefs) * Members(agent.payload.permissionRefs);
      var scopes := Members(request.context.scopeRefs) * Members(agent.payload.scopeRefs);
      var tools := Members(request.context.allowedToolIds) * Members(agent.payload.toolIds);
      for i := 0 to |raw|
        invariant authorized == raw[..i]
        invariant FirstProblem(Skills(), request, agent, raw[..i]).None?
      {
        var ref := raw[i];
        assert raw[..i + 1][..i] == raw[..i];
        StopsAt(Skills(), request, agent, raw, i);
        if ref !in Items(agent.payload.skillRefs) { return Err(SkillRefNotAssigned); }
        if skills == null { return Err(SkillRegistryUnavailable); }
        var found := skills.Get(EntryKey(agent.tenantId, agent.workspaceId, ref.skillId, ref.skillVersion));
        if found.Err? { return Err(SkillVersionMissing); }
        var skill := found.value;
        if skill.organizationId != agent.organizationId { return Err(SkillContextMismatch); }
        if !skill.state.Active? { return Err(SkillInactive); }
        if !(Members(skill.payload.permissionRefs) <= permissions) { return Err(SkillPermissionMissing); }
        if !(Members(skill.payload.scopeRefs) <= scopes) { return Err(SkillScopeMissing); }
        if !(Members(skill.payload.requiredToolIds) <= tools) { return Err(SkillToolMissing); }
        authorized := authorized + [ref];
      }
      assert raw[..|raw|] == raw;
      reply := Ok(SortedSet(authorized));
    }
  }

  /** The first refused reference decides the answer. */
  lemma {:induction false} StopsAtPrefix(skills: Option<Cache>, r: RunRequest, agent: Entry, refs: seq<SkillRef>,
                                         n: nat)
    requires n <= |refs| && FirstProblem(skills, r, agent, refs[..n]).Some?
    ensures FirstProblem(skills, r, agent, refs) == FirstProblem(skills, r, agent, refs[..n])
  {
    hide RefProblem;
    if n == |refs| {
      assert refs[..n] == refs;
    } else {
      assert refs[..|refs| - 1][..n] == refs[..n];
      StopsAtPrefix(skills, r, agent, refs[..|refs| - 1], n);
    }
  }

  lemma StopsAt(skills: Option<Cache>, r: RunRequest, agent: Entry, refs: seq<SkillRef>, i: nat)
    requires i < |refs| && FirstProblem(skills, r, agent, refs[..i]).None?
    ensures FirstProblem(skills, r, agent, refs[..i + 1]) == RefProblem(skills, r, agent, refs[i])
    ensures RefProblem(skills, r, agent, refs[i]).Some? ==>
              FirstProblem(skills, r, agent, refs) == RefProblem(skills, r, agent, refs[i])
  {
    hide RefProblem;
    assert refs[..i + 1][..i] == refs[..i];
    if RefProblem(skills, r, agent, refs[i]).Some? { StopsAtPrefix(skills, r, agent, refs, i + 1); }
  }
}
