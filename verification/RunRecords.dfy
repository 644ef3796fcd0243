/** Run records: how they start and end, the in-memory store, and the rows that must behave like it. */
module RunRecords {
  import opened Prelude
  import opened RegistryModel
  import opened AuthorityView
  import opened AgentRuns

  datatype RunStatus = Running | Completed | Failed | Cancelled | TimedOut

  datatype RunResult = RunResult(runId: string, rootRunId: Option<string>, correlationId: Option<string>,
                                 agentId: Option<string>, agentVersion: Option<string>, capabilityId: Option<string>,
                                 status: string, rest: string)

  datatype Record = Record(
    runId: string, rootRunId: string, tenantId: string, organizationId: string, workspaceId: string, actorId: string,
    correlationId: string, agentId: string, agentVersion: string, capabilityId: string, status: RunStatus,
    registryDigest: Digest, lifecycleAuthorization: string, authorizedToolIds: seq<string>,
    authorizedSkillRefs: seq<SkillRef>, request: RunRequest, createdAt: int, completedAt: Option<int>,
    result: Option<RunResult>)

  /** The table has no column for the skill references. */
  datatype Row = Row(
    runId: string, rootRunId: string, parentRunId: Option<string>, tenantId: string, organizationId: string,
    workspaceId: string, actorId: string, correlationId: string, agentId: string, agentVersion: string,
    capabilityId: string, status: string, registryDigest: Digest, lifecycleAuthorization: string,
    authorizedToolIds: seq<string>, requestPayload: RunRequest, resultPayload: Option<RunResult>,
    createdAt: int, completedAt: Option<int>)

  function StatusName(s: RunStatus): string {
    match s
    case Running => "RUNNING"
    case Completed => "COMPLETED"
    case Failed => "FAILED"
    case Cancelled => "CANCELLED"
    case TimedOut => "TIMED_OUT"
  }

  /** `AuthoritativeRunStatus(value)`, which raises on any other name. */
  function StatusNamed(name: string): Option<RunStatus> {
    if name == "RUNNING" then Some(Running)
    else if name == "COMPLETED" then Some(Completed)
    else if name == "FAILED" then Some(Failed)
    else if name == "CANCELLED" then Some(Cancelled)
    else if name == "TIMED_OUT" then Some(TimedOut)
    else None
  }

  lemma StatusNames(s: RunStatus)
    ensures StatusNamed(StatusName(s)) == Some(s)
  {
  }

  function ToRow(r: Record): Row {
    Row(r.runId, r.rootRunId, r.request.parentRunId, r.tenantId, r.organizationId, r.workspaceId, r.actorId,
        r.correlationId, r.agentId, r.agentVersion, r.capabilityId, StatusName(r.status), r.registryDigest,
        r.lifecycleAuthorization, r.authorizedToolIds, r.request, r.result, r.createdAt, r.completedAt)
  }

  function FromRow(row: Row): Option<Record> {
    var status := StatusNamed(row.status);
    if status.None? then None
    else
      Some(Record(row.runId, row.rootRunId, row.tenantId, row.organizationId, row.workspaceId, row.actorId,
                  row.correlationId, row.agentId, row.agentVersion, row.capabilityId, status.value, row.registryDigest,
                  row.lifecycleAuthorization, row.authorizedToolIds, Items(row.requestPayload.authorizedSkillRefs),
                  row.requestPayload, row.createdAt, row.completedAt, row.resultPayload))
  }

  /** A record survives its row exactly when its request repeats its references. */
  lemma RowRoundTripIff(r: Record)
    ensures FromRow(ToRow(r)) == Some(r) <==> r.authorizedSkillRefs == Items(r.request.authorizedSkillRefs)
  {
    hide StatusName, StatusNamed;
    StatusNames(r.status);
  }

  // ----- What begin and complete make -----

  datatype Contracts = Contracts(request: RunRequest -> bool, result: RunResult -> bool)

  function Filtered(tools: seq<string>, allowed: set<string>): seq<string> {
    if tools == [] then []
    else Filtered(tools[..|tools| - 1], allowed) + (if tools[|tools| - 1] in allowed then [tools[|tools| - 1]] else [])
  }

  function Started(r: RunRequest, agent: Entry, refs: seq<SkillRef>, now: int): Record {
    Record(r.runId, r.rootRunId, r.context.tenantId, r.context.organizationId, r.context.workspaceId, r.context.actorId,
           r.context.correlationId, r.agentId, r.agentVersion, r.capabilityId, Running, agent.digest,
           if agent.state.Active? then "ACTIVE" else "TEST_AUTHORIZED",
           Filtered(Items(r.requestedToolIds), Members(agent.payload.toolIds)), refs,
           r.(authorizedSkillRefs := Some(refs)), now, None, None)
  }

  lemma {:induction false} FilteredAll(tools: seq<string>, allowed: set<string>)
    requires forall t :: t in tools ==> t in allowed
    ensures Filtered(tools, allowed) == tools
  {
    if tools != [] {
      FilteredAll(tools[..|tools| - 1], allowed);
      assert tools[|tools| - 1] in tools;
      assert tools == tools[..|tools| - 1] + [tools[|tools| - 1]];
    }
  }

  /** The filter on the tools of a run never removes any: a request for a tool outside the agent has
      been refused before, so a started run has exactly the tools that it asked for. */
  lemma StartedRunsHaveTheirTools(c: Contracts, skills: Option<Cache>, r: RunRequest, agent: Entry, allow: bool,
                                  now: int)
    requires Admit(c.request, skills, r, agent, allow).Ok?
    ensures var record := Started(r, agent, Admit(c.request, skills, r, agent, allow).value, now);
            && record.authorizedToolIds == Items(r.requestedToolIds)
            && record.tenantId == agent.tenantId && record.organizationId == agent.organizationId
            && record.workspaceId == agent.workspaceId && record.agentId == agent.subjectId
            && record.agentVersion == agent.version && record.registryDigest == agent.digest
            && (record.lifecycleAuthorization == "ACTIVE" <==> agent.state.Active?)
  {
    hide AuthorizeSkills, Filtered;
    forall t | t in Items(r.requestedToolIds) ensures t in Members(agent.payload.toolIds) {
      assert t in Members(r.requestedToolIds);
    }
    FilteredAll(Items(r.requestedToolIds), Members(agent.payload.toolIds));
    assert "TEST_AUTHORIZED"[0] != "ACTIVE"[0];
  }

  predicate ResultMatches(r: Record, result: RunResult) {
    && result.rootRunId == Some(r.rootRunId) && result.correlationId == Some(r.correlationId)
    && result.agentId == Some(r.agentId) && result.agentVersion == Some(r.agentVersion)
    && result.capabilityId == Some(r.capabilityId)
  }

  /** The record that a result turns the current one into. */
  function Ended(current: Record, result: RunResult, now: int): Result<Record, RunError> {
    if !current.status.Running? then Err(RunTerminal)
    else if !ResultMatches(current, result) then Err(ResultMismatch)
    else
      var target := StatusNamed(result.status);
      if target.None? || target.value.Running? then Err(ResultNotTerminal)
      else Ok(current.(status := target.value, completedAt := Some(now), result := Some(result)))
  }

  // ----- Runs of the authority, on either store -----

  datatype Op =
    | BeginOp(request: RunRequest, agent: Entry, skills: Option<Cache>, allowTestDrafts: bool, now: int)
    | CompleteOp(result: RunResult, now: int)

  datatype EventKind = RunStarted | RunCompleted | RunFailed

  datatype Event = Event(runId: string, kind: EventKind)

  datatype Runs = Runs(records: map<string, Record>, trail: seq<Event>)

  datatype Table = Table(rows: map<string, Row>, trail: seq<Event>)

  datatype Outcome<S> = Outcome(state: S, reply: Result<Record, RunError>)

  function EndEvent(r: Record): Event {
    Event(r.runId, if r.status.Completed? then RunCompleted else RunFailed)
  }

  function Step(c: Contracts, s: Runs, op: Op): Outcome<Runs> {
    match op
    case BeginOp(request, agent, skills, allow, now) => (
      var refs := Admit(c.request, skills, request, agent, allow);
      if refs.Err? then Outcome(s, Err(refs.error))
      else
        var record := Started(request, agent, refs.value, now);
        if record.runId in s.records then Outcome(s, Err(RunExists))
        else Outcome(Runs(s.records[record.runId := record], s.trail + [Event(record.runId, RunStarted)]), Ok(record)))
    case CompleteOp(result, now) =>
      if !c.result(result) then Outcome(s, Err(ContractViolation))
      else if result.runId !in s.records then Outcome(s, Err(RunNotFound))
      else
        var ended := Ended(s.records[result.runId], result, now);
        if ended.Err? then Outcome(s, ended)
        else
          Outcome(Runs(s.records[ended.value.runId := ended.value], s.trail + [EndEvent(ended.value)]), ended)
  }

  /** The SQL store: rows are inserted whole, and three columns are assigned afterwards. */
  function SqlStep(c: Contracts, s: Table, op: Op): Outcome<Table> {
    match op
    case BeginOp(request, agent, skills, allow, now) => (
      var refs := Admit(c.request, skills, request, agent, allow);
      if refs.Err? then Outcome(s, Err(refs.error))
      else
        var record := Started(request, agent, refs.value, now);
        if record.runId in s.rows then Outcome(s, Err(RunExists))
        else Outcome(Table(s.rows[record.runId := ToRow(record)], s.trail + [Event(record.runId, RunStarted)]),
                     Ok(record)))
    case CompleteOp(result, now) =>
      if !c.result(result) then Outcome(s, Err(ContractViolation))
      else if result.runId !in s.rows || FromRow(s.rows[result.runId]).None? then Outcome(s, Err(RunNotFound))
      else
        var ended := Ended(FromRow(s.rows[result.runId]).value, result, now);
        if ended.Err? || ended.value.runId !in s.rows then Outcome(s, ended)
        else
          Outcome(Table(s.rows[ended.value.runId := Updated(s.rows[ended.value.runId], ended.value)],
                        s.trail + [EndEvent(ended.value)]), ended)
  }

  function Updated(row: Row, r: Record): Row {
    row.(status := StatusName(r.status), resultPayload := r.result, completedAt := r.completedAt)
  }

  function RunAll(c: Contracts, ops: seq<Op>): Runs {
    if ops == [] then Runs(map[], []) else Step(c, RunAll(c, ops[..|ops| - 1]), ops[|ops| - 1]).state
  }

  function SqlRunAll(c: Contracts, ops: seq<Op>): Table {
    if ops == [] then Table(map[], []) else SqlStep(c, SqlRunAll(c, ops[..|ops| - 1]), ops[|ops| - 1]).state
  }

  // ----- The two stores agree -----

  predicate RecordOk(r: Record) {
    && r.request.authorizedSkillRefs == Some(r.authorizedSkillRefs)
    && (r.completedAt.Some? <==> !r.status.Running?) && (r.result.Some? <==> !r.status.Running?)
    && (r.result.Some? ==> StatusNamed(r.result.value.status) == Some(r.status) && ResultMatches(r, r.result.value))
  }

  ghost predicate RecordsOk(s: Runs) {
    forall id :: id in s.records ==> s.records[id].runId == id && RecordOk(s.records[id])
  }

  ghost predicate Stores(t: Table, s: Runs) {
    && t.trail == s.trail && t.rows.Keys == s.records.Keys
    && forall id :: id in s.records ==> t.rows[id] == ToRow(s.records[id])
  }

  lemma StartedIsOk(r: RunRequest, agent: Entry, refs: seq<SkillRef>, now: int)
    ensures RecordOk(Started(r, agent, refs, now)) && Started(r, agent, refs, now).runId == r.runId
  {
  }

  lemma EndedIsOk(current: Record, result: RunResult, now: int)
    requires RecordOk(current) && Ended(current, result, now).Ok?
    ensures var r := Ended(current, result, now).value;
            && RecordOk(r) && r.runId == current.runId && !r.status.Running? && current.status.Running?
            && Updated(ToRow(current), r) == ToRow(r)
  {
    hide StatusName, StatusNamed;
  }

  lemma StepKeepsRecords(c: Contracts, s: Runs, op: Op)
    requires RecordsOk(s)
    ensures RecordsOk(Step(c, s, op).state)
  {
    hide RecordOk, Started, Ended, Admit;
    if op.BeginOp? {
      var refs := Admit(c.request, op.skills, op.request, op.agent, op.allowTestDrafts);
      if refs.Ok? { StartedIsOk(op.request, op.agent, refs.value, op.now); }
    } else if op.result.runId in s.records && Ended(s.records[op.result.runId], op.result, op.now).Ok? {
      EndedIsOk(s.records[op.result.runId], op.result, op.now);
    }
  }

  lemma StepsAgree(c: Contracts, t: Table, s: Runs, op: Op)
    requires RecordsOk(s) && Stores(t, s)
    ensures SqlStep(c, t, op).reply == Step(c, s, op).reply
    ensures Stores(SqlStep(c, t, op).state, Step(c, s, op).state)
  {
    hide RecordOk, Started, Ended, Admit, ToRow, FromRow, Updated;
    if op.BeginOp? {
      var refs := Admit(c.request, op.skills, op.request, op.agent, op.allowTestDrafts);
      if refs.Ok? { StartedIsOk(op.request, op.agent, refs.value, op.now); }
    } else if op.result.runId in s.records {
      var current := s.records[op.result.runId];
      OkRecordsSurvive(current);
      if Ended(current, op.result, op.now).Ok? { EndedIsOk(current, op.result, op.now); }
    }
  }

  lemma OkRecordsSurvive(r: Record)
    requires RecordOk(r)
    ensures FromRow(ToRow(r)) == Some(r)
  {
    hide FromRow, ToRow;
    RowRoundTripIff(r);
  }

  /** For every sequence of begins and completions: each record survives the row that stands for it,
      and the SQL store, which assigns three columns only, holds exactly the rows of the in-memory
      store's records and gives the same answer to whatever is asked next. */
  lemma {:induction false} SqlStoreRefinesMemory(c: Contracts, ops: seq<Op>, next: Op)
    ensures var t, s := SqlRunAll(c, ops), RunAll(c, ops);
            && RecordsOk(s) && Stores(t, s)
            && (forall id :: id in s.records ==> FromRow(t.rows[id]) == Some(s.records[id]))
            && SqlStep(c, t, next).reply == Step(c, s, next).reply
  {
    hide Step, SqlStep, RecordOk, ToRow, FromRow;
    if ops != [] {
      var front := ops[..|ops| - 1];
      SqlStoreRefinesMemory(c, front, ops[|ops| - 1]);
      StepKeepsRecords(c, RunAll(c, front), ops[|ops| - 1]);
      StepsAgree(c, SqlRunAll(c, front), RunAll(c, front), ops[|ops| - 1]);
    }
    var t, s := SqlRunAll(c, ops), RunAll(c, ops);
    forall id | id in s.records ensures FromRow(t.rows[id]) == Some(s.records[id]) { OkRecordsSurvive(s.records[id]); }
    StepsAgree(c, t, s, next);
  }

  // ----- A run ends once -----

  function CountEvents(trail: seq<Event>, id: string, ends: bool): nat {
    if trail == [] then 0
    else
      var last := trail[|trail| - 1];
      CountEvents(trail[..|trail| - 1], id, ends)
      + (if last.runId == id && (last.kind.RunStarted? <==> !ends) then 1 else 0)
  }

  lemma CountMore(trail: seq<Event>, e: Event, id: string, ends: bool)
    ensures CountEvents(trail + [e], id, ends)
            == CountEvents(trail, id, ends) + (if e.runId == id && (e.kind.RunStarted? <==> !ends) then 1 else 0)
  {
    assert (trail + [e])[..|trail|] == trail;
  }

  /** The trail has one start for each stored run and one end for each run that is over, and
      nothing else. */
  ghost predicate TrailTells(s: Runs, id: string) {
    && CountEvents(s.trail, id, false) == (if id in s.records then 1 else 0)
    && CountEvents(s.trail, id, true) == (if id in s.records && !s.records[id].status.Running? then 1 else 0)
  }

  lemma BeginTells(c: Contracts, s: Runs, op: Op, id: string)
    requires RecordsOk(s) && TrailTells(s, id) && op.BeginOp?
    ensures TrailTells(Step(c, s, op).state, id)
  {
    hide Admit, Started, CountEvents, RecordOk;
    var refs := Admit(c.request, op.skills, op.request, op.agent, op.allowTestDrafts);
    if refs.Ok? {
      StartedIsOk(op.request, op.agent, refs.value, op.now);
      StartedRuns(op.request, op.agent, refs.value, op.now);
      CountMore(s.trail, Event(op.request.runId, RunStarted), id, false);
      CountMore(s.trail, Event(op.request.runId, RunStarted), id, true);
    }
  }

  lemma CompleteTells(c: Contracts, s: Runs, op: Op, id: string)
    requires RecordsOk(s) && TrailTells(s, id) && op.CompleteOp?
    ensures TrailTells(Step(c, s, op).state, id)
  {
    hide Ended, CountEvents, RecordOk;
    if op.result.runId in s.records && Ended(s.records[op.result.runId], op.result, op.now).Ok? {
      EndedIsOk(s.records[op.result.runId], op.result, op.now);
      var r := Ended(s.records[op.result.runId], op.result, op.now).value;
      CountMore(s.trail, EndEvent(r), id, false);
      CountMore(s.trail, EndEvent(r), id, true);
    }
  }

  lemma {:induction false} RunsEndOnce(c: Contracts, ops: seq<Op>, id: string)
    ensures TrailTells(RunAll(c, ops), id)
  {
    hide Step, TrailTells, RecordsOk;
    if ops == [] {
      EmptyTrail(id);
    } else {
      var front, op := ops[..|ops| - 1], ops[|ops| - 1];
      RunsEndOnce(c, front, id);
      SqlStoreRefinesMemory(c, front, op);
      if op.BeginOp? { BeginTells(c, RunAll(c, front), op, id); } else { CompleteTells(c, RunAll(c, front), op, id); }
    }
  }

  lemma EmptyTrail(id: string)
    ensures TrailTells(Runs(map[], []), id)
  {
  }

  lemma StartedRuns(r: RunRequest, agent: Entry, refs: seq<SkillRef>, now: int)
    ensures Started(r, agent, refs, now).status.Running?
  {
  }

  lemma TerminalStays(c: Contracts, s: Runs, op: Op, id: string)
    requires RecordsOk(s) && id in s.records && !s.records[id].status.Running?
    ensures id in Step(c, s, op).state.records && Step(c, s, op).state.records[id] == s.records[id]
  {
    hide Admit, Started, Ended, RecordOk;
    if op.BeginOp? {
      var refs := Admit(c.request, op.skills, op.request, op.agent, op.allowTestDrafts);
      if refs.Ok? { StartedIsOk(op.request, op.agent, refs.value, op.now); }
    } else if op.result.runId in s.records && Ended(s.records[op.result.runId], op.result, op.now).Ok? {
      EndedIsOk(s.records[op.result.runId], op.result, op.now);
    }
  }

  /** A run that is over stays as it is, whatever is sent afterwards. */
  lemma {:induction false} TerminalIsFinal(c: Contracts, ops: seq<Op>, more: seq<Op>, id: string)
    requires id in RunAll(c, ops).records && !RunAll(c, ops).records[id].status.Running?
    ensures id in RunAll(c, ops + more).records && RunAll(c, ops + more).records[id] == RunAll(c, ops).records[id]
  {
    hide Step, RecordsOk;
    if more == [] {
      assert ops + more == ops;
    } else {
      var front, op := more[..|more| - 1], more[|more| - 1];
      assert (ops + more)[..|ops + more| - 1] == ops + front;
      TerminalIsFinal(c, ops, front, id);
      SqlStoreRefinesMemory(c, ops + front, op);
      TerminalStays(c, RunAll(c, ops + front), op, id);
    }
  }
}
