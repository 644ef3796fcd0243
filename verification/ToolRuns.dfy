/** What holds after every run of registry calls and tool executions. */
module ToolRuns {
  import opened Prelude
  import opened Identity
  import opened ToolModel

  // ----- One execution -----

  /** The ways in which an execution can go. */
  datatype Path = Refused | Stopped | Replayed | Ran

  function PathOf(env: Environment, s: State, op: Op): Path
    requires op.ExecuteOp?
  {
    if !env.validRequest(op.request) then Refused
    else if Gate(env, s, op.request, op.principal, op.transport).Some? then Stopped
    else if KeyOf(op.request).Some? && KeyOf(op.request).value in s.records then Replayed
    else Ran
  }

  lemma GateIgnoresAudit(env: Environment, s: State, r: ToolRequest, p: Option<Principal>, transport: Option<string>)
    ensures Gate(env, Audited(s, r, Requested), r, p, transport) == Gate(env, s, r, p, transport)
  {
  }

  /** A gate that is open means an ACTIVE, allowlisted tool without a kill switch. */
  lemma OpenGate(env: Environment, s: State, r: ToolRequest, p: Option<Principal>, transport: Option<string>)
    requires Gate(env, s, r, p, transport).None?
    ensures r.toolId in s.tools.tools
    ensures var t := s.tools.tools[r.toolId];
            t.lifecycle.Active? && t.allowlisted && !t.killSwitchActive && IsAllowed(p, r.facts, t)
  {
  }

  lemma GateIsNoSuccess(env: Environment, s: State, r: ToolRequest, p: Option<Principal>, transport: Option<string>)
    ensures var gate := Gate(env, s, r, p, transport);
            gate.Some? ==> !gate.value.0.Success?
  {
  }

  /** An answer echoes its request, and its status tells what happened: the adapter's own outcome
      if it was reached, SUCCESS for a replay of the same request, REJECTED for another under its
      key, and otherwise a denial or a rejection. */
  lemma AnswerTellsWhatHappened(env: Environment, s: State, op: Op)
    requires op.ExecuteOp?
    requires Execute(env, s, op.request, op.principal, op.transport, op.run, op.now).reply.Ok?
    ensures var r := op.request;
            var result := Execute(env, s, r, op.principal, op.transport, op.run, op.now).reply.value;
            && result.toolCallId == r.toolCallId && result.runId == r.runId && result.toolId == r.toolId
            && result.correlationId == r.correlationId && result.completedAt == op.now
            && match PathOf(env, s, op)
               case Refused => false
               case Stopped => (result.status.Denied? || result.status.Rejected?) && result.body.Error?
               case Replayed =>
                 if s.records[KeyOf(r).value].digest == DigestOf(r) then
                   result.status.Success? && result.body == Output(s.records[KeyOf(r).value].output)
                 else result.status.Rejected? && result.body == Error(IdempotencyConflict)
               case Ran =>
                 && (result.status.Success? <==> op.run.Returned?)
                 && (op.run.Returned? ==> result.body == Output(op.run.output))
                 && (result.status.TimedOut? <==> op.run.Expired?) && (result.status.Failed? <==> op.run.Raised?)
  {
    hide Gate;
    GateIgnoresAudit(env, s, op.request, op.principal, op.transport);
    GateDenies(env, s, op.request, op.principal, op.transport);
    if PathOf(env, s, op) == Ran { RanShape(env, s, op); }
  }

  lemma GateDenies(env: Environment, s: State, r: ToolRequest, p: Option<Principal>, transport: Option<string>)
    ensures var gate := Gate(env, s, r, p, transport);
            gate.Some? ==> gate.value.0.Denied? || gate.value.0.Rejected?
  {
  }

  // ----- Outputs and keys -----

  predicate IsSuccess(a: Answer) {
    a.result.status.Success? && a.result.body.Output?
  }

  /** A successful answer for a key is the stored one. */
  predicate Agrees(s: State, a: Answer) {
    IsSuccess(a) && KeyOf(a.request).Some? ==>
      && KeyOf(a.request).value in s.records
      && s.records[KeyOf(a.request).value] == IdempotencyRecord(DigestOf(a.request), a.result.body.output)
  }

  ghost predicate AnswersAgree(s: State) {
    && (forall a :: a in s.answers ==> (a.result.status.Success? <==> a.result.body.Output?))
    && (forall a :: a in s.answers ==> Agrees(s, a))
  }

  lemma RegistryStep(env: Environment, s: State, op: Op)
    requires op.RegistryOp?
    ensures var after := Step(env, s, op);
            after.records == s.records && after.audit == s.audit && after.calls == s.calls && after.answers == s.answers
  {
  }

  lemma FinishShape(env: Environment, s: State, r: ToolRequest, result: ToolResult)
    ensures var o := Finish(env, s, r, result);
            && o.state.records == s.records && o.state.calls == s.calls && o.state.tools == s.tools
            && (o.reply.Ok? <==> env.validResult(result))
            && (o.reply.Ok? ==> o.reply.value == result && o.state.answers == s.answers + [Answer(r, result)]
                                && o.state.audit == s.audit + [Line(r, Finished(result.status))])
            && (o.reply.Err? ==> o.state == s && o.reply == Err(ResultInvalid))
  {
  }

  /** What a replay, a stop and a run do to the state, part by part. */
  lemma StoppedShape(env: Environment, s: State, op: Op)
    requires op.ExecuteOp? && PathOf(env, s, op) == Stopped
    ensures var after := Step(env, s, op);
            var gate := Gate(env, s, op.request, op.principal, op.transport).value;
            var result := MakeResult(op.request, gate.0, Error(gate.1), op.now);
            && !gate.0.Success? && after.records == s.records && after.calls == s.calls && after.tools == s.tools
            && after.answers == s.answers + (if env.validResult(result) then [Answer(op.request, result)] else [])
            && after.audit == s.audit + [Line(op.request, Requested)]
                              + (if env.validResult(result) then [Line(op.request, Finished(gate.0))] else [])
  {
    hide Gate, Finish;
    var requested := Audited(s, op.request, Requested);
    GateIgnoresAudit(env, s, op.request, op.principal, op.transport);
    GateIsNoSuccess(env, s, op.request, op.principal, op.transport);
    var gate := Gate(env, s, op.request, op.principal, op.transport).value;
    FinishShape(env, requested, op.request, MakeResult(op.request, gate.0, Error(gate.1), op.now));
  }

  function ReplayResult(s: State, op: Op): ToolResult
    requires op.ExecuteOp? && KeyOf(op.request).Some? && KeyOf(op.request).value in s.records
  {
    var existing := s.records[KeyOf(op.request).value];
    if existing.digest != DigestOf(op.request) then MakeResult(op.request, Rejected, Error(IdempotencyConflict), op.now)
    else MakeResult(op.request, Success, Output(existing.output), op.now)
  }

  lemma ReplayedShape(env: Environment, s: State, op: Op)
    requires op.ExecuteOp? && PathOf(env, s, op) == Replayed
    ensures var after := Step(env, s, op);
            var result := ReplayResult(s, op);
            && after.records == s.records && after.calls == s.calls && after.tools == s.tools
            && after.answers == s.answers + (if env.validResult(result) then [Answer(op.request, result)] else [])
            && after.audit == s.audit + [Line(op.request, Requested)]
                              + (if !env.validResult(result) then []
                                 else if result.status.Success? then
                                   [Line(op.request, Finished(Success)), Line(op.request, IdempotentReplay)]
                                 else [Line(op.request, Finished(Rejected))])
  {
    hide Gate, Finish;
    var requested := Audited(s, op.request, Requested);
    GateIgnoresAudit(env, s, op.request, op.principal, op.transport);
    FinishShape(env, requested, op.request, ReplayResult(s, op));
    var line := Line(op.request, Finished(Success));
    assert s.audit + [Line(op.request, Requested)] + [line] + [Line(op.request, IdempotentReplay)]
           == s.audit + [Line(op.request, Requested)] + [line, Line(op.request, IdempotentReplay)];
  }

  /** The store never refuses the key: it was looked up in the same call. */
  lemma RanShape(env: Environment, s: State, op: Op)
    requires op.ExecuteOp? && PathOf(env, s, op) == Ran
    ensures op.request.toolId in s.tools.tools
    ensures var outcome := Execute(env, s, op.request, op.principal, op.transport, op.run, op.now);
            var after := outcome.state;
            var result := RunResult(op.request, op.run, op.now);
            var valid := env.validResult(result);
            && outcome.reply == (if valid then Ok(result) else Err(ResultInvalid))
            && after.tools == s.tools
            && after.calls == s.calls
                + [AdapterCall(s.tools.tools[op.request.toolId], KeyOf(op.request), op.run, valid)]
            && after.answers == s.answers + (if valid then [Answer(op.request, result)] else [])
            && after.audit == s.audit + [Line(op.request, Requested)]
                              + (if valid then [Line(op.request, Finished(result.status))] else [])
            && after.records == (if valid && op.run.Returned? && KeyOf(op.request).Some?
                                 then s.records[KeyOf(op.request).value := IdempotencyRecord(DigestOf(op.request),
                                                                                             op.run.output)]
                                 else s.records)
  {
    hide Gate, Finish, RunResult;
    var r := op.request;
    var requested := Audited(s, r, Requested);
    GateIgnoresAudit(env, s, r, op.principal, op.transport);
    OpenGate(env, s, r, op.principal, op.transport);
    var result := RunResult(r, op.run, op.now);
    var called := requested.(calls := s.calls
                             + [AdapterCall(s.tools.tools[r.toolId], KeyOf(r), op.run, env.validResult(result))]);
    FinishShape(env, called, r, result);
  }

  lemma RefusedShape(env: Environment, s: State, op: Op)
    requires op.ExecuteOp? && PathOf(env, s, op) == Refused
    ensures Step(env, s, op) == s
  {
  }

  lemma AddedAnswerAgrees(s: State, after: State, a: Answer)
    requires AnswersAgree(s) && (after.answers == s.answers || after.answers == s.answers + [a])
    requires forall k :: k in s.records ==> k in after.records && after.records[k] == s.records[k]
    requires after.answers != s.answers ==> (a.result.status.Success? <==> a.result.body.Output?) && Agrees(after, a)
    ensures AnswersAgree(after)
  {
    hide KeyOf, DigestOf;
    forall b | b in after.answers ensures (b.result.status.Success? <==> b.result.body.Output?) && Agrees(after, b) {
      if b in s.answers { assert Agrees(s, b); }
    }
  }

  lemma StepKeepsAnswers(env: Environment, s: State, op: Op)
    requires AnswersAgree(s)
    ensures AnswersAgree(Step(env, s, op))
    ensures forall k :: k in s.records ==> k in Step(env, s, op).records && Step(env, s, op).records[k] == s.records[k]
  {
    hide Execute, Perform, Gate, AnswersAgree, Agrees;
    var after := Step(env, s, op);
    if op.RegistryOp? {
      RegistryStep(env, s, op);
      var a: Answer := Answer(SomeRequest(), MakeResult(SomeRequest(), Denied, Error(ToolUnknown), 0));
      AddedAnswerAgrees(s, after, a);
    } else {
      match PathOf(env, s, op)
      case Refused => RefusedShape(env, s, op);
      case Stopped =>
        StoppedShape(env, s, op);
        var gate := Gate(env, s, op.request, op.principal, op.transport).value;
        var a := Answer(op.request, MakeResult(op.request, gate.0, Error(gate.1), op.now));
        ErrorsAgree(after, a);
        AddedAnswerAgrees(s, after, a);
      case Replayed =>
        ReplayedShape(env, s, op);
        var a := Answer(op.request, ReplayResult(s, op));
        ReplayAgrees(s, after, op);
        AddedAnswerAgrees(s, after, a);
      case Ran =>
        RanShape(env, s, op);
        var a := Answer(op.request, RunResult(op.request, op.run, op.now));
        if env.validResult(a.result) { RunAgrees(after, op); }
        AddedAnswerAgrees(s, after, a);
    }
  }

  function SomeRequest(): ToolRequest {
    ToolRequest("", "", "", "", Facts("", "", "", "", None, None, ""), "", None)
  }

  lemma ErrorsAgree(s: State, a: Answer)
    requires a.result.body.Error?
    ensures Agrees(s, a)
  {
  }

  lemma ReplayAgrees(s: State, after: State, op: Op)
    requires op.ExecuteOp? && KeyOf(op.request).Some? && KeyOf(op.request).value in s.records
    requires after.records == s.records
    ensures var a := Answer(op.request, ReplayResult(s, op));
            (a.result.status.Success? <==> a.result.body.Output?) && Agrees(after, a)
  {
  }

  lemma RunAgrees(after: State, op: Op)
    requires op.ExecuteOp?
    requires op.run.Returned? && KeyOf(op.request).Some? ==>
               && KeyOf(op.request).value in after.records
               && after.records[KeyOf(op.request).value] == IdempotencyRecord(DigestOf(op.request), op.run.output)
    ensures var a := Answer(op.request, RunResult(op.request, op.run, op.now));
            (a.result.status.Success? <==> a.result.body.Output?) && Agrees(after, a)
  {
  }

  lemma {:induction false} RunKeepsAnswers(env: Environment, ops: seq<Op>)
    ensures AnswersAgree(RunAll(env, EMPTY, ops))
  {
    hide Step, AnswersAgree;
    if ops == [] {
      EmptyAgrees();
    } else {
      RunKeepsAnswers(env, ops[..|ops| - 1]);
      StepKeepsAnswers(env, RunAll(env, EMPTY, ops[..|ops| - 1]), ops[|ops| - 1]);
    }
  }

  lemma EmptyAgrees()
    ensures AnswersAgree(EMPTY)
  {
  }

  /** In every run, whatever the adapters return: two successful answers for one tenant, tool and
      key carry the same output, and were given to requests that agree in everything but call id, run
      id and correlation id; so a replay never reaches another actor, organization or workspace. */
  lemma SameKeySameAnswer(env: Environment, ops: seq<Op>, i: nat, j: nat)
    requires var answers := RunAll(env, EMPTY, ops).answers;
             && i < |answers| && j < |answers| && answers[i].result.status.Success? && answers[j].result.status.Success?
             && KeyOf(answers[i].request).Some? && KeyOf(answers[i].request) == KeyOf(answers[j].request)
    ensures var a, b := RunAll(env, EMPTY, ops).answers[i], RunAll(env, EMPTY, ops).answers[j];
            && a.result.body == b.result.body
            && a.request.toolId == b.request.toolId && a.request.facts == b.request.facts
            && a.request.arguments == b.request.arguments
  {
    hide RunAll;
    RunKeepsAnswers(env, ops);
    var s := RunAll(env, EMPTY, ops);
    assert Agrees(s, s.answers[i]) && Agrees(s, s.answers[j]);
  }

  /** `put` never raises in a sequential run. */
  lemma KeyIsNeverTaken(env: Environment, s: State, r: ToolRequest, p: Option<Principal>, transport: Option<string>,
                        run: AdapterRun, now: int)
    ensures Execute(env, s, r, p, transport, run, now).reply != Err(KeyTaken)
  {
    hide Gate, RunResult;
    var op := ExecuteOp(r, p, transport, run, now);
    GateIgnoresAudit(env, s, r, p, transport);
    if PathOf(env, s, op) == Ran { RanShape(env, s, op); }
  }

  // ----- Counting -----

  function CountAudit(audit: seq<AuditRecord>, outcome: AuditOutcome): nat {
    if audit == [] then 0
    else CountAudit(audit[..|audit| - 1], outcome) + (if audit[|audit| - 1].outcome == outcome then 1 else 0)
  }

  lemma {:induction false} CountAuditSplit(a: seq<AuditRecord>, b: seq<AuditRecord>, outcome: AuditOutcome)
    ensures CountAudit(a + b, outcome) == CountAudit(a, outcome) + CountAudit(b, outcome)
  {
    if b == [] {
      assert a + b == a;
    } else {
      CountAuditSplit(a, b[..|b| - 1], outcome);
      assert (a + b)[..|a + b| - 1] == a + b[..|b| - 1];
    }
  }

  lemma CountOne(x: AuditRecord, outcome: AuditOutcome)
    ensures CountAudit([x], outcome) == (if x.outcome == outcome then 1 else 0)
    ensures CountAudit([], outcome) == 0
  {
  }

  lemma CountTwo(x: AuditRecord, y: AuditRecord, outcome: AuditOutcome)
    ensures CountAudit([x, y], outcome) == CountAudit([x], outcome) + CountAudit([y], outcome)
  {
    assert [x, y] == [x] + [y];
    CountAuditSplit([x], [y], outcome);
  }

  /** How many calls of adapters succeeded, by whether the result was let out. */
  function Successes(calls: seq<AdapterCall>, accepted: bool): nat {
    if calls == [] then 0
    else
      Successes(calls[..|calls| - 1], accepted)
      + (if calls[|calls| - 1].run.Returned? && calls[|calls| - 1].accepted == accepted then 1 else 0)
  }

  lemma SuccessesMore(calls: seq<AdapterCall>, c: AdapterCall, accepted: bool)
    ensures Successes(calls + [c], accepted)
            == Successes(calls, accepted) + (if c.run.Returned? && c.accepted == accepted then 1 else 0)
  {
    assert (calls + [c])[..|calls|] == calls;
  }

  /** The audit trail tells the adapters' successes: SUCCESS lines less IDEMPOTENT_REPLAY lines. */
  ghost predicate Conserved(s: State) {
    CountAudit(s.audit, Finished(Success)) == CountAudit(s.audit, IdempotentReplay) + Successes(s.calls, true)
  }

  lemma StepConserves(env: Environment, s: State, op: Op)
    requires Conserved(s)
    ensures Conserved(Step(env, s, op))
  {
    hide Execute, Perform, Gate, CountAudit, Successes;
    var after := Step(env, s, op);
    if op.RegistryOp? {
      RegistryStep(env, s, op);
    } else {
      var r := op.request;
      match PathOf(env, s, op)
      case Refused => RefusedShape(env, s, op);
      case Stopped =>
        StoppedShape(env, s, op);
        var gate := Gate(env, s, r, op.principal, op.transport).value;
        CountLines(s.audit, r, if after.audit == s.audit + [Line(r, Requested)] + [] then []
                   else [Line(r, Finished(gate.0))]);
        CountOne(Line(r, Finished(gate.0)), Finished(Success));
        CountOne(Line(r, Finished(gate.0)), IdempotentReplay);
      case Replayed =>
        ReplayedShape(env, s, op);
        ReplayConserves(env, s, op);
      case Ran =>
        RanShape(env, s, op);
        RanConserves(env, s, op);
    }
  }

  lemma CountLines(audit: seq<AuditRecord>, r: ToolRequest, more: seq<AuditRecord>)
    ensures forall o: AuditOutcome :: o != Requested ==>
                                        CountAudit(audit + [Line(r, Requested)] + more, o)
                                            == CountAudit(audit, o) + CountAudit(more, o)
  {
    forall o: AuditOutcome | o != Requested
      ensures CountAudit(audit + [Line(r, Requested)] + more, o) == CountAudit(audit, o) + CountAudit(more, o)
    {
      CountAuditSplit(audit + [Line(r, Requested)], more, o);
      CountAuditSplit(audit, [Line(r, Requested)], o);
      CountOne(Line(r, Requested), o);
    }
  }

  lemma ReplayConserves(env: Environment, s: State, op: Op)
    requires op.ExecuteOp? && PathOf(env, s, op) == Replayed && Conserved(s)
    ensures Conserved(Step(env, s, op))
  {
    hide Step, Gate, CountAudit, Successes;
    ReplayedShape(env, s, op);
    var r := op.request;
    var success, replay, rejected := Line(r, Finished(Success)), Line(r, IdempotentReplay), Line(r, Finished(Rejected));
    CountLines(s.audit, r, []);
    CountLines(s.audit, r, [success, replay]);
    CountLines(s.audit, r, [rejected]);
    forall o: AuditOutcome ensures CountAudit([success, replay], o)
                                   == (if o == Finished(Success) then 1 else 0)
                                       + (if o == IdempotentReplay then 1 else 0)
    {
      CountTwo(success, replay, o);
      CountOne(success, o);
      CountOne(replay, o);
    }
    CountOne(rejected, Finished(Success));
    CountOne(rejected, IdempotentReplay);
  }

  lemma RanConserves(env: Environment, s: State, op: Op)
    requires op.ExecuteOp? && PathOf(env, s, op) == Ran && Conserved(s)
    ensures Conserved(Step(env, s, op))
  {
    hide Execute, Gate, CountAudit, Successes;
    RanShape(env, s, op);
    var r := op.request;
    var result := RunResult(r, op.run, op.now);
    var line := Line(r, Finished(result.status));
    CountLines(s.audit, r, []);
    CountLines(s.audit, r, [line]);
    CountOne(line, Finished(Success));
    CountOne(line, IdempotentReplay);
    SuccessesMore(s.calls, AdapterCall(s.tools.tools[r.toolId], KeyOf(r), op.run, env.validResult(result)), true);
  }

  /** In every run: SUCCESS lines less IDEMPOTENT_REPLAY lines are the adapter successes whose
      result was valid. An adapter success whose result is not valid leaves no line at all. */
  lemma {:induction false} AuditTellsAdapterSuccesses(env: Environment, ops: seq<Op>)
    ensures Conserved(RunAll(env, EMPTY, ops))
  {
    hide Step;
    if ops != [] {
      AuditTellsAdapterSuccesses(env, ops[..|ops| - 1]);
      StepConserves(env, RunAll(env, EMPTY, ops[..|ops| - 1]), ops[|ops| - 1]);
    }
  }

  // ----- Once per key -----

  /** How many calls of adapters for a key succeeded, by whether the result was let out. */
  function KeySuccesses(calls: seq<AdapterCall>, key: CacheKey, accepted: bool): nat {
    if calls == [] then 0
    else
      var c := calls[|calls| - 1];
      KeySuccesses(calls[..|calls| - 1], key, accepted)
      + (if c.key == Some(key) && c.run.Returned? && c.accepted == accepted then 1 else 0)
  }

  lemma KeySuccessesMore(calls: seq<AdapterCall>, c: AdapterCall, key: CacheKey, accepted: bool)
    ensures KeySuccesses(calls + [c], key, accepted)
            == KeySuccesses(calls, key, accepted)
                + (if c.key == Some(key) && c.run.Returned? && c.accepted == accepted then 1 else 0)
  {
    assert (calls + [c])[..|calls|] == calls;
  }

  /** For each key, one success was let out if the key is stored, and none if it is not. */
  lemma {:induction false} OneAcceptedSuccessPerKey(env: Environment, ops: seq<Op>, key: CacheKey)
    ensures var s := RunAll(env, EMPTY, ops);
            KeySuccesses(s.calls, key, true) == (if key in s.records then 1 else 0)
  {
    hide Step, KeySuccesses;
    if ops == [] {
      NoCalls(key);
    } else {
      var front, op := ops[..|ops| - 1], ops[|ops| - 1];
      OneAcceptedSuccessPerKey(env, front, key);
      StepCountsKey(env, RunAll(env, EMPTY, front), op, key);
    }
  }

  lemma NoCalls(key: CacheKey)
    ensures KeySuccesses([], key, true) == 0 && KeySuccesses([], key, false) == 0
  {
  }

  lemma StepCountsKey(env: Environment, s: State, op: Op, key: CacheKey)
    requires KeySuccesses(s.calls, key, true) == (if key in s.records then 1 else 0)
    ensures KeySuccesses(Step(env, s, op).calls, key, true) == (if key in Step(env, s, op).records then 1 else 0)
  {
    hide Execute, Perform, Gate, KeySuccesses;
    if op.RegistryOp? {
      RegistryStep(env, s, op);
    } else {
      match PathOf(env, s, op)
      case Refused => RefusedShape(env, s, op);
      case Stopped => StoppedShape(env, s, op);
      case Replayed => ReplayedShape(env, s, op);
      case Ran =>
        RanShape(env, s, op);
        var valid := env.validResult(RunResult(op.request, op.run, op.now));
        KeySuccessesMore(s.calls, AdapterCall(s.tools.tools[op.request.toolId], KeyOf(op.request), op.run, valid),
                         key, true);
    }
  }

  /** In one run an adapter succeeded at most once for a key exactly when no success was thrown away
      as invalid, or one was and the key was never stored. */
  lemma OncePerRunIff(env: Environment, ops: seq<Op>, key: CacheKey)
    ensures var s := RunAll(env, EMPTY, ops);
            TotalSuccesses(env, ops, key) <= 1 <==>
            KeySuccesses(s.calls, key, false) == 0 || (KeySuccesses(s.calls, key, false) == 1 && key !in s.records)
  {
    hide RunAll, KeySuccesses;
    OneAcceptedSuccessPerKey(env, ops, key);
  }

  /** How often, in a whole run, an adapter succeeded for a key. */
  function TotalSuccesses(env: Environment, ops: seq<Op>, key: CacheKey): nat {
    var calls := RunAll(env, EMPTY, ops).calls;
    KeySuccesses(calls, key, true) + KeySuccesses(calls, key, false)
  }

  /** Some registration and some principal let the request through: it is valid, declares a permission, and
      an adapter takes its arguments. */
  ghost predicate CanPass(env: Environment, r: ToolRequest) {
    && env.validRequest(r) && Items(r.facts.permissionRefs) != []
    && exists adapter: string :: env.validArguments(adapter, r.arguments)
  }

  /** The result schema accepts every output for every keyed request that can pass the gates. */
  ghost predicate KeyedOutputsAccepted(env: Environment) {
    forall r: ToolRequest, output: string, now: int :: r.idempotencyKey.Some? && CanPass(env, r) ==>
      env.validResult(MakeResult(r, Success, Output(output), now))
  }

  lemma RanCanPass(env: Environment, s: State, op: Op)
    requires op.ExecuteOp? && PathOf(env, s, op) == Ran
    ensures CanPass(env, op.request)
  {
    var t := s.tools.tools[op.request.toolId];
    assert env.validArguments(t.adapter, op.request.arguments);
    assert t.requiredPermission in Items(op.request.facts.permissionRefs);
  }

  lemma {:induction false} NothingIsDiscarded(env: Environment, ops: seq<Op>, key: CacheKey)
    requires KeyedOutputsAccepted(env)
    ensures KeySuccesses(RunAll(env, EMPTY, ops).calls, key, false) == 0
  {
    hide Step, KeySuccesses, KeyedOutputsAccepted;
    if ops == [] {
      NoCalls(key);
    } else {
      var front, op := ops[..|ops| - 1], ops[|ops| - 1];
      NothingIsDiscarded(env, front, key);
      StepDiscardsNothing(env, RunAll(env, EMPTY, front), op, key);
    }
  }

  lemma StepDiscardsNothing(env: Environment, s: State, op: Op, key: CacheKey)
    requires KeyedOutputsAccepted(env)
    ensures KeySuccesses(Step(env, s, op).calls, key, false) == KeySuccesses(s.calls, key, false)
  {
    hide Execute, Perform, Gate, KeySuccesses, CanPass;
    if op.RegistryOp? {
      RegistryStep(env, s, op);
    } else {
      match PathOf(env, s, op)
      case Refused => RefusedShape(env, s, op);
      case Stopped => StoppedShape(env, s, op);
      case Replayed => ReplayedShape(env, s, op);
      case Ran =>
        RanShape(env, s, op);
        RanCanPass(env, s, op);
        var valid := env.validResult(RunResult(op.request, op.run, op.now));
        KeySuccessesMore(s.calls, AdapterCall(s.tools.tools[op.request.toolId], KeyOf(op.request), op.run, valid),
                         key, false);
    }
  }

  // ----- A discarded success -----

  /** A registration that asks for nothing but a permission that the request declares. */
  function ToolFor(r: ToolRequest, adapter: string): Registration
    requires Items(r.facts.permissionRefs) != []
  {
    Registration(r.toolId, Items(r.facts.permissionRefs)[0], {}, adapter, true, true, Active, Optional, false,
                 None, None, None, None, None)
  }

  function CallerOf(r: ToolRequest): Principal
    requires Items(r.facts.permissionRefs) != []
  {
    Principal(r.facts.actorId, r.facts.tenantId, r.facts.organizationId, r.facts.workspaceId,
              {Items(r.facts.permissionRefs)[0]}, {}, true)
  }

  /** Registers a tool and sends one request for it twice. */
  function SentTwice(r: ToolRequest, adapter: string, output: string, now: int): seq<Op>
    requires Items(r.facts.permissionRefs) != []
  {
    var execute := ExecuteOp(r, Some(CallerOf(r)), None, Returned(output), now);
    [RegistryOp(Register(ToolFor(r, adapter))), execute, execute]
  }

  lemma RegisteredToolRuns(env: Environment, s: State, r: ToolRequest, adapter: string, output: string, now: int)
    requires env.validRequest(r) && Items(r.facts.permissionRefs) != [] && env.validArguments(adapter, r.arguments)
    requires r.toolId in s.tools.tools && s.tools.tools[r.toolId] == ToolFor(r, adapter) && s.records == map[]
    ensures PathOf(env, s, ExecuteOp(r, Some(CallerOf(r)), None, Returned(output), now)) == Ran
  {
    assert ToolFor(r, adapter).requiredPermission in Items(r.facts.permissionRefs);
  }

  /** A success whose result is invalid is neither audited nor stored: in a run from nothing, the same
      request, sent again, has the adapter succeed a second time for its key. */
  lemma DiscardedSuccessIsRepeated(env: Environment, r: ToolRequest, adapter: string, output: string, now: int)
    requires r.idempotencyKey.Some? && env.validRequest(r) && Items(r.facts.permissionRefs) != []
    requires env.validArguments(adapter, r.arguments)
    requires !env.validResult(MakeResult(r, Success, Output(output), now))
    ensures TotalSuccesses(env, SentTwice(r, adapter, output, now), KeyOf(r).value) == 2
    ensures CountAudit(RunAll(env, EMPTY, SentTwice(r, adapter, output, now)).audit, Finished(Success)) == 0
  {
    hide Gate, KeySuccesses, CountAudit, MakeResult, PathOf;
    var ops, key := SentTwice(r, adapter, output, now), KeyOf(r).value;
    var first := Step(env, EMPTY, ops[0]);
    assert first.tools.tools == map[r.toolId := ToolFor(r, adapter)];
    RegisteredToolRuns(env, first, r, adapter, output, now);
    RanOnce(env, first, ops[1]);
    var second := Step(env, first, ops[1]);
    RegisteredToolRuns(env, second, r, adapter, output, now);
    RanOnce(env, second, ops[2]);
    ThreeSteps(env, EMPTY, ops[0], ops[1], ops[2]);
    var call := AdapterCall(ToolFor(r, adapter), KeyOf(r), Returned(output), false);
    NoCalls(key);
    KeySuccessesMore(first.calls, call, key, true);
    KeySuccessesMore(first.calls, call, key, false);
    KeySuccessesMore(second.calls, call, key, true);
    KeySuccessesMore(second.calls, call, key, false);
    CountLines(first.audit, r, []);
    CountLines(second.audit, r, []);
    CountOne(Line(r, Requested), Finished(Success));
  }

  lemma ThreeSteps(env: Environment, s: State, a: Op, b: Op, c: Op)
    ensures RunAll(env, s, [a, b, c]) == Step(env, Step(env, Step(env, s, a), b), c)
  {
    hide Step;
    TwoSteps(env, s, a, b);
    assert [a, b, c][..2] == [a, b];
  }

  /** No run of an environment has an adapter succeed twice for a key. */
  ghost predicate AlwaysOnce(env: Environment) {
    forall ops: seq<Op>, key: CacheKey :: TotalSuccesses(env, ops, key) <= 1
  }

  /** "At most once per key" holds in every run exactly if the result schema accepts every output for
      every keyed request that can pass the gates. */
  lemma AlwaysOnceIffOutputsAccepted(env: Environment)
    ensures AlwaysOnce(env) <==> KeyedOutputsAccepted(env)
  {
    hide TotalSuccesses, MakeResult;
    if KeyedOutputsAccepted(env) {
      forall ops: seq<Op>, key: CacheKey ensures TotalSuccesses(env, ops, key) <= 1 {
        AdapterSucceedsOnce(env, ops, key);
      }
    } else {
      var r: ToolRequest, output: string, now: int :|
        r.idempotencyKey.Some? && CanPass(env, r) && !env.validResult(MakeResult(r, Success, Output(output), now));
      var adapter: string :| env.validArguments(adapter, r.arguments);
      DiscardedSuccessIsRepeated(env, r, adapter, output, now);
    }
  }

  /** And then an adapter succeeds once if the key is stored, and never if it is not. */
  lemma AdapterSucceedsOnce(env: Environment, ops: seq<Op>, key: CacheKey)
    requires KeyedOutputsAccepted(env)
    ensures TotalSuccesses(env, ops, key) == (if key in RunAll(env, EMPTY, ops).records then 1 else 0)
  {
    hide RunAll, KeySuccesses, KeyedOutputsAccepted;
    OneAcceptedSuccessPerKey(env, ops, key);
    NothingIsDiscarded(env, ops, key);
  }

  lemma TwoSteps(env: Environment, s: State, a: Op, b: Op)
    ensures RunAll(env, s, [a, b]) == Step(env, Step(env, s, a), b)
  {
    hide Step;
    assert [a][..0] == [];
    assert RunAll(env, s, [a]) == Step(env, s, a);
    assert [a, b][..1] == [a];
  }

  lemma RanOnce(env: Environment, s: State, op: Op)
    requires op.ExecuteOp? && PathOf(env, s, op) == Ran && op.run.Returned?
    ensures op.request.toolId in s.tools.tools
    ensures var after := Step(env, s, op);
            var valid := env.validResult(MakeResult(op.request, Success, Output(op.run.output), op.now));
            && after.tools == s.tools
            && after.calls == s.calls
                + [AdapterCall(s.tools.tools[op.request.toolId], KeyOf(op.request), op.run, valid)]
            && after.audit == s.audit + [Line(op.request, Requested)]
                + (if valid then [Line(op.request, Finished(Success))] else [])
            && (!valid ==> after.records == s.records)
  {
    hide Execute, Gate;
    RanShape(env, s, op);
  }

  // ----- Lifecycle -----

  predicate Dormant(t: Registration) {
    t.lifecycle.Suspended? || t.lifecycle.Retired?
  }

  function CallsOn(calls: seq<AdapterCall>, toolId: string): nat {
    if calls == [] then 0
    else CallsOn(calls[..|calls| - 1], toolId) + (if calls[|calls| - 1].tool.toolId == toolId then 1 else 0)
  }

  lemma CallsOnMore(calls: seq<AdapterCall>, c: AdapterCall, toolId: string)
    ensures CallsOn(calls + [c], toolId) == CallsOn(calls, toolId) + (if c.tool.toolId == toolId then 1 else 0)
  {
    assert (calls + [c])[..|calls|] == calls;
  }

  ghost predicate ToolsKeyed(s: State) {
    forall id :: id in s.tools.tools ==> s.tools.tools[id].toolId == id
  }

  lemma ChangeKeepsId(t: Registration, c: RegistryCall)
    requires !c.Register? && !c.RegisterDraft? && Change(t, c).Ok?
    ensures Change(t, c).value.1.toolId == t.toolId && Change(t, c).value.1.ownerActorId == t.ownerActorId
    ensures Dormant(t) ==> Dormant(Change(t, c).value.1)
    ensures t.killSwitchActive && !c.ClearKillSwitch? ==> Change(t, c).value.1.killSwitchActive
  {
  }

  /** A registry call changes its own tool only, never revives a dormant one, and only
      `clear_kill_switch` switches a kill switch off. */
  lemma RegistryKeeps(env: Environment, s: State, c: RegistryCall, id: string)
    requires ToolsKeyed(s) && id in s.tools.tools
    ensures var after := Step(env, s, RegistryOp(c)).tools.tools;
            && id in after
            && (Dormant(s.tools.tools[id]) ==> Dormant(after[id]))
            && (s.tools.tools[id].killSwitchActive && !(c.ClearKillSwitch? && c.toolId == id) ==>
                after[id].killSwitchActive)
  {
    hide Change, Dormant;
    if !c.Register? && !c.RegisterDraft? && c.toolId in s.tools.tools && Change(s.tools.tools[c.toolId], c).Ok? {
      ChangeKeepsId(s.tools.tools[c.toolId], c);
    }
  }

  lemma StepKeepsKeyed(env: Environment, s: State, op: Op)
    requires ToolsKeyed(s)
    ensures ToolsKeyed(Step(env, s, op))
  {
    hide Execute, Change, Gate;
    if op.RegistryOp? {
      var c := op.call;
      if !c.Register? && !c.RegisterDraft? && c.toolId in s.tools.tools && Change(s.tools.tools[c.toolId], c).Ok? {
        ChangeKeepsId(s.tools.tools[c.toolId], c);
      }
    } else {
      ExecuteKeepsTools(env, s, op);
    }
  }

  lemma ExecuteKeepsTools(env: Environment, s: State, op: Op)
    requires op.ExecuteOp?
    ensures Step(env, s, op).tools == s.tools
  {
    hide Execute, Gate;
    match PathOf(env, s, op)
    case Refused => RefusedShape(env, s, op);
    case Stopped => StoppedShape(env, s, op);
    case Replayed => ReplayedShape(env, s, op);
    case Ran => RanShape(env, s, op);
  }

  /** An execution reaches an adapter only through an open gate. */
  lemma CallsNeedAnOpenGate(env: Environment, s: State, op: Op, id: string)
    requires ToolsKeyed(s) && op.ExecuteOp?
    ensures var after := Step(env, s, op);
            CallsOn(after.calls, id) != CallsOn(s.calls, id) ==>
              && id in s.tools.tools && s.tools.tools[id].lifecycle.Active? && s.tools.tools[id].allowlisted
              && !s.tools.tools[id].killSwitchActive
  {
    hide Execute, Gate, CallsOn;
    match PathOf(env, s, op)
    case Refused => RefusedShape(env, s, op);
    case Stopped => StoppedShape(env, s, op);
    case Replayed => ReplayedShape(env, s, op);
    case Ran =>
      RanShape(env, s, op);
      OpenGate(env, s, op.request, op.principal, op.transport);
      var valid := env.validResult(RunResult(op.request, op.run, op.now));
      CallsOnMore(s.calls, AdapterCall(s.tools.tools[op.request.toolId], KeyOf(op.request), op.run, valid), id);
  }

  /** A tool that was suspended or retired stays so, and its adapter is never called again. */
  lemma {:induction false} DormantToolsNeverRun(env: Environment, s: State, ops: seq<Op>, id: string)
    requires ToolsKeyed(s) && id in s.tools.tools && Dormant(s.tools.tools[id])
    ensures var after := RunAll(env, s, ops);
            && ToolsKeyed(after) && id in after.tools.tools && Dormant(after.tools.tools[id])
            && CallsOn(after.calls, id) == CallsOn(s.calls, id)
  {
    hide Step, CallsOn, ToolsKeyed;
    if ops != [] {
      var front, op := ops[..|ops| - 1], ops[|ops| - 1];
      DormantToolsNeverRun(env, s, front, id);
      var v := RunAll(env, s, front);
      StepKeepsKeyed(env, v, op);
      if op.RegistryOp? {
        RegistryKeeps(env, v, op.call, id);
        RegistryStep(env, v, op);
      } else {
        ExecuteKeepsTools(env, v, op);
        CallsNeedAnOpenGate(env, v, op, id);
      }
    }
  }

  /** From a kill switch on until it is cleared, the adapter is not called. */
  lemma {:induction false} KilledToolsNeverRun(env: Environment, s: State, ops: seq<Op>, id: string)
    requires ToolsKeyed(s) && id in s.tools.tools && s.tools.tools[id].killSwitchActive
    requires forall k :: 0 <= k < |ops| ==>
             !(ops[k].RegistryOp? && ops[k].call.ClearKillSwitch? && ops[k].call.toolId == id)
    ensures var after := RunAll(env, s, ops);
            && ToolsKeyed(after) && id in after.tools.tools && after.tools.tools[id].killSwitchActive
            && CallsOn(after.calls, id) == CallsOn(s.calls, id)
  {
    hide Step, CallsOn, ToolsKeyed, Dormant;
    if ops != [] {
      var front, op := ops[..|ops| - 1], ops[|ops| - 1];
      KilledToolsNeverRun(env, s, front, id);
      var v := RunAll(env, s, front);
      StepKeepsKeyed(env, v, op);
      if op.RegistryOp? {
        RegistryKeeps(env, v, op.call, id);
        RegistryStep(env, v, op);
      } else {
        ExecuteKeepsTools(env, v, op);
        CallsNeedAnOpenGate(env, v, op, id);
      }
    }
  }

  // ----- Maker and checker -----

  ghost predicate Drafted(s: State, id: string) {
    exists e :: e in s.tools.events && e.kind.DraftRegistered? && e.toolId == id
  }

  ghost predicate ApprovedBy(s: State, id: string, actor: string) {
    ToolEvent(ToolApproved, id, actor) in s.tools.events
  }

  /** Past DRAFT, a tool entered as a draft carries the recorded approval of somebody else. */
  ghost predicate Checked(s: State, t: Registration) {
    t.lifecycle.Approved? || t.lifecycle.Active? || t.lifecycle.Suspended? ==>
      t.approvedBy.Some? && t.ownerActorId != t.approvedBy && ApprovedBy(s, t.toolId, t.approvedBy.value)
  }

  ghost predicate DraftsAreChecked(s: State) {
    && ToolsKeyed(s)
    && (forall id :: Drafted(s, id) ==> id in s.tools.tools && Checked(s, s.tools.tools[id]))
    && (forall c :: c in s.calls && Drafted(s, c.tool.toolId) ==> c.tool.lifecycle.Active? && Checked(s, c.tool))
    && (forall c :: c in s.calls ==> c.tool.toolId in s.tools.tools)
  }

  lemma ChangeKeepsChecked(s: State, after: State, c: RegistryCall)
    requires !c.Register? && !c.RegisterDraft? && c.toolId in s.tools.tools && ToolsKeyed(s)
    requires Change(s.tools.tools[c.toolId], c).Ok? && Checked(s, s.tools.tools[c.toolId])
    requires after.tools.events == s.tools.events
             + [ToolEvent(Change(s.tools.tools[c.toolId], c).value.0, c.toolId, c.actorId)]
    ensures Checked(after, Change(s.tools.tools[c.toolId], c).value.1)
  {
  }

  lemma CheckedLasts(s: State, after: State, t: Registration)
    requires Checked(s, t) && forall e :: e in s.tools.events ==> e in after.tools.events
    ensures Checked(after, t)
  {
  }

  lemma RegistryKeepsChecked(env: Environment, s: State, c: RegistryCall)
    requires DraftsAreChecked(s)
    ensures DraftsAreChecked(Step(env, s, RegistryOp(c)))
  {
    hide Change, Checked, Recordable;
    var after := Step(env, s, RegistryOp(c));
    StepKeepsKeyed(env, s, RegistryOp(c));
    RegistryStep(env, s, RegistryOp(c));
    NewDrafts(env, s, c);
    assert forall e :: e in s.tools.events ==> e in after.tools.events;
    forall id | Drafted(after, id) ensures id in after.tools.tools && Checked(after, after.tools.tools[id]) {
      RegistryKeepsOneChecked(env, s, c, id);
    }
    forall call | call in after.calls && Drafted(after, call.tool.toolId)
      ensures call.tool.lifecycle.Active? && Checked(after, call.tool)
    {
      CheckedLasts(s, after, call.tool);
    }
    forall call | call in after.calls ensures call.tool.toolId in after.tools.tools {
      RegistryKeeps(env, s, c, call.tool.toolId);
    }
  }

  /** A draft is only ever entered under an id that was free. */
  lemma NewDrafts(env: Environment, s: State, c: RegistryCall)
    ensures forall id :: Drafted(Step(env, s, RegistryOp(c)), id) && !Drafted(s, id) ==>
                           c.RegisterDraft? && id == c.registration.toolId && id !in s.tools.tools
  {
    hide Recordable;
    var after := Step(env, s, RegistryOp(c));
    forall id | Drafted(after, id) && !Drafted(s, id)
      ensures c.RegisterDraft? && id == c.registration.toolId && id !in s.tools.tools
    {
      var e :| e in after.tools.events && e.kind.DraftRegistered? && e.toolId == id;
      assert e !in s.tools.events;
    }
  }

  lemma RegistryKeepsOneChecked(env: Environment, s: State, c: RegistryCall, id: string)
    requires DraftsAreChecked(s) && Drafted(Step(env, s, RegistryOp(c)), id)
    ensures id in Step(env, s, RegistryOp(c)).tools.tools
    ensures Checked(Step(env, s, RegistryOp(c)), Step(env, s, RegistryOp(c)).tools.tools[id])
  {
    hide Change, Recordable;
    var after := Step(env, s, RegistryOp(c));
    NewDrafts(env, s, c);
    if Drafted(s, id) {
      CheckedStep(env, s, c, id);
    }
  }

  lemma CheckedStep(env: Environment, s: State, c: RegistryCall, id: string)
    requires ToolsKeyed(s) && id in s.tools.tools && Checked(s, s.tools.tools[id])
    ensures id in Step(env, s, RegistryOp(c)).tools.tools
    ensures Checked(Step(env, s, RegistryOp(c)), Step(env, s, RegistryOp(c)).tools.tools[id])
  {
    hide Change, Recordable, Checked;
    var after := Step(env, s, RegistryOp(c));
    CheckedLasts(s, after, s.tools.tools[id]);
    if !c.Register? && !c.RegisterDraft? && c.toolId in s.tools.tools && Change(s.tools.tools[c.toolId], c).Ok? {
      ChangeKeepsId(s.tools.tools[c.toolId], c);
      if c.toolId == id && after != s { ChangeKeepsChecked(s, after, c); }
    }
  }

  lemma ExecuteKeepsChecked(env: Environment, s: State, op: Op)
    requires DraftsAreChecked(s) && op.ExecuteOp?
    ensures DraftsAreChecked(Step(env, s, op))
  {
    hide Execute, Gate, Checked;
    var after := Step(env, s, op);
    ExecuteKeepsTools(env, s, op);
    match PathOf(env, s, op)
    case Refused => RefusedShape(env, s, op);
    case Stopped =>
      StoppedShape(env, s, op);
      SameChecked(s, after);
    case Replayed =>
      ReplayedShape(env, s, op);
      SameChecked(s, after);
    case Ran =>
      RanShape(env, s, op);
      OpenGate(env, s, op.request, op.principal, op.transport);
      var valid := env.validResult(RunResult(op.request, op.run, op.now));
      var tool := s.tools.tools[op.request.toolId];
      CalledChecked(s, after, AdapterCall(tool, KeyOf(op.request), op.run, valid));
  }

  lemma SameChecked(s: State, after: State)
    requires DraftsAreChecked(s) && after.tools == s.tools && after.calls == s.calls
    ensures DraftsAreChecked(after)
  {
    assert forall t :: Checked(s, t) <==> Checked(after, t);
    assert forall id :: Drafted(s, id) <==> Drafted(after, id);
  }

  lemma CalledChecked(s: State, after: State, c: AdapterCall)
    requires DraftsAreChecked(s) && after.tools == s.tools && after.calls == s.calls + [c]
    requires c.tool.toolId in s.tools.tools && s.tools.tools[c.tool.toolId] == c.tool && c.tool.lifecycle.Active?
    ensures DraftsAreChecked(after)
  {
    assert forall t :: Checked(s, t) <==> Checked(after, t);
    assert forall id :: Drafted(s, id) <==> Drafted(after, id);
  }

  /** In every run: if the adapter of a tool entered by `register_draft` was ever called, the tool
      had been approved, on record, by somebody other than its owner. */
  lemma {:induction false} DraftsRunOnlyWhenChecked(env: Environment, ops: seq<Op>)
    ensures DraftsAreChecked(RunAll(env, EMPTY, ops))
  {
    hide Step, DraftsAreChecked;
    if ops == [] {
      NothingDrafted();
    } else {
      DraftsRunOnlyWhenChecked(env, ops[..|ops| - 1]);
      var v, op := RunAll(env, EMPTY, ops[..|ops| - 1]), ops[|ops| - 1];
      if op.RegistryOp? { RegistryKeepsChecked(env, v, op.call); } else { ExecuteKeepsChecked(env, v, op); }
    }
  }

  lemma NothingDrafted()
    ensures DraftsAreChecked(EMPTY)
  {
  }

  // ----- What the policy NONE does not do -----

  function AsOptional(t: Registration): Registration {
    t.(idempotencyPolicy := Optional)
  }

  /** The same state, but for the policy of one tool. */
  function WithOptional(s: State, toolId: string): State
    requires toolId in s.tools.tools
  {
    s.(tools := s.tools.(tools := s.tools.tools[toolId := AsOptional(s.tools.tools[toolId])]))
  }

  /** A tool whose policy is NONE passes the gates, replays, stores and is audited exactly like one whose
      policy is OPTIONAL: the answer and all that the call leaves behind are the same. */
  lemma NonePolicyIsOptional(env: Environment, s: State, op: Op)
    requires op.ExecuteOp? && op.request.toolId in s.tools.tools
    requires s.tools.tools[op.request.toolId].idempotencyPolicy.NoPolicy?
    ensures var none := Execute(env, s, op.request, op.principal, op.transport, op.run, op.now);
            var optional := Execute(env, WithOptional(s, op.request.toolId), op.request, op.principal, op.transport,
                                    op.run, op.now);
            && none.reply == optional.reply && none.state.records == optional.state.records
            && none.state.audit == optional.state.audit && none.state.answers == optional.state.answers
            && (|| (none.state.calls == s.calls && optional.state.calls == s.calls)
                || exists c :: none.state.calls == s.calls + [c]
                               && optional.state.calls == s.calls + [c.(tool := AsOptional(c.tool))])
  {
    hide Execute, ToolGate;
    var u := WithOptional(s, op.request.toolId);
    NonePassesLikeOptional(env, s.tools.tools[op.request.toolId], op.request, op.principal);
    match PathOf(env, s, op)
    case Refused => RefusedTwice(env, s, u, op);
    case Stopped =>
      StoppedShape(env, s, op);
      StoppedShape(env, u, op);
      SameFinish(env, s, u, op);
    case Replayed =>
      ReplayedShape(env, s, op);
      ReplayedShape(env, u, op);
      SameFinish(env, s, u, op);
    case Ran =>
      RanShape(env, s, op);
      RanShape(env, u, op);
      var valid := env.validResult(RunResult(op.request, op.run, op.now));
      var c := AdapterCall(s.tools.tools[op.request.toolId], KeyOf(op.request), op.run, valid);
      var none := Execute(env, s, op.request, op.principal, op.transport, op.run, op.now);
      assert none.state.calls == s.calls + [c];
  }

  lemma NonePassesLikeOptional(env: Environment, t: Registration, r: ToolRequest, p: Option<Principal>)
    requires t.idempotencyPolicy.NoPolicy?
    ensures ToolGate(env, AsOptional(t), r, p) == ToolGate(env, t, r, p)
  {
  }

  lemma RefusedTwice(env: Environment, s: State, u: State, op: Op)
    requires op.ExecuteOp? && !env.validRequest(op.request)
    ensures Execute(env, s, op.request, op.principal, op.transport, op.run, op.now) == Outcome(s, Err(RequestInvalid))
    ensures Execute(env, u, op.request, op.principal, op.transport, op.run, op.now) == Outcome(u, Err(RequestInvalid))
  {
  }

  /** Answers given without the adapter depend on the gates and on the stored record only. */
  lemma SameFinish(env: Environment, s: State, u: State, op: Op)
    requires op.ExecuteOp? && u.records == s.records && PathOf(env, s, op) == PathOf(env, u, op)
    requires Gate(env, s, op.request, op.principal, op.transport)
             == Gate(env, u, op.request, op.principal, op.transport)
    requires PathOf(env, s, op) == Stopped || PathOf(env, s, op) == Replayed
    ensures Execute(env, s, op.request, op.principal, op.transport, op.run, op.now).reply
            == Execute(env, u, op.request, op.principal, op.transport, op.run, op.now).reply
  {
    hide Gate;
    GateIgnoresAudit(env, s, op.request, op.principal, op.transport);
    GateIgnoresAudit(env, u, op.request, op.principal, op.transport);
  }
}
