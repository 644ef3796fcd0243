/** Tools: their registry's lifecycle, and the execution pipeline in front of their adapters. */
module ToolModel {
  import opened Prelude
  import opened Identity
  import Text

  datatype Lifecycle = Draft | Approved | Active | Suspended | Retired

  datatype IdempotencyPolicy = NoPolicy | Optional | Required

  datatype Registration = Registration(
    toolId: string, requiredPermission: string, requiredScopes: set<string>, adapter: string, allowlisted: bool,
    productionEnabled: bool, lifecycle: Lifecycle, idempotencyPolicy: IdempotencyPolicy, killSwitchActive: bool,
    ownerActorId: Option<string>, approvedBy: Option<string>,
    tenantId: Option<string>, organizationId: Option<string>, workspaceId: Option<string>)

  // ----- The registry -----

  datatype ToolEventKind =
    DraftRegistered | ToolApproved | ToolActivated | ToolSuspended | ToolRetired | KillOn | KillOff

  datatype ToolEvent = ToolEvent(kind: ToolEventKind, toolId: string, actorId: string)

  datatype RegistryCall =
    | Register(registration: Registration)
    | RegisterDraft(registration: Registration, actorId: string)
    | Approve(toolId: string, actorId: string)
    | Activate(toolId: string, actorId: string)
    | Suspend(toolId: string, actorId: string)
    | Retire(toolId: string, actorId: string)
    | ActivateKillSwitch(toolId: string, actorId: string, reason: string)
    | ClearKillSwitch(toolId: string, actorId: string, reason: string)

  datatype RegistryError = AlreadyRegistered | Conflict | NotRegistered

  function TargetOf(c: RegistryCall): string {
    if c.Register? || c.RegisterDraft? then c.registration.toolId else c.toolId
  }

  /** The event and the new registration that a call on an existing tool aims at. */
  function Change(t: Registration, c: RegistryCall): Result<(ToolEventKind, Registration), RegistryError>
    requires !c.Register? && !c.RegisterDraft?
  {
    match c
    case Approve(_, actor) =>
      if !t.lifecycle.Draft? || t.ownerActorId == Some(actor) then Err(Conflict)
      else Ok((ToolApproved, t.(lifecycle := Approved, approvedBy := Some(actor))))
    case Activate(_, _) =>
      if !t.lifecycle.Approved? then Err(Conflict) else Ok((ToolActivated, t.(lifecycle := Active)))
    case Suspend(_, _) =>
      if !t.lifecycle.Active? then Err(Conflict) else Ok((ToolSuspended, t.(lifecycle := Suspended)))
    case Retire(_, _) =>
      if t.lifecycle.Retired? then Err(Conflict) else Ok((ToolRetired, t.(lifecycle := Retired, allowlisted := false)))
    case ActivateKillSwitch(_, _, reason) =>
      if !t.lifecycle.Active? || Text.IsBlank(reason) then Err(Conflict) else Ok((KillOn, t.(killSwitchActive := true)))
    case ClearKillSwitch(_, _, reason) =>
      if !t.killSwitchActive || Text.IsBlank(reason) then Err(Conflict)
          else Ok((KillOff, t.(killSwitchActive := false)))
  }

  predicate Given(s: Option<string>) {
    s.Some? && s.value != ""
  }

  /** `_record` raises without an audit sink, and without the tenant context of the tool. */
  predicate Recordable(audited: bool, t: Registration) {
    audited && Given(t.tenantId) && Given(t.organizationId) && Given(t.workspaceId)
  }

  datatype Tools = Tools(tools: map<string, Registration>, events: seq<ToolEvent>)

  function Recorded(s: Tools, audited: bool, kind: ToolEventKind, t: Registration, actorId: string):
    Result<Tools, RegistryError>
  {
    if !Recordable(audited, t) then Err(Conflict)
    else Ok(Tools(s.tools[t.toolId := t], s.events + [ToolEvent(kind, t.toolId, actorId)]))
  }

  /** The new state, or the exception that leaves the state as it is. */
  function Perform(s: Tools, audited: bool, c: RegistryCall): Result<Tools, RegistryError> {
    match c
    case Register(t) =>
      if t.toolId in s.tools then Err(AlreadyRegistered) else Ok(s.(tools := s.tools[t.toolId := t]))
    case RegisterDraft(t, actorId) =>
      if !t.lifecycle.Draft? || t.ownerActorId != Some(actorId) || t.toolId in s.tools then Err(Conflict)
      else Recorded(s, audited, DraftRegistered, t, actorId)
    case _ =>
      if c.toolId !in s.tools then Err(NotRegistered)
      else
        var change := Change(s.tools[c.toolId], c);
        if change.Err? then Err(change.error) else Recorded(s, audited, change.value.0, change.value.1, c.actorId)
  }

  // ----- Requests and results -----

  /** The execution context without its correlation id. */
  datatype Facts = Facts(tenantId: string, organizationId: string, workspaceId: string, actorId: string,
                         permissionRefs: Option<seq<string>>, scopeRefs: Option<seq<string>>, rest: string)

  datatype ToolRequest = ToolRequest(toolCallId: string, runId: string, toolId: string, correlationId: string,
                                     facts: Facts, arguments: string, idempotencyKey: Option<string>)

  /** SHA-256 of the canonical encoding, taken to be injective. */
  datatype RequestDigest = Sha256(toolId: string, facts: Facts, arguments: string)

  function DigestOf(r: ToolRequest): RequestDigest {
    Sha256(r.toolId, r.facts, r.arguments)
  }

  datatype Status = Success | Denied | Rejected | TimedOut | Failed

  datatype Code =
    | CorrelationMismatch | ToolUnknown | ToolNotAllowed | ToolNotActive | ToolKillSwitchActive | TestToolDisabled
    | ScopeDenied | PermissionDenied | AuthorizationDenied | ToolInputInvalid | IdempotencyRequired
    | IdempotencyConflict | ToolTimeout | ToolExecutionFailed

  datatype Body = Output(output: string) | Error(code: Code)

  datatype ToolResult = ToolResult(toolCallId: string, runId: string, toolId: string, correlationId: string,
                                   status: Status, body: Body, completedAt: int)

  datatype ToolError = RequestInvalid | ResultInvalid | KeyTaken

  datatype AuditOutcome = Requested | Finished(status: Status) | IdempotentReplay

  datatype AuditRecord = AuditRecord(toolCallId: string, runId: string, toolId: string, facts: Facts,
                                     correlationId: string, outcome: AuditOutcome)

  datatype CacheKey = CacheKey(tenantId: string, toolId: string, key: string)

  datatype IdempotencyRecord = IdempotencyRecord(digest: RequestDigest, output: string)

  /** What an adapter does in one call. */
  datatype AdapterRun = Returned(output: string) | Expired | Raised

  /** One call of an adapter, as it happened: on which tool, for which key, and what became of it. */
  datatype AdapterCall = AdapterCall(tool: Registration, key: Option<CacheKey>, run: AdapterRun, accepted: bool)

  /** The parts that are given: schema validation, the adapters' input contracts, the environment. */
  datatype Environment = Environment(validRequest: ToolRequest -> bool, validResult: ToolResult -> bool,
                                     validArguments: (string, string) -> bool, production: bool, audited: bool)

  /** An answer that left the executor. */
  datatype Answer = Answer(request: ToolRequest, result: ToolResult)

  datatype State = State(tools: Tools, records: map<CacheKey, IdempotencyRecord>, audit: seq<AuditRecord>,
                         calls: seq<AdapterCall>, answers: seq<Answer>)

  const EMPTY := State(Tools(map[], []), map[], [], [], [])

  // ----- The pipeline -----

  predicate IsAllowed(p: Option<Principal>, f: Facts, t: Registration) {
    && p.Some? && p.value.active
    && p.value.tenantId == f.tenantId && p.value.organizationId == f.organizationId
    && p.value.workspaceId == f.workspaceId
    && t.requiredPermission in p.value.permissions && t.requiredScopes <= p.value.scopes
  }

  /** The gates up to the adapter's input check, in their order. */
  function Gate(env: Environment, s: State, r: ToolRequest, p: Option<Principal>,
                transport: Option<string>): Option<(Status, Code)> {
    if transport.Some? && transport.value != r.correlationId then Some((Denied, CorrelationMismatch))
    else if r.toolId !in s.tools.tools then Some((Denied, ToolUnknown))
    else ToolGate(env, s.tools.tools[r.toolId], r, p)
  }

  function ToolGate(env: Environment, t: Registration, r: ToolRequest, p: Option<Principal>): Option<(Status, Code)> {
    if !t.allowlisted then Some((Denied, ToolNotAllowed))
    else if !t.lifecycle.Active? then Some((Denied, ToolNotActive))
    else if t.killSwitchActive then Some((Denied, ToolKillSwitchActive))
    else if env.production && !t.productionEnabled then Some((Denied, TestToolDisabled))
    else if !(t.requiredScopes <= set x | x in Items(r.facts.scopeRefs)) then Some((Denied, ScopeDenied))
    else if t.requiredPermission !in Items(r.facts.permissionRefs) then Some((Denied, PermissionDenied))
    else if !IsAllowed(p, r.facts, t) then Some((Denied, AuthorizationDenied))
    else if !env.validArguments(t.adapter, r.arguments) then Some((Rejected, ToolInputInvalid))
    else if t.idempotencyPolicy.Required? && r.idempotencyKey.None? then Some((Rejected, IdempotencyRequired))
    else None
  }

  function KeyOf(r: ToolRequest): Option<CacheKey> {
    if r.idempotencyKey.None? then None else Some(CacheKey(r.facts.tenantId, r.toolId, r.idempotencyKey.value))
  }

  function Line(r: ToolRequest, outcome: AuditOutcome): AuditRecord {
    AuditRecord(r.toolCallId, r.runId, r.toolId, r.facts, r.correlationId, outcome)
  }

  function Audited(s: State, r: ToolRequest, outcome: AuditOutcome): State {
    s.(audit := s.audit + [Line(r, outcome)])
  }

  function MakeResult(r: ToolRequest, status: Status, body: Body, now: int): ToolResult {
    ToolResult(r.toolCallId, r.runId, r.toolId, r.correlationId, status, body, now)
  }

  datatype Outcome = Outcome(state: State, reply: Result<ToolResult, ToolError>)

  /** `_finish`: an invalid result raises before it is audited. */
  function Finish(env: Environment, s: State, r: ToolRequest, result: ToolResult): Outcome {
    if !env.validResult(result) then Outcome(s, Err(ResultInvalid))
    else
      var audited := Audited(s, r, Finished(result.status));
      Outcome(audited.(answers := s.answers + [Answer(r, result)]), Ok(result))
  }

  /** The stored output, for the request that it was stored for. */
  function Replay(env: Environment, s: State, r: ToolRequest, existing: IdempotencyRecord, now: int): Outcome {
    if existing.digest != DigestOf(r) then Finish(env, s, r, MakeResult(r, Rejected, Error(IdempotencyConflict), now))
    else
      var finished := Finish(env, s, r, MakeResult(r, Success, Output(existing.output), now));
      if finished.reply.Err? then finished else finished.(state := Audited(finished.state, r, IdempotentReplay))
  }

  function RunResult(r: ToolRequest, run: AdapterRun, now: int): ToolResult {
    match run
    case Returned(output) => MakeResult(r, Success, Output(output), now)
    case Expired => MakeResult(r, TimedOut, Error(ToolTimeout), now)
    case Raised => MakeResult(r, Failed, Error(ToolExecutionFailed), now)
  }

  /** `put` refuses a key that belongs to another request. */
  function Store(s: State, key: CacheKey, record: IdempotencyRecord): Option<State> {
    if key in s.records && s.records[key].digest != record.digest then None
    else Some(s.(records := s.records[key := record]))
  }

  function RunAdapter(env: Environment, s: State, r: ToolRequest, run: AdapterRun, now: int): Outcome
    requires r.toolId in s.tools.tools
  {
    var result := RunResult(r, run, now);
    var called := s.(calls := s.calls + [AdapterCall(s.tools.tools[r.toolId], KeyOf(r), run, env.validResult(result))]);
    var finished := Finish(env, called, r, result);
    if finished.reply.Err? || !run.Returned? || KeyOf(r).None? then finished
    else
      var stored := Store(finished.state, KeyOf(r).value, IdempotencyRecord(DigestOf(r), run.output));
      if stored.None? then Outcome(finished.state, Err(KeyTaken)) else Outcome(stored.value, finished.reply)
  }

  function Execute(env: Environment, s: State, r: ToolRequest, p: Option<Principal>, transport: Option<string>,
                   run: AdapterRun, now: int): Outcome
  {
    if !env.validRequest(r) then Outcome(s, Err(RequestInvalid))
    else
      var requested := Audited(s, r, Requested);
      var gate := Gate(env, requested, r, p, transport);
      if gate.Some? then Finish(env, requested, r, MakeResult(r, gate.value.0, Error(gate.value.1), now))
      else if KeyOf(r).Some? && KeyOf(r).value in s.records then
        Replay(env, requested, r, s.records[KeyOf(r).value], now)
      else RunAdapter(env, requested, r, run, now)
  }

  // ----- Runs -----

  /** Registry calls and executions, one after the other. */
  datatype Op =
    | RegistryOp(call: RegistryCall)
    | ExecuteOp(request: ToolRequest, principal: Option<Principal>, transport: Option<string>, run: AdapterRun,
                now: int)

  function Step(env: Environment, s: State, op: Op): State {
    match op
    case RegistryOp(call) =>
      var tools := Perform(s.tools, env.audited, call);
      if tools.Ok? then s.(tools := tools.value) else s
    case ExecuteOp(r, p, transport, run, now) => Execute(env, s, r, p, transport, run, now).state
  }

  function RunAll(env: Environment, s: State, ops: seq<Op>): State {
    if ops == [] then s else Step(env, RunAll(env, s, ops[..|ops| - 1]), ops[|ops| - 1])
  }
}
