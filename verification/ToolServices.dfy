/** The tool registry, the idempotency store and the executor as objects. */
module ToolServices {
  import opened Prelude
  import opened Identity
  import opened ToolModel
  import Text

  /** What a call did, or that it left everything as it was. */
  ghost predicate Performed(before: Tools, audited: bool, call: RegistryCall, after: Tools,
                            reply: Result<Registration, RegistryError>) {
    match Perform(before, audited, call)
    case Ok(tools) =>
      after == tools && TargetOf(call) in tools.tools && reply == Ok(tools.tools[TargetOf(call)])
    case Err(error) => after == before && reply == Err(error)
  }

  class ToolRegistry {
    const audited: bool
    var tools: map<string, Registration>
    var events: seq<ToolEvent>

    ghost function State(): Tools
      reads this
    {
      Tools(tools, events)
    }

    /** Tools are stored under their own id. */
    ghost predicate Valid()
      reads this
    {
      forall id :: id in tools ==> tools[id].toolId == id
    }

    constructor (audited: bool)
      ensures Valid() && this.audited == audited && State() == Tools(map[], [])
    {
      this.audited := audited;
      tools := map[];
      events := [];
    }

    method Register(registration: Registration) returns (reply: Result<Registration, RegistryError>)
      requires Valid()
      modifies this
      ensures Valid() && Performed(old(State()), audited, RegistryCall.Register(registration), State(), reply)
    {
      if registration.toolId in tools { return Err(AlreadyRegistered); }
      tools := tools[registration.toolId := registration];
      reply := Ok(registration);
    }

    method RegisterDraft(registration: Registration, actorId: string)
      returns (reply: Result<Registration, RegistryError>)
      requires Valid()
      modifies this
      ensures Valid()
      ensures Performed(old(State()), audited, RegistryCall.RegisterDraft(registration, actorId), State(), reply)
    {
      if !registration.lifecycle.Draft? { return Err(Conflict); }
      if registration.ownerActorId != Some(actorId) { return Err(Conflict); }
      if registration.toolId in tools { return Err(Conflict); }
      reply := Replace(registration, DraftRegistered, actorId);
    }

    method Get(toolId: string) returns (found: Option<Registration>)
      ensures found == Lookup(tools, toolId)
    {
      found := Lookup(tools, toolId);
    }

    method Approve(toolId: string, actorId: string) returns (reply: Result<Registration, RegistryError>)
      requires Valid()
      modifies this
      ensures Valid() && Performed(old(State()), audited, RegistryCall.Approve(toolId, actorId), State(), reply)
    {
      var current := Require(toolId);
      if current.Err? { return current; }
      if !current.value.lifecycle.Draft? { return Err(Conflict); }
      if current.value.ownerActorId == Some(actorId) { return Err(Conflict); }
      var updated := current.value.(lifecycle := Approved, approvedBy := Some(actorId));
      reply := Replace(updated, ToolApproved, actorId);
    }

    method Activate(toolId: string, actorId: string) returns (reply: Result<Registration, RegistryError>)
      requires Valid()
      modifies this
      ensures Valid() && Performed(old(State()), audited, RegistryCall.Activate(toolId, actorId), State(), reply)
    {
      var current := Require(toolId);
      if current.Err? { return current; }
      if !current.value.lifecycle.Approved? { return Err(Conflict); }
      reply := Replace(current.value.(lifecycle := Active), ToolActivated, actorId);
    }

    method Suspend(toolId: string, actorId: string) returns (reply: Result<Registration, RegistryError>)
      requires Valid()
      modifies this
      ensures Valid() && Performed(old(State()), audited, RegistryCall.Suspend(toolId, actorId), State(), reply)
    {
      var current := Require(toolId);
      if current.Err? { return current; }
      if !current.value.lifecycle.Active? { return Err(Conflict); }
      reply := Replace(current.value.(lifecycle := Suspended), ToolSuspended, actorId);
    }

    method Retire(toolId: string, actorId: string) returns (reply: Result<Registration, RegistryError>)
      requires Valid()
      modifies this
      ensures Valid() && Performed(old(State()), audited, RegistryCall.Retire(toolId, actorId), State(), reply)
    {
      var current := Require(toolId);
      if current.Err? { return current; }
      if current.value.lifecycle.Retired? { return Err(Conflict); }
      reply := Replace(current.value.(lifecycle := Retired, allowlisted := false), ToolRetired, actorId);
    }

    method ActivateKillSwitch(toolId: string, actorId: string, reason: string)
      returns (reply: Result<Registration, RegistryError>)
      requires Valid()
      modifies this
      ensures Valid()
      ensures Performed(old(State()), audited, RegistryCall.ActivateKillSwitch(toolId, actorId, reason), State(), reply)
    {
      var current := Require(toolId);
      if current.Err? { return current; }
      if !current.value.lifecycle.Active? { return Err(Conflict); }
      if Text.IsBlank(reason) { return Err(Conflict); }
      reply := Replace(current.value.(killSwitchActive := true), KillOn, actorId);
    }

    method ClearKillSwitch(toolId: string, actorId: string, reason: string)
      returns (reply: Result<Registration, RegistryError>)
      requires Valid()
      modifies this
      ensures Valid()
      ensures Performed(old(State()), audited, RegistryCall.ClearKillSwitch(toolId, actorId, reason), State(), reply)
    {
      var current := Require(toolId);
      if current.Err? { return current; }
      if !current.value.killSwitchActive { return Err(Conflict); }
      if Text.IsBlank(reason) { return Err(Conflict); }
      reply := Replace(current.value.(killSwitchActive := false), KillOff, actorId);
    }

    method Require(toolId: string) returns (reply: Result<Registration, RegistryError>)
      ensures reply == (if toolId in tools then Ok(tools[toolId]) else Err(NotRegistered))
    {
      if toolId in tools {
        reply := Ok(tools[toolId]);
      } else {
        reply := Err(NotRegistered);
      }
    }

    /** Records the event first; only then is the tool replaced. */
    method Replace(updated: Registration, kind: ToolEventKind, actorId: string)
      returns (reply: Result<Registration, RegistryError>)
      requires Valid()
      modifies this
      ensures Valid()
      ensures match Recorded(old(State()), audited, kind, updated, actorId)
              case Ok(after) => State() == after && reply == Ok(updated)
              case Err(error) => State() == old(State()) && reply == Err(error)
    {
      if !Recordable(audited, updated) { return Err(Conflict); }
      events := events + [ToolEvent(kind, updated.toolId, actorId)];
      tools := tools[updated.toolId := updated];
      reply := Ok(updated);
    }
  }

  class InMemoryToolIdempotencyStore {
    var records: map<CacheKey, IdempotencyRecord>

    constructor ()
      ensures records == map[]
    {
      records := map[];
    }

    method Get(key: CacheKey) returns (found: Option<IdempotencyRecord>)
      ensures found == Lookup(records, key)
    {
      found := Lookup(records, key);
    }

    /** A key keeps its request for ever. */
    method Put(key: CacheKey, record: IdempotencyRecord) returns (stored: bool)
      modifies this
      ensures stored <==> key !in old(records) || old(records)[key].digest == record.digest
      ensures records == (if stored then old(records)[key := record] else old(records))
    {
      if key in records && records[key].digest != record.digest { return false; }
      records := records[key := record];
      stored := true;
    }
  }

  class ToolExecutor {
    const env: Environment
    const registry: ToolRegistry
    const idempotency: InMemoryToolIdempotencyStore
    var audit: seq<AuditRecord>
    ghost var calls: seq<AdapterCall>
    ghost var answers: seq<Answer>

    ghost function State(): ToolModel.State
      reads this, registry, idempotency
    {
      ToolModel.State(registry.State(), idempotency.records, audit, calls, answers)
    }

    constructor (env: Environment, registry: ToolRegistry, idempotency: InMemoryToolIdempotencyStore)
      ensures this.env == env && this.registry == registry && this.idempotency == idempotency
      ensures audit == [] && calls == [] && answers == []
    {
      this.env := env;
      this.registry := registry;
      this.idempotency := idempotency;
      audit, calls, answers := [], [], [];
    }

    /** The whole pipeline; `run` is what the adapter would do if it is reached. */
    method Execute(r: ToolRequest, p: Option<Principal>, transport: Option<string>, run: AdapterRun, now: int)
      returns (reply: Result<ToolResult, ToolError>)
      modifies this, idempotency
      ensures var outcome := ToolModel.Execute(env, old(State()), r, p, transport, run, now);
              State() == outcome.state && reply == outcome.reply
    {
      hide ToolGate, ToolModel.Finish, ToolModel.Replay, ToolModel.RunAdapter;
      if !env.validRequest(r) { return Err(RequestInvalid); }
      Audit(r, Requested);
      if transport.Some? && transport.value != r.correlationId {
        reply := FinishError(r, Denied, CorrelationMismatch, now);
        return;
      }
      var registration := registry.Get(r.toolId);
      if registration.None? {
        reply := FinishError(r, Denied, ToolUnknown, now);
        return;
      }
      var stop := Stops(registration.value, r, p);
      if stop.Some? {
        reply := FinishError(r, stop.value.0, stop.value.1, now);
        return;
      }
      if r.idempotencyKey.Some? {
        var existing := idempotency.Get(CacheKey(r.facts.tenantId, r.toolId, r.idempotencyKey.value));
        if existing.Some? {
          reply := Replay(r, existing.value, now);
          return;
        }
      }
      reply := ExecuteAdapter(r, run, now);
    }

    /** The gates on a registered tool, one after the other. */
    method Stops(t: Registration, r: ToolRequest, p: Option<Principal>) returns (stop: Option<(Status, Code)>)
      ensures stop == ToolGate(env, t, r, p)
    {
      if !t.allowlisted { return Some((Denied, ToolNotAllowed)); }
      if !t.lifecycle.Active? { return Some((Denied, ToolNotActive)); }
      if t.killSwitchActive { return Some((Denied, ToolKillSwitchActive)); }
      if env.production && !t.productionEnabled { return Some((Denied, TestToolDisabled)); }
      if !(t.requiredScopes <= set x | x in Items(r.facts.scopeRefs)) { return Some((Denied, ScopeDenied)); }
      if t.requiredPermission !in Items(r.facts.permissionRefs) { return Some((Denied, PermissionDenied)); }
      if !IsAllowed(p, r.facts, t) { return Some((Denied, AuthorizationDenied)); }
      if !env.validArguments(t.adapter, r.arguments) { return Some((Rejected, ToolInputInvalid)); }
      if t.idempotencyPolicy.Required? && r.idempotencyKey.None? { return Some((Rejected, IdempotencyRequired)); }
      stop := None;
    }

    method Replay(r: ToolRequest, existing: IdempotencyRecord, now: int) returns (reply: Result<ToolResult, ToolError>)
      modifies this
      ensures var outcome := ToolModel.Replay(env, old(State()), r, existing, now);
              State() == outcome.state && reply == outcome.reply
    {
      if existing.digest != DigestOf(r) {
        reply := FinishError(r, Rejected, IdempotencyConflict, now);
        return;
      }
      reply := Finish(r, MakeResult(r, Success, Output(existing.output), now));
      if reply.Ok? {
        Audit(r, IdempotentReplay);
      }
    }

    method ExecuteAdapter(r: ToolRequest, run: AdapterRun, now: int) returns (reply: Result<ToolResult, ToolError>)
      requires r.toolId in registry.tools
      modifies this, idempotency
      ensures var outcome := RunAdapter(env, old(State()), r, run, now);
              State() == outcome.state && reply == outcome.reply
    {
      var result := RunResult(r, run, now);
      calls := calls + [AdapterCall(registry.tools[r.toolId], KeyOf(r), run, env.validResult(result))];
      reply := Finish(r, result);
      if reply.Ok? && run.Returned? && KeyOf(r).Some? {
        var stored := idempotency.Put(KeyOf(r).value, IdempotencyRecord(DigestOf(r), run.output));
        if !stored { reply := Err(KeyTaken); }
      }
    }

    method FinishError(r: ToolRequest, status: Status, code: Code, now: int)
      returns (reply: Result<ToolResult, ToolError>)
      modifies this
      ensures var outcome := ToolModel.Finish(env, old(State()), r, MakeResult(r, status, Error(code), now));
              State() == outcome.state && reply == outcome.reply
    {
      reply := Finish(r, MakeResult(r, status, Error(code), now));
    }

    method Finish(r: ToolRequest, result: ToolResult) returns (reply: Result<ToolResult, ToolError>)
      modifies this
      ensures var outcome := ToolModel.Finish(env, old(State()), r, result);
              State() == outcome.state && reply == outcome.reply
    {
      if !env.validResult(result) { return Err(ResultInvalid); }
      Audit(r, Finished(result.status));
      answers := answers + [Answer(r, result)];
      reply := Ok(result);
    }

    method Audit(r: ToolRequest, outcome: AuditOutcome)
      modifies this`audit
      ensures audit == old(audit) + [Line(r, outcome)]
    {
      audit := audit + [Line(r, outcome)];
    }
  }
}
