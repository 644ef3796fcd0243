/** The in-memory release authority, method by method as the service runs it. */
module ReleaseAuthority {
  import opened Prelude
  import opened ReleaseModel
  import opened ReleaseRuns
  import Text

  type Reply = Result<GovernedRelease, ReleaseError>

  /** `reply` and `after` are what awaiting `call` in state `before` gives; a successful call
      returns the release as the store then holds it. */
  ghost predicate Answers(before: Authority, call: Call, after: Authority, reply: Reply) {
    var f := Perform(before, call);
    && after == f.authority
    && (reply.Err? <==> f.error.Some?)
    && (reply.Err? ==> f.error == Some(reply.error))
    && (reply.Ok? ==> call.releaseId in after.releases && reply.value == after.releases[call.releaseId])
  }

  class InMemoryReleaseAuthority {
    var releases: map<string, GovernedRelease>
    var activeBySubject: map<SubjectKey, string>
    var audit: seq<AuditEvent>
    ghost var ledger: seq<Decision>

    ghost function State(): Authority
      reads this
    {
      Authority(releases, activeBySubject, audit, ledger)
    }

    ghost predicate Valid()
      reads this
    {
      Keyed(State())
    }

    constructor ()
      ensures Valid() && State() == EMPTY_AUTHORITY
    {
      releases, activeBySubject, audit, ledger := map[], map[], [], [];
    }

    method Record(r: GovernedRelease, actorId: string, eventType: EventType, outcome: ReleaseState,
                  actorKind: ActorKind, reason: string, from: Option<ReleaseState>)
      modifies this`audit
      ensures audit == old(audit) + [Event(r, actorId, eventType, outcome, actorKind, reason, from)]
    {
      audit := audit + [Event(r, actorId, eventType, outcome, actorKind, reason, from)];
    }

    method Transition(releaseId: string, c: Change) returns (reply: Reply)
      modifies this`releases, this`audit, this`ledger
      ensures MoveProblem(old(State()), releaseId, c).Some? ==>
                reply == Err(MoveProblem(old(State()), releaseId, c).value) && State() == old(State())
      ensures MoveProblem(old(State()), releaseId, c).None? ==>
                reply == Ok(Updated(old(releases)[releaseId], c)) && State() == Moved(old(State()), releaseId, c)
    {
      if releaseId !in releases {
        return Err(NotFound);
      }
      var current := releases[releaseId];
      if current.state !in c.expected {
        return Err(Conflict);
      }
      var updated := Updated(current, c);
      releases := releases[releaseId := updated];
      ledger := if c.enacts.Some? then ledger + [c.enacts.value] else ledger;
      Record(updated, c.actorId, c.eventType, c.target, c.actorKind, c.reason, Some(current.state));
      reply := Ok(updated);
    }

    method Create(releaseId: string, reviewId: string, tenantId: string, organizationId: string,
                  workspaceId: string, subjectId: string, subjectVersion: string,
                  materiality: Materiality, actorId: string, correlationId: string, now: int)
      returns (reply: Reply)
      requires Valid()
      modifies this
      ensures Valid()
      ensures Answers(old(State()),
                      Call.Create(releaseId, reviewId, tenantId, organizationId, workspaceId, subjectId,
                                  subjectVersion, materiality, actorId, correlationId, now), State(), reply)
    {
      ghost var call := Call.Create(releaseId, reviewId, tenantId, organizationId, workspaceId, subjectId,
                                    subjectVersion, materiality, actorId, correlationId, now);
      PerformIsDirect(State(), call);
      if releaseId in releases {
        return Err(Conflict);
      }
      var release := GovernedRelease(releaseId, reviewId, tenantId, organizationId, workspaceId, subjectId,
                                     subjectVersion, materiality, Draft, actorId, correlationId, now,
                                     None, None, false, None, false);
      releases := releases[releaseId := release];
      Record(release, actorId, Created, Draft, Human, TRANSITION_REASON, None);
      reply := Ok(release);
    }

    method MarkImplemented(releaseId: string, actorId: string, correlationId: string) returns (reply: Reply)
      requires Valid()
      modifies this
      ensures Valid()
      ensures Answers(old(State()), Call.MarkImplemented(releaseId, actorId, correlationId), State(), reply)
    {
      PerformIsDirect(State(), Call.MarkImplemented(releaseId, actorId, correlationId));
      reply := Transition(releaseId, PlainChange({Draft, RevisionRequired}, Implemented, actorId, correlationId));
    }

    method RecordAutomatedAssurance(releaseId: string, passed: bool, actorId: string, correlationId: string)
      returns (reply: Reply)
      requires Valid()
      modifies this
      ensures Valid()
      ensures Answers(old(State()), Call.RecordAutomatedAssurance(releaseId, passed, actorId, correlationId), State(),
                      reply)
    {
      PerformIsDirect(State(), Call.RecordAutomatedAssurance(releaseId, passed, actorId, correlationId));
      if !passed {
        return Err(Conflict);
      }
      reply := Transition(releaseId, PlainChange({Implemented}, AutomatedAssurance, actorId, correlationId));
    }

    method RecordAiReviewPackage(releaseId: string, package: ReviewPackage, actorId: string, correlationId: string)
      returns (reply: Reply)
      requires Valid()
      modifies this
      ensures Valid()
      ensures Answers(old(State()), Call.RecordAiReviewPackage(releaseId, package, actorId, correlationId), State(),
                      reply)
    {
      PerformIsDirect(State(), Call.RecordAiReviewPackage(releaseId, package, actorId, correlationId));
      if releaseId !in releases {
        return Err(NotFound);
      }
      if !PackageMatches(package, releases[releaseId]) {
        return Err(Conflict);
      }
      reply := Transition(releaseId, PlainChange({AutomatedAssurance}, AiReviewed, actorId, correlationId)
                          .(actorKind := System));
    }

    method SubmitForIt(releaseId: string, actorId: string, correlationId: string) returns (reply: Reply)
      requires Valid()
      modifies this
      ensures Valid()
      ensures Answers(old(State()), Call.SubmitForIt(releaseId, actorId, correlationId), State(), reply)
    {
      PerformIsDirect(State(), Call.SubmitForIt(releaseId, actorId, correlationId));
      reply := Transition(releaseId, PlainChange({AiReviewed}, ReadyForIt, actorId, correlationId));
    }

    method RecordItDecision(releaseId: string, decision: Decision, correlationId: string) returns (reply: Reply)
      requires Valid()
      modifies this
      ensures Valid()
      ensures Answers(old(State()), Call.RecordItDecision(releaseId, decision, correlationId), State(), reply)
    {
      PerformIsDirect(State(), Call.RecordItDecision(releaseId, decision, correlationId));
      if !decision.authority.It? {
        return Err(Conflict);
      }
      var problem := DecisionContextProblem(releaseId, decision);
      if problem.Some? {
        return Err(problem.value);
      }
      reply := Transition(releaseId, ItChange(decision, correlationId));
    }

    method DecisionContextProblem(releaseId: string, decision: Decision) returns (problem: Option<ReleaseError>)
      ensures problem == RequireDecisionContext(State(), releaseId, decision)
    {
      if releaseId !in releases {
        return Some(NotFound);
      }
      var release := releases[releaseId];
      if decision.reviewId != release.reviewId {
        return Some(Conflict);
      }
      if || !Matches(decision.tenantId, release.tenantId) || !Matches(decision.workspaceId, release.workspaceId)
         || !Matches(decision.releaseId, release.releaseId) || !Matches(decision.subjectId, release.subjectId) {
        return Some(Conflict);
      }
      problem := None;
    }

    method SubmitForDirector(releaseId: string, actorId: string, correlationId: string) returns (reply: Reply)
      requires Valid()
      modifies this
      ensures Valid()
      ensures Answers(old(State()), Call.SubmitForDirector(releaseId, actorId, correlationId), State(), reply)
    {
      PerformIsDirect(State(), Call.SubmitForDirector(releaseId, actorId, correlationId));
      if releaseId !in releases {
        return Err(NotFound);
      }
      if !releases[releaseId].materiality.Material? {
        return Err(Conflict);
      }
      reply := Transition(releaseId, PlainChange({ItApproved}, ReadyForDirector, actorId, correlationId));
    }

    method RecordDirectorDecision(releaseId: string, decision: Decision, correlationId: string) returns (reply: Reply)
      requires Valid()
      modifies this
      ensures Valid()
      ensures Answers(old(State()), Call.RecordDirectorDecision(releaseId, decision, correlationId), State(), reply)
    {
      PerformIsDirect(State(), Call.RecordDirectorDecision(releaseId, decision, correlationId));
      if !decision.authority.Director? {
        return Err(Conflict);
      }
      var problem := DecisionContextProblem(releaseId, decision);
      if problem.Some? {
        return Err(problem.value);
      }
      reply := Transition(releaseId, DirectorChange(decision, correlationId));
    }

    method Release(releaseId: string, actorId: string, correlationId: string) returns (reply: Reply)
      requires Valid()
      modifies this
      ensures Valid()
      ensures Answers(old(State()), Call.Release(releaseId, actorId, correlationId), State(), reply)
    {
      PerformIsDirect(State(), Call.Release(releaseId, actorId, correlationId));
      if releaseId !in releases {
        return Err(NotFound);
      }
      reply := Transition(releaseId, ReleaseChange(releases[releaseId].materiality, actorId, correlationId));
    }

    method Activate(releaseId: string, actorId: string, correlationId: string) returns (reply: Reply)
      requires Valid()
      modifies this
      ensures Valid()
      ensures Answers(old(State()), Call.Activate(releaseId, actorId, correlationId), State(), reply)
    {
      ghost var call := Call.Activate(releaseId, actorId, correlationId);
      PerformIsDirect(State(), call);
      PerformKeepsKeys(State(), call);
      reply := Transition(releaseId, ActivateChange(actorId, correlationId));
      if reply.Err? {
        return;
      }
      var key := KeyOf(reply.value);
      var otherId := Lookup(activeBySubject, key);
      if otherId.Some? && otherId.value != releaseId {
        var superseded := Transition(otherId.value, SupersedeChange(actorId, correlationId));
        if superseded.Err? {
          return superseded;
        }
      }
      activeBySubject := activeBySubject[key := releaseId];
    }

    method ActivateKillSwitch(releaseId: string, actorId: string, reason: string, correlationId: string)
      returns (reply: Reply)
      requires Valid()
      modifies this
      ensures Valid()
      ensures Answers(old(State()), Call.ActivateKillSwitch(releaseId, actorId, reason, correlationId), State(), reply)
    {
      PerformIsDirect(State(), Call.ActivateKillSwitch(releaseId, actorId, reason, correlationId));
      if Text.IsBlank(reason) {
        return Err(Conflict);
      }
      reply := Transition(releaseId, KillChange(actorId, reason, correlationId));
      if reply.Err? {
        return;
      }
      activeBySubject := activeBySubject - {KeyOf(reply.value)};
    }

    method ClearKillSwitch(releaseId: string, actorId: string, reason: string, correlationId: string)
      returns (reply: Reply)
      requires Valid()
      modifies this
      ensures Valid()
      ensures Answers(old(State()), Call.ClearKillSwitch(releaseId, actorId, reason, correlationId), State(), reply)
    {
      PerformIsDirect(State(), Call.ClearKillSwitch(releaseId, actorId, reason, correlationId));
      if releaseId !in releases {
        return Err(NotFound);
      }
      if !releases[releaseId].killSwitchActive {
        return Err(Conflict);
      }
      if Text.IsBlank(reason) {
        return Err(Conflict);
      }
      reply := Transition(releaseId, ClearChange(actorId, reason, correlationId));
      if reply.Err? {
        return;
      }
      activeBySubject := activeBySubject[KeyOf(reply.value) := releaseId];
    }

    method Rollback(releaseId: string, targetReleaseId: string, actorId: string, reason: string, correlationId: string)
      returns (reply: Reply)
      requires Valid()
      modifies this
      ensures Valid()
      ensures Answers(old(State()), Call.Rollback(releaseId, targetReleaseId, actorId, reason, correlationId),
                      State(), reply)
    {
      ghost var call := Call.Rollback(releaseId, targetReleaseId, actorId, reason, correlationId);
      PerformIsDirect(State(), call);
      PerformKeepsKeys(State(), call);
      if releaseId !in releases || targetReleaseId !in releases {
        return Err(NotFound);
      }
      var current := releases[releaseId];
      var target := releases[targetReleaseId];
      if Text.IsBlank(reason) || current.killSwitchActive || !current.state.Active? {
        return Err(Conflict);
      }
      if targetReleaseId == releaseId || KeyOf(current) != KeyOf(target) {
        return Err(Conflict);
      }
      if !target.everReleased {
        return Err(Conflict);
      }
      reply := Transition(releaseId, RollbackChange(targetReleaseId, actorId, reason, correlationId));
      releases := releases[targetReleaseId := Reinstated(target, correlationId)];
      activeBySubject := activeBySubject[KeyOf(target) := targetReleaseId];
      Record(releases[targetReleaseId], actorId, RollbackTargetActivated, Active, Human, reason, None);
    }

    method ExecutionAllowed(releaseId: string) returns (reply: Result<bool, ReleaseError>)
      ensures reply.Err? <==> releaseId !in releases
      ensures reply.Ok? ==> (reply.value
                             <==> releases[releaseId].state.Active? && !releases[releaseId].killSwitchActive)
    {
      if releaseId !in releases {
        return Err(NotFound);
      }
      reply := Ok(releases[releaseId].state.Active? && !releases[releaseId].killSwitchActive);
    }
  }
}
