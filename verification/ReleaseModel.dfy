/** The release authority as atomic sections.

    Every coroutine of the service is a short list of sections that the event loop may
    separate: a section under the lock, or one append to the audit sink. `Exec` runs one
    section and may put further sections in front of what remains; `Run` runs a list of
    sections with nothing in between, which is what a caller who awaits each call sees.
    `Begin` is what a call does before its first await; it yields the call's first section. */
module ReleaseModel {
  import opened Prelude
  import Text

  datatype ReleaseState =
    | Draft | Implemented | AutomatedAssurance | AiReviewed | ReadyForIt | ItApproved
    | ReadyForDirector | DirectorApproved | Released | Active | RevisionRequired
    | Returned | Rejected | Hold | Blocked | Suspended | RolledBack

  datatype Materiality = NonMaterial | Material

  datatype AuthorityLevel = It | Director

  datatype DecisionOutcome = OutcomeApproved | OutcomeReturned | OutcomeRejected | OutcomeHold

  datatype Decision = Decision(
    decisionId: string, reviewId: string, tenantId: Option<string>, workspaceId: Option<string>,
    releaseId: Option<string>, subjectId: Option<string>, authority: AuthorityLevel,
    outcome: DecisionOutcome, actorId: string)

  datatype ReviewPackage = ReviewPackage(
    reviewId: string, tenantId: string, workspaceId: string, subjectId: string, subjectVersion: string)

  datatype GovernedRelease = GovernedRelease(
    releaseId: string, reviewId: string, tenantId: string, organizationId: string,
    workspaceId: string, subjectId: string, subjectVersion: string, materiality: Materiality,
    state: ReleaseState, createdBy: string, correlationId: string, createdAt: int,
    itDecisionId: Option<string>, directorDecisionId: Option<string>, killSwitchActive: bool,
    rollbackTargetReleaseId: Option<string>, everReleased: bool)

  datatype SubjectKey = SubjectKey(tenantId: string, workspaceId: string, subjectId: string)

  function KeyOf(r: GovernedRelease): SubjectKey {
    SubjectKey(r.tenantId, r.workspaceId, r.subjectId)
  }

  datatype ActorKind = Human | System

  datatype EventType =
    | Created | Transitioned | KillSwitchActivated | KillSwitchCleared | RolledBackEvent
    | RollbackTargetActivated

  /** An audit event; `from` is the metadata entry that only `_transition` writes. */
  datatype AuditEvent = AuditEvent(
    eventType: EventType, entityId: string, tenantId: string, organizationId: string,
    workspaceId: string, actorId: string, actorKind: ActorKind, correlationId: string,
    outcome: ReleaseState, reason: string, from: Option<ReleaseState>)

  datatype ReleaseError = NotFound | Conflict

  /** The authority's dictionaries and audit trail. `ledger` lists the human decisions that
      moved a release, in order; it is history kept for the specification. */
  datatype Authority = Authority(
    releases: map<string, GovernedRelease>, active: map<SubjectKey, string>,
    log: seq<AuditEvent>, ledger: seq<Decision>)

  const EMPTY_AUTHORITY := Authority(map[], map[], [], [])

  const TRANSITION_REASON := "Authoritative release lifecycle transition"
  const SUPERSEDED_REASON := "Superseded by a newly activated release"

  /** The arguments of `_transition`. `enacts` is the decision that the move carries out. */
  datatype Change = Change(
    expected: set<ReleaseState>, target: ReleaseState, actorId: string, correlationId: string,
    actorKind: ActorKind, eventType: EventType, reason: string, enacts: Option<Decision>,
    itDecisionId: Option<string>, directorDecisionId: Option<string>, killSwitch: Option<bool>,
    rollbackTarget: Option<string>, everReleased: Option<bool>)

  function PlainChange(expected: set<ReleaseState>, target: ReleaseState, actorId: string,
                       correlationId: string): Change
  {
    Change(expected, target, actorId, correlationId, Human, Transitioned, TRANSITION_REASON,
           None, None, None, None, None, None)
  }

  function Updated(r: GovernedRelease, c: Change): GovernedRelease {
    r.(state := c.target,
    correlationId := c.correlationId,
    itDecisionId := Or(c.itDecisionId, r.itDecisionId),
    directorDecisionId := Or(c.directorDecisionId, r.directorDecisionId),
    killSwitchActive := if c.killSwitch.Some? then c.killSwitch.value else r.killSwitchActive,
    rollbackTargetReleaseId := Or(c.rollbackTarget, r.rollbackTargetReleaseId),
    everReleased := if c.everReleased.Some? then c.everReleased.value else r.everReleased)
  }

  function Event(r: GovernedRelease, actorId: string, eventType: EventType, outcome: ReleaseState,
                 actorKind: ActorKind, reason: string, from: Option<ReleaseState>): AuditEvent
  {
    AuditEvent(eventType, r.releaseId, r.tenantId, r.organizationId, r.workspaceId, actorId,
               actorKind, r.correlationId, outcome, reason, from)
  }

  function MoveEvent(before: GovernedRelease, c: Change): AuditEvent {
    Event(Updated(before, c), c.actorId, c.eventType, c.target, c.actorKind, c.reason, Some(before.state))
  }

  /** The stale snapshot of the rollback target, written back as ACTIVE. */
  function Reinstated(snapshot: GovernedRelease, correlationId: string): GovernedRelease {
    snapshot.(state := Active, killSwitchActive := false, correlationId := correlationId)
  }

  /** What a coroutine still does after its `_transition` has returned. */
  datatype Follow =
    | Nothing
    | ThenSupersede(actorId: string, correlationId: string)
    | ThenUnpoint
    | ThenPoint
    | ThenReinstate(snapshot: GovernedRelease, actorId: string, correlationId: string, reason: string)

  /** The atomic sections. */
  datatype Action =
    | Insert(release: GovernedRelease, actorId: string)
    | Move(releaseId: string, change: Change, follow: Follow)
    | Append(event: AuditEvent)
    | Supersede(key: SubjectKey, releaseId: string, actorId: string, correlationId: string)
    | Point(key: SubjectKey, releaseId: string)
    | Unpoint(key: SubjectKey)
    | Reinstate(snapshot: GovernedRelease, actorId: string, correlationId: string, reason: string)

  function FollowUp(updated: GovernedRelease, follow: Follow): seq<Action> {
    match follow
    case Nothing => []
    case ThenSupersede(actorId, correlationId) =>
      [Supersede(KeyOf(updated), updated.releaseId, actorId, correlationId)]
    case ThenUnpoint => [Unpoint(KeyOf(updated))]
    case ThenPoint => [Point(KeyOf(updated), updated.releaseId)]
    case ThenReinstate(snapshot, actorId, correlationId, reason) =>
      [Reinstate(snapshot, actorId, correlationId, reason)]
  }

  function SupersedeChange(actorId: string, correlationId: string): Change {
    PlainChange({Active}, Suspended, actorId, correlationId).(reason := SUPERSEDED_REASON)
  }

  datatype Progress = Progress(authority: Authority, next: seq<Action>)

  /** One atomic section: the new state and the sections to run before the remaining ones. */
  function Exec(a: Authority, action: Action): Result<Progress, ReleaseError> {
    match action
    case Insert(r, actorId) =>
      if r.releaseId in a.releases then Err(Conflict)
      else Ok(Progress(a.(releases := a.releases[r.releaseId := r]),
                       [Append(Event(r, actorId, Created, Draft, Human, TRANSITION_REASON, None))]))
    case Move(id, c, follow) =>
      if id !in a.releases then Err(NotFound)
      else if a.releases[id].state !in c.expected then Err(Conflict)
      else
        var updated := Updated(a.releases[id], c);
        Ok(Progress(
             a.(releases := a.releases[id := updated],
             ledger := if c.enacts.Some? then a.ledger + [c.enacts.value] else a.ledger),
             [Append(MoveEvent(a.releases[id], c))] + FollowUp(updated, follow)))
    case Append(event) =>
      Ok(Progress(a.(log := a.log + [event]), []))
    case Supersede(key, id, actorId, correlationId) =>
      var other := Lookup(a.active, key);
      if other.Some? && other.value != id then
        Ok(Progress(a, [Move(other.value, SupersedeChange(actorId, correlationId), Nothing), Point(key, id)]))
      else
        Ok(Progress(a, [Point(key, id)]))
    case Point(key, id) =>
      Ok(Progress(a.(active := a.active[key := id]), []))
    case Unpoint(key) =>
      Ok(Progress(a.(active := a.active - {key}), []))
    case Reinstate(snapshot, actorId, correlationId, reason) =>
      Ok(Progress(
           a.(releases := a.releases[snapshot.releaseId := Reinstated(snapshot, correlationId)],
           active := a.active[KeyOf(snapshot) := snapshot.releaseId]),
           [Append(Event(Reinstated(snapshot, correlationId), actorId, RollbackTargetActivated, Active,
                         Human, reason, None))]))
  }

  function Weight(action: Action): nat {
    match action
    case Insert(_, _) => 2
    case Move(_, _, follow) =>
      (match follow case Nothing => 2 case ThenSupersede(_, _) => 6 case ThenUnpoint => 3
      case ThenPoint => 3 case ThenReinstate(_, _, _, _) => 4)
    case Supersede(_, _, _, _) => 4
    case Reinstate(_, _, _, _) => 2
    case _ => 1
  }

  function TotalWeight(actions: seq<Action>): nat {
    if actions == [] then 0 else Weight(actions[0]) + TotalWeight(actions[1..])
  }

  lemma {:induction false} TotalWeightConcat(xs: seq<Action>, ys: seq<Action>)
    ensures TotalWeight(xs + ys) == TotalWeight(xs) + TotalWeight(ys)
  {
    if xs == [] {
      assert xs + ys == ys;
    } else {
      assert (xs + ys)[1..] == xs[1..] + ys;
      TotalWeightConcat(xs[1..], ys);
    }
  }

  lemma ExecLightens(a: Authority, action: Action)
    requires Exec(a, action).Ok?
    ensures TotalWeight(Exec(a, action).value.next) < Weight(action)
  {
    var next := Exec(a, action).value.next;
    if |next| >= 1 {
      assert next == [next[0]] + next[1..];
      assert TotalWeight(next) == Weight(next[0]) + TotalWeight(next[1..]);
    }
    if |next| == 2 {
      assert next[1..] == [next[1]];
      assert TotalWeight([next[1]]) == Weight(next[1]);
    }
    if |next| == 1 {
      assert next[1..] == [];
    }
  }

  /** A finished or abandoned call: `error` is the exception, if one was raised. */
  datatype Finish = Finish(authority: Authority, error: Option<ReleaseError>)

  /** Runs sections back to back. An exception abandons the rest and undoes nothing. */
  function Run(a: Authority, actions: seq<Action>): Finish
    decreases TotalWeight(actions)
  {
    if actions == [] then Finish(a, None)
    else
      match Exec(a, actions[0])
      case Err(e) => Finish(a, Some(e))
      case Ok(p) =>
        ExecLightens(a, actions[0]);
        TotalWeightConcat(p.next, actions[1..]);
        Run(p.authority, p.next + actions[1..])
  }

  /** The public coroutines and their arguments. */
  datatype Call =
    | Create(releaseId: string, reviewId: string, tenantId: string, organizationId: string,
             workspaceId: string, subjectId: string, subjectVersion: string,
             materiality: Materiality, actorId: string, correlationId: string, now: int)
    | MarkImplemented(releaseId: string, actorId: string, correlationId: string)
    | RecordAutomatedAssurance(releaseId: string, passed: bool, actorId: string, correlationId: string)
    | RecordAiReviewPackage(releaseId: string, package: ReviewPackage, actorId: string, correlationId: string)
    | SubmitForIt(releaseId: string, actorId: string, correlationId: string)
    | RecordItDecision(releaseId: string, decision: Decision, correlationId: string)
    | SubmitForDirector(releaseId: string, actorId: string, correlationId: string)
    | RecordDirectorDecision(releaseId: string, decision: Decision, correlationId: string)
    | Release(releaseId: string, actorId: string, correlationId: string)
    | Activate(releaseId: string, actorId: string, correlationId: string)
    | ActivateKillSwitch(releaseId: string, actorId: string, reason: string, correlationId: string)
    | ClearKillSwitch(releaseId: string, actorId: string, reason: string, correlationId: string)
    | Rollback(releaseId: string, targetReleaseId: string, actorId: string, reason: string, correlationId: string)

  function NewRelease(c: Call): GovernedRelease
    requires c.Create?
  {
    GovernedRelease(c.releaseId, c.reviewId, c.tenantId, c.organizationId, c.workspaceId,
                    c.subjectId, c.subjectVersion, c.materiality, Draft, c.actorId,
                    c.correlationId, c.now, None, None, false, None, false)
  }

  predicate Matches(supplied: Option<string>, expected: string) {
    supplied.None? || supplied.value == expected
  }

  /** `_require_decision_context`. */
  function RequireDecisionContext(a: Authority, id: string, d: Decision): Option<ReleaseError> {
    if id !in a.releases then Some(NotFound)
    else
      var r := a.releases[id];
      if && d.reviewId == r.reviewId && Matches(d.tenantId, r.tenantId)
         && Matches(d.workspaceId, r.workspaceId) && Matches(d.releaseId, r.releaseId)
         && Matches(d.subjectId, r.subjectId)
      then None else Some(Conflict)
  }

  function DecisionTarget(outcome: DecisionOutcome, approved: ReleaseState): ReleaseState {
    match outcome
    case OutcomeApproved => approved
    case OutcomeReturned => Returned
    case OutcomeRejected => Rejected
    case OutcomeHold => Hold
  }

  function PackageMatches(p: ReviewPackage, r: GovernedRelease): bool {
    && p.reviewId == r.reviewId && p.tenantId == r.tenantId && p.workspaceId == r.workspaceId
    && p.subjectId == r.subjectId && p.subjectVersion == r.subjectVersion
  }

  function ItChange(d: Decision, correlationId: string): Change {
    PlainChange({ReadyForIt}, DecisionTarget(d.outcome, ItApproved), d.actorId, correlationId)
    .(enacts := Some(d), itDecisionId := Some(d.decisionId))
  }

  function DirectorChange(d: Decision, correlationId: string): Change {
    PlainChange({ReadyForDirector}, DecisionTarget(d.outcome, DirectorApproved), d.actorId, correlationId)
    .(enacts := Some(d), directorDecisionId := Some(d.decisionId))
  }

  function ReleaseChange(m: Materiality, actorId: string, correlationId: string): Change {
    PlainChange(if m.Material? then {DirectorApproved} else {ItApproved}, Released, actorId, correlationId)
    .(everReleased := Some(true))
  }

  function ActivateChange(actorId: string, correlationId: string): Change {
    PlainChange({Released}, Active, actorId, correlationId).(everReleased := Some(true))
  }

  function KillChange(actorId: string, reason: string, correlationId: string): Change {
    PlainChange({Active}, Suspended, actorId, correlationId)
    .(killSwitch := Some(true), eventType := KillSwitchActivated, reason := reason)
  }

  function ClearChange(actorId: string, reason: string, correlationId: string): Change {
    PlainChange({Suspended}, Active, actorId, correlationId)
    .(killSwitch := Some(false), eventType := KillSwitchCleared, reason := reason)
  }

  function RollbackChange(targetId: string, actorId: string, reason: string, correlationId: string): Change {
    PlainChange({Active}, RolledBack, actorId, correlationId)
    .(rollbackTarget := Some(targetId), eventType := RolledBackEvent, reason := reason)
  }

  /** Everything a coroutine does before its first await: an error, or its first section. */
  function Begin(a: Authority, call: Call): Result<Action, ReleaseError> {
    match call
    case Create(_, _, _, _, _, _, _, _, actorId, _, _) => Ok(Insert(NewRelease(call), actorId))
    case MarkImplemented(id, actorId, corr) =>
      Ok(Move(id, PlainChange({Draft, RevisionRequired}, Implemented, actorId, corr), Nothing))
    case RecordAutomatedAssurance(id, passed, actorId, corr) =>
      if !passed then Err(Conflict)
      else Ok(Move(id, PlainChange({Implemented}, AutomatedAssurance, actorId, corr), Nothing))
    case RecordAiReviewPackage(id, package, actorId, corr) =>
      if id !in a.releases then Err(NotFound)
      else if !PackageMatches(package, a.releases[id]) then Err(Conflict)
      else Ok(Move(id, PlainChange({AutomatedAssurance}, AiReviewed, actorId, corr).(actorKind := System), Nothing))
    case SubmitForIt(id, actorId, corr) =>
      Ok(Move(id, PlainChange({AiReviewed}, ReadyForIt, actorId, corr), Nothing))
    case RecordItDecision(id, d, corr) =>
      if !d.authority.It? then Err(Conflict)
      else
        var problem := RequireDecisionContext(a, id, d);
        if problem.Some? then Err(problem.value) else Ok(Move(id, ItChange(d, corr), Nothing))
    case SubmitForDirector(id, actorId, corr) =>
      if id !in a.releases then Err(NotFound)
      else if !a.releases[id].materiality.Material? then Err(Conflict)
      else Ok(Move(id, PlainChange({ItApproved}, ReadyForDirector, actorId, corr), Nothing))
    case RecordDirectorDecision(id, d, corr) =>
      if !d.authority.Director? then Err(Conflict)
      else
        var problem := RequireDecisionContext(a, id, d);
        if problem.Some? then Err(problem.value) else Ok(Move(id, DirectorChange(d, corr), Nothing))
    case Release(id, actorId, corr) =>
      if id !in a.releases then Err(NotFound)
      else Ok(Move(id, ReleaseChange(a.releases[id].materiality, actorId, corr), Nothing))
    case Activate(id, actorId, corr) =>
      Ok(Move(id, ActivateChange(actorId, corr), ThenSupersede(actorId, corr)))
    case ActivateKillSwitch(id, actorId, reason, corr) =>
      if Text.IsBlank(reason) then Err(Conflict)
      else Ok(Move(id, KillChange(actorId, reason, corr), ThenUnpoint))
    case ClearKillSwitch(id, actorId, reason, corr) =>
      if id !in a.releases then Err(NotFound)
      else if !a.releases[id].killSwitchActive || Text.IsBlank(reason) then Err(Conflict)
      else Ok(Move(id, ClearChange(actorId, reason, corr), ThenPoint))
    case Rollback(id, targetId, actorId, reason, corr) =>
      if id !in a.releases || targetId !in a.releases then Err(NotFound)
      else
        var current := a.releases[id];
        var target := a.releases[targetId];
        if || Text.IsBlank(reason) || current.killSwitchActive || !current.state.Active?
           || targetId == id || KeyOf(current) != KeyOf(target) || !target.everReleased
        then Err(Conflict)
        else Ok(Move(id, RollbackChange(targetId, actorId, reason, corr),
                      ThenReinstate(target, actorId, corr, reason)))
  }

  /** A call that is awaited to its end before the next one starts. */
  function Perform(a: Authority, call: Call): Finish {
    match Begin(a, call)
    case Err(e) => Finish(a, Some(e))
    case Ok(action) => Run(a, [action])
  }

  /** The authority after a sequence of awaited calls; exceptions do not end the sequence. */
  function PerformAll(a: Authority, calls: seq<Call>): Authority
    decreases |calls|
  {
    if calls == [] then a
    else Perform(PerformAll(a, calls[..|calls| - 1]), calls[|calls| - 1]).authority
  }

  /** The dictionary key of every release is its own id. */
  ghost predicate Keyed(a: Authority) {
    forall id :: id in a.releases ==> a.releases[id].releaseId == id
  }
}
