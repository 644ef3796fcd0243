/** Human gates under every interleaving of the coroutines at their awaits. */
module ReleaseGates {
  import opened Prelude
  import opened ReleaseModel

  /** Coroutines in flight: each is the list of sections it still has to run. */
  datatype Loop = Loop(authority: Authority, tasks: seq<seq<Action>>)

  /** What the event loop may do next: start a call, or run one section of a started one. */
  datatype Turn = Start(call: Call) | Advance(task: nat)

  function Take(l: Loop, turn: Turn): Loop {
    match turn
    case Start(call) =>
      (match Begin(l.authority, call)
       case Err(_) => l
       case Ok(action) => l.(tasks := l.tasks + [[action]]))
    case Advance(i) =>
      if i >= |l.tasks| || l.tasks[i] == [] then l
      else
        match Exec(l.authority, l.tasks[i][0])
        case Err(_) => l.(tasks := l.tasks[i := []])
        case Ok(p) => Loop(p.authority, l.tasks[i := p.next + l.tasks[i][1..]])
  }

  function TakeAll(l: Loop, turns: seq<Turn>): Loop {
    if turns == [] then l else Take(TakeAll(l, turns[..|turns| - 1]), turns[|turns| - 1])
  }

  predicate Live(s: ReleaseState) {
    s.Released? || s.Active? || s.Suspended? || s.RolledBack?
  }

  predicate BeforeIt(s: ReleaseState) {
    s.Draft? || s.Implemented? || s.AutomatedAssurance? || s.AiReviewed? || s.ReadyForIt?
  }

  predicate BetweenGates(s: ReleaseState) {
    s.ItApproved? || s.ReadyForDirector?
  }

  /** `ledger` holds an approval at `level` for the release's own review, and `recorded` is
      that decision's id (the service drops an empty id). */
  ghost predicate Approved(ledger: seq<Decision>, r: GovernedRelease, level: AuthorityLevel, recorded: Option<string>) {
    exists d :: d in ledger && d.authority == level && d.outcome.OutcomeApproved?
                && d.reviewId == r.reviewId && recorded == Or(Some(d.decisionId), None)
  }

  ghost predicate Gated(r: GovernedRelease, ledger: seq<Decision>) {
    && (r.everReleased <==> Live(r.state))
    && !r.state.RevisionRequired? && !r.state.Blocked?
    && (Live(r.state) || BetweenGates(r.state) || r.state.DirectorApproved? ==>
          Approved(ledger, r, It, r.itDecisionId))
    && (r.state.DirectorApproved? || (Live(r.state) && r.materiality.Material?) ==>
          Approved(ledger, r, Director, r.directorDecisionId))
    && (BeforeIt(r.state) ==> r.itDecisionId.None?)
    && (BeforeIt(r.state) || BetweenGates(r.state) ==> r.directorDecisionId.None?)
  }

  predicate SameIdentity(r: GovernedRelease, s: GovernedRelease) {
    && r.releaseId == s.releaseId && r.reviewId == s.reviewId && r.tenantId == s.tenantId
    && r.organizationId == s.organizationId && r.workspaceId == s.workspaceId
    && r.subjectId == s.subjectId && r.subjectVersion == s.subjectVersion
    && r.materiality == s.materiality && r.createdBy == s.createdBy && r.createdAt == s.createdAt
  }

  /** `b` is a later authority: releases keep their identity and the ledger only grows. */
  ghost predicate Extends(a: Authority, b: Authority) {
    && (forall id :: id in a.releases ==> id in b.releases && SameIdentity(a.releases[id], b.releases[id]))
    && a.ledger <= b.ledger
  }

  ghost predicate AllGated(a: Authority) {
    && Keyed(a)
    && forall id :: id in a.releases ==> Gated(a.releases[id], a.ledger)
  }

  /** A snapshot taken earlier may be stale, but it was gated and still names its release. */
  ghost predicate SnapshotOk(a: Authority, s: GovernedRelease) {
    && Gated(s, a.ledger) && s.everReleased
    && s.releaseId in a.releases && SameIdentity(a.releases[s.releaseId], s)
  }

  ghost predicate DecisionOk(a: Authority, id: string, c: Change, level: AuthorityLevel, waiting: ReleaseState,
                             approved: ReleaseState)
  {
    && c.enacts.Some? && c.enacts.value.authority == level
    && c.expected == {waiting} && c.target == DecisionTarget(c.enacts.value.outcome, approved)
    && c.everReleased.None?
    && id in a.releases && c.enacts.value.reviewId == a.releases[id].reviewId
    && c.itDecisionId == (if level.It? then Some(c.enacts.value.decisionId) else None)
    && c.directorDecisionId == (if level.Director? then Some(c.enacts.value.decisionId) else None)
  }

  ghost predicate PlainOk(a: Authority, id: string, c: Change) {
    && c.enacts.None? && c.itDecisionId.None? && c.directorDecisionId.None?
    && match c.target
       case Implemented => c.expected <= {Draft, RevisionRequired} && c.everReleased.None?
       case AutomatedAssurance => c.expected <= {Implemented} && c.everReleased.None?
       case AiReviewed => c.expected <= {AutomatedAssurance} && c.everReleased.None?
       case ReadyForIt => c.expected <= {AiReviewed} && c.everReleased.None?
       case ReadyForDirector => c.expected <= {ItApproved} && c.everReleased.None?
       case Released =>
         && c.everReleased == Some(true) && id in a.releases
         && c.expected <= (if a.releases[id].materiality.Material? then {DirectorApproved} else {ItApproved})
       case Active =>
         || (c.expected <= {Released} && c.everReleased == Some(true))
         || (c.expected <= {Suspended} && c.everReleased.None?)
       case Suspended => c.expected <= {Active} && c.everReleased.None?
       case RolledBack => c.expected <= {Active} && c.everReleased.None?
       case _ => false
  }

  ghost predicate ActionOk(a: Authority, action: Action) {
    match action
    case Insert(r, _) =>
      r.state.Draft? && r.itDecisionId.None? && r.directorDecisionId.None? && !r.everReleased
    case Move(id, c, follow) =>
      && (|| DecisionOk(a, id, c, It, ReadyForIt, ItApproved)
          || DecisionOk(a, id, c, Director, ReadyForDirector, DirectorApproved)
          || PlainOk(a, id, c))
      && (follow.ThenReinstate? ==> SnapshotOk(a, follow.snapshot))
    case Reinstate(s, _, _, _) => SnapshotOk(a, s)
    case _ => true
  }

  ghost predicate LoopOk(l: Loop) {
    && AllGated(l.authority)
    && forall i, k :: 0 <= i < |l.tasks| && 0 <= k < |l.tasks[i]| ==> ActionOk(l.authority, l.tasks[i][k])
  }

  lemma ApprovedStays(before: seq<Decision>, after: seq<Decision>, r: GovernedRelease, level: AuthorityLevel,
                      recorded: Option<string>)
    requires before <= after && Approved(before, r, level, recorded)
    ensures Approved(after, r, level, recorded)
  {
    var d :| d in before && d.authority == level && d.outcome.OutcomeApproved?
             && d.reviewId == r.reviewId && recorded == Or(Some(d.decisionId), None);
    assert d in after;
  }

  lemma GatedStays(r: GovernedRelease, before: seq<Decision>, after: seq<Decision>)
    requires Gated(r, before) && before <= after
    ensures Gated(r, after)
  {
    if Approved(before, r, It, r.itDecisionId) { ApprovedStays(before, after, r, It, r.itDecisionId); }
    if Approved(before, r, Director, r.directorDecisionId) {
      ApprovedStays(before, after, r, Director, r.directorDecisionId);
    }
  }

  lemma ActionStaysOk(a: Authority, b: Authority, action: Action)
    requires Extends(a, b) && ActionOk(a, action)
    ensures ActionOk(b, action)
  {
    match action
    case Move(_, _, ThenReinstate(s, _, _, _)) => GatedStays(s, a.ledger, b.ledger);
    case Reinstate(s, _, _, _) => GatedStays(s, a.ledger, b.ledger);
    case _ =>
  }

  lemma SameApproval(ledger: seq<Decision>, r: GovernedRelease, u: GovernedRelease, level: AuthorityLevel,
                     recorded: Option<string>)
    requires r.reviewId == u.reviewId && Approved(ledger, r, level, recorded)
    ensures Approved(ledger, u, level, recorded)
  {
    var d :| d in ledger && d.authority == level && d.outcome.OutcomeApproved?
             && d.reviewId == r.reviewId && recorded == Or(Some(d.decisionId), None);
    assert d.reviewId == u.reviewId;
  }

  function LedgerAfter(a: Authority, c: Change): seq<Decision> {
    if c.enacts.Some? then a.ledger + [c.enacts.value] else a.ledger
  }

  lemma PlainMoveKeepsGates(a: Authority, id: string, c: Change)
    requires id in a.releases && Gated(a.releases[id], a.ledger)
    requires PlainOk(a, id, c) && a.releases[id].state in c.expected
    ensures Gated(Updated(a.releases[id], c), LedgerAfter(a, c))
  {
    var r := a.releases[id];
    var u := Updated(r, c);
    if Approved(a.ledger, r, It, r.itDecisionId) { SameApproval(a.ledger, r, u, It, r.itDecisionId); }
    if Approved(a.ledger, r, Director, r.directorDecisionId) {
      SameApproval(a.ledger, r, u, Director, r.directorDecisionId);
    }
  }

  lemma ItMoveKeepsGates(a: Authority, id: string, c: Change)
    requires id in a.releases && Gated(a.releases[id], a.ledger)
    requires DecisionOk(a, id, c, It, ReadyForIt, ItApproved) && a.releases[id].state in c.expected
    ensures Gated(Updated(a.releases[id], c), LedgerAfter(a, c))
  {
    var d := c.enacts.value;
    var u := Updated(a.releases[id], c);
    assert d in LedgerAfter(a, c);
    assert u.itDecisionId == Or(Some(d.decisionId), None);
    if d.outcome.OutcomeApproved? { assert Approved(LedgerAfter(a, c), u, It, u.itDecisionId); }
  }

  lemma DirectorMoveKeepsGates(a: Authority, id: string, c: Change)
    requires id in a.releases && Gated(a.releases[id], a.ledger)
    requires DecisionOk(a, id, c, Director, ReadyForDirector, DirectorApproved) && a.releases[id].state in c.expected
    ensures Gated(Updated(a.releases[id], c), LedgerAfter(a, c))
  {
    var d := c.enacts.value;
    var r := a.releases[id];
    var u := Updated(r, c);
    assert d in LedgerAfter(a, c);
    assert u.directorDecisionId == Or(Some(d.decisionId), None);
    if d.outcome.OutcomeApproved? { assert Approved(LedgerAfter(a, c), u, Director, u.directorDecisionId); }
    ApprovedStays(a.ledger, LedgerAfter(a, c), r, It, r.itDecisionId);
    SameApproval(LedgerAfter(a, c), r, u, It, r.itDecisionId);
  }

  /** The locked section of `_transition` keeps the gates of every release. */
  lemma MoveKeepsGates(a: Authority, id: string, c: Change, follow: Follow)
    requires AllGated(a) && ActionOk(a, Move(id, c, follow))
    requires id in a.releases && a.releases[id].state in c.expected
    ensures var b := Exec(a, Move(id, c, follow)).value.authority;
            AllGated(b) && Extends(a, b)
  {
    if PlainOk(a, id, c) { PlainMoveKeepsGates(a, id, c); }
    else if DecisionOk(a, id, c, It, ReadyForIt, ItApproved) { ItMoveKeepsGates(a, id, c); }
    else { DirectorMoveKeepsGates(a, id, c); }
    var b := Exec(a, Move(id, c, follow)).value.authority;
    forall other | other in b.releases && other != id ensures Gated(b.releases[other], b.ledger) {
      GatedStays(a.releases[other], a.ledger, b.ledger);
    }
  }

  lemma ReinstateKeepsGates(a: Authority, s: GovernedRelease, actorId: string, correlationId: string, reason: string)
    requires AllGated(a) && SnapshotOk(a, s)
    ensures var b := Exec(a, Reinstate(s, actorId, correlationId, reason)).value.authority;
            AllGated(b) && Extends(a, b)
  {
    var r := Reinstated(s, correlationId);
    SameApproval(a.ledger, s, r, It, s.itDecisionId);
    if r.materiality.Material? { SameApproval(a.ledger, s, r, Director, s.directorDecisionId); }
  }

  lemma MoveLeavesGoodActions(a: Authority, id: string, c: Change, follow: Follow)
    requires AllGated(a) && ActionOk(a, Move(id, c, follow)) && Exec(a, Move(id, c, follow)).Ok?
    requires Extends(a, Exec(a, Move(id, c, follow)).value.authority)
    ensures var p := Exec(a, Move(id, c, follow)).value;
            forall next :: next in p.next ==> ActionOk(p.authority, next)
  {
    hide Gated, DecisionOk, PlainOk;
    var p := Exec(a, Move(id, c, follow)).value;
    if follow.ThenReinstate? { GatedStays(follow.snapshot, a.ledger, p.authority.ledger); }
  }

  lemma ExecKeepsGates(a: Authority, action: Action)
    requires AllGated(a) && ActionOk(a, action) && Exec(a, action).Ok?
    ensures var p := Exec(a, action).value;
            AllGated(p.authority) && Extends(a, p.authority)
            && forall next :: next in p.next ==> ActionOk(p.authority, next)
  {
    match action
    case Move(id, c, follow) =>
      MoveKeepsGates(a, id, c, follow);
      MoveLeavesGoodActions(a, id, c, follow);
    case Reinstate(s, actorId, correlationId, reason) =>
      ReinstateKeepsGates(a, s, actorId, correlationId, reason);
    case Supersede(key, id, actorId, correlationId) =>
      if key in a.active { assert PlainOk(a, a.active[key], SupersedeChange(actorId, correlationId)); }
    case _ =>
  }

  lemma BeginsPlainly(a: Authority, call: Call)
    requires Begin(a, call).Ok? && !call.Create? && !call.RecordItDecision? && !call.RecordDirectorDecision?
    ensures var move := Begin(a, call).value;
            move.Move? && PlainOk(a, move.releaseId, move.change) && (move.follow.ThenReinstate? ==> call.Rollback?)
  {
  }

  lemma BeginKeepsGates(a: Authority, call: Call)
    requires AllGated(a) && Begin(a, call).Ok?
    ensures ActionOk(a, Begin(a, call).value)
  {
    hide Gated, PlainOk;
    match call
    case RecordItDecision(id, d, corr) => assert DecisionOk(a, id, ItChange(d, corr), It, ReadyForIt, ItApproved);
    case RecordDirectorDecision(id, d, corr) =>
      assert DecisionOk(a, id, DirectorChange(d, corr), Director, ReadyForDirector, DirectorApproved);
    case Create(_, _, _, _, _, _, _, _, _, _, _) =>
    case _ => BeginsPlainly(a, call);
  }

  lemma ExtendsItself(a: Authority)
    ensures Extends(a, a)
  {
  }

  lemma TakeKeepsGates(l: Loop, turn: Turn)
    requires LoopOk(l)
    ensures LoopOk(Take(l, turn)) && Extends(l.authority, Take(l, turn).authority)
  {
    hide Begin, Exec, ActionOk, AllGated, SameIdentity;
    var a := l.authority;
    ExtendsItself(a);
    match turn
    case Start(call) =>
      if Begin(a, call).Ok? { BeginKeepsGates(a, call); }
    case Advance(i) =>
      if i < |l.tasks| && l.tasks[i] != [] && Exec(a, l.tasks[i][0]).Ok? {
        ExecKeepsGates(a, l.tasks[i][0]);
        var p := Exec(a, l.tasks[i][0]).value;
        var tasks := Take(l, turn).tasks;
        forall j, k | 0 <= j < |tasks| && 0 <= k < |tasks[j]| ensures ActionOk(p.authority, tasks[j][k]) {
          if j == i && k < |p.next| {
            assert tasks[j][k] in p.next;
          } else {
            ActionStaysOk(a, p.authority, if j == i then l.tasks[i][1..][k - |p.next|] else l.tasks[j][k]);
          }
        }
      }
  }

  /** Every schedule keeps the gates: those of the stored releases, and those that the sections
      still to be taken rely on. */
  lemma {:induction false} TakeAllKeepsGates(turns: seq<Turn>)
    ensures LoopOk(TakeAll(Loop(EMPTY_AUTHORITY, []), turns))
  {
    if turns != [] {
      TakeAllKeepsGates(turns[..|turns| - 1]);
      TakeKeepsGates(TakeAll(Loop(EMPTY_AUTHORITY, []), turns[..|turns| - 1]), turns[|turns| - 1]);
    }
  }

  /** However the coroutines interleave, a release that was ever released, or that is ACTIVE,
      SUSPENDED or ROLLED_BACK, records an approving IT decision for its own review, and a
      MATERIAL one also an approving Director decision. */
  lemma HumanGatesHold(turns: seq<Turn>, id: string)
    requires id in TakeAll(Loop(EMPTY_AUTHORITY, []), turns).authority.releases
    ensures var a := TakeAll(Loop(EMPTY_AUTHORITY, []), turns).authority;
            var r := a.releases[id];
            r.everReleased || r.state in {Active, Suspended, RolledBack} ==>
              && Approved(a.ledger, r, It, r.itDecisionId)
              && (r.materiality.Material? ==> Approved(a.ledger, r, Director, r.directorDecisionId))
  {
    TakeAllKeepsGates(turns);
  }

  ghost predicate CarriesApproval(ledger: seq<Decision>, r: GovernedRelease, level: AuthorityLevel,
                                  recorded: Option<string>) {
    recorded.Some? &&
    exists d :: d in ledger && d.authority == level && d.outcome.OutcomeApproved? && d.reviewId == r.reviewId &&
                d.decisionId == recorded.value
  }

  /** A release past its gates carries the ids of its approvals. */
  ghost predicate CarriesIds(a: Authority, r: GovernedRelease) {
    r.everReleased || r.state in {Active, Suspended, RolledBack} ==>
      && CarriesApproval(a.ledger, r, It, r.itDecisionId)
      && (r.materiality.Material? ==> CarriesApproval(a.ledger, r, Director, r.directorDecisionId))
  }

  ghost predicate AllCarryIds(a: Authority) {
    forall id :: id in a.releases ==> CarriesIds(a, a.releases[id])
  }

  /** If no approval for a release's own review had an empty id, then under every interleaving the
      release carries the ids of its approvals. */
  lemma NamedApprovalsAreCarried(turns: seq<Turn>, id: string)
    requires id in TakeAll(Loop(EMPTY_AUTHORITY, []), turns).authority.releases
    requires var a := TakeAll(Loop(EMPTY_AUTHORITY, []), turns).authority;
             forall d :: d in a.ledger && d.outcome.OutcomeApproved? && d.reviewId == a.releases[id].reviewId ==>
                           d.decisionId != ""
    ensures var a := TakeAll(Loop(EMPTY_AUTHORITY, []), turns).authority; CarriesIds(a, a.releases[id])
  {
    HumanGatesHold(turns, id);
  }

  /** One call, run to its end without interference: start it, then advance only its task. */
  lemma {:induction false} RunIsASchedule(l: Loop, i: nat) returns (turns: seq<Turn>)
    requires i < |l.tasks|
    ensures TakeAll(l, turns).authority == Run(l.authority, l.tasks[i]).authority
    ensures |TakeAll(l, turns).tasks| == |l.tasks|
    decreases TotalWeight(l.tasks[i])
  {
    if l.tasks[i] == [] || Exec(l.authority, l.tasks[i][0]).Err? {
      turns := [];
    } else {
      var p := Exec(l.authority, l.tasks[i][0]).value;
      ExecLightens(l.authority, l.tasks[i][0]);
      TotalWeightConcat(p.next, l.tasks[i][1..]);
      var rest := RunIsASchedule(Take(l, Advance(i)), i);
      turns := [Advance(i)] + rest;
      TakeFirst(l, Advance(i), rest);
    }
  }

  lemma {:induction false} TakeFirst(l: Loop, turn: Turn, rest: seq<Turn>)
    ensures TakeAll(l, [turn] + rest) == TakeAll(Take(l, turn), rest)
  {
    if rest == [] {
      assert ([turn] + rest)[..0] == [];
    } else {
      assert ([turn] + rest)[..|rest|] == [turn] + rest[..|rest| - 1];
      TakeFirst(l, turn, rest[..|rest| - 1]);
    }
  }

  lemma {:induction false} TakeConcat(l: Loop, first: seq<Turn>, second: seq<Turn>)
    ensures TakeAll(l, first + second) == TakeAll(TakeAll(l, first), second)
  {
    if second == [] {
      assert first + second == first;
    } else {
      assert (first + second)[..|first + second| - 1] == first + second[..|second| - 1];
      TakeConcat(l, first, second[..|second| - 1]);
    }
  }

  /** Every run of awaited calls is one of the schedules, so what holds of all schedules
      holds of it. */
  lemma {:induction false} AwaitedRunIsASchedule(calls: seq<Call>) returns (turns: seq<Turn>)
    ensures TakeAll(Loop(EMPTY_AUTHORITY, []), turns).authority == PerformAll(EMPTY_AUTHORITY, calls)
  {
    if calls == [] {
      turns := [];
    } else {
      var call := calls[|calls| - 1];
      var first := AwaitedRunIsASchedule(calls[..|calls| - 1]);
      var l := TakeAll(Loop(EMPTY_AUTHORITY, []), first);
      if Begin(l.authority, call).Err? {
        turns := first;
      } else {
        var started := Take(l, Start(call));
        var rest := RunIsASchedule(started, |l.tasks|);
        TakeFirst(l, Start(call), rest);
        TakeConcat(Loop(EMPTY_AUTHORITY, []), first, [Start(call)] + rest);
        turns := first + ([Start(call)] + rest);
      }
    }
  }
}
