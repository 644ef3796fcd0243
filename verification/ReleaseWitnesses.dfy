/** Concrete runs that show where the guarantees of the release authority stop. */
module ReleaseWitnesses {
  import opened Prelude
  import opened ReleaseModel
  import opened ReleaseRuns
  import opened ReleaseGates
  import opened ReleaseTasks
  import Text

  /** The names that a run uses; what they are does not matter. */
  datatype Scene = Scene(tenant: string, organization: string, workspace: string, subject: string,
                         version: string, actor: string, correlation: string)

  function SubjectOf(c: Scene): SubjectKey {
    SubjectKey(c.tenant, c.workspace, c.subject)
  }

  function ApprovalOf(c: Scene, id: string, decisionId: string): Decision {
    Decision(decisionId, id, None, None, None, None, It, OutcomeApproved, c.actor)
  }

  /** The seven calls that bring a new NON_MATERIAL release to RELEASED. */
  function Preparation(c: Scene, id: string, decisionId: string): seq<Call> {
    [Create(id, id, c.tenant, c.organization, c.workspace, c.subject, c.version, NonMaterial, c.actor,
            c.correlation, 0),
     MarkImplemented(id, c.actor, c.correlation),
     RecordAutomatedAssurance(id, true, c.actor, c.correlation),
     RecordAiReviewPackage(id, ReviewPackage(id, c.tenant, c.workspace, c.subject, c.version), c.actor, c.correlation),
     SubmitForIt(id, c.actor, c.correlation),
     RecordItDecision(id, ApprovalOf(c, id, decisionId), c.correlation),
     Release(id, c.actor, c.correlation)]
  }

  /** The release after the first `k` of those calls. */
  function Stage(c: Scene, id: string, decisionId: string, k: int): GovernedRelease {
    var decided := if k >= 6 then Or(Some(decisionId), None) else None;
    GovernedRelease(id, id, c.tenant, c.organization, c.workspace, c.subject, c.version, NonMaterial,
                    if k <= 1 then Draft else if k == 2 then Implemented else if k == 3 then AutomatedAssurance
                    else if k == 4 then AiReviewed else if k == 5 then ReadyForIt else if k == 6 then ItApproved
                    else Released,
                    c.actor, c.correlation, 0, decided, None, false, None, k >= 7)
  }

  lemma PerformMore(a: Authority, calls: seq<Call>, call: Call)
    ensures PerformAll(a, calls + [call]) == Perform(PerformAll(a, calls), call).authority
  {
    assert (calls + [call])[..|calls|] == calls;
  }

  lemma {:induction false} PerformConcat(a: Authority, first: seq<Call>, second: seq<Call>)
    ensures PerformAll(a, first + second) == PerformAll(PerformAll(a, first), second)
  {
    if second == [] {
      assert first + second == first;
    } else {
      assert (first + second)[..|first + second| - 1] == first + second[..|second| - 1];
      PerformConcat(a, first, second[..|second| - 1]);
    }
  }

  lemma StageBegins(a: Authority, c: Scene, id: string, decisionId: string, k: nat)
    requires 1 <= k < 7 && id in a.releases && a.releases[id] == Stage(c, id, decisionId, k)
    ensures var first := Begin(a, Preparation(c, id, decisionId)[k]);
            && first.Ok? && first.value.Move? && first.value.releaseId == id && first.value.follow.Nothing?
            && a.releases[id].state in first.value.change.expected
            && Updated(a.releases[id], first.value.change) == Stage(c, id, decisionId, k + 1)
  {
    if k == 1 {
    } else if k == 2 {
    } else if k == 3 {
    } else if k == 4 {
    } else if k == 5 {
    } else {
    }
  }

  /** A preparation touches only its own release and leaves the index alone. */
  lemma {:induction false} PreparedUpTo(a: Authority, c: Scene, id: string, decisionId: string, k: nat)
    requires id !in a.releases && 1 <= k <= 7
    ensures var b := PerformAll(a, Preparation(c, id, decisionId)[..k]);
            b.releases == a.releases[id := Stage(c, id, decisionId, k)] && b.active == a.active
  {
    hide Stage, Preparation, Perform;
    var calls := Preparation(c, id, decisionId);
    PreparationHasSeven(c, id, decisionId);
    var before := PerformAll(a, calls[..k - 1]);
    assert calls[..k][..k - 1] == calls[..k - 1];
    if k == 1 {
      PreparedFirst(a, c, id, decisionId);
    } else {
      PreparedUpTo(a, c, id, decisionId, k - 1);
      PreparedNext(before, c, id, decisionId, k - 1);
      assert a.releases[id := Stage(c, id, decisionId, k - 1)][id := Stage(c, id, decisionId, k)]
             == a.releases[id := Stage(c, id, decisionId, k)];
    }
  }

  lemma PreparationHasSeven(c: Scene, id: string, decisionId: string)
    ensures |Preparation(c, id, decisionId)| == 7
  {
  }

  lemma PreparedFirst(a: Authority, c: Scene, id: string, decisionId: string)
    requires id !in a.releases
    ensures var b := Perform(a, Preparation(c, id, decisionId)[0]).authority;
            b.releases == a.releases[id := Stage(c, id, decisionId, 1)] && b.active == a.active
  {
    PerformIsDirect(a, Preparation(c, id, decisionId)[0]);
  }

  lemma PreparedNext(a: Authority, c: Scene, id: string, decisionId: string, k: nat)
    requires 1 <= k < 7 && id in a.releases && a.releases[id] == Stage(c, id, decisionId, k)
    ensures var b := Perform(a, Preparation(c, id, decisionId)[k]).authority;
            b.releases == a.releases[id := Stage(c, id, decisionId, k + 1)] && b.active == a.active
  {
    hide Stage, Preparation, Begin, Updated;
    PreparationHasSeven(c, id, decisionId);
    PerformIsDirect(a, Preparation(c, id, decisionId)[k]);
    StageBegins(a, c, id, decisionId, k);
  }

  lemma Prepared(a: Authority, c: Scene, id: string, decisionId: string)
    requires id !in a.releases
    ensures var b := PerformAll(a, Preparation(c, id, decisionId));
            b.releases == a.releases[id := Stage(c, id, decisionId, 7)] && b.active == a.active
  {
    PreparedUpTo(a, c, id, decisionId, 7);
    assert Preparation(c, id, decisionId)[..7] == Preparation(c, id, decisionId);
  }

  /** An approval whose decision id is empty passes the gate and leaves no id behind. */
  lemma EmptyDecisionIdIsLost(c: Scene, id: string)
    ensures var a := PerformAll(EMPTY_AUTHORITY, Preparation(c, id, ""));
            id in a.releases && a.releases[id].state.Released? && a.releases[id].itDecisionId.None?
  {
    Prepared(EMPTY_AUTHORITY, c, id, "");
  }

  /** A call adds to the ledger no decision but its own. */
  lemma CallLedger(a: Authority, call: Call)
    ensures forall d :: d in Perform(a, call).authority.ledger ==>
                          d in a.ledger || ((call.RecordItDecision? || call.RecordDirectorDecision?)
                                            && d == call.decision)
  {
    hide Rest, Perform, Updated, Text.IsBlank;
    PerformIsDirect(a, call);
    if Begin(a, call).Ok? && Begin(a, call).value.Move? {
      var move := Begin(a, call).value;
      if MoveProblem(a, move.releaseId, move.change).None? {
        RestLedger(Moved(a, move.releaseId, move.change), Updated(a.releases[move.releaseId], move.change),
                   move.follow);
      }
    }
  }

  lemma RestLedger(b: Authority, r: GovernedRelease, follow: Follow)
    ensures Rest(b, r, follow).authority.ledger == b.ledger
  {
  }

  lemma {:induction false} LedgerComesFromCalls(calls: seq<Call>)
    ensures forall d :: d in PerformAll(EMPTY_AUTHORITY, calls).ledger ==>
                          exists k :: 0 <= k < |calls|
                              && (calls[k].RecordItDecision? || calls[k].RecordDirectorDecision?)
                                      && d == calls[k].decision
  {
    hide Perform;
    if calls != [] {
      LedgerComesFromCalls(calls[..|calls| - 1]);
      CallLedger(PerformAll(EMPTY_AUTHORITY, calls[..|calls| - 1]), calls[|calls| - 1]);
    }
  }

  ghost predicate LedgerWithin(a: Authority, ids: iset<string>) {
    forall d :: d in a.ledger ==> d.decisionId in ids
  }

  function AfterTurns(turns: seq<Turn>): Authority {
    TakeAll(Loop(EMPTY_AUTHORITY, []), turns).authority
  }

  function AfterWaking(turns: seq<Turn>): Authority {
    WakeAll(Loop(EMPTY_AUTHORITY, []), turns).authority
  }

  lemma NamedLedgerCarries(turns: seq<Turn>, ids: iset<string>)
    requires "" !in ids && LedgerWithin(AfterTurns(turns), ids)
    ensures AllCarryIds(AfterTurns(turns))
  {
    hide CarriesIds;
    var a := AfterTurns(turns);
    forall id | id in a.releases ensures CarriesIds(a, a.releases[id]) { NamedApprovalsAreCarried(turns, id); }
  }

  /** The run that releases on an approval with an empty id: its ledger holds that one id. */
  lemma EmptyIdIsNotCarried(c: Scene, id: string, ids: iset<string>)
    requires "" in ids
    ensures var a := PerformAll(EMPTY_AUTHORITY, Preparation(c, id, "")); LedgerWithin(a, ids) && !AllCarryIds(a)
  {
    var calls := Preparation(c, id, "");
    var a := PerformAll(EMPTY_AUTHORITY, calls);
    EmptyDecisionIdIsLost(c, id);
    LedgerComesFromCalls(calls);
    assert forall k :: 0 <= k < 7 && (calls[k].RecordItDecision? || calls[k].RecordDirectorDecision?) ==>
                         calls[k].decision.decisionId == "";
    Prepared(EMPTY_AUTHORITY, c, id, "");
    assert a.releases[id].everReleased;
    assert !CarriesIds(a, a.releases[id]);
  }

  /** For any set of decision ids: every release past its gates carries the ids of its approvals, in every
      schedule, and in every run of the event loop, whose decisions have ids in the set, if and
      only if the empty id is not in the set. */
  lemma IdsAreCarriedIffNamed(ids: iset<string>)
    ensures (forall turns: seq<Turn> :: LedgerWithin(AfterTurns(turns), ids) ==> AllCarryIds(AfterTurns(turns)))
            <==> "" !in ids
    ensures (forall turns: seq<Turn> :: LedgerWithin(AfterWaking(turns), ids) ==> AllCarryIds(AfterWaking(turns)))
            <==> "" !in ids
  {
    hide LedgerWithin, AllCarryIds;
    if "" !in ids {
      forall turns: seq<Turn> | LedgerWithin(AfterTurns(turns), ids) ensures AllCarryIds(AfterTurns(turns)) {
        NamedLedgerCarries(turns, ids);
      }
      forall turns: seq<Turn> | LedgerWithin(AfterWaking(turns), ids) ensures AllCarryIds(AfterWaking(turns)) {
        var schedule := RealRunIsASchedule(Loop(EMPTY_AUTHORITY, []), turns);
        NamedLedgerCarries(schedule, ids);
      }
    } else {
      var c := Scene("", "", "", "", "", "", "");
      EmptyIdIsNotCarried(c, "", ids);
      var schedule := AwaitedRunIsASchedule(Preparation(c, "", ""));
      var woken := AwaitedRunIsReal(Preparation(c, "", ""));
      assert !AllCarryIds(AfterTurns(schedule)) && LedgerWithin(AfterTurns(schedule), ids);
      assert !AllCarryIds(AfterWaking(woken)) && LedgerWithin(AfterWaking(woken), ids);
    }
  }

  function TwoPrepared(c: Scene, v1: string, v2: string): seq<Call> {
    Preparation(c, v1, v1) + Preparation(c, v2, v2)
  }

  ghost predicate BothReleased(a: Authority, c: Scene, v1: string, v2: string) {
    && a.releases == map[v1 := Stage(c, v1, v1, 7), v2 := Stage(c, v2, v2, 7)]
    && a.active == map[]
  }

  lemma TwoArePrepared(c: Scene, v1: string, v2: string)
    requires v1 != v2
    ensures BothReleased(PerformAll(EMPTY_AUTHORITY, TwoPrepared(c, v1, v2)), c, v1, v2)
  {
    Prepared(EMPTY_AUTHORITY, c, v1, v1);
    var b := PerformAll(EMPTY_AUTHORITY, Preparation(c, v1, v1));
    Prepared(b, c, v2, v2);
    PerformConcat(EMPTY_AUTHORITY, Preparation(c, v1, v1), Preparation(c, v2, v2));
  }

  ghost predicate BothActive(a: Authority, c: Scene, v1: string, v2: string) {
    && v1 in a.releases && v2 in a.releases && v1 != v2
    && a.releases[v1].state.Active? && a.releases[v2].state.Active?
    && KeyOf(a.releases[v1]) == SubjectOf(c) && KeyOf(a.releases[v2]) == SubjectOf(c)
  }

  lemma ActivateFromNothing(a: Authority, c: Scene, id: string)
    requires id in a.releases && a.releases[id].state.Released? && a.releases[id].releaseId == id
    requires KeyOf(a.releases[id]) !in a.active
    ensures var f := Perform(a, Activate(id, c.actor, c.correlation));
            && f.error.None?
            && f.authority.releases == a.releases[id := Updated(a.releases[id], ActivateChange(c.actor, c.correlation))]
            && f.authority.active == a.active[KeyOf(a.releases[id]) := id]
  {
    PerformIsDirect(a, Activate(id, c.actor, c.correlation));
  }

  lemma StopIndexed(a: Authority, c: Scene, id: string, reason: string)
    requires id in a.releases && a.releases[id].state.Active? && !Text.IsBlank(reason)
    ensures var f := Perform(a, ActivateKillSwitch(id, c.actor, reason, c.correlation));
            && f.error.None?
            && f.authority.releases
                == a.releases[id := Updated(a.releases[id], KillChange(c.actor, reason, c.correlation))]
            && f.authority.active == a.active - {KeyOf(a.releases[id])}
  {
    PerformIsDirect(a, ActivateKillSwitch(id, c.actor, reason, c.correlation));
  }

  lemma ClearStopped(a: Authority, c: Scene, id: string, reason: string)
    requires id in a.releases && a.releases[id].state.Suspended? && a.releases[id].killSwitchActive
    requires !Text.IsBlank(reason)
    ensures var f := Perform(a, ClearKillSwitch(id, c.actor, reason, c.correlation));
            && f.error.None?
            && f.authority.releases
                == a.releases[id := Updated(a.releases[id], ClearChange(c.actor, reason, c.correlation))]
  {
    PerformIsDirect(a, ClearKillSwitch(id, c.actor, reason, c.correlation));
  }

  lemma PerformFour(a: Authority, calls: seq<Call>, c1: Call, c2: Call, c3: Call, c4: Call)
    ensures PerformAll(a, calls + [c1, c2, c3, c4]) ==
            Perform(Perform(Perform(Perform(PerformAll(a, calls), c1).authority, c2).authority, c3).authority,
                    c4).authority
  {
    PerformMore(a, calls, c1);
    PerformMore(a, calls + [c1], c2);
    PerformMore(a, calls + [c1] + [c2], c3);
    PerformMore(a, calls + [c1] + [c2] + [c3], c4);
    assert calls + [c1] + [c2] + [c3] + [c4] == calls + [c1, c2, c3, c4];
  }

  /** Activate v1, stop it, activate v2, clear v1: every call succeeds and both are ACTIVE. */
  lemma ClearingAfterSuccessionDoublesActive(c: Scene, v1: string, v2: string, reason: string)
    requires v1 != v2 && !Text.IsBlank(reason)
    ensures BothActive(PerformAll(EMPTY_AUTHORITY, TwoPrepared(c, v1, v2) +
                                  [Activate(v1, c.actor, c.correlation),
                                   ActivateKillSwitch(v1, c.actor, reason, c.correlation),
                                   Activate(v2, c.actor, c.correlation),
                                   ClearKillSwitch(v1, c.actor, reason, c.correlation)]),
                       c, v1, v2)
  {
    var a0 := PerformAll(EMPTY_AUTHORITY, TwoPrepared(c, v1, v2));
    TwoArePrepared(c, v1, v2);
    var c1, c2, c3, c4 := Activate(v1, c.actor, c.correlation), ActivateKillSwitch(v1, c.actor, reason, c.correlation),
      Activate(v2, c.actor, c.correlation), ClearKillSwitch(v1, c.actor, reason, c.correlation);
    ActivateFromNothing(a0, c, v1);
    var a1 := Perform(a0, c1).authority;
    StopIndexed(a1, c, v1, reason);
    var a2 := Perform(a1, c2).authority;
    ActivateFromNothing(a2, c, v2);
    var a3 := Perform(a2, c3).authority;
    ClearStopped(a3, c, v1, reason);
    PerformFour(EMPTY_AUTHORITY, TwoPrepared(c, v1, v2), c1, c2, c3, c4);
  }

  lemma RollBackTo(a: Authority, c: Scene, id: string, target: string, reason: string)
    requires Keyed(a) && RollsBack(a, Rollback(id, target, c.actor, reason, c.correlation))
    ensures var f := Perform(a, Rollback(id, target, c.actor, reason, c.correlation));
            f.error.None? && target in f.authority.releases
            && f.authority.releases[target] == Reinstated(a.releases[target], c.correlation)
  {
    PerformIsDirect(a, Rollback(id, target, c.actor, reason, c.correlation));
  }

  /** Activate v1, stop it, activate v2, roll v2 back to v1: v1 is ACTIVE again and its kill switch is
      off, although nobody cleared it. */
  lemma RollbackTakesOffAKillSwitch(c: Scene, v1: string, v2: string, reason: string)
    requires v1 != v2 && !Text.IsBlank(reason)
    ensures var before := PerformAll(EMPTY_AUTHORITY, TwoPrepared(c, v1, v2) +
                                     [Activate(v1, c.actor, c.correlation),
                                      ActivateKillSwitch(v1, c.actor, reason, c.correlation),
                                      Activate(v2, c.actor, c.correlation)]);
            var after := Perform(before, Rollback(v2, v1, c.actor, reason, c.correlation));
            && v1 in before.releases && before.releases[v1].killSwitchActive
            && after.error.None? && v1 in after.authority.releases
            && after.authority.releases[v1].state.Active? && !after.authority.releases[v1].killSwitchActive
  {
    var a0 := PerformAll(EMPTY_AUTHORITY, TwoPrepared(c, v1, v2));
    TwoArePrepared(c, v1, v2);
    var c1, c2, c3 := Activate(v1, c.actor, c.correlation), ActivateKillSwitch(v1, c.actor, reason, c.correlation),
      Activate(v2, c.actor, c.correlation);
    ActivateFromNothing(a0, c, v1);
    var a1 := Perform(a0, c1).authority;
    StopIndexed(a1, c, v1, reason);
    var a2 := Perform(a1, c2).authority;
    ActivateFromNothing(a2, c, v2);
    var a3 := Perform(a2, c3).authority;
    PerformMore(EMPTY_AUTHORITY, TwoPrepared(c, v1, v2), c1);
    PerformMore(EMPTY_AUTHORITY, TwoPrepared(c, v1, v2) + [c1], c2);
    PerformMore(EMPTY_AUTHORITY, TwoPrepared(c, v1, v2) + [c1] + [c2], c3);
    assert TwoPrepared(c, v1, v2) + [c1] + [c2] + [c3] == TwoPrepared(c, v1, v2) + [c1, c2, c3];
    RollBackTo(a3, c, v2, v1, reason);
  }

  // ----- Two activations at once -----

  /** v0 is ACTIVE and indexed; v1 and v2 wait to replace it. */
  function Succession(c: Scene, v0: string, v1: string, v2: string): seq<Call> {
    TwoPrepared(c, v0, v1) + Preparation(c, v2, v2) + [Activate(v0, c.actor, c.correlation)]
  }

  ghost predicate Indexed(a: Authority, c: Scene, v0: string, v1: string, v2: string) {
    && a.releases == map[v0 := Updated(Stage(c, v0, v0, 7), ActivateChange(c.actor, c.correlation)),
                         v1 := Stage(c, v1, v1, 7), v2 := Stage(c, v2, v2, 7)]
    && a.active == map[SubjectOf(c) := v0]
  }

  lemma SuccessionIsIndexed(c: Scene, v0: string, v1: string, v2: string)
    requires v0 != v1 && v0 != v2 && v1 != v2
    ensures Indexed(PerformAll(EMPTY_AUTHORITY, Succession(c, v0, v1, v2)), c, v0, v1, v2)
  {
    hide Stage, Updated, Preparation;
    var two := PerformAll(EMPTY_AUTHORITY, TwoPrepared(c, v0, v1));
    TwoArePrepared(c, v0, v1);
    Prepared(two, c, v2, v2);
    PerformConcat(EMPTY_AUTHORITY, TwoPrepared(c, v0, v1), Preparation(c, v2, v2));
    var three := PerformAll(EMPTY_AUTHORITY, TwoPrepared(c, v0, v1) + Preparation(c, v2, v2));
    StageSeven(c, v0);
    ActivateFromNothing(three, c, v0);
    PerformMore(EMPTY_AUTHORITY, TwoPrepared(c, v0, v1) + Preparation(c, v2, v2), Activate(v0, c.actor, c.correlation));
  }

  lemma StageSeven(c: Scene, id: string)
    ensures var r := Stage(c, id, id, 7); r.state.Released? && r.releaseId == id && KeyOf(r) == SubjectOf(c)
  {
  }

  /** Two tasks activate v1 and v2, the second one starting while the first is in its append. */
  function Race(c: Scene, i: nat, v1: string, v2: string): seq<Turn> {
    [Start(Activate(v1, c.actor, c.correlation)), Start(Activate(v2, c.actor, c.correlation)),
     Advance(i), Advance(i + 1), Advance(i)]
  }

  /** A move runs up to its own audit record. */
  lemma SettleMove(a: Authority, id: string, change: Change, follow: Follow, rest: seq<Action>)
    requires MoveProblem(a, id, change).None?
    ensures Settle(a, [Move(id, change, follow)] + rest)
            == Progress(Exec(a, Move(id, change, follow)).value.authority,
                        [Append(MoveEvent(a.releases[id], change))]
                            + FollowUp(Updated(a.releases[id], change), follow) + rest)
  {
    var task := [Move(id, change, follow)] + rest;
    assert task[1..] == rest;
    var next := [Append(MoveEvent(a.releases[id], change))] + FollowUp(Updated(a.releases[id], change), follow) + rest;
    assert next[0].Append?;
  }

  /** The look-up finds v0 and supersedes it, if v0 is still ACTIVE, up to the audit record of that. */
  lemma SettleSupersede(a: Authority, c: Scene, id: string, v0: string)
    requires SubjectOf(c) in a.active && a.active[SubjectOf(c)] == v0 != id && v0 in a.releases
    ensures var p := Settle(a, [Supersede(SubjectOf(c), id, c.actor, c.correlation)]);
            var change := SupersedeChange(c.actor, c.correlation);
            p == (if a.releases[v0].state.Active? then
                    Progress(Exec(a, Move(v0, change, Nothing)).value.authority,
                             [Append(MoveEvent(a.releases[v0], change)), Point(SubjectOf(c), id)])
                  else Progress(a, []))
  {
    var change := SupersedeChange(c.actor, c.correlation);
    var task := [Supersede(SubjectOf(c), id, c.actor, c.correlation)];
    var move, point := Move(v0, change, Nothing), Point(SubjectOf(c), id);
    assert [move, point] + task[1..] == [move] + [point];
    assert Settle(a, task) == Settle(a, [move] + [point]);
    if a.releases[v0].state.Active? {
      SettleMove(a, v0, change, Nothing, [point]);
      var event := MoveEvent(a.releases[v0], change);
      assert [Append(event)] + [] + [point] == [Append(event), point];
    }
  }

  lemma SettlePoint(a: Authority, key: SubjectKey, id: string)
    ensures Settle(a, [Point(key, id)]) == Progress(a.(active := a.active[key := id]), [])
  {
    assert [] + [Point(key, id)][1..] == [];
  }

  lemma StartActivation(l: Loop, c: Scene, id: string) returns (after: Loop, event: AuditEvent)
    requires id in l.authority.releases && l.authority.releases[id] == Stage(c, id, id, 7)
    ensures after == Wake(l, Start(Activate(id, c.actor, c.correlation)))
    ensures after.tasks == l.tasks + [[Append(event), Supersede(SubjectOf(c), id, c.actor, c.correlation)]]
    ensures after.authority.releases
            == l.authority.releases[id := Updated(Stage(c, id, id, 7), ActivateChange(c.actor, c.correlation))]
    ensures after.authority.active == l.authority.active
  {
    var change, follow := ActivateChange(c.actor, c.correlation), ThenSupersede(c.actor, c.correlation);
    StageSeven(c, id);
    after := Wake(l, Start(Activate(id, c.actor, c.correlation)));
    event := MoveEvent(l.authority.releases[id], change);
    assert [Move(id, change, follow)] == [Move(id, change, follow)] + [];
    SettleMove(l.authority, id, change, follow, []);
    var supersede := Supersede(SubjectOf(c), id, c.actor, c.correlation);
    assert [Append(event)] + [supersede] + [] == [Append(event), supersede];
  }

  /** The record of a task is written, and what remains of it settles to `next`. */
  lemma WakeTask(l: Loop, i: nat, event: AuditEvent, rest: seq<Action>) returns (after: Loop)
    requires i < |l.tasks| && l.tasks[i] == [Append(event)] + rest
    ensures after == Wake(l, Advance(i))
    ensures var p := Settle(l.authority.(log := l.authority.log + [event]), rest);
            after == Loop(p.authority, l.tasks[i := p.next])
  {
    assert l.tasks[i][1..] == rest;
    after := Wake(l, Advance(i));
  }

  /** The race: task 1 supersedes v0 and is suspended in the record of that; task 2 finds v0 superseded,
      and its exception leaves v2 ACTIVE; task 1 goes on to index v1. */
  lemma RaceEndsWithTwoActive(l: Loop, c: Scene, v0: string, v1: string, v2: string)
    requires v0 != v1 && v0 != v2 && v1 != v2 && Indexed(l.authority, c, v0, v1, v2)
    ensures var race := Race(c, |l.tasks|, v1, v2);
            var after := Wake(Wake(Wake(Wake(Wake(l, race[0]), race[1]), race[2]), race[3]), race[4]);
            && after.tasks == l.tasks + [[], []]
            && BothActive(after.authority, c, v1, v2) && after.authority.active == map[SubjectOf(c) := v1]
  {
    var l1, e1 := StartActivation(l, c, v1);
    var l2, e2 := StartActivation(l1, c, v2);
    StageSeven(c, v0);
    StageSeven(c, v1);
    StageSeven(c, v2);
    RaceFinishes(l2, l.tasks, c, v0, v1, v2, e1, e2);
  }

  lemma RaceFinishes(l2: Loop, others: seq<seq<Action>>, c: Scene, v0: string, v1: string, v2: string,
                     e1: AuditEvent, e2: AuditEvent)
    requires l2.tasks == others + [[Append(e1), Supersede(SubjectOf(c), v1, c.actor, c.correlation)]]
                         + [[Append(e2), Supersede(SubjectOf(c), v2, c.actor, c.correlation)]]
    requires BothActive(l2.authority, c, v1, v2) && v0 != v1 && v0 != v2
    requires l2.authority.active == map[SubjectOf(c) := v0]
    requires v0 in l2.authority.releases && l2.authority.releases[v0].state.Active?
    ensures var after := Wake(Wake(Wake(l2, Advance(|others|)), Advance(|others| + 1)), Advance(|others|));
            && after.tasks == others + [[], []]
            && BothActive(after.authority, c, v1, v2) && after.authority.active == map[SubjectOf(c) := v1]
  {
    hide Settle, Wake;
    var i := |others|;
    var s1, s2 := Supersede(SubjectOf(c), v1, c.actor, c.correlation),
        Supersede(SubjectOf(c), v2, c.actor, c.correlation);
    assert [Append(e1), s1] == [Append(e1)] + [s1] && [Append(e2), s2] == [Append(e2)] + [s2];
    var l3 := WakeTask(l2, i, e1, [s1]);
    SettleSupersede(l2.authority.(log := l2.authority.log + [e1]), c, v1, v0);
    var e3 := l3.tasks[i][0].event;
    assert l3.tasks[i] == [Append(e3)] + [Point(SubjectOf(c), v1)];
    var l4 := WakeTask(l3, i + 1, e2, [s2]);
    SettleSupersede(l3.authority.(log := l3.authority.log + [e2]), c, v2, v0);
    var l5 := WakeTask(l4, i, e3, [Point(SubjectOf(c), v1)]);
    SettlePoint(l4.authority.(log := l4.authority.log + [e3]), SubjectOf(c), v1);
    assert l5.tasks == others + [[], []];
  }

  lemma WakeFive(l: Loop, turns: seq<Turn>)
    requires |turns| == 5
    ensures WakeAll(l, turns) == Wake(Wake(Wake(Wake(Wake(l, turns[0]), turns[1]), turns[2]), turns[3]), turns[4])
  {
    forall k | 0 <= k < 5 ensures WakeAll(l, turns[..k + 1]) == Wake(WakeAll(l, turns[..k]), turns[k]) {
      assert turns[..k + 1][..k] == turns[..k];
    }
    assert turns[..5] == turns;
  }

  /** A run of the event loop, with no kill switch involved, after which two releases of one subject are
      ACTIVE: two activations overlap while a third release is indexed. */
  lemma ConcurrentActivationsDoubleActive(c: Scene, v0: string, v1: string, v2: string) returns (turns: seq<Turn>)
    requires v0 != v1 && v0 != v2 && v1 != v2
    ensures var l := WakeAll(Loop(EMPTY_AUTHORITY, []), turns);
            BothActive(l.authority, c, v1, v2) && l.authority.active == map[SubjectOf(c) := v1]
  {
    SuccessionIsIndexed(c, v0, v1, v2);
    var prepare := AwaitedRunIsReal(Succession(c, v0, v1, v2));
    var l := WakeAll(Loop(EMPTY_AUTHORITY, []), prepare);
    RaceEndsWithTwoActive(l, c, v0, v1, v2);
    WakeFive(l, Race(c, |l.tasks|, v1, v2));
    turns := prepare + Race(c, |l.tasks|, v1, v2);
    WakeConcat(Loop(EMPTY_AUTHORITY, []), prepare, Race(c, |l.tasks|, v1, v2));
  }
}
