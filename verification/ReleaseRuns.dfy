/** Sequences of awaited calls: the active index and the release store. */
module ReleaseRuns {
  import opened Prelude
  import opened ReleaseModel
  import Text

  /** `_transition` together with its audit record, on a release that may move. */
  function Moved(a: Authority, id: string, c: Change): Authority
    requires id in a.releases
  {
    a.(releases := a.releases[id := Updated(a.releases[id], c)],
    ledger := if c.enacts.Some? then a.ledger + [c.enacts.value] else a.ledger,
    log := a.log + [MoveEvent(a.releases[id], c)])
  }

  function MoveProblem(a: Authority, id: string, c: Change): Option<ReleaseError> {
    if id !in a.releases then Some(NotFound)
    else if a.releases[id].state !in c.expected then Some(Conflict)
    else None
  }

  /** The end of `activate`, after the release itself has become ACTIVE. */
  function Superseding(a: Authority, r: GovernedRelease, actorId: string, correlationId: string): Finish {
    var other := Lookup(a.active, KeyOf(r));
    var c := SupersedeChange(actorId, correlationId);
    if other.Some? && other.value != r.releaseId then
      if MoveProblem(a, other.value, c).Some? then Finish(a, MoveProblem(a, other.value, c))
      else Finish(Moved(a, other.value, c).(active := a.active[KeyOf(r) := r.releaseId]), None)
    else Finish(a.(active := a.active[KeyOf(r) := r.releaseId]), None)
  }

  function Reinstating(a: Authority, f: Follow): Authority
    requires f.ThenReinstate?
  {
    var r := Reinstated(f.snapshot, f.correlationId);
    a.(releases := a.releases[r.releaseId := r],
    active := a.active[KeyOf(r) := r.releaseId],
    log := a.log + [Event(r, f.actorId, RollbackTargetActivated, Active, Human, f.reason, None)])
  }

  /** An awaited call written as the straight-line program that the method body is. */
  function Direct(a: Authority, call: Call): Finish {
    match Begin(a, call)
    case Err(e) => Finish(a, Some(e))
    case Ok(action) => DirectFirst(a, action)
  }

  /** What a call does once its `_transition` has returned `r`. */
  function Rest(b: Authority, r: GovernedRelease, follow: Follow): Finish {
    match follow
    case Nothing => Finish(b, None)
    case ThenSupersede(actorId, correlationId) => Superseding(b, r, actorId, correlationId)
    case ThenUnpoint => Finish(b.(active := b.active - {KeyOf(r)}), None)
    case ThenPoint => Finish(b.(active := b.active[KeyOf(r) := r.releaseId]), None)
    case ThenReinstate(_, _, _, _) => Finish(Reinstating(b, follow), None)
  }

  function DirectFirst(a: Authority, action: Action): Finish
    requires action.Insert? || action.Move?
  {
    match action
    case Insert(r, actorId) =>
      if r.releaseId in a.releases then Finish(a, Some(Conflict))
      else Finish(a.(releases := a.releases[r.releaseId := r],
                  log := a.log + [Event(r, actorId, Created, Draft, Human, TRANSITION_REASON, None)]), None)
    case Move(id, c, follow) =>
      if MoveProblem(a, id, c).Some? then Finish(a, MoveProblem(a, id, c))
      else
        Rest(Moved(a, id, c), Updated(a.releases[id], c), follow)
  }

  lemma RunNext(a: Authority, action: Action, rest: seq<Action>)
    requires Exec(a, action).Ok?
    ensures Run(a, [action] + rest) == Run(Exec(a, action).value.authority, Exec(a, action).value.next + rest)
  {
    assert ([action] + rest)[1..] == rest;
  }

  lemma RunAppend(a: Authority, event: AuditEvent, rest: seq<Action>)
    ensures Run(a, [Append(event)] + rest) == Run(a.(log := a.log + [event]), rest)
  {
    RunNext(a, Append(event), rest);
    assert [] + rest == rest;
  }

  lemma RunLast(a: Authority, action: Action)
    requires Exec(a, action).Ok? && Exec(a, action).value.next == []
    ensures Run(a, [action]) == Finish(Exec(a, action).value.authority, None)
  {
    RunNext(a, action, []);
    assert [action] + [] == [action];
  }

  lemma RunMove(a: Authority, id: string, c: Change, follow: Follow, rest: seq<Action>)
    ensures Run(a, [Move(id, c, follow)] + rest) ==
            if MoveProblem(a, id, c).Some? then Finish(a, MoveProblem(a, id, c))
            else Run(Moved(a, id, c), FollowUp(Updated(a.releases[id], c), follow) + rest)
  {
    if MoveProblem(a, id, c).None? {
      RunNext(a, Move(id, c, follow), rest);
      var b := Exec(a, Move(id, c, follow)).value.authority;
      var event := MoveEvent(a.releases[id], c);
      var tail := FollowUp(Updated(a.releases[id], c), follow);
      assert ([Append(event)] + tail) + rest == [Append(event)] + (tail + rest);
      assert b.(log := b.log + [event]) == Moved(a, id, c);
      RunAppend(b, event, tail + rest);
    }
  }

  lemma RunSupersede(a: Authority, r: GovernedRelease, actorId: string, correlationId: string)
    ensures Run(a, [Supersede(KeyOf(r), r.releaseId, actorId, correlationId)])
            == Superseding(a, r, actorId, correlationId)
  {
    var action := Supersede(KeyOf(r), r.releaseId, actorId, correlationId);
    var point := Point(KeyOf(r), r.releaseId);
    var other := Lookup(a.active, KeyOf(r));
    RunNext(a, action, []);
    assert [action] + [] == [action];
    var p := Exec(a, action).value;
    assert p.next + [] == p.next;
    if other.Some? && other.value != r.releaseId {
      var c := SupersedeChange(actorId, correlationId);
      assert p.next == [Move(other.value, c, Nothing)] + [point];
      RunMove(a, other.value, c, Nothing, [point]);
      if MoveProblem(a, other.value, c).None? {
        assert [] + [point] == [point];
        RunLast(Moved(a, other.value, c), point);
      }
    } else {
      RunLast(a, point);
    }
  }

  lemma RunFollow(b: Authority, r: GovernedRelease, follow: Follow)
    ensures Run(b, FollowUp(r, follow)) == Rest(b, r, follow)
  {
    match follow
    case Nothing =>
    case ThenSupersede(actorId, correlationId) => RunSupersede(b, r, actorId, correlationId);
    case ThenUnpoint => RunLast(b, Unpoint(KeyOf(r)));
    case ThenPoint => RunLast(b, Point(KeyOf(r), r.releaseId));
    case ThenReinstate(s, actorId, correlationId, reason) =>
      var action := Reinstate(s, actorId, correlationId, reason);
      RunNext(b, action, []);
      assert [action] + [] == [action];
      var p := Exec(b, action).value;
      assert p.next + [] == p.next == [p.next[0]];
      RunLast(p.authority, p.next[0]);
  }

  lemma RunInsert(a: Authority, r: GovernedRelease, actorId: string)
    ensures Run(a, [Insert(r, actorId)]) == DirectFirst(a, Insert(r, actorId))
  {
    if r.releaseId !in a.releases {
      assert [Insert(r, actorId)] == [Insert(r, actorId)] + [];
      RunNext(a, Insert(r, actorId), []);
      var p := Exec(a, Insert(r, actorId)).value;
      RunAppend(p.authority, p.next[0].event, []);
      assert p.next + [] == [Append(p.next[0].event)] + [];
    }
  }

  /** Running the sections of a call back to back is the straight-line program. */
  lemma PerformIsDirect(a: Authority, call: Call)
    ensures Perform(a, call) == Direct(a, call)
  {
    if Begin(a, call).Ok? {
      match Begin(a, call).value
      case Insert(r, actorId) => RunInsert(a, r, actorId);
      case Move(id, c, follow) =>
        assert [Move(id, c, follow)] == [Move(id, c, follow)] + [];
        RunMove(a, id, c, follow, []);
        if MoveProblem(a, id, c).None? {
          RunFollow(Moved(a, id, c), Updated(a.releases[id], c), follow);
          assert FollowUp(Updated(a.releases[id], c), follow) + [] == FollowUp(Updated(a.releases[id], c), follow);
        }
      case _ =>
    }
  }

  lemma PerformKeepsKeys(a: Authority, call: Call)
    requires Keyed(a)
    ensures Keyed(Perform(a, call).authority)
  {
    PerformIsDirect(a, call);
    if Begin(a, call).Ok? && Begin(a, call).value.Move? {
      RestKeepsKeys(a, Begin(a, call).value);
    }
  }

  lemma RestKeepsKeys(a: Authority, action: Action)
    requires Keyed(a) && action.Move?
    ensures Keyed(DirectFirst(a, action).authority)
  {
  }

  /** Every entry of the index names an ACTIVE release of that subject. */
  ghost predicate IndexAgrees(a: Authority) {
    && Keyed(a)
    && forall key :: key in a.active ==>
      && a.active[key] in a.releases
      && a.releases[a.active[key]].state.Active?
      && KeyOf(a.releases[a.active[key]]) == key
  }

  /** Every ACTIVE release is the one its subject's index entry names. */
  ghost predicate ActiveIsIndexed(a: Authority) {
    forall id :: id in a.releases && a.releases[id].state.Active? ==>
      KeyOf(a.releases[id]) in a.active && a.active[KeyOf(a.releases[id])] == id
  }

  ghost predicate OneActive(a: Authority) {
    forall i, j ::
      (&& i in a.releases && j in a.releases && a.releases[i].state.Active? && a.releases[j].state.Active?
       && KeyOf(a.releases[i]) == KeyOf(a.releases[j])) ==> i == j
  }

  /** How the index bookkeeping of a call depends on the states it moves between. */
  ghost predicate Shaped(a: Authority, action: Action) {
    match action
    case Insert(r, _) => r.state.Draft? && !r.killSwitchActive && !r.everReleased
    case Move(id, c, follow) =>
      (match follow
       case Nothing => !c.target.Active? && Active !in c.expected && c.killSwitch.None?
                       && c.eventType.Transitioned?
                       && c.everReleased == (if c.target.Released? then Some(true) else None)
       case ThenSupersede(_, _) => c.target.Active? && c.expected == {Released} && c.killSwitch.None?
                                   && c.eventType.Transitioned? && c.everReleased == Some(true)
       case ThenUnpoint => c.target.Suspended? && c.expected == {Active} && c.killSwitch == Some(true)
                           && c.eventType.KillSwitchActivated? && c.everReleased.None?
       case ThenPoint => c.target.Active? && c.expected == {Suspended} && c.killSwitch == Some(false)
                         && c.eventType.KillSwitchCleared? && c.everReleased.None?
       case ThenReinstate(snapshot, _, _, _) =>
         && c.target.RolledBack? && c.expected == {Active} && c.killSwitch.None?
         && c.eventType.RolledBackEvent? && c.everReleased.None?
         && id in a.releases && snapshot.releaseId in a.releases && snapshot.releaseId != id
         && a.releases[snapshot.releaseId] == snapshot && KeyOf(snapshot) == KeyOf(a.releases[id])
         && snapshot.everReleased)
    case _ => false
  }

  lemma BeginIsShaped(a: Authority, call: Call)
    requires Keyed(a) && Begin(a, call).Ok?
    ensures Shaped(a, Begin(a, call).value)
  {
  }

  /** The entry that `activate` finds names an ACTIVE release, so superseding it cannot fail. */
  lemma ActivateKeepsIndex(a: Authority, id: string, c: Change, actorId: string, correlationId: string)
    requires IndexAgrees(a) && Shaped(a, Move(id, c, ThenSupersede(actorId, correlationId)))
    requires MoveProblem(a, id, c).None?
    ensures var f := Superseding(Moved(a, id, c), Updated(a.releases[id], c), actorId, correlationId);
            f.error.None? && IndexAgrees(f.authority)
  {
    var key := KeyOf(a.releases[id]);
    if key in a.active { assert a.active[key] != id; }
  }

  lemma MoveKeepsIndex(a: Authority, id: string, c: Change, follow: Follow)
    requires IndexAgrees(a) && Shaped(a, Move(id, c, follow)) && MoveProblem(a, id, c).None?
    ensures var f := Rest(Moved(a, id, c), Updated(a.releases[id], c), follow);
            f.error.None? && IndexAgrees(f.authority)
  {
    if follow.ThenSupersede? { ActivateKeepsIndex(a, id, c, follow.actorId, follow.correlationId); }
  }

  /** In a state with a sound index, `activate` never fails half-way, every exception leaves
      the store, the index, the audit trail and the ledger as they were, and the index stays sound. */
  lemma CallKeepsIndex(a: Authority, call: Call)
    requires IndexAgrees(a)
    ensures IndexAgrees(Perform(a, call).authority)
    ensures Perform(a, call).error.Some? ==> Perform(a, call).authority == a
  {
    PerformIsDirect(a, call);
    if Begin(a, call).Ok? {
      BeginIsShaped(a, call);
      var action := Begin(a, call).value;
      if action.Move? && MoveProblem(a, action.releaseId, action.change).None? {
        MoveKeepsIndex(a, action.releaseId, action.change, action.follow);
      }
    }
  }

  /** `clear_kill_switch` is about to succeed. */
  predicate Clears(a: Authority, call: Call) {
    && call.ClearKillSwitch? && call.releaseId in a.releases
    && a.releases[call.releaseId].killSwitchActive && a.releases[call.releaseId].state.Suspended?
    && !Text.IsBlank(call.reason)
  }

  /** The check that `clear_kill_switch` does not make: nothing is indexed for the subject. */
  predicate Guarded(a: Authority, call: Call) {
    Clears(a, call) ==> KeyOf(a.releases[call.releaseId]) !in a.active
  }

  lemma SupersedeKeepsActiveIndexed(a: Authority, id: string, c: Change, follow: Follow)
    requires IndexAgrees(a) && ActiveIsIndexed(a) && Shaped(a, Move(id, c, follow))
    requires MoveProblem(a, id, c).None? && follow.ThenSupersede?
    ensures ActiveIsIndexed(Rest(Moved(a, id, c), Updated(a.releases[id], c), follow).authority)
  {
    var key := KeyOf(a.releases[id]);
    if key in a.active { assert a.active[key] != id; }
  }

  lemma ReinstateKeepsActiveIndexed(a: Authority, id: string, c: Change, follow: Follow)
    requires IndexAgrees(a) && ActiveIsIndexed(a) && Shaped(a, Move(id, c, follow))
    requires MoveProblem(a, id, c).None? && follow.ThenReinstate?
    ensures ActiveIsIndexed(Rest(Moved(a, id, c), Updated(a.releases[id], c), follow).authority)
  {
  }

  lemma PlainMoveKeepsActiveIndexed(a: Authority, id: string, c: Change, follow: Follow)
    requires IndexAgrees(a) && ActiveIsIndexed(a) && Shaped(a, Move(id, c, follow))
    requires MoveProblem(a, id, c).None? && !follow.ThenSupersede? && !follow.ThenReinstate?
    requires follow.ThenPoint? ==> KeyOf(a.releases[id]) !in a.active
    ensures ActiveIsIndexed(Rest(Moved(a, id, c), Updated(a.releases[id], c), follow).authority)
  {
  }

  /** What follows a move keeps the ACTIVE releases indexed. */
  lemma MoveKeepsActiveIndexed(a: Authority, id: string, c: Change, follow: Follow)
    requires IndexAgrees(a) && ActiveIsIndexed(a) && Shaped(a, Move(id, c, follow))
    requires MoveProblem(a, id, c).None?
    requires follow.ThenPoint? ==> KeyOf(a.releases[id]) !in a.active
    ensures ActiveIsIndexed(Rest(Moved(a, id, c), Updated(a.releases[id], c), follow).authority)
  {
    if follow.ThenSupersede? {
      SupersedeKeepsActiveIndexed(a, id, c, follow);
    } else if follow.ThenReinstate? {
      ReinstateKeepsActiveIndexed(a, id, c, follow);
    } else {
      PlainMoveKeepsActiveIndexed(a, id, c, follow);
    }
  }

  lemma StartedClearIsGuarded(a: Authority, call: Call)
    requires Guarded(a, call) && Begin(a, call).Ok? && Begin(a, call).value.Move?
    requires Begin(a, call).value.follow.ThenPoint?
    requires MoveProblem(a, Begin(a, call).value.releaseId, Begin(a, call).value.change).None?
    ensures KeyOf(a.releases[Begin(a, call).value.releaseId]) !in a.active
  {
    assert call.ClearKillSwitch? && Clears(a, call);
  }

  lemma GuardedCallKeepsActiveIndexed(a: Authority, call: Call)
    requires IndexAgrees(a) && ActiveIsIndexed(a) && Guarded(a, call)
    ensures ActiveIsIndexed(Perform(a, call).authority)
  {
    PerformIsDirect(a, call);
    if Begin(a, call).Ok? {
      BeginIsShaped(a, call);
      var action := Begin(a, call).value;
      if action.Move? && MoveProblem(a, action.releaseId, action.change).None? {
        if action.follow.ThenPoint? { StartedClearIsGuarded(a, call); }
        MoveKeepsActiveIndexed(a, action.releaseId, action.change, action.follow);
      }
    }
  }

  /** Clearing a kill switch while the subject has an indexed release makes a second ACTIVE one. */
  lemma UnguardedClearDoublesActive(a: Authority, call: Call)
    requires IndexAgrees(a) && !Guarded(a, call)
    ensures !OneActive(Perform(a, call).authority)
  {
    PerformIsDirect(a, call);
    var b := Perform(a, call).authority;
    var id := call.releaseId;
    var other := a.active[KeyOf(a.releases[id])];
    assert b.releases[id].state.Active? && b.releases[other] == a.releases[other];
    assert KeyOf(b.releases[id]) == KeyOf(b.releases[other]) && id != other;
  }

  ghost predicate OneActiveThroughout(calls: seq<Call>) {
    forall k :: 0 <= k <= |calls| ==> OneActive(PerformAll(EMPTY_AUTHORITY, calls[..k]))
  }

  ghost predicate ClearsGuarded(calls: seq<Call>) {
    forall k :: 0 <= k < |calls| ==> Guarded(PerformAll(EMPTY_AUTHORITY, calls[..k]), calls[k])
  }

  /** After every run of awaited calls, each indexed id names an ACTIVE release of its subject. */
  lemma {:induction false} IndexAgreesInEveryRun(calls: seq<Call>)
    ensures IndexAgrees(PerformAll(EMPTY_AUTHORITY, calls))
  {
    if calls != [] {
      var before := calls[..|calls| - 1];
      IndexAgreesInEveryRun(before);
      CallKeepsIndex(PerformAll(EMPTY_AUTHORITY, before), calls[|calls| - 1]);
    }
  }

  /** In every run of awaited calls, a call that raises changes nothing at all. */
  lemma RaisingChangesNothing(calls: seq<Call>, call: Call)
    ensures var a := PerformAll(EMPTY_AUTHORITY, calls);
            Perform(a, call).error.Some? ==> Perform(a, call).authority == a
  {
    IndexAgreesInEveryRun(calls);
    CallKeepsIndex(PerformAll(EMPTY_AUTHORITY, calls), call);
  }

  /** If every clear is guarded, the ACTIVE releases are exactly the indexed ones. */
  lemma {:induction false} GuardedRunKeepsActiveIndexed(calls: seq<Call>)
    requires ClearsGuarded(calls)
    ensures ActiveIsIndexed(PerformAll(EMPTY_AUTHORITY, calls))
  {
    if calls != [] {
      var before := calls[..|calls| - 1];
      assert forall k :: 0 <= k < |before| ==> before[..k] == calls[..k];
      GuardedRunKeepsActiveIndexed(before);
      IndexAgreesInEveryRun(before);
      GuardedCallKeepsActiveIndexed(PerformAll(EMPTY_AUTHORITY, before), calls[|calls| - 1]);
    }
  }

  /** A run has at most one ACTIVE release per subject after every call if and only if every
      kill switch that it clears belongs to a subject with nothing in the index. */
  lemma OneActiveIffClearsGuarded(calls: seq<Call>)
    ensures OneActiveThroughout(calls) <==> ClearsGuarded(calls)
  {
    if ClearsGuarded(calls) {
      forall k | 0 <= k <= |calls| ensures OneActive(PerformAll(EMPTY_AUTHORITY, calls[..k])) {
        assert forall j :: 0 <= j < k ==> calls[..k][..j] == calls[..j];
        GuardedRunKeepsActiveIndexed(calls[..k]);
      }
    }
    if OneActiveThroughout(calls) {
      forall k | 0 <= k < |calls| ensures Guarded(PerformAll(EMPTY_AUTHORITY, calls[..k]), calls[k]) {
        var a := PerformAll(EMPTY_AUTHORITY, calls[..k]);
        IndexAgreesInEveryRun(calls[..k]);
        assert calls[..k + 1][..k] == calls[..k];
        assert PerformAll(EMPTY_AUTHORITY, calls[..k + 1]) == Perform(a, calls[k]).authority;
        if !Guarded(a, calls[k]) { UnguardedClearDoublesActive(a, calls[k]); }
      }
    }
  }

  lemma RestKillSwitch(b: Authority, r: GovernedRelease, follow: Follow, id: string)
    requires Keyed(b) && id in b.releases
    requires follow.ThenReinstate? ==> follow.snapshot.releaseId in b.releases
    ensures id in Rest(b, r, follow).authority.releases
    ensures Rest(b, r, follow).authority.releases[id].killSwitchActive <==>
            b.releases[id].killSwitchActive && !(follow.ThenReinstate? && follow.snapshot.releaseId == id)
  {
  }

  lemma FirstKillSwitch(a: Authority, action: Action, id: string)
    requires IndexAgrees(a) && Shaped(a, action) && id in a.releases && a.releases[id].killSwitchActive
    ensures id in DirectFirst(a, action).authority.releases
    ensures !DirectFirst(a, action).authority.releases[id].killSwitchActive <==>
            && action.Move? && MoveProblem(a, action.releaseId, action.change).None?
            && (|| (action.follow.ThenPoint? && action.releaseId == id)
                || (action.follow.ThenReinstate? && action.follow.snapshot.releaseId == id))
  {
    if action.Move? && MoveProblem(a, action.releaseId, action.change).None? {
      RestKillSwitch(Moved(a, action.releaseId, action.change),
                     Updated(a.releases[action.releaseId], action.change), action.follow, id);
    }
  }

  /** The guards of `rollback`: it leaves an ACTIVE release without a kill switch for another release
      of the same subject that was released before, and it does not look at that one's kill switch. */
  predicate RollsBack(a: Authority, call: Call) {
    && call.Rollback? && call.releaseId in a.releases && call.targetReleaseId in a.releases
    && !Text.IsBlank(call.reason) && call.releaseId != call.targetReleaseId
    && a.releases[call.releaseId].state.Active? && !a.releases[call.releaseId].killSwitchActive
    && KeyOf(a.releases[call.releaseId]) == KeyOf(a.releases[call.targetReleaseId])
    && a.releases[call.targetReleaseId].everReleased
  }

  /** A kill switch goes off in exactly two ways: it is cleared, or the guards of `rollback` let a
      rollback through to the release that it stopped. */
  lemma KillSwitchGoesOff(a: Authority, call: Call, id: string)
    requires IndexAgrees(a) && id in a.releases && a.releases[id].killSwitchActive
    ensures id in Perform(a, call).authority.releases
    ensures !Perform(a, call).authority.releases[id].killSwitchActive <==>
            || (Clears(a, call) && call.releaseId == id)
            || (RollsBack(a, call) && call.targetReleaseId == id)
  {
    hide Perform, DirectFirst;
    PerformIsDirect(a, call);
    if Begin(a, call).Ok? {
      BeginIsShaped(a, call);
      FirstKillSwitch(a, Begin(a, call).value, id);
    }
  }
}
