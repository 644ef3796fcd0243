/** The tool lifecycle under interleaving. A lifecycle call reads the registration, is suspended in the
    append of its event, and then writes back the copy that it made before. The executor looks at the
    registration and starts the adapter without a suspension in between. */
module ToolTasks {
  import opened Prelude
  import opened ToolModel
  import opened ToolRuns
  import Text

  /** A registration and whether it began with `register_draft`. */
  datatype Copy = Copy(tool: Registration, drafted: bool)

  /** A call that is suspended in its append: the event, and the copy that it will write. */
  datatype Pending = Pending(event: ToolEvent, copy: Copy)

  datatype Desk = Desk(tools: map<string, Copy>, events: seq<ToolEvent>, pending: seq<Option<Pending>>,
                       calls: seq<Copy>)

  const EMPTY_DESK := Desk(map[], [], [], [])

  /** Start a registry call, let a suspended one go on, or let the executor reach for a tool. */
  datatype Turn = Start(call: RegistryCall) | Resume(i: nat) | Reach(toolId: string)

  /** What a call is about to write, if its checks pass. */
  function Prepare(d: Desk, audited: bool, c: RegistryCall): Option<Pending>
    requires !c.Register?
  {
    if c.RegisterDraft? then
      var t := c.registration;
      if !t.lifecycle.Draft? || t.ownerActorId != Some(c.actorId) || t.toolId in d.tools || !Recordable(audited, t)
          then None
      else Some(Pending(ToolEvent(DraftRegistered, t.toolId, c.actorId), Copy(t, true)))
    else if c.toolId !in d.tools then None
    else
      var current := d.tools[c.toolId];
      var change := Change(current.tool, c);
      if change.Err? || !Recordable(audited, change.value.1) then None
      else Some(Pending(ToolEvent(change.value.0, c.toolId, c.actorId), Copy(change.value.1, current.drafted)))
  }

  predicate Open(t: Registration) {
    t.lifecycle.Active? && t.allowlisted && !t.killSwitchActive
  }

  function Written(d: Desk, p: Pending): Desk {
    d.(tools := d.tools[p.copy.tool.toolId := p.copy], events := d.events + [p.event])
  }

  function Take(d: Desk, audited: bool, turn: Turn): Desk {
    match turn
    case Start(Register(t)) =>
      if t.toolId in d.tools then d else d.(tools := d.tools[t.toolId := Copy(t, false)])
    case Start(c) =>
      var p := Prepare(d, audited, c);
      if p.None? then d else d.(pending := d.pending + [p])
    case Resume(i) =>
      if i >= |d.pending| || d.pending[i].None? then d
      else Written(d, d.pending[i].value).(pending := d.pending[i := None])
    case Reach(id) =>
      if id !in d.tools || !Open(d.tools[id].tool) then d else d.(calls := d.calls + [d.tools[id]])
  }

  function TakeAll(d: Desk, audited: bool, turns: seq<Turn>): Desk {
    if turns == [] then d else Take(TakeAll(d, audited, turns[..|turns| - 1]), audited, turns[|turns| - 1])
  }

  // ----- Maker and checker under every interleaving -----

  /** Past DRAFT, a drafted copy carries the approval of somebody else, and `events` has it. */
  ghost predicate CopyChecked(events: seq<ToolEvent>, c: Copy) {
    var t := c.tool;
    c.drafted && (t.lifecycle.Approved? || t.lifecycle.Active? || t.lifecycle.Suspended?) ==>
      && t.approvedBy.Some? && t.ownerActorId != t.approvedBy
      && ToolEvent(ToolApproved, t.toolId, t.approvedBy.value) in events
  }

  /** A suspended call may bring the approval itself, with the event that it is about to record. */
  ghost predicate DeskChecked(d: Desk) {
    && (forall id :: id in d.tools ==> d.tools[id].tool.toolId == id && CopyChecked(d.events, d.tools[id]))
    && (forall i :: 0 <= i < |d.pending| && d.pending[i].Some? ==>
          CopyChecked(d.events + [d.pending[i].value.event], d.pending[i].value.copy))
    && (forall c :: c in d.calls ==> Open(c.tool) && CopyChecked(d.events, c))
  }

  lemma CheckedGrows(before: seq<ToolEvent>, after: seq<ToolEvent>, c: Copy)
    requires CopyChecked(before, c) && forall e :: e in before ==> e in after
    ensures CopyChecked(after, c)
  {
  }

  lemma PreparedIsChecked(d: Desk, audited: bool, c: RegistryCall)
    requires DeskChecked(d) && !c.Register? && Prepare(d, audited, c).Some?
    ensures var p := Prepare(d, audited, c).value;
            && CopyChecked(d.events + [p.event], p.copy) && p.copy.tool.toolId == TargetOf(c)
  {
    if !c.RegisterDraft? { assert CopyChecked(d.events, d.tools[c.toolId]); }
  }

  lemma StartKeepsChecked(d: Desk, audited: bool, c: RegistryCall)
    requires DeskChecked(d)
    ensures DeskChecked(Take(d, audited, Start(c)))
  {
    hide CopyChecked, Prepare;
    if c.Register? {
      NotDrafted(d.events, Copy(c.registration, false));
    } else if Prepare(d, audited, c).Some? {
      PreparedIsChecked(d, audited, c);
    }
  }

  lemma NotDrafted(events: seq<ToolEvent>, c: Copy)
    requires !c.drafted
    ensures CopyChecked(events, c)
  {
  }

  lemma ResumeKeepsChecked(d: Desk, audited: bool, i: nat)
    requires DeskChecked(d)
    ensures DeskChecked(Take(d, audited, Resume(i)))
  {
    hide CopyChecked, Open;
    if i < |d.pending| && d.pending[i].Some? {
      var p := d.pending[i].value;
      var after := Take(d, audited, Resume(i));
      forall id | id in after.tools ensures after.tools[id].tool.toolId == id
          && CopyChecked(after.events, after.tools[id]) {
        if id != p.copy.tool.toolId { CheckedGrows(d.events, after.events, d.tools[id]); }
      }
      forall j | 0 <= j < |after.pending| && after.pending[j].Some?
        ensures CopyChecked(after.events + [after.pending[j].value.event], after.pending[j].value.copy)
      {
        var q := d.pending[j].value;
        CheckedGrows(d.events + [q.event], after.events + [q.event], q.copy);
      }
      forall c | c in after.calls ensures Open(c.tool) && CopyChecked(after.events, c) {
        CheckedGrows(d.events, after.events, c);
      }
    }
  }

  lemma ReachKeepsChecked(d: Desk, audited: bool, id: string)
    requires DeskChecked(d)
    ensures DeskChecked(Take(d, audited, Reach(id)))
  {
    hide CopyChecked;
  }

  /** However lifecycle calls interleave: whenever the adapter of a tool entered by `register_draft` was
      called, the approval of somebody other than its owner was on record. */
  lemma {:induction false} DraftsAreCheckedAnyway(audited: bool, turns: seq<Turn>)
    ensures DeskChecked(TakeAll(EMPTY_DESK, audited, turns))
  {
    hide DeskChecked, Take;
    if turns == [] {
      EmptyIsChecked();
    } else {
      DraftsAreCheckedAnyway(audited, turns[..|turns| - 1]);
      var d := TakeAll(EMPTY_DESK, audited, turns[..|turns| - 1]);
      match turns[|turns| - 1]
      case Start(c) => StartKeepsChecked(d, audited, c);
      case Resume(i) => ResumeKeepsChecked(d, audited, i);
      case Reach(id) => ReachKeepsChecked(d, audited, id);
    }
  }

  lemma EmptyIsChecked()
    ensures DeskChecked(EMPTY_DESK)
  {
  }

  // ----- What stays true of a tool -----

  ghost predicate Stored(d: Desk, id: string, p: Registration -> bool) {
    id in d.tools && p(d.tools[id].tool)
  }

  /** Every suspended call on the tool is about to write a copy of that kind. */
  ghost predicate InFlightOnly(d: Desk, id: string, p: Registration -> bool) {
    forall i :: 0 <= i < |d.pending| && d.pending[i].Some? && d.pending[i].value.copy.tool.toolId == id ==>
      p(d.pending[i].value.copy.tool)
  }

  /** The turn starts no call that takes the tool out of that kind. */
  ghost predicate Harmless(turn: Turn, id: string, p: Registration -> bool) {
    turn.Start? && !turn.call.Register? && !turn.call.RegisterDraft? && turn.call.toolId == id ==>
      forall t :: p(t) && Change(t, turn.call).Ok? ==> p(Change(t, turn.call).value.1)
  }

  function CopyCalls(calls: seq<Copy>, id: string): nat {
    if calls == [] then 0
    else CopyCalls(calls[..|calls| - 1], id) + (if calls[|calls| - 1].tool.toolId == id then 1 else 0)
  }

  lemma CopyCallsMore(calls: seq<Copy>, c: Copy, id: string)
    ensures CopyCalls(calls + [c], id) == CopyCalls(calls, id) + (if c.tool.toolId == id then 1 else 0)
  {
    assert (calls + [c])[..|calls|] == calls;
  }

  ghost predicate DeskKeyed(d: Desk) {
    forall id :: id in d.tools ==> d.tools[id].tool.toolId == id
  }

  lemma TurnKeeps(d: Desk, audited: bool, turn: Turn, id: string, p: Registration -> bool)
    requires DeskKeyed(d) && Stored(d, id, p) && InFlightOnly(d, id, p) && Harmless(turn, id, p)
    requires forall t :: p(t) ==> !Open(t)
    ensures var after := Take(d, audited, turn);
            && DeskKeyed(after) && Stored(after, id, p) && InFlightOnly(after, id, p)
            && CopyCalls(after.calls, id) == CopyCalls(d.calls, id)
  {
    hide CopyCalls, Change, Recordable, Open;
    match turn
    case Start(c) =>
      if !c.Register? && !c.RegisterDraft? && c.toolId in d.tools && Change(d.tools[c.toolId].tool, c).Ok? {
        ChangeKeepsId(d.tools[c.toolId].tool, c);
      }
    case Resume(i) =>
    case Reach(other) =>
      if other in d.tools { CopyCallsMore(d.calls, d.tools[other], id); }
  }

  lemma {:induction false} TurnsKeep(d: Desk, audited: bool, turns: seq<Turn>, id: string, p: Registration -> bool)
    requires DeskKeyed(d) && Stored(d, id, p) && InFlightOnly(d, id, p)
    requires forall k :: 0 <= k < |turns| ==> Harmless(turns[k], id, p)
    requires forall t :: p(t) ==> !Open(t)
    ensures var after := TakeAll(d, audited, turns);
            && DeskKeyed(after) && Stored(after, id, p) && InFlightOnly(after, id, p)
            && CopyCalls(after.calls, id) == CopyCalls(d.calls, id)
  {
    hide Take, Stored, InFlightOnly, DeskKeyed, CopyCalls, Open, Harmless;
    if turns != [] {
      TurnsKeep(d, audited, turns[..|turns| - 1], id, p);
      TurnKeeps(TakeAll(d, audited, turns[..|turns| - 1]), audited, turns[|turns| - 1], id, p);
    }
  }

  /** Otherwise one such call goes on, and writes the tool back. */
  lemma InFlightWrites(d: Desk, audited: bool, id: string, p: Registration -> bool) returns (i: nat)
    requires !InFlightOnly(d, id, p)
    ensures !Stored(TakeAll(d, audited, [Resume(i)]), id, p)
  {
    i :| 0 <= i < |d.pending| && d.pending[i].Some? && d.pending[i].value.copy.tool.toolId == id
         && !p(d.pending[i].value.copy.tool);
    OneTurn(d, audited, Resume(i));
  }

  lemma OneTurn(d: Desk, audited: bool, turn: Turn)
    ensures TakeAll(d, audited, [turn]) == Take(d, audited, turn)
  {
    assert [turn][..0] == [];
  }

  // ----- When a retirement or suspension is final -----

  lemma DormantIsHarmless(turn: Turn, id: string)
    ensures Harmless(turn, id, Dormant)
  {
    if turn.Start? && !turn.call.Register? && !turn.call.RegisterDraft? {
      forall t | Dormant(t) && Change(t, turn.call).Ok? ensures Dormant(Change(t, turn.call).value.1) {
        ChangeKeepsId(t, turn.call);
      }
    }
  }

  ghost predicate StaysDormant(d: Desk, audited: bool, id: string) {
    forall turns: seq<Turn> :: Stored(TakeAll(d, audited, turns), id, Dormant)
  }

  /** A suspended or retired tool stays so in every continuation exactly if no call in flight is about
      to write it back otherwise; and then its adapter is never called again. */
  lemma FinalIffNothingInFlight(d: Desk, audited: bool, id: string)
    requires DeskKeyed(d) && Stored(d, id, Dormant)
    ensures StaysDormant(d, audited, id) <==> InFlightOnly(d, id, Dormant)
    ensures InFlightOnly(d, id, Dormant) ==>
              forall turns: seq<Turn> :: CopyCalls(TakeAll(d, audited, turns).calls, id) == CopyCalls(d.calls, id)
  {
    hide CopyCalls, Stored, InFlightOnly, Harmless;
    if InFlightOnly(d, id, Dormant) {
      forall turns: seq<Turn>
        ensures Stored(TakeAll(d, audited, turns), id, Dormant)
        ensures CopyCalls(TakeAll(d, audited, turns).calls, id) == CopyCalls(d.calls, id)
      {
        forall k | 0 <= k < |turns| ensures Harmless(turns[k], id, Dormant) { DormantIsHarmless(turns[k], id); }
        TurnsKeep(d, audited, turns, id, Dormant);
      }
    } else {
      var i := InFlightWrites(d, audited, id, Dormant);
    }
  }

  // ----- When a kill switch holds -----

  predicate Killed(t: Registration) {
    t.killSwitchActive
  }

  predicate Clears(turn: Turn, id: string) {
    turn.Start? && turn.call.ClearKillSwitch? && turn.call.toolId == id
  }

  ghost predicate NoClear(turns: seq<Turn>, id: string) {
    forall k :: 0 <= k < |turns| ==> !Clears(turns[k], id)
  }

  lemma KilledIsHarmless(turn: Turn, id: string)
    requires !Clears(turn, id)
    ensures Harmless(turn, id, Killed)
  {
    if turn.Start? && !turn.call.Register? && !turn.call.RegisterDraft? && turn.call.toolId == id {
      forall t | Killed(t) && Change(t, turn.call).Ok? ensures Killed(Change(t, turn.call).value.1) {
        ChangeKeepsId(t, turn.call);
      }
    }
  }

  ghost predicate StaysKilled(d: Desk, audited: bool, id: string) {
    forall turns: seq<Turn> :: NoClear(turns, id) ==> Stored(TakeAll(d, audited, turns), id, Killed)
  }

  /** A kill switch that is on stays on in every continuation that does not clear it, exactly if no call in
      flight is about to write the tool back with the switch off; and until then its adapter is not called. */
  lemma KillHoldsIffNothingInFlight(d: Desk, audited: bool, id: string)
    requires DeskKeyed(d) && Stored(d, id, Killed)
    ensures StaysKilled(d, audited, id) <==> InFlightOnly(d, id, Killed)
    ensures InFlightOnly(d, id, Killed) ==>
              forall turns: seq<Turn> :: NoClear(turns, id) ==>
                CopyCalls(TakeAll(d, audited, turns).calls, id) == CopyCalls(d.calls, id)
  {
    hide CopyCalls, Stored, InFlightOnly, Harmless;
    if InFlightOnly(d, id, Killed) {
      forall turns: seq<Turn> | NoClear(turns, id)
        ensures Stored(TakeAll(d, audited, turns), id, Killed)
        ensures CopyCalls(TakeAll(d, audited, turns).calls, id) == CopyCalls(d.calls, id)
      {
        forall k | 0 <= k < |turns| ensures Harmless(turns[k], id, Killed) { KilledIsHarmless(turns[k], id); }
        TurnsKeep(d, audited, turns, id, Killed);
      }
    } else {
      var i := InFlightWrites(d, audited, id, Killed);
      assert NoClear([Resume(i)], id);
    }
  }

  // ----- A retirement that is undone -----

  lemma StartAndResume(d: Desk, c: RegistryCall) returns (after: Desk)
    requires !c.Register? && Prepare(d, true, c).Some?
    ensures after == Take(Take(d, true, Start(c)), true, Resume(|d.pending|))
    ensures after == Written(d, Prepare(d, true, c).value).(pending := d.pending + [None])
  {
    hide Prepare;
    after := Take(Take(d, true, Start(c)), true, Resume(|d.pending|));
    assert (d.pending + [Prepare(d, true, c)])[|d.pending| := None] == d.pending + [None];
  }

  /** Two calls start from the same registration, and the second one is the first to write. */
  lemma Overtake(d: Desk, first: RegistryCall, second: RegistryCall) returns (after: Desk)
    requires !first.Register? && !second.Register? && Prepare(d, true, first).Some? && Prepare(d, true, second).Some?
    ensures after == Take(Take(Take(d, true, Start(first)), true, Start(second)), true, Resume(|d.pending| + 1))
    ensures after == Written(d, Prepare(d, true, second).value).(pending := d.pending + [Prepare(d, true, first), None])
  {
    var p, q := Prepare(d, true, first), Prepare(d, true, second);
    SamePrepare(d, d.(pending := d.pending + [p]), second);
    after := Take(Take(Take(d, true, Start(first)), true, Start(second)), true, Resume(|d.pending| + 1));
    assert (d.pending + [p] + [q])[|d.pending| + 1 := None] == d.pending + [p, None];
  }

  lemma SamePrepare(d: Desk, e: Desk, c: RegistryCall)
    requires !c.Register? && e.tools == d.tools
    ensures Prepare(e, true, c) == Prepare(d, true, c)
  {
  }

  lemma ResumeWrites(d: Desk, i: nat, c: Copy)
    requires i < |d.pending| && d.pending[i].Some? && d.pending[i].value.copy == c
    ensures var after := Take(d, true, Resume(i));
            after.tools == d.tools[c.tool.toolId := c] && after.calls == d.calls
  {
  }

  lemma ReachOpens(d: Desk, id: string, t: Registration)
    requires id in d.tools && d.tools[id].tool == t && Open(t)
    ensures Take(d, true, Reach(id)) == d.(calls := d.calls + [d.tools[id]])
  {
  }

  lemma PrepareDraft(t: Registration, owner: string)
    requires t.lifecycle.Draft? && t.ownerActorId == Some(owner) && Recordable(true, t)
    ensures Prepare(EMPTY_DESK, true, RegisterDraft(t, owner))
            == Some(Pending(ToolEvent(DraftRegistered, t.toolId, owner), Copy(t, true)))
  {
  }

  /** What approval, activation and retirement of the one tool are about to write. */
  lemma PrepareChanges(d: Desk, t: Registration, owner: string, other: string)
    requires d.tools == map[t.toolId := Copy(t, true)] && t.ownerActorId == Some(owner) && owner != other
    requires Recordable(true, t)
    ensures t.lifecycle.Draft? ==>
              Prepare(d, true, Approve(t.toolId, other))
              == Some(Pending(ToolEvent(ToolApproved, t.toolId, other),
                              Copy(t.(lifecycle := Approved, approvedBy := Some(other)), true)))
    ensures t.lifecycle.Approved? ==>
              && Prepare(d, true, Activate(t.toolId, other))
                 == Some(Pending(ToolEvent(ToolActivated, t.toolId, other), Copy(t.(lifecycle := Active), true)))
              && Prepare(d, true, Retire(t.toolId, owner))
                 == Some(Pending(ToolEvent(ToolRetired, t.toolId, owner),
                                 Copy(t.(lifecycle := Retired, allowlisted := false), true)))
    ensures Recordable(true, t.(lifecycle := Approved, approvedBy := Some(other)))
  {
  }

  lemma NoCopyCalls(id: string)
    ensures CopyCalls([], id) == 0
  {
  }

  /** Register, approve, start an activation, retire the tool meanwhile, let the activation go on. */
  function Overtaken(t: Registration, owner: string, other: string): seq<Turn> {
    [Start(RegisterDraft(t, owner)), Resume(0), Start(Approve(t.toolId, other)), Resume(1),
     Start(Activate(t.toolId, other)), Start(Retire(t.toolId, owner)), Resume(3), Resume(2), Reach(t.toolId)]
  }

  lemma Nine(d: Desk, audited: bool, turns: seq<Turn>)
    requires |turns| == 9
    ensures TakeAll(d, audited, turns[..7])
            == Take(Take(Take(Take(Take(Take(Take(d, audited, turns[0]), audited, turns[1]), audited, turns[2]),
                                   audited, turns[3]),
                                   audited, turns[4]), audited, turns[5]), audited, turns[6])
    ensures TakeAll(d, audited, turns)
            == Take(Take(TakeAll(d, audited, turns[..7]), audited, turns[7]), audited, turns[8])
  {
    hide Take;
    forall k | 0 <= k < 9 ensures TakeAll(d, audited, turns[..k + 1])
        == Take(TakeAll(d, audited, turns[..k]), audited, turns[k]) {
      assert turns[..k + 1][..k] == turns[..k];
    }
    assert turns[..9] == turns;
  }

  /** The tool is retired and off the allowlist, on record, and then ACTIVE and allowlisted again, and its
      adapter is called. */
  lemma RetirementCanBeUndone(t: Registration, owner: string, other: string)
    requires t.lifecycle.Draft? && t.ownerActorId == Some(owner) && owner != other && Recordable(true, t)
    requires t.allowlisted && !t.killSwitchActive
    ensures var turns := Overtaken(t, owner, other);
            var retired, after := TakeAll(EMPTY_DESK, true, turns[..7]), TakeAll(EMPTY_DESK, true, turns);
            && t.toolId in retired.tools && retired.tools[t.toolId].tool.lifecycle.Retired?
            && ToolEvent(ToolRetired, t.toolId, owner) in retired.events && retired.calls == []
            && t.toolId in after.tools && Open(after.tools[t.toolId].tool) && CopyCalls(after.calls, t.toolId) == 1
  {
    hide CopyCalls, Recordable, Prepare, Take;
    var turns := Overtaken(t, owner, other);
    var id := t.toolId;
    var approved := t.(lifecycle := Approved, approvedBy := Some(other));
    var active, gone := approved.(lifecycle := Active), approved.(lifecycle := Retired, allowlisted := false);
    Nine(EMPTY_DESK, true, turns);
    PrepareDraft(t, owner);
    var d2 := StartAndResume(EMPTY_DESK, RegisterDraft(t, owner));
    PrepareChanges(d2, t, owner, other);
    var d4 := StartAndResume(d2, Approve(id, other));
    assert d4.tools == map[id := Copy(approved, true)];
    PrepareChanges(d4, approved, owner, other);
    var d7 := Overtake(d4, Activate(id, other), Retire(id, owner));
    ResumeWrites(d7, 2, Copy(active, true));
    ReachOpens(Take(d7, true, Resume(2)), id, active);
    CopyCallsMore([], Copy(active, true), id);
    NoCopyCalls(id);
    assert [] + [Copy(active, true)] == [Copy(active, true)];
  }

  // ----- A kill switch that is undone -----

  /** An activation that was sent twice: one call activates the tool, the tool is killed, and the other
      call goes on. */
  function SentTwice(t: Registration, actor: string, reason: string): seq<Turn> {
    [Start(Activate(t.toolId, actor)), Start(Activate(t.toolId, actor)), Resume(1),
     Start(ActivateKillSwitch(t.toolId, actor, reason)), Resume(2), Resume(0), Reach(t.toolId)]
  }

  lemma Seven(d: Desk, audited: bool, turns: seq<Turn>)
    requires |turns| == 7
    ensures TakeAll(d, audited, turns[..5])
            == Take(Take(Take(Take(Take(d, audited, turns[0]), audited, turns[1]), audited, turns[2]),
                         audited, turns[3]), audited, turns[4])
    ensures TakeAll(d, audited, turns)
            == Take(Take(TakeAll(d, audited, turns[..5]), audited, turns[5]), audited, turns[6])
  {
    hide Take;
    forall k | 0 <= k < 7 ensures TakeAll(d, audited, turns[..k + 1])
        == Take(TakeAll(d, audited, turns[..k]), audited, turns[k]) {
      assert turns[..k + 1][..k] == turns[..k];
    }
    assert turns[..7] == turns;
  }

  lemma PrepareKill(d: Desk, t: Registration, drafted: bool, actor: string, reason: string)
    requires d.tools == map[t.toolId := Copy(t, drafted)] && t.lifecycle.Active? && Recordable(true, t)
    requires !Text.IsBlank(reason)
    ensures Prepare(d, true, ActivateKillSwitch(t.toolId, actor, reason))
            == Some(Pending(ToolEvent(KillOn, t.toolId, actor), Copy(t.(killSwitchActive := true), drafted)))
  {
  }

  lemma PrepareActivation(d: Desk, t: Registration, drafted: bool, actor: string)
    requires d.tools == map[t.toolId := Copy(t, drafted)] && t.lifecycle.Approved? && Recordable(true, t)
    ensures Prepare(d, true, Activate(t.toolId, actor))
            == Some(Pending(ToolEvent(ToolActivated, t.toolId, actor), Copy(t.(lifecycle := Active), drafted)))
    ensures Recordable(true, t.(lifecycle := Active))
  {
  }

  /** From an APPROVED tool: its kill switch is on, on record, and then off without having been cleared,
      and its adapter is called. */
  lemma KillSwitchCanBeUndone(t: Registration, drafted: bool, actor: string, reason: string)
    requires t.lifecycle.Approved? && Recordable(true, t) && t.allowlisted && !t.killSwitchActive
    requires !Text.IsBlank(reason)
    ensures var d := Desk(map[t.toolId := Copy(t, drafted)], [], [], []);
            var turns := SentTwice(t, actor, reason);
            var killed, after := TakeAll(d, true, turns[..5]), TakeAll(d, true, turns);
            && Stored(killed, t.toolId, Killed) && killed.calls == [] && NoClear(turns, t.toolId)
            && ToolEvent(KillOn, t.toolId, actor) in killed.events
            && !Stored(after, t.toolId, Killed) && CopyCalls(after.calls, t.toolId) == 1
  {
    hide CopyCalls, Recordable, Prepare, Take;
    var d := Desk(map[t.toolId := Copy(t, drafted)], [], [], []);
    var id, active := t.toolId, t.(lifecycle := Active);
    Seven(d, true, SentTwice(t, actor, reason));
    PrepareActivation(d, t, drafted, actor);
    var d3 := Overtake(d, Activate(id, actor), Activate(id, actor));
    assert d3.tools == map[id := Copy(active, drafted)];
    PrepareKill(d3, active, drafted, actor, reason);
    var d5 := StartAndResume(d3, ActivateKillSwitch(id, actor, reason));
    ResumeWrites(d5, 0, Copy(active, drafted));
    ReachOpens(Take(d5, true, Resume(0)), id, active);
    CopyCallsMore([], Copy(active, drafted), id);
    NoCopyCalls(id);
    assert [] + [Copy(active, drafted)] == [Copy(active, drafted)];
  }
}
