/** The audit trail is a complete account: folding it rebuilds the authority's state. */
module ReleaseReplay {
  import opened Prelude
  import opened ReleaseModel
  import opened ReleaseRuns

  datatype Status = Status(state: ReleaseState, killSwitchActive: bool, everReleased: bool)

  /** What an auditor reconstructs: the status of every release and the whole active index. */
  datatype View = View(status: map<string, Status>, index: map<SubjectKey, string>)

  /** One audit event read with nothing but the subject each release was created for. */
  function Read(v: View, e: AuditEvent, subjects: map<string, SubjectKey>): View {
    if e.eventType.Created? then v.(status := v.status[e.entityId := Status(Draft, false, false)])
    else if e.entityId !in v.status || e.entityId !in subjects then v
    else
      var was := v.status[e.entityId];
      var key := subjects[e.entityId];
      match e.eventType
      case Transitioned =>
        View(v.status[e.entityId := Status(e.outcome, was.killSwitchActive,
                                           was.everReleased || e.outcome.Released? || e.outcome.Active?)],
             if e.outcome.Active? then v.index[key := e.entityId] else v.index)
      case KillSwitchActivated =>
        View(v.status[e.entityId := Status(e.outcome, true, was.everReleased)], v.index - {key})
      case KillSwitchCleared =>
        View(v.status[e.entityId := Status(e.outcome, false, was.everReleased)], v.index[key := e.entityId])
      case RolledBackEvent =>
        v.(status := v.status[e.entityId := was.(state := e.outcome)])
      case RollbackTargetActivated =>
        View(v.status[e.entityId := Status(e.outcome, false, was.everReleased)], v.index[key := e.entityId])
  }

  function Replay(log: seq<AuditEvent>, subjects: map<string, SubjectKey>): View {
    if log == [] then View(map[], map[])
    else Read(Replay(log[..|log| - 1], subjects), log[|log| - 1], subjects)
  }

  function LastOutcome(log: seq<AuditEvent>, id: string): Option<ReleaseState> {
    if log == [] then None
    else if log[|log| - 1].entityId == id then Some(log[|log| - 1].outcome)
    else LastOutcome(log[..|log| - 1], id)
  }

  function Statuses(releases: map<string, GovernedRelease>): map<string, Status> {
    map id | id in releases :: Status(releases[id].state, releases[id].killSwitchActive, releases[id].everReleased)
  }

  function Observed(a: Authority): View {
    View(Statuses(a.releases), a.active)
  }

  ghost predicate KnowsSubjects(subjects: map<string, SubjectKey>, a: Authority) {
    forall id :: id in a.releases ==> id in subjects && subjects[id] == KeyOf(a.releases[id])
  }

  ghost predicate Replayed(a: Authority, subjects: map<string, SubjectKey>) {
    KnowsSubjects(subjects, a) ==> Replay(a.log, subjects) == Observed(a)
  }

  /** Exactly the events of `_transition` name a previous state, and it is the last outcome
      that the trail recorded for the release. */
  ghost predicate Chained(log: seq<AuditEvent>) {
    forall i :: 0 <= i < |log| ==>
      && (log[i].from.None? <==> log[i].eventType.Created? || log[i].eventType.RollbackTargetActivated?)
      && (log[i].from.Some? ==> LastOutcome(log[..i], log[i].entityId) == log[i].from)
  }

  ghost predicate Trailed(a: Authority) {
    && Chained(a.log)
    && forall id :: id in a.releases ==> LastOutcome(a.log, id) == Some(a.releases[id].state)
  }

  lemma ReplayMore(log: seq<AuditEvent>, e: AuditEvent, subjects: map<string, SubjectKey>)
    ensures Replay(log + [e], subjects) == Read(Replay(log, subjects), e, subjects)
    ensures forall id :: LastOutcome(log + [e], id) == if id == e.entityId then Some(e.outcome)
            else LastOutcome(log, id)
  {
    assert (log + [e])[..|log|] == log;
  }

  lemma ChainMore(log: seq<AuditEvent>, e: AuditEvent)
    requires Chained(log)
    requires e.from.None? <==> e.eventType.Created? || e.eventType.RollbackTargetActivated?
    requires e.from.Some? ==> LastOutcome(log, e.entityId) == e.from
    ensures Chained(log + [e])
  {
    var longer := log + [e];
    forall i | 0 <= i < |longer|
      ensures longer[i].from.Some? ==> LastOutcome(longer[..i], longer[i].entityId) == longer[i].from
    {
      assert longer[..i] == log[..i];
      assert log[..|log|] == log;
    }
  }

  /** What a transition event says about the index. */
  function IndexAfter(index: map<SubjectKey, string>, key: SubjectKey, id: string, c: Change): map<SubjectKey, string> {
    match c.eventType
    case Transitioned => if c.target.Active? then index[key := id] else index
    case KillSwitchActivated => index - {key}
    case KillSwitchCleared => index[key := id]
    case _ => index
  }

  /** The flags of `c` are the ones that its event implies. */
  predicate SaysItsFlags(c: Change) {
    match c.eventType
    case Transitioned => c.killSwitch.None?
        && c.everReleased == (if c.target.Released? || c.target.Active? then Some(true) else None)
    case KillSwitchActivated => c.killSwitch == Some(true) && c.everReleased.None?
    case KillSwitchCleared => c.killSwitch == Some(false) && c.everReleased.None?
    case RolledBackEvent => c.killSwitch.None? && c.everReleased.None?
    case _ => false
  }

  lemma MovedIsReplayed(a: Authority, id: string, c: Change, index: map<SubjectKey, string>,
                        subjects: map<string, SubjectKey>)
    requires Keyed(a) && id in a.releases && KnowsSubjects(subjects, a) && SaysItsFlags(c)
    requires Replay(a.log, subjects) == Observed(a).(index := index)
    ensures var b := Moved(a, id, c);
            Replay(b.log, subjects) == Observed(b).(index := IndexAfter(index, KeyOf(a.releases[id]), id, c))
  {
    hide Replay;
    var b := Moved(a, id, c);
    var r := b.releases[id];
    ReplayMore(a.log, MoveEvent(a.releases[id], c), subjects);
    assert Observed(b).status == Observed(a).status[id := Status(r.state, r.killSwitchActive, r.everReleased)];
  }

  lemma MovedIsTrailed(a: Authority, id: string, c: Change)
    requires Keyed(a) && Trailed(a) && id in a.releases
    requires !c.eventType.Created? && !c.eventType.RollbackTargetActivated?
    ensures Trailed(Moved(a, id, c))
  {
    var e := MoveEvent(a.releases[id], c);
    ChainMore(a.log, e);
    ReplayMore(a.log, e, map[]);
  }

  lemma InsertIsReplayed(a: Authority, r: GovernedRelease, actorId: string, subjects: map<string, SubjectKey>)
    requires Keyed(a) && r.releaseId !in a.releases && Replayed(a, subjects)
    requires r.state.Draft? && !r.killSwitchActive && !r.everReleased
    ensures Replayed(DirectFirst(a, Insert(r, actorId)).authority, subjects)
  {
    var b := DirectFirst(a, Insert(r, actorId)).authority;
    if KnowsSubjects(subjects, b) {
      SubjectsAreStable(a, b, subjects);
      ReplayMore(a.log, b.log[|a.log|], subjects);
      assert Statuses(b.releases) == Statuses(a.releases)[r.releaseId := Status(Draft, false, false)];
    }
  }

  lemma SubjectsAreStable(a: Authority, b: Authority, subjects: map<string, SubjectKey>)
    requires forall id :: id in a.releases ==> id in b.releases && KeyOf(b.releases[id]) == KeyOf(a.releases[id])
    requires KnowsSubjects(subjects, b)
    ensures KnowsSubjects(subjects, a)
  {
  }

  lemma RestKeepsSubjects(b: Authority, r: GovernedRelease, follow: Follow, subjects: map<string, SubjectKey>)
    requires follow.ThenReinstate? ==>
               follow.snapshot.releaseId in b.releases && b.releases[follow.snapshot.releaseId] == follow.snapshot
    requires KnowsSubjects(subjects, Rest(b, r, follow).authority)
    ensures KnowsSubjects(subjects, b)
  {
    SubjectsAreStable(b, Rest(b, r, follow).authority, subjects);
  }

  /** The rest of a call, given the index that the trail so far accounts for. */
  lemma RestIsReplayed(b: Authority, r: GovernedRelease, follow: Follow, index: map<SubjectKey, string>,
                       subjects: map<string, SubjectKey>)
    requires Keyed(b) && KnowsSubjects(subjects, b) && Rest(b, r, follow).error.None?
    requires follow.ThenReinstate? ==>
               follow.snapshot.releaseId in b.releases && b.releases[follow.snapshot.releaseId] == follow.snapshot
    requires Replay(b.log, subjects) == Observed(b).(index := index)
    requires index == match follow
                      case Nothing => b.active
                      case ThenSupersede(_, _) => b.active[KeyOf(r) := r.releaseId]
                      case ThenUnpoint => b.active - {KeyOf(r)}
                      case ThenPoint => b.active[KeyOf(r) := r.releaseId]
                      case ThenReinstate(_, _, _, _) => b.active
    ensures Replay(Rest(b, r, follow).authority.log, subjects) == Observed(Rest(b, r, follow).authority)
  {
    match follow
    case ThenSupersede(actorId, correlationId) => SupersedingIsReplayed(b, r, actorId, correlationId, subjects);
    case ThenReinstate(_, _, _, _) => ReinstatingIsReplayed(b, follow, subjects);
    case _ =>
  }

  lemma MoveIsReplayed(a: Authority, id: string, c: Change, follow: Follow, subjects: map<string, SubjectKey>)
    requires IndexAgrees(a) && Shaped(a, Move(id, c, follow)) && Replayed(a, subjects)
    requires DirectFirst(a, Move(id, c, follow)).error.None?
    ensures Replayed(DirectFirst(a, Move(id, c, follow)).authority, subjects)
  {
    hide Replay, Statuses;
    var b := Moved(a, id, c);
    var r := b.releases[id];
    if KnowsSubjects(subjects, Rest(b, r, follow).authority) {
      RestKeepsSubjects(b, r, follow, subjects);
      SubjectsAreStable(a, b, subjects);
      MovedIsReplayed(a, id, c, a.active, subjects);
      RestIsReplayed(b, r, follow, IndexAfter(a.active, KeyOf(a.releases[id]), id, c), subjects);
    }
  }

  /** The trail records the activation before the supersession, so the index entry that the
      second event leaves alone already names the new release. */
  lemma SupersedingIsReplayed(moved: Authority, r: GovernedRelease, actorId: string, correlationId: string,
                              subjects: map<string, SubjectKey>)
    requires Keyed(moved) && KnowsSubjects(subjects, moved)
    requires Superseding(moved, r, actorId, correlationId).error.None?
    requires Replay(moved.log, subjects) == Observed(moved).(index := moved.active[KeyOf(r) := r.releaseId])
    ensures var b := Superseding(moved, r, actorId, correlationId).authority;
            Replay(b.log, subjects) == Observed(b)
  {
    var key := KeyOf(r);
    if key in moved.active && moved.active[key] != r.releaseId {
      var c := SupersedeChange(actorId, correlationId);
      MovedIsReplayed(moved, moved.active[key], c, moved.active[key := r.releaseId], subjects);
    }
  }

  lemma ReinstatingIsReplayed(moved: Authority, f: Follow, subjects: map<string, SubjectKey>)
    requires f.ThenReinstate? && Keyed(moved) && KnowsSubjects(subjects, moved)
    requires f.snapshot.releaseId in moved.releases && moved.releases[f.snapshot.releaseId] == f.snapshot
    requires Replay(moved.log, subjects) == Observed(moved)
    ensures Replay(Reinstating(moved, f).log, subjects) == Observed(Reinstating(moved, f))
  {
    var b := Reinstating(moved, f);
    var s := b.releases[f.snapshot.releaseId];
    ReplayMore(moved.log, b.log[|moved.log|], subjects);
    assert Observed(b).status ==
           Observed(moved).status[s.releaseId := Status(s.state, s.killSwitchActive, s.everReleased)];
  }

  lemma SupersedingIsTrailed(moved: Authority, r: GovernedRelease, actorId: string, correlationId: string)
    requires Keyed(moved) && Trailed(moved)
    ensures Trailed(Superseding(moved, r, actorId, correlationId).authority)
  {
    var key := KeyOf(r);
    var c := SupersedeChange(actorId, correlationId);
    if key in moved.active && MoveProblem(moved, moved.active[key], c).None? {
      MovedIsTrailed(moved, moved.active[key], c);
    }
  }

  lemma ReinstatingIsTrailed(moved: Authority, f: Follow)
    requires f.ThenReinstate? && Keyed(moved) && Trailed(moved) && f.snapshot.releaseId in moved.releases
    ensures Trailed(Reinstating(moved, f))
  {
    var b := Reinstating(moved, f);
    ChainMore(moved.log, b.log[|moved.log|]);
    ReplayMore(moved.log, b.log[|moved.log|], map[]);
  }

  lemma InsertIsTrailed(a: Authority, r: GovernedRelease, actorId: string)
    requires Keyed(a) && Trailed(a) && r.releaseId !in a.releases && r.state.Draft?
    ensures Trailed(DirectFirst(a, Insert(r, actorId)).authority)
  {
    var e := DirectFirst(a, Insert(r, actorId)).authority.log[|a.log|];
    ChainMore(a.log, e);
    ReplayMore(a.log, e, map[]);
  }

  lemma RestIsTrailed(b: Authority, r: GovernedRelease, follow: Follow)
    requires Keyed(b) && Trailed(b)
    requires follow.ThenReinstate? ==> follow.snapshot.releaseId in b.releases
    ensures Trailed(Rest(b, r, follow).authority)
  {
    match follow
    case ThenSupersede(actorId, correlationId) => SupersedingIsTrailed(b, r, actorId, correlationId);
    case ThenReinstate(_, _, _, _) => ReinstatingIsTrailed(b, follow);
    case _ =>
  }

  lemma MoveIsTrailed(a: Authority, id: string, c: Change, follow: Follow)
    requires Keyed(a) && Trailed(a) && Shaped(a, Move(id, c, follow)) && MoveProblem(a, id, c).None?
    ensures Trailed(DirectFirst(a, Move(id, c, follow)).authority)
  {
    MovedIsTrailed(a, id, c);
    RestIsTrailed(Moved(a, id, c), Updated(a.releases[id], c), follow);
  }

  lemma FirstIsAccounted(a: Authority, action: Action, subjects: map<string, SubjectKey>)
    requires IndexAgrees(a) && Shaped(a, action) && Replayed(a, subjects) && Trailed(a)
    requires DirectFirst(a, action).error.None?
    ensures Replayed(DirectFirst(a, action).authority, subjects) && Trailed(DirectFirst(a, action).authority)
  {
    match action
    case Insert(r, actorId) =>
      InsertIsReplayed(a, r, actorId, subjects);
      InsertIsTrailed(a, r, actorId);
    case Move(id, c, follow) =>
      MoveIsReplayed(a, id, c, follow, subjects);
      MoveIsTrailed(a, id, c, follow);
  }

  lemma CallIsAccounted(a: Authority, call: Call, subjects: map<string, SubjectKey>)
    requires IndexAgrees(a) && Replayed(a, subjects) && Trailed(a)
    ensures Replayed(Perform(a, call).authority, subjects) && Trailed(Perform(a, call).authority)
  {
    CallKeepsIndex(a, call);
    PerformIsDirect(a, call);
    if Perform(a, call).error.None? {
      BeginIsShaped(a, call);
      FirstIsAccounted(a, Begin(a, call).value, subjects);
    }
  }

  lemma {:induction false} RunIsAccounted(calls: seq<Call>, subjects: map<string, SubjectKey>)
    ensures Replayed(PerformAll(EMPTY_AUTHORITY, calls), subjects) && Trailed(PerformAll(EMPTY_AUTHORITY, calls))
  {
    if calls != [] {
      var before := calls[..|calls| - 1];
      RunIsAccounted(before, subjects);
      IndexAgreesInEveryRun(before);
      CallIsAccounted(PerformAll(EMPTY_AUTHORITY, before), calls[|calls| - 1], subjects);
    }
  }

  function Subjects(a: Authority): map<string, SubjectKey> {
    map id | id in a.releases :: KeyOf(a.releases[id])
  }

  /** After every run of awaited calls the audit trail, read with the subject of each release,
      gives back every state, kill switch and `ever_released` flag and the whole index, and
      the `from` of every transition is the last outcome recorded before it. */
  lemma AuditTrailIsComplete(calls: seq<Call>)
    ensures var a := PerformAll(EMPTY_AUTHORITY, calls);
            Replay(a.log, Subjects(a)) == Observed(a) && Chained(a.log)
  {
    RunIsAccounted(calls, Subjects(PerformAll(EMPTY_AUTHORITY, calls)));
  }
}
