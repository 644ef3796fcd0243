/** What every run of the job queue keeps, and why it ends. */
module JobRuns {
  import opened Prelude
  import opened Sorting
  import opened JobModel

  predicate Terminal(j: Job) {
    j.status.Succeeded? || j.status.Failed?
  }

  predicate JobOk(j: Job) {
    && 1 <= j.maxAttempts <= 20 && j.attempts <= j.maxAttempts
    && !j.status.Cancelled?
    && (j.status.Queued? ==> j.attempts < j.maxAttempts)
    && (j.status.Running? ==>
        j.attempts >= 1 && j.lockedBy.Some? && j.lockedAt.Some? && j.nextRetryAt <= j.lockedAt.value)
    && (!j.status.Running? ==> j.lockedBy.None? && j.lockedAt.None?)
    && (Terminal(j) <==> j.completedAt.Some?)
    && (j.status.Succeeded? <==> j.result.Some?)
  }

  ghost predicate JobsOk(q: Queue) {
    && q.jobs.Valid()
    && forall id :: id in q.jobs.items ==> q.jobs.items[id].jobId == id && JobOk(q.jobs.items[id])
  }

  /** The idempotency map is a bijection from the keys of the jobs onto their ids. */
  ghost predicate Indexed(q: Queue) {
    && (forall key :: key in q.idempotency ==>
          q.idempotency[key] in q.jobs.items && KeyOf(q.jobs.items[q.idempotency[key]]) == key)
    && (forall id :: id in q.jobs.items ==>
          KeyOf(q.jobs.items[id]) in q.idempotency && q.idempotency[KeyOf(q.jobs.items[id])] == id)
  }

  ghost predicate QueueOk(q: Queue) {
    JobsOk(q) && Indexed(q)
  }

  predicate SameJob(a: Job, b: Job) {
    && a.jobId == b.jobId && KeyOf(a) == KeyOf(b) && a.tenantId == b.tenantId && a.workspaceId == b.workspaceId
    && a.payload == b.payload && a.maxAttempts == b.maxAttempts && a.createdAt == b.createdAt
    && a.correlationId == b.correlationId && a.ownerActorId == b.ownerActorId
  }

  /** The only ways in which a job moves. */
  predicate Moves(a: Job, b: Job) {
    && SameJob(a, b)
    && (|| a == b
        || (a.status.Queued? && b.status.Running? && b.attempts == a.attempts + 1)
        || (a.status.Running? && (Terminal(b) || b.status.Queued?) && b.attempts == a.attempts))
  }

  /** Jobs are never lost, and each stays or moves. */
  ghost predicate AllMove(q: Queue, r: Queue) {
    forall id :: id in q.jobs.items ==> id in r.jobs.items && Moves(q.jobs.items[id], r.jobs.items[id])
  }

  /** A step returns exactly the jobs that it changed, as they now are. */
  ghost predicate ReturnsChanges(q: Queue, s: Step) {
    && (forall j :: j in s.returned ==>
          j.jobId in q.jobs.items && j.jobId in s.queue.jobs.items && s.queue.jobs.items[j.jobId] == j
          && q.jobs.items[j.jobId] != j)
    && (forall id :: id in q.jobs.items && id in s.queue.jobs.items && s.queue.jobs.items[id] != q.jobs.items[id] ==>
          s.queue.jobs.items[id] in s.returned)
    && s.queue.jobs.order == q.jobs.order && s.queue.jobs.items.Keys == q.jobs.items.Keys
  }

  // ----- One step -----

  /** What the loop of `recover_stale` has done after a part of the snapshot. */
  ghost predicate RecoveredSoFar(q: Queue, s: Step, ids: seq<string>, staleBefore: int, errorCode: string, now: int) {
    && s.queue.jobs.order == q.jobs.order && s.queue.jobs.items.Keys == q.jobs.items.Keys
    && s.queue.idempotency == q.idempotency && s.error.None?
    && (forall id :: id in q.jobs.items ==>
          (if id in ids && Stale(q.jobs.items[id], staleBefore)
           then s.queue.jobs.items[id] == Released(q.jobs.items[id], errorCode, now)
               && s.queue.jobs.items[id] in s.returned
           else s.queue.jobs.items[id] == q.jobs.items[id]))
    && (forall j :: j in s.returned ==>
          j.jobId in ids && j.jobId in q.jobs.items && Stale(q.jobs.items[j.jobId], staleBefore)
          && j == Released(q.jobs.items[j.jobId], errorCode, now))
  }

  lemma RecoverOneMore(q: Queue, s: Step, front: seq<string>, id: string, staleBefore: int, errorCode: string,
                       now: int)
    requires RecoveredSoFar(q, s, front, staleBefore, errorCode, now)
    requires id in q.jobs.items && Stale(q.jobs.items[id], staleBefore) && q.jobs.items[id].jobId == id
    ensures var updated := Released(q.jobs.items[id], errorCode, now);
            var t := Step(s.queue.(jobs := s.queue.jobs.Put(id, updated)), s.returned + [updated], None);
            RecoveredSoFar(q, t, front + [id], staleBefore, errorCode, now)
  {
    ReleasedKeepsId(q.jobs.items[id], errorCode, now);
    hide Stale, Released;
    var updated := Released(q.jobs.items[id], errorCode, now);
    var t := Step(s.queue.(jobs := s.queue.jobs.Put(id, updated)), s.returned + [updated], None);
    assert t.queue.jobs.items == s.queue.jobs.items[id := updated];
    assert t.returned[|s.returned|] == updated;
    assert (front + [id])[|front|] == id;
    forall k | k in q.jobs.items && k != id && k in front && Stale(q.jobs.items[k], staleBefore)
      ensures t.queue.jobs.items[k] in t.returned
    {
      assert s.queue.jobs.items[k] in s.returned;
    }
  }

  lemma NothingToRecover(q: Queue, s: Step, front: seq<string>, id: string, staleBefore: int, errorCode: string,
                         now: int)
    requires RecoveredSoFar(q, s, front, staleBefore, errorCode, now)
    requires id !in q.jobs.items || !Stale(q.jobs.items[id], staleBefore)
    ensures RecoveredSoFar(q, s, front + [id], staleBefore, errorCode, now)
  {
    hide Stale, Released;
    assert forall k :: k in front + [id] <==> k in front || k == id;
  }

  lemma ReleasedKeepsId(j: Job, errorCode: string, now: int)
    ensures Released(j, errorCode, now).jobId == j.jobId
  {
  }

  lemma {:induction false} RecoveredJobs(q: Queue, ids: seq<string>, staleBefore: int, errorCode: string, now: int)
    requires JobsOk(q)
    ensures RecoveredSoFar(q, Recovered(q, ids, staleBefore, errorCode, now), ids, staleBefore, errorCode, now)
  {
    hide Stale, Released;
    if ids != [] {
      var front, id := ids[..|ids| - 1], ids[|ids| - 1];
      RecoveredJobs(q, front, staleBefore, errorCode, now);
      assert front + [id] == ids;
      var s := Recovered(q, front, staleBefore, errorCode, now);
      if id !in q.jobs.items || !Stale(q.jobs.items[id], staleBefore) {
        NothingToRecover(q, s, front, id, staleBefore, errorCode, now);
      } else {
        RecoverOneMore(q, s, front, id, staleBefore, errorCode, now);
      }
    }
  }

  lemma NothingMoves(j: Job)
    ensures Moves(j, j)
  {
  }

  lemma ReleasedMoves(j: Job, staleBefore: int, errorCode: string, now: int)
    requires JobOk(j) && Stale(j, staleBefore)
    ensures JobOk(Released(j, errorCode, now)) && Moves(j, Released(j, errorCode, now))
    ensures Released(j, errorCode, now).jobId == j.jobId && Released(j, errorCode, now) != j
  {
  }

  lemma RecoverMoves(q: Queue, staleBefore: int, errorCode: string, now: int)
    requires JobsOk(q)
    ensures var s := RecoverStale(q, staleBefore, errorCode, now);
            && JobsOk(s.queue) && AllMove(q, s.queue) && s.queue.idempotency == q.idempotency
            && s.queue.jobs.items.Keys == q.jobs.items.Keys
  {
    hide Recovered, Released, Stale, JobOk, Moves;
    RecoveredJobs(q, q.jobs.order, staleBefore, errorCode, now);
    RecoveredIsValid(q, q.jobs.order, staleBefore, errorCode, now);
    var r := RecoverStale(q, staleBefore, errorCode, now).queue;
    forall id | id in q.jobs.items
      ensures JobOk(r.jobs.items[id]) && Moves(q.jobs.items[id], r.jobs.items[id]) && r.jobs.items[id].jobId == id
    {
      if Stale(q.jobs.items[id], staleBefore) {
        ReleasedMoves(q.jobs.items[id], staleBefore, errorCode, now);
      } else {
        NothingMoves(q.jobs.items[id]);
      }
    }
  }

  lemma RecoverReturnsChanges(q: Queue, staleBefore: int, errorCode: string, now: int)
    requires JobsOk(q)
    ensures ReturnsChanges(q, RecoverStale(q, staleBefore, errorCode, now))
  {
    hide Recovered, Released, Stale, JobOk, Moves;
    RecoveredJobs(q, q.jobs.order, staleBefore, errorCode, now);
    forall id | id in q.jobs.items && Stale(q.jobs.items[id], staleBefore)
      ensures Released(q.jobs.items[id], errorCode, now) != q.jobs.items[id]
      ensures Released(q.jobs.items[id], errorCode, now).jobId == id
    {
      ReleasedMoves(q.jobs.items[id], staleBefore, errorCode, now);
    }
  }

  /** If jobs keep their keys, the index stays a bijection. */
  lemma IndexStays(q: Queue, r: Queue)
    requires Indexed(q) && AllMove(q, r) && r.idempotency == q.idempotency && r.jobs.items.Keys == q.jobs.items.Keys
    ensures Indexed(r)
  {
  }

  lemma OlderIsAnOrder()
    ensures TotalPreorder(OlderOrEqual)
  {
  }

  lemma StoredJobs(q: Queue, j: Job)
    requires JobsOk(q)
    ensures j in Values(q.jobs.order, q.jobs.items) <==> j.jobId in q.jobs.items && q.jobs.items[j.jobId] == j
  {
    hide Values, JobOk;
    var values := Values(q.jobs.order, q.jobs.items);
    if j.jobId in q.jobs.items && q.jobs.items[j.jobId] == j {
      var i :| 0 <= i < |q.jobs.order| && q.jobs.order[i] == j.jobId;
      assert values[i] == j;
    }
  }

  /** The ordered list holds exactly the jobs of the store. */
  lemma ListedJobs(q: Queue, j: Job)
    requires JobsOk(q)
    ensures j in Sorted(Values(q.jobs.order, q.jobs.items), OlderOrEqual) <==>
            j.jobId in q.jobs.items && q.jobs.items[j.jobId] == j
  {
    hide Values, Sorted, JobOk, TotalPreorder, InOrder;
    var values := Values(q.jobs.order, q.jobs.items);
    var list := Sorted(values, OlderOrEqual);
    OlderIsAnOrder();
    SortedIsSorted(values, OlderOrEqual);
    StoredJobs(q, j);
    assert j in list <==> j in multiset(list);
    assert j in values <==> j in multiset(values);
  }

  /** One job is replaced by another that it may move to; nothing else changes. */
  lemma PutKeepsQueue(q: Queue, j: Job)
    requires JobsOk(q) && j.jobId in q.jobs.items && Moves(q.jobs.items[j.jobId], j) && JobOk(j)
    ensures JobsOk(Replaced(q, j)) && AllMove(q, Replaced(q, j))
    ensures Replaced(q, j).jobs.order == q.jobs.order && Replaced(q, j).jobs.items.Keys == q.jobs.items.Keys
  {
    hide JobOk, Moves;
    forall id | id in q.jobs.items && id != j.jobId ensures Moves(q.jobs.items[id], q.jobs.items[id]) {
      NothingMoves(q.jobs.items[id]);
    }
  }

  /** A step that changes nothing, or replaces one job. */
  lemma OneMoves(q: Queue, s: Step)
    requires JobsOk(q)
    requires s.returned == [] ==> s.queue == q
    requires s.returned != [] ==>
               && s.returned == [s.returned[0]] && s.returned[0].jobId in q.jobs.items
               && s.returned[0] != q.jobs.items[s.returned[0].jobId]
               && JobOk(s.returned[0]) && Moves(q.jobs.items[s.returned[0].jobId], s.returned[0])
               && s.queue == Replaced(q, s.returned[0])
    ensures JobsOk(s.queue) && AllMove(q, s.queue) && s.queue.idempotency == q.idempotency && ReturnsChanges(q, s)
  {
    hide JobOk, Moves;
    if s.returned == [] {
      forall id | id in q.jobs.items ensures Moves(q.jobs.items[id], q.jobs.items[id]) {
        NothingMoves(q.jobs.items[id]);
      }
    } else {
      PutKeepsQueue(q, s.returned[0]);
      assert forall j :: j in s.returned <==> j == s.returned[0];
    }
  }

  lemma ClaimedMoves(j: Job, workerId: string, now: int, types: Option<set<JobType>>)
    requires JobOk(j) && Eligible(j, now, types)
    ensures JobOk(Claimed(j, workerId, now)) && Moves(j, Claimed(j, workerId, now)) && Claimed(j, workerId, now) != j
  {
  }

  /** `claim` moves the chosen job and no other. */
  lemma ClaimMoves(q: Queue, workerId: string, now: int, types: Option<set<JobType>>)
    requires JobsOk(q)
    ensures var s := Claim(q, workerId, now, types);
            && s.error.None? && (s.returned == [] ==> s.queue == q)
            && (s.returned != [] ==>
                  && s.returned == [s.returned[0]]
                  && s.returned[0].jobId in q.jobs.items
                  && Eligible(q.jobs.items[s.returned[0].jobId], now, types)
                  && s.returned[0] == Claimed(q.jobs.items[s.returned[0].jobId], workerId, now)
                  && s.queue == Replaced(q, s.returned[0]))
  {
    hide Sorted, Values, JobOk;
    var choice := FirstEligible(Sorted(Values(q.jobs.order, q.jobs.items), OlderOrEqual), now, types);
    if choice.Some? { ListedJobs(q, choice.value); }
  }

  /** `succeed` and `fail` move the named job, and only when it is RUNNING. */
  lemma FinishMoves(q: Queue, op: Op)
    requires JobsOk(q) && (op.SucceedOp? || op.FailOp?)
    ensures var s := Apply(q, op);
            && (s.returned == [] <==> RunningProblem(q, op.jobId).Some?) && s.error == RunningProblem(q, op.jobId)
            && (s.returned == [] ==> s.queue == q)
            && (s.returned != [] ==>
                  && s.returned == [s.returned[0]] && s.returned[0].jobId == op.jobId
                  && s.returned[0] != q.jobs.items[op.jobId]
                  && JobOk(s.returned[0]) && Moves(q.jobs.items[op.jobId], s.returned[0])
                  && s.queue == Replaced(q, s.returned[0]))
  {
  }

  /** A step that is no `enqueue`. */
  lemma StepMoves(q: Queue, op: Op)
    requires JobsOk(q) && !op.EnqueueOp?
    ensures var s := Apply(q, op);
            JobsOk(s.queue) && AllMove(q, s.queue) && s.queue.idempotency == q.idempotency && ReturnsChanges(q, s)
  {
    hide Claim, RecoverStale, Succeed, Fail, JobOk, Moves, Replaced, Claimed, Eligible, AllMove, ReturnsChanges;
    match op
    case ClaimOp(workerId, now, types) =>
      ClaimMoves(q, workerId, now, types);
      var s := Claim(q, workerId, now, types);
      if s.returned != [] { ClaimedMoves(q.jobs.items[s.returned[0].jobId], workerId, now, types); }
      OneMoves(q, s);
    case SucceedOp(_, _, _) =>
      FinishMoves(q, op);
      OneMoves(q, Apply(q, op));
    case FailOp(_, _, _, _) =>
      FinishMoves(q, op);
      OneMoves(q, Apply(q, op));
    case RecoverOp(staleBefore, errorCode, now) =>
      RecoverMoves(q, staleBefore, errorCode, now);
      RecoverReturnsChanges(q, staleBefore, errorCode, now);
  }

  /** `enqueue` adds one job under a new key, or gives back the job of a known key. */
  lemma EnqueueAdds(q: Queue, c: EnqueueJob, jobId: string, now: int)
    requires JobsOk(q) && Indexed(q) && jobId !in q.jobs.items
    ensures var s := Enqueue(q, c, jobId, now);
            && s.error.None? && |s.returned| == 1 && KeyOf(s.returned[0]) == CommandKey(c)
            && (CommandKey(c) in q.idempotency ==> s.queue == q && s.returned[0] in q.jobs.items.Values)
            && (CommandKey(c) !in q.idempotency ==>
                  && s.queue.jobs == Dict(q.jobs.order + [jobId], q.jobs.items[jobId := s.returned[0]])
                  && s.queue.idempotency == q.idempotency[CommandKey(c) := jobId]
                  && s.returned[0] == NewJob(c, jobId, now))
  {
  }

  lemma NewIsOk(c: EnqueueJob, jobId: string, now: int)
    ensures JobOk(NewJob(c, jobId, now))
  {
  }

  lemma AddedIsOk(q: Queue, r: Queue, j: Job)
    requires JobsOk(q) && Indexed(q) && j.jobId !in q.jobs.items && KeyOf(j) !in q.idempotency && JobOk(j)
    requires r.jobs == Dict(q.jobs.order + [j.jobId], q.jobs.items[j.jobId := j])
    requires r.idempotency == q.idempotency[KeyOf(j) := j.jobId]
    ensures JobsOk(r) && AllMove(q, r)
  {
    hide JobOk, Moves;
    forall id | id in q.jobs.items ensures Moves(q.jobs.items[id], r.jobs.items[id]) {
      NothingMoves(q.jobs.items[id]);
    }
  }

  lemma AddedIsIndexed(q: Queue, r: Queue, j: Job)
    requires Indexed(q) && j.jobId !in q.jobs.items && KeyOf(j) !in q.idempotency
    requires r.jobs.items == q.jobs.items[j.jobId := j]
    requires r.idempotency == q.idempotency[KeyOf(j) := j.jobId]
    ensures Indexed(r)
  {
    hide KeyOf;
  }

  lemma StepKeepsQueue(q: Queue, op: Op)
    requires QueueOk(q) && (op.EnqueueOp? ==> op.freshId !in q.jobs.items)
    ensures QueueOk(Apply(q, op).queue) && AllMove(q, Apply(q, op).queue)
  {
    hide Indexed, Moves, Claim, RecoverStale, Succeed, Fail, JobOk;
    if op.EnqueueOp? {
      EnqueueAdds(q, op.command, op.freshId, op.now);
      if CommandKey(op.command) !in q.idempotency {
        var job := NewJob(op.command, op.freshId, op.now);
        NewIsOk(op.command, op.freshId, op.now);
        AddedIsOk(q, Apply(q, op).queue, job);
        AddedIsIndexed(q, Apply(q, op).queue, job);
      } else {
        forall id | id in q.jobs.items ensures Moves(q.jobs.items[id], q.jobs.items[id]) {
          NothingMoves(q.jobs.items[id]);
        }
      }
    } else {
      StepMoves(q, op);
      IndexStays(q, Apply(q, op).queue);
    }
  }

  // ----- Whole runs -----

  lemma FreshFront(ops: seq<Op>)
    requires FreshIds(ops) && ops != []
    ensures FreshIds(ops[..|ops| - 1])
    ensures ops[|ops| - 1].EnqueueOp? ==> ops[|ops| - 1].freshId !in ApplyAll(ops[..|ops| - 1]).jobs.items
  {
    var front := ops[..|ops| - 1];
    assert forall k :: 0 <= k < |front| ==> front[..k] == ops[..k];
  }

  /** In every run the index is a bijection, attempts stay within their bound, a queued job has
      an attempt left, and a running one was claimable when it was locked. */
  lemma {:induction false} EveryRunKeepsTheQueue(ops: seq<Op>)
    requires FreshIds(ops)
    ensures QueueOk(ApplyAll(ops))
  {
    if ops != [] {
      FreshFront(ops);
      EveryRunKeepsTheQueue(ops[..|ops| - 1]);
      StepKeepsQueue(ApplyAll(ops[..|ops| - 1]), ops[|ops| - 1]);
    }
  }
}
