/** Which job a worker gets, what recovery puts back, and what a lease does not protect. */
module JobChoice {
  import opened Prelude
  import opened Sorting
  import opened JobModel
  import opened JobRuns

  lemma {:induction false} FirstEligibleAt(jobs: seq<Job>, now: int, types: Option<set<JobType>>) returns (i: nat)
    requires FirstEligible(jobs, now, types).Some?
    ensures i < |jobs| && jobs[i] == FirstEligible(jobs, now, types).value
    ensures forall k :: 0 <= k < i ==> !Eligible(jobs[k], now, types)
  {
    hide Eligible;
    if Eligible(jobs[0], now, types) {
      i := 0;
    } else {
      var k := FirstEligibleAt(jobs[1..], now, types);
      i := k + 1;
    }
  }

  /** The first eligible job of the ordered list, among the jobs as they came: no eligible job was
      created before it, and of those created at its moment none came before it. */
  lemma OldestFirst(jobs: seq<Job>, now: int, types: Option<set<JobType>>) returns (i: nat)
    requires FirstEligible(Sorted(jobs, OlderOrEqual), now, types).Some?
    ensures i < |jobs| && jobs[i] == FirstEligible(Sorted(jobs, OlderOrEqual), now, types).value
    ensures forall k :: 0 <= k < |jobs| && Eligible(jobs[k], now, types) ==>
                          jobs[i].createdAt < jobs[k].createdAt || (jobs[i].createdAt == jobs[k].createdAt && i <= k)
  {
    hide Sorted, Eligible, FirstEligible, Filter, TotalPreorder;
    var list := Sorted(jobs, OlderOrEqual);
    OlderIsAnOrder();
    SortedIsSorted(jobs, OlderOrEqual);
    var at := FirstEligibleAt(list, now, types);
    var chosen := list[at];
    EligibleChoice(list, now, types);
    var p := (j: Job) => Eligible(j, now, types) && j.createdAt == chosen.createdAt;
    SortedIsStable(jobs, OlderOrEqual, p);
    FilterFirst(list, p, at);
    i := FirstOfFilter(jobs, p);
    forall k | 0 <= k < |jobs| && Eligible(jobs[k], now, types)
      ensures jobs[i].createdAt < jobs[k].createdAt || (jobs[i].createdAt == jobs[k].createdAt && i <= k)
    {
      assert jobs[k] in multiset(list);
      var m :| 0 <= m < |list| && list[m] == jobs[k];
      assert at <= m;
    }
  }

  lemma EligibleChoice(jobs: seq<Job>, now: int, types: Option<set<JobType>>)
    requires FirstEligible(jobs, now, types).Some?
    ensures Eligible(FirstEligible(jobs, now, types).value, now, types)
  {
  }

  /** `claim` answers None exactly when no stored job is eligible. */
  lemma NoneIffNoneEligible(q: Queue, workerId: string, now: int, types: Option<set<JobType>>)
    requires JobsOk(q)
    ensures Claim(q, workerId, now, types).returned == [] <==>
            forall id :: id in q.jobs.items ==> !Eligible(q.jobs.items[id], now, types)
  {
    hide Sorted, Values, JobOk, Eligible, FirstEligible;
    var list := Sorted(Values(q.jobs.order, q.jobs.items), OlderOrEqual);
    FirstEligibleNone(list, now, types);
    forall id | id in q.jobs.items ensures q.jobs.items[id] in list { ListedJobs(q, q.jobs.items[id]); }
    forall j | j in list ensures j.jobId in q.jobs.items && q.jobs.items[j.jobId] == j { ListedJobs(q, j); }
  }

  lemma FirstEligibleNone(jobs: seq<Job>, now: int, types: Option<set<JobType>>)
    ensures FirstEligible(jobs, now, types).None? <==> forall k :: k in jobs ==> !Eligible(k, now, types)
  {
    var r := FirstEligible(jobs, now, types);
  }

  /** Otherwise the claimed job is the eligible job created first, and of those created at one
      moment the one that was enqueued first. */
  lemma ClaimTakesTheOldest(q: Queue, workerId: string, now: int, types: Option<set<JobType>>) returns (i: nat)
    requires JobsOk(q) && Claim(q, workerId, now, types).returned != []
    ensures i < |q.jobs.order| && q.jobs.order[i] in q.jobs.items
    ensures var chosen := q.jobs.items[q.jobs.order[i]];
            && Eligible(chosen, now, types)
            && Claim(q, workerId, now, types).returned == [Claimed(chosen, workerId, now)]
            && forall k :: 0 <= k < |q.jobs.order| && Eligible(q.jobs.items[q.jobs.order[k]], now, types) ==>
                             || chosen.createdAt < q.jobs.items[q.jobs.order[k]].createdAt
                             || (chosen.createdAt == q.jobs.items[q.jobs.order[k]].createdAt && i <= k)
  {
    hide Sorted, JobOk, Eligible, FirstEligible;
    var values := Values(q.jobs.order, q.jobs.items);
    i := OldestFirst(values, now, types);
    EligibleChoice(Sorted(values, OlderOrEqual), now, types);
    assert values[i] == q.jobs.items[q.jobs.order[i]];
    forall k | 0 <= k < |q.jobs.order| && Eligible(q.jobs.items[q.jobs.order[k]], now, types)
      ensures || values[i].createdAt < q.jobs.items[q.jobs.order[k]].createdAt
              || (values[i].createdAt == q.jobs.items[q.jobs.order[k]].createdAt && i <= k)
    {
      assert values[k] == q.jobs.items[q.jobs.order[k]];
    }
  }

  // ----- Recovery -----

  /** `recover_stale` returns every RUNNING job whose lease began before `stale_before`, and no other;
      each is FAILED if its attempts are used up, and otherwise claimable again at once: at any
      moment from `stale_before` on, by a worker for any type. */
  lemma RecoveredAreClaimable(q: Queue, staleBefore: int, errorCode: string, now: int, id: string)
    requires JobsOk(q) && id in q.jobs.items
    ensures var s := RecoverStale(q, staleBefore, errorCode, now);
            var j := q.jobs.items[id];
            && s.error.None? && id in s.queue.jobs.items
            && (s.queue.jobs.items[id] in s.returned <==> j.status.Running? && j.lockedAt.value < staleBefore)
            && (s.queue.jobs.items[id] in s.returned ==>
                  && (s.queue.jobs.items[id].status.Failed? <==> j.attempts == j.maxAttempts)
                  && (j.attempts < j.maxAttempts <==>
                        forall t :: t >= staleBefore ==> Eligible(s.queue.jobs.items[id], t, Some({j.jobType}))))
  {
    hide Recovered;
    RecoveredJobs(q, q.jobs.order, staleBefore, errorCode, now);
    var s := RecoverStale(q, staleBefore, errorCode, now);
    var j := q.jobs.items[id];
    assert id in q.jobs.order;
    if Stale(j, staleBefore) {
      assert s.queue.jobs.items[id] == Released(j, errorCode, now);
      if j.attempts == j.maxAttempts {
        assert !Eligible(s.queue.jobs.items[id], staleBefore, Some({j.jobType}));
      }
    }
  }

  /** After `fail` a job is over exactly when its attempts are used up; otherwise it is claimable
      from the end of its retry delay on, and not before. */
  lemma FailedJobWaits(q: Queue, jobId: string, errorCode: string, retryDelay: int, now: int, t: int)
    requires JobsOk(q) && RunningProblem(q, jobId).None?
    ensures var s := Fail(q, jobId, errorCode, retryDelay, now);
            && s.error.None? && jobId in s.queue.jobs.items && s.returned == [s.queue.jobs.items[jobId]]
            && var before, after := q.jobs.items[jobId], s.queue.jobs.items[jobId];
               && after.safeErrorCode == Some(errorCode) && after.attempts == before.attempts
               && (after.status.Failed? <==> before.attempts == before.maxAttempts)
               && (after.status.Failed? <==> after.completedAt == Some(now))
               && (Eligible(after, t, None) <==> before.attempts < before.maxAttempts && t >= now + retryDelay)
  {
  }

  // ----- What a lease does not protect -----

  /** Whether `succeed` or `fail` is accepted depends on the job being RUNNING, never on who runs it. */
  lemma AnyoneMayFinish(q: Queue, op: Op, other: Job)
    requires op.SucceedOp? || op.FailOp?
    requires q.jobs.Valid() && op.jobId in q.jobs.items
    requires other.status == q.jobs.items[op.jobId].status
    ensures Apply(q, op).error == Apply(q.(jobs := q.jobs.Put(op.jobId, other)), op).error
    ensures Apply(q, op).error.None? <==> q.jobs.items[op.jobId].status.Running?
  {
  }

  /** One job; the first worker's lease goes stale, a second worker claims the job. */
  function Overtaken(c: EnqueueJob, id: string, first: string, second: string, at: int, code: string): seq<Op> {
    [EnqueueOp(c, id, at), ClaimOp(first, at, None), RecoverOp(at + 1, code, at + 1), ClaimOp(second, at + 1, None)]
  }

  lemma SingleJob(q: Queue, id: string, workerId: string, now: int)
    requires q.jobs.order == [id] && q.jobs.items.Keys == {id} && q.jobs.items[id].jobId == id
    requires Eligible(q.jobs.items[id], now, None)
    ensures Claim(q, workerId, now, None).queue ==
            q.(jobs := Dict([id], map[id := Claimed(q.jobs.items[id], workerId, now)]))
  {
    var job := q.jobs.items[id];
    assert Values(q.jobs.order, q.jobs.items) == [job];
    assert Sorted([job], OlderOrEqual) == [job] by { assert [job][..0] == []; }
    assert q.jobs.items[id := Claimed(job, workerId, now)] == map[id := Claimed(job, workerId, now)];
  }

  lemma SingleRecovery(j: Job, id: string, index: map<IdempotencyKey, string>, now: int, code: string)
    requires Stale(j, now)
    ensures RecoverStale(Queue(Dict([id], map[id := j]), index), now, code, now).queue
            == Queue(Dict([id], map[id := Released(j, code, now)]), index)
  {
    hide Released;
    var q := Queue(Dict([id], map[id := j]), index);
    assert [id][..0] == [];
    assert Recovered(q, [], now, code, now).queue == q;
    assert q.jobs.items[id := Released(j, code, now)] == map[id := Released(j, code, now)];
  }

  /** The late worker's result is then accepted as the second worker's: the job SUCCEEDED with a
      result that its lease holder never made, and the holder's own `succeed` is refused. */
  lemma LateWorkerFinishesAnothersLease(c: EnqueueJob, id: string, first: string, second: string, at: int,
                                        code: string, late: string, own: string)
    requires c.maxAttempts >= 2 && c.nextRetryAt <= at && first != second
    ensures var ops := Overtaken(c, id, first, second, at, code);
            var held := ApplyAll(ops);
            var after := Succeed(held, id, late, at + 2);
            && FreshIds(ops)
            && id in held.jobs.items && held.jobs.items[id].lockedBy == Some(second)
            && after.error.None? && id in after.queue.jobs.items
            && after.queue.jobs.items[id].status.Succeeded? && after.queue.jobs.items[id].result == Some(late)
            && Succeed(after.queue, id, own, at + 3).error == Some(JobConflict)
  {
    hide Claim, RecoverStale, Sorted, Values;
    var ops := Overtaken(c, id, first, second, at, code);
    var job := NewJob(c, id, at);
    var index := map[CommandKey(c) := id];
    var q1 := Queue(Dict([id], map[id := job]), index);
    OvertakenSteps(c, id, first, second, at, code);
    assert ops[..4] == ops;
    SingleJob(q1, id, first, at);
    var running := Claimed(job, first, at);
    SingleRecovery(running, id, index, at + 1, code);
    var q3 := Queue(Dict([id], map[id := Released(running, code, at + 1)]), index);
    SingleJob(q3, id, second, at + 1);
    forall k | 0 <= k < |ops| && ops[k].EnqueueOp? ensures ops[k].freshId !in ApplyAll(ops[..k]).jobs.items {
      assert k == 0 && ops[..0] == [];
    }
  }

  lemma OvertakenSteps(c: EnqueueJob, id: string, first: string, second: string, at: int, code: string)
    ensures var ops := Overtaken(c, id, first, second, at, code);
            && ApplyAll(ops[..1]) == Queue(Dict([id], map[id := NewJob(c, id, at)]), map[CommandKey(c) := id])
            && ApplyAll(ops[..2]) == Apply(ApplyAll(ops[..1]), ops[1]).queue
            && ApplyAll(ops[..3]) == Apply(ApplyAll(ops[..2]), ops[2]).queue
            && ApplyAll(ops[..4]) == Apply(ApplyAll(ops[..3]), ops[3]).queue
  {
    hide Apply, NewJob;
    var ops := Overtaken(c, id, first, second, at, code);
    assert ops[..1][..0] == [] && ops[..2][..1] == ops[..1] && ops[..3][..2] == ops[..2] && ops[..4][..3] == ops[..3];
    FirstStep(c, id, at);
  }

  lemma FirstStep(c: EnqueueJob, id: string, at: int)
    ensures Apply(EMPTY_QUEUE, EnqueueOp(c, id, at)).queue
            == Queue(Dict([id], map[id := NewJob(c, id, at)]), map[CommandKey(c) := id])
  {
    assert [] + [id] == [id];
  }
}
