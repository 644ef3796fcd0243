/** The job queue as a state machine. Every operation of the repository is one critical section,
    so any interleaving of workers and recoveries is a sequence of these steps. */
module JobModel {
  import opened Prelude
  import opened Sorting

  datatype JobType =
    | DocumentExtraction | DocumentIndexing | GenesisRequest | ScheduledReport | RecurringMonitor
    | Notification | ConnectorSync

  datatype JobStatus = Queued | Running | Succeeded | Failed | Cancelled

  datatype Job = Job(
    jobId: string, tenantId: string, organizationId: string, workspaceId: string, jobType: JobType,
    payload: string, status: JobStatus, attempts: nat, maxAttempts: nat, nextRetryAt: int,
    correlationId: string, idempotencyKey: string, ownerActorId: Option<string>, createdAt: int,
    lockedBy: Option<string>, lockedAt: Option<int>, completedAt: Option<int>,
    safeErrorCode: Option<string>, result: Option<string>)

  datatype Command = Command(
    tenantId: string, organizationId: string, workspaceId: string, jobType: JobType, payload: string,
    correlationId: string, idempotencyKey: string, ownerActorId: Option<string>, maxAttempts: nat, nextRetryAt: int)

  /** The constructor of `EnqueueJob` refuses everything else. */
  predicate Accepted(c: Command) {
    |c.idempotencyKey| >= 8 && 1 <= c.maxAttempts <= 20
  }

  type EnqueueJob = c: Command | Accepted(c)
    witness Command("", "", "", Notification, "", "", "12345678", None, 3, 0)

  datatype IdempotencyKey = IdempotencyKey(organizationId: string, jobType: JobType, key: string)

  function KeyOf(j: Job): IdempotencyKey {
    IdempotencyKey(j.organizationId, j.jobType, j.idempotencyKey)
  }

  function CommandKey(c: Command): IdempotencyKey {
    IdempotencyKey(c.organizationId, c.jobType, c.idempotencyKey)
  }

  datatype Queue = Queue(jobs: Dict<string, Job>, idempotency: map<IdempotencyKey, string>)

  const EMPTY_QUEUE := Queue(Dict([], map[]), map[])

  datatype JobError = JobNotFound | JobConflict

  /** A step's effect: the jobs that it returned, or the exception. */
  datatype Step = Step(queue: Queue, returned: seq<Job>, error: Option<JobError>)

  function NewJob(c: Command, jobId: string, now: int): Job {
    Job(jobId, c.tenantId, c.organizationId, c.workspaceId, c.jobType, c.payload, Queued, 0, c.maxAttempts,
        c.nextRetryAt, c.correlationId, c.idempotencyKey, c.ownerActorId, now, None, None, None, None, None)
  }

  function Enqueue(q: Queue, c: EnqueueJob, jobId: string, now: int): Step {
    var key := CommandKey(c);
    if key in q.idempotency then
      if q.idempotency[key] in q.jobs.items then Step(q, [q.jobs.items[q.idempotency[key]]], None)
      else Step(q, [], Some(JobNotFound))
    else
      var job := NewJob(c, jobId, now);
      Step(Queue(q.jobs.Put(jobId, job), q.idempotency[key := jobId]), [job], None)
  }

  predicate Eligible(j: Job, now: int, types: Option<set<JobType>>) {
    && j.status.Queued? && j.nextRetryAt <= now && j.attempts < j.maxAttempts
    && (types.Some? ==> j.jobType in types.value)
  }

  predicate OlderOrEqual(a: Job, b: Job) {
    a.createdAt <= b.createdAt
  }

  function FirstEligible(jobs: seq<Job>, now: int, types: Option<set<JobType>>): (j: Option<Job>)
    ensures j.Some? ==> j.value in jobs && Eligible(j.value, now, types)
    ensures j.None? <==> forall k :: k in jobs ==> !Eligible(k, now, types)
  {
    if jobs == [] then None
    else if Eligible(jobs[0], now, types) then Some(jobs[0])
    else FirstEligible(jobs[1..], now, types)
  }

  function Claimed(j: Job, workerId: string, now: int): Job {
    j.(status := Running, attempts := j.attempts + 1, lockedBy := Some(workerId), lockedAt := Some(now))
  }

  function Replaced(q: Queue, j: Job): Queue {
    q.(jobs := q.jobs.Put(j.jobId, j))
  }

  function Claim(q: Queue, workerId: string, now: int, types: Option<set<JobType>>): Step
    requires q.jobs.Valid()
  {
    var choice := FirstEligible(Sorted(Values(q.jobs.order, q.jobs.items), OlderOrEqual), now, types);
    if choice.None? then Step(q, [], None)
    else
      var claimed := Claimed(choice.value, workerId, now);
      Step(Replaced(q, claimed), [claimed], None)
  }

  function RunningProblem(q: Queue, jobId: string): Option<JobError> {
    if jobId !in q.jobs.items then Some(JobNotFound)
    else if !q.jobs.items[jobId].status.Running? then Some(JobConflict)
    else None
  }

  function SucceededJob(j: Job, result: string, now: int): Job {
    j.(status := Succeeded, result := Some(result), completedAt := Some(now), lockedBy := None, lockedAt := None)
  }

  function Succeed(q: Queue, jobId: string, result: string, now: int): Step {
    if RunningProblem(q, jobId).Some? then Step(q, [], RunningProblem(q, jobId))
    else
      var done := SucceededJob(q.jobs.items[jobId], result, now);
      Step(q.(jobs := q.jobs.Put(jobId, done)), [done], None)
  }

  /** A failed or abandoned attempt: back to the queue while attempts remain. */
  function Released(j: Job, errorCode: string, now: int): Job {
    var terminal := j.attempts >= j.maxAttempts;
    j.(status := if terminal then Failed else Queued, lockedBy := None, lockedAt := None,
    completedAt := if terminal then Some(now) else None, safeErrorCode := Some(errorCode))
  }

  function Fail(q: Queue, jobId: string, errorCode: string, retryDelay: int, now: int): Step {
    if RunningProblem(q, jobId).Some? then Step(q, [], RunningProblem(q, jobId))
    else
      var failed := Released(q.jobs.items[jobId], errorCode, now).(nextRetryAt := now + retryDelay);
      Step(q.(jobs := q.jobs.Put(jobId, failed)), [failed], None)
  }

  predicate Stale(j: Job, staleBefore: int) {
    j.status.Running? && j.lockedAt.Some? && j.lockedAt.value < staleBefore
  }

  /** The recovery loop over the first jobs of the snapshot. */
  function Recovered(q: Queue, ids: seq<string>, staleBefore: int, errorCode: string, now: int): Step {
    if ids == [] then Step(q, [], None)
    else
      var s := Recovered(q, ids[..|ids| - 1], staleBefore, errorCode, now);
      var id := ids[|ids| - 1];
      if id !in q.jobs.items || !Stale(q.jobs.items[id], staleBefore) then s
      else
        var updated := Released(q.jobs.items[id], errorCode, now);
        Step(s.queue.(jobs := s.queue.jobs.Put(id, updated)), s.returned + [updated], None)
  }

  function RecoverStale(q: Queue, staleBefore: int, errorCode: string, now: int): Step {
    Recovered(q, q.jobs.order, staleBefore, errorCode, now)
  }

  datatype Op =
    | EnqueueOp(command: EnqueueJob, freshId: string, now: int)
    | ClaimOp(workerId: string, now: int, types: Option<set<JobType>>)
    | SucceedOp(jobId: string, result: string, now: int)
    | FailOp(jobId: string, errorCode: string, retryDelay: int, now: int)
    | RecoverOp(staleBefore: int, errorCode: string, now: int)

  function Apply(q: Queue, op: Op): Step
    requires q.jobs.Valid()
  {
    match op
    case EnqueueOp(c, freshId, now) => Enqueue(q, c, freshId, now)
    case ClaimOp(workerId, now, types) => Claim(q, workerId, now, types)
    case SucceedOp(jobId, result, now) => Succeed(q, jobId, result, now)
    case FailOp(jobId, errorCode, retryDelay, now) => Fail(q, jobId, errorCode, retryDelay, now)
    case RecoverOp(staleBefore, errorCode, now) => RecoverStale(q, staleBefore, errorCode, now)
  }

  lemma {:induction false} RecoveredIsValid(q: Queue, ids: seq<string>, staleBefore: int, errorCode: string, now: int)
    requires q.jobs.Valid()
    ensures Recovered(q, ids, staleBefore, errorCode, now).queue.jobs.Valid()
  {
    if ids != [] { RecoveredIsValid(q, ids[..|ids| - 1], staleBefore, errorCode, now); }
  }

  lemma ApplyIsValid(q: Queue, op: Op)
    requires q.jobs.Valid()
    ensures Apply(q, op).queue.jobs.Valid()
  {
    if op.RecoverOp? { RecoveredIsValid(q, q.jobs.order, op.staleBefore, op.errorCode, op.now); }
  }

  function ApplyAll(ops: seq<Op>): (q: Queue)
    ensures q.jobs.Valid()
  {
    if ops == [] then EMPTY_QUEUE
    else
      var q := ApplyAll(ops[..|ops| - 1]);
      ApplyIsValid(q, ops[|ops| - 1]);
      Apply(q, ops[|ops| - 1]).queue
  }

  /** Job ids are fresh, as `uuid4` makes them. */
  ghost predicate FreshIds(ops: seq<Op>) {
    forall k :: 0 <= k < |ops| && ops[k].EnqueueOp? ==> ops[k].freshId !in ApplyAll(ops[..k]).jobs.items
  }
}
