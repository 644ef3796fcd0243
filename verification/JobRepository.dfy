/** The repository object that workers share, and the worker that drives it. */
module JobRepository {
  import opened Prelude
  import opened Sorting
  import opened JobModel
  import opened JobRuns

  /** What a call that returns one job says, given the step it takes. */
  ghost predicate Answers(s: Step, reply: Result<Job, JobError>) {
    match reply
    case Ok(job) => s.error.None? && s.returned == [job]
    case Err(error) => s.error == Some(error) && s.returned == []
  }

  class InMemoryJobRepository {
    var jobs: Dict<string, Job>
    var idempotency: map<IdempotencyKey, string>

    ghost function State(): Queue
      reads this
    {
      Queue(jobs, idempotency)
    }

    ghost predicate Valid()
      reads this
    {
      QueueOk(State())
    }

    constructor ()
      ensures State() == EMPTY_QUEUE && Valid()
    {
      jobs := EmptyDict();
      idempotency := map[];
    }

    method Enqueue(command: EnqueueJob, freshId: string, now: int) returns (reply: Result<Job, JobError>)
      requires Valid() && freshId !in jobs.items
      modifies this
      ensures Valid() && State() == JobModel.Enqueue(old(State()), command, freshId, now).queue
      ensures Answers(JobModel.Enqueue(old(State()), command, freshId, now), reply) && reply.Ok?
    {
      ghost var before := State();
      EnqueueAdds(before, command, freshId, now);
      StepKeepsQueue(before, EnqueueOp(command, freshId, now));
      var key := IdempotencyKey(command.organizationId, command.jobType, command.idempotencyKey);
      if key in idempotency {
        reply := Get(idempotency[key]);
      } else {
        var job := NewJob(command, freshId, now);
        jobs := jobs.Put(freshId, job);
        idempotency := idempotency[key := freshId];
        reply := Ok(job);
      }
    }

    method Claim(workerId: string, now: int, types: Option<set<JobType>>) returns (claimed: Option<Job>)
      requires Valid()
      modifies this
      ensures Valid() && State() == JobModel.Claim(old(State()), workerId, now, types).queue
      ensures JobModel.Claim(old(State()), workerId, now, types).returned
              == (if claimed.Some? then [claimed.value] else [])
    {
      hide JobOk, Indexed, AllMove;
      ghost var before := State();
      StepKeepsQueue(before, ClaimOp(workerId, now, types));
      var eligible := Sorted(Values(jobs.order, jobs.items), OlderOrEqual);
      var i := 0;
      while i < |eligible|
        invariant 0 <= i <= |eligible| && State() == before
        invariant FirstEligible(eligible, now, types) == FirstEligible(eligible[i..], now, types)
      {
        hide QueueOk, JobsOk, Sorted, Values, Claimed;
        var job := eligible[i];
        i := i + 1;
        assert eligible[i - 1..][1..] == eligible[i..];
        if !job.status.Queued? || job.nextRetryAt > now {
          continue;
        }
        if job.attempts >= job.maxAttempts {
          continue;
        }
        if types.Some? && job.jobType !in types.value {
          continue;
        }
        var running := Claimed(job, workerId, now);
        jobs := jobs.Put(job.jobId, running);
        return Some(running);
      }
      claimed := None;
    }

    method Succeed(jobId: string, result: string, now: int) returns (reply: Result<Job, JobError>)
      requires Valid()
      modifies this
      ensures Valid() && State() == JobModel.Succeed(old(State()), jobId, result, now).queue
      ensures Answers(JobModel.Succeed(old(State()), jobId, result, now), reply)
    {
      hide JobOk, Indexed, AllMove;
      StepKeepsQueue(State(), SucceedOp(jobId, result, now));
      var job := RequireRunning(jobId);
      if job.Err? { return job; }
      var updated := SucceededJob(job.value, result, now);
      jobs := jobs.Put(jobId, updated);
      reply := Ok(updated);
    }

    method Fail(jobId: string, errorCode: string, retryDelay: int, now: int) returns (reply: Result<Job, JobError>)
      requires Valid()
      modifies this
      ensures Valid() && State() == JobModel.Fail(old(State()), jobId, errorCode, retryDelay, now).queue
      ensures Answers(JobModel.Fail(old(State()), jobId, errorCode, retryDelay, now), reply)
    {
      hide JobOk, Indexed, AllMove;
      StepKeepsQueue(State(), FailOp(jobId, errorCode, retryDelay, now));
      var job := RequireRunning(jobId);
      if job.Err? { return job; }
      var terminal := job.value.attempts >= job.value.maxAttempts;
      var updated := job.value.(
        status := if terminal then Failed else Queued,
        nextRetryAt := now + retryDelay,
        lockedBy := None,
        lockedAt := None,
        completedAt := if terminal then Some(now) else None,
        safeErrorCode := Some(errorCode));
      jobs := jobs.Put(jobId, updated);
      reply := Ok(updated);
    }

    /** The loop works on a snapshot of the items while it overwrites the jobs. */
    method RecoverStale(staleBefore: int, errorCode: string, now: int) returns (recovered: seq<Job>)
      requires Valid()
      modifies this
      ensures Valid() && State() == JobModel.RecoverStale(old(State()), staleBefore, errorCode, now).queue
      ensures recovered == JobModel.RecoverStale(old(State()), staleBefore, errorCode, now).returned
    {
      hide JobOk, Indexed, AllMove;
      ghost var before := State();
      StepKeepsQueue(before, RecoverOp(staleBefore, errorCode, now));
      var snapshot := jobs;
      recovered := [];
      var i := 0;
      while i < |snapshot.order|
        invariant 0 <= i <= |snapshot.order| && snapshot == before.jobs
        invariant Recovered(before, snapshot.order[..i], staleBefore, errorCode, now) == Step(State(), recovered, None)
      {
        hide QueueOk, JobsOk;
        var jobId := snapshot.order[i];
        var job := snapshot.items[jobId];
        i := i + 1;
        assert snapshot.order[..i][..i - 1] == snapshot.order[..i - 1];
        if !job.status.Running? || job.lockedAt.None? || job.lockedAt.value >= staleBefore {
          continue;
        }
        var terminal := job.attempts >= job.maxAttempts;
        var updated := job.(
          status := if terminal then Failed else Queued,
          lockedBy := None,
          lockedAt := None,
          completedAt := if terminal then Some(now) else None,
          safeErrorCode := Some(errorCode));
        jobs := jobs.Put(jobId, updated);
        recovered := recovered + [updated];
      }
      assert snapshot.order[..i] == snapshot.order;
    }

    method Get(jobId: string) returns (reply: Result<Job, JobError>)
      ensures reply == (if jobId in jobs.items then Ok(jobs.items[jobId]) else Err(JobNotFound))
    {
      if jobId in jobs.items {
        reply := Ok(jobs.items[jobId]);
      } else {
        reply := Err(JobNotFound);
      }
    }

    method RequireRunning(jobId: string) returns (reply: Result<Job, JobError>)
      ensures RunningProblem(State(), jobId) == (if reply.Err? then Some(reply.error) else None)
      ensures reply.Ok? ==> jobId in jobs.items && reply.value == jobs.items[jobId]
    {
      reply := Get(jobId);
      if reply.Ok? && !reply.value.status.Running? {
        reply := Err(JobConflict);
      }
    }
  }

  /** What a handler makes of a job: a result, or None when it raises. */
  type Handler = Job -> Option<string>

  const RETRY_DELAY := 30

  /** The step that ends an attempt. */
  function Outcome(handlers: map<JobType, Handler>, job: Job, now: int): Op {
    if job.jobType !in handlers then FailOp(job.jobId, "HANDLER_NOT_CONFIGURED", RETRY_DELAY, now)
    else if handlers[job.jobType](job).None? then FailOp(job.jobId, "SAFE_HANDLER_FAILURE", RETRY_DELAY, now)
    else SucceedOp(job.jobId, handlers[job.jobType](job).value, now)
  }

  /** A whole turn of a worker with nothing in between. */
  function Turn(q: Queue, handlers: map<JobType, Handler>, workerId: string, now: int, later: int): Step
    requires q.jobs.Valid()
  {
    var claim := JobModel.Claim(q, workerId, now, None);
    if claim.returned == [] then claim
    else
      ApplyIsValid(q, ClaimOp(workerId, now, None));
      Apply(claim.queue, Outcome(handlers, claim.returned[0], later))
  }

  /** Uninterrupted, a worker is never refused: it does nothing exactly when nothing is eligible,
      and otherwise ends the attempt that it began, with success exactly when its handler succeeds. */
  lemma TurnEndsItsAttempt(q: Queue, handlers: map<JobType, Handler>, workerId: string, now: int, later: int)
    requires QueueOk(q)
    ensures var s := Turn(q, handlers, workerId, now, later);
            && s.error.None? && |s.returned| <= 1
            && (s.returned == [] <==> JobModel.Claim(q, workerId, now, None).returned == [])
            && (s.returned == [] ==> s.queue == q)
            && (s.returned != [] ==>
                  var job := s.returned[0];
                  && job.jobId in q.jobs.items && Eligible(q.jobs.items[job.jobId], now, None)
                  && job.attempts == q.jobs.items[job.jobId].attempts + 1 && !job.status.Running?
                  && (job.status.Succeeded? <==>
                        Outcome(handlers, Claimed(q.jobs.items[job.jobId], workerId, now), later).SucceedOp?))
  {
    hide JobOk, Indexed, AllMove, Moves, JobModel.Claim;
    ClaimMoves(q, workerId, now, None);
    StepKeepsQueue(q, ClaimOp(workerId, now, None));
    var claim := JobModel.Claim(q, workerId, now, None);
    if claim.returned != [] {
      var op := Outcome(handlers, claim.returned[0], later);
      FinishMoves(claim.queue, op);
    }
  }

  class JobWorker {
    const repository: InMemoryJobRepository
    const handlers: map<JobType, Handler>
    const workerId: string

    constructor (repository: InMemoryJobRepository, handlers: map<JobType, Handler>, workerId: string)
      ensures this.repository == repository && this.handlers == handlers && this.workerId == workerId
    {
      this.repository := repository;
      this.handlers := handlers;
      this.workerId := workerId;
    }

    method RunOnce(now: int, later: int) returns (reply: Option<Result<Job, JobError>>)
      requires repository.Valid()
      modifies repository
      ensures repository.Valid()
      ensures repository.State() == Turn(old(repository.State()), handlers, workerId, now, later).queue
      ensures var s := Turn(old(repository.State()), handlers, workerId, now, later);
              if s.returned == [] then reply == None else reply == Some(Ok(s.returned[0]))
    {
      hide JobOk, Indexed, AllMove, Moves, JobModel.Claim, JobModel.Succeed, JobModel.Fail;
      TurnEndsItsAttempt(repository.State(), handlers, workerId, now, later);
      var job := repository.Claim(workerId, now, None);
      if job.None? { return None; }
      if job.value.jobType !in handlers {
        var failed := repository.Fail(job.value.jobId, "HANDLER_NOT_CONFIGURED", RETRY_DELAY, later);
        return Some(failed);
      }
      var result := handlers[job.value.jobType](job.value);
      if result.None? {
        var failed := repository.Fail(job.value.jobId, "SAFE_HANDLER_FAILURE", RETRY_DELAY, later);
        return Some(failed);
      }
      var done := repository.Succeed(job.value.jobId, result.value, later);
      reply := Some(done);
    }
  }
}
