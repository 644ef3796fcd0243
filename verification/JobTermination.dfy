/** Why the queue ends, how often a job is tried, which job a worker gets, and what an index key means. */
module JobTermination {
  import opened Prelude
  import opened JobModel
  import opened JobRuns

  // ----- The measure -----

  /** Twice the attempts left, and one for the attempt under way. */
  function Load(j: Job): int {
    if Terminal(j) then 0 else 2 * (j.maxAttempts - j.attempts) + (if j.status.Running? then 1 else 0)
  }

  lemma LoadFalls(a: Job, b: Job)
    requires JobOk(a) && JobOk(b) && Moves(a, b) && a != b
    ensures 0 <= Load(b) < Load(a)
  {
  }

  predicate Changed(q: Queue, r: Queue, id: string) {
    id in q.jobs.items && id in r.jobs.items && q.jobs.items[id] != r.jobs.items[id]
  }

  function Changes(q: Queue, r: Queue, ids: seq<string>): nat {
    if ids == [] then 0
    else Changes(q, r, ids[..|ids| - 1]) + (if Changed(q, r, ids[|ids| - 1]) then 1 else 0)
  }

  function TotalLoad(q: Queue, ids: seq<string>): int {
    if ids == [] then 0
    else
      var id := ids[|ids| - 1];
      TotalLoad(q, ids[..|ids| - 1]) + (if id in q.jobs.items then Load(q.jobs.items[id]) else 0)
  }

  /** The attempts that the jobs came with, counted twice. */
  function Budget(q: Queue, ids: seq<string>): nat {
    if ids == [] then 0
    else
      var id := ids[|ids| - 1];
      Budget(q, ids[..|ids| - 1]) + (if id in q.jobs.items then 2 * q.jobs.items[id].maxAttempts else 0)
  }

  lemma {:induction false} StepSpendsLoad(q: Queue, r: Queue, ids: seq<string>)
    requires JobsOk(q) && JobsOk(r) && AllMove(q, r) && forall id :: id in ids ==> id in q.jobs.items
    ensures TotalLoad(r, ids) + Changes(q, r, ids) <= TotalLoad(q, ids)
    ensures Budget(r, ids) == Budget(q, ids) && TotalLoad(r, ids) >= 0
  {
    hide JobOk, Moves, Load;
    if ids != [] {
      var id := ids[|ids| - 1];
      assert id in ids;
      StepSpendsLoad(q, r, ids[..|ids| - 1]);
      var a, b := q.jobs.items[id], r.jobs.items[id];
      LoadIsNatural(b);
      if a != b { LoadFalls(a, b); }
      SameAttempts(a, b);
    }
  }

  lemma LoadIsNatural(j: Job)
    requires JobOk(j)
    ensures Load(j) >= 0
  {
  }

  lemma SameAttempts(a: Job, b: Job)
    requires Moves(a, b)
    ensures a.maxAttempts == b.maxAttempts && a.createdAt == b.createdAt && KeyOf(a) == KeyOf(b)
  {
  }

  /** How many job changes the steps of a run made. */
  function TotalChanges(ops: seq<Op>): nat {
    if ops == [] then 0
    else
      var q, r := ApplyAll(ops[..|ops| - 1]), ApplyAll(ops);
      TotalChanges(ops[..|ops| - 1]) + Changes(q, r, q.jobs.order)
  }

  lemma OrderAfter(q: Queue, op: Op)
    requires QueueOk(q) && (op.EnqueueOp? ==> op.freshId !in q.jobs.items)
    ensures var r := Apply(q, op).queue;
            || r.jobs.order == q.jobs.order
            || (op.EnqueueOp? && r.jobs.order == q.jobs.order + [op.freshId]
                && r.jobs.items == q.jobs.items[op.freshId := NewJob(op.command, op.freshId, op.now)])
  {
    hide Indexed, Claim, RecoverStale, Succeed, Fail, JobOk, AllMove, Moves, NewJob;
    if op.EnqueueOp? {
      EnqueueAdds(q, op.command, op.freshId, op.now);
    } else {
      StepMoves(q, op);
    }
  }

  /** The changes of any run, and the load still open, are paid for by the attempts that the
      jobs were enqueued with. */
  lemma {:induction false} EveryRunEnds(ops: seq<Op>)
    requires FreshIds(ops)
    ensures var q := ApplyAll(ops);
            0 <= TotalLoad(q, q.jobs.order) && TotalChanges(ops) + TotalLoad(q, q.jobs.order) <= Budget(q, q.jobs.order)
  {
    hide QueueOk, JobsOk, Indexed, AllMove, Apply, Load;
    if ops != [] {
      var front, op := ops[..|ops| - 1], ops[|ops| - 1];
      var q, r := ApplyAll(front), ApplyAll(ops);
      FreshFront(ops);
      EveryRunEnds(front);
      EveryRunKeepsTheQueue(front);
      QueueParts(q);
      StepKeepsQueue(q, op);
      QueueParts(r);
      OrderAfter(q, op);
      StepSpendsLoad(q, r, q.jobs.order);
      if r.jobs.order != q.jobs.order {
        assert r.jobs.order[..|r.jobs.order| - 1] == q.jobs.order;
        NewLoad(op.command, op.freshId, op.now);
      }
    }
  }

  lemma QueueParts(q: Queue)
    requires QueueOk(q)
    ensures JobsOk(q) && Indexed(q) && forall id :: id in q.jobs.order ==> id in q.jobs.items
  {
  }

  lemma NewLoad(c: EnqueueJob, jobId: string, now: int)
    ensures Load(NewJob(c, jobId, now)) == 2 * c.maxAttempts
    ensures NewJob(c, jobId, now).maxAttempts == c.maxAttempts && NewJob(c, jobId, now).jobId == jobId
  {
  }

  // ----- One job through a run -----

  function StatusIn(q: Queue, id: string): Option<JobStatus> {
    if id in q.jobs.items then Some(q.jobs.items[id].status) else None
  }

  predicate Claims(q: Queue, r: Queue, id: string) {
    StatusIn(q, id) == Some(Queued) && StatusIn(r, id) == Some(Running)
  }

  predicate Finishes(q: Queue, r: Queue, id: string) {
    StatusIn(q, id) == Some(Running) && (StatusIn(r, id) == Some(Succeeded) || StatusIn(r, id) == Some(Failed))
  }

  /** How often a run claimed the job. */
  function ClaimsOf(ops: seq<Op>, id: string): nat {
    if ops == [] then 0
    else
      var front := ops[..|ops| - 1];
      ClaimsOf(front, id) + (if Claims(ApplyAll(front), ApplyAll(ops), id) then 1 else 0)
  }

  /** How often a run brought the job to an end. */
  function FinishesOf(ops: seq<Op>, id: string): nat {
    if ops == [] then 0
    else
      var front := ops[..|ops| - 1];
      FinishesOf(front, id) + (if Finishes(ApplyAll(front), ApplyAll(ops), id) then 1 else 0)
  }

  lemma {:induction false} AbsentJob(ops: seq<Op>, id: string)
    requires FreshIds(ops) && id !in ApplyAll(ops).jobs.items
    ensures ClaimsOf(ops, id) == 0 && FinishesOf(ops, id) == 0
  {
    hide QueueOk, Apply, Moves;
    if ops != [] {
      var front := ops[..|ops| - 1];
      FreshFront(ops);
      EveryRunKeepsTheQueue(front);
      StepKeepsQueue(ApplyAll(front), ops[|ops| - 1]);
      AbsentJob(front, id);
    }
  }

  /** A job's counter says how often it was claimed, and a job finishes once or is still open. */
  lemma {:induction false} ClaimsAreBounded(ops: seq<Op>, id: string)
    requires FreshIds(ops) && id in ApplyAll(ops).jobs.items
    ensures var j := ApplyAll(ops).jobs.items[id];
            && ClaimsOf(ops, id) == j.attempts <= j.maxAttempts
            && FinishesOf(ops, id) == (if Terminal(j) then 1 else 0)
  {
    hide QueueOk, JobsOk, Indexed, Apply, Moves, JobOk;
    var front, op := ops[..|ops| - 1], ops[|ops| - 1];
    var q, r := ApplyAll(front), ApplyAll(ops);
    FreshFront(ops);
    EveryRunKeepsTheQueue(front);
    EveryRunKeepsTheQueue(ops);
    StepKeepsQueue(q, op);
    AttemptsBounded(r, id);
    if id in q.jobs.items {
      ClaimsAreBounded(front, id);
      AttemptsBounded(q, id);
      MoveCounts(q.jobs.items[id], r.jobs.items[id]);
    } else {
      AbsentJob(front, id);
      QueueParts(q);
      OrderAfter(q, op);
      NewArrives(q, op, id);
    }
  }

  lemma AttemptsBounded(q: Queue, id: string)
    requires QueueOk(q) && id in q.jobs.items
    ensures JobOk(q.jobs.items[id]) && q.jobs.items[id].attempts <= q.jobs.items[id].maxAttempts
  {
  }

  lemma MoveCounts(a: Job, b: Job)
    requires Moves(a, b) && JobOk(a)
    ensures b.attempts == a.attempts + (if a.status.Queued? && b.status.Running? then 1 else 0)
    ensures a.status.Running? && Terminal(b) ==> !Terminal(a)
    ensures Terminal(b) ==> Terminal(a) || a.status.Running?
    ensures Terminal(a) ==> b == a
  {
  }

  lemma NewArrives(q: Queue, op: Op, id: string)
    requires QueueOk(q) && (op.EnqueueOp? ==> op.freshId !in q.jobs.items)
    requires id !in q.jobs.items && id in Apply(q, op).queue.jobs.items
    ensures Apply(q, op).queue.jobs.items[id].attempts == 0 && Apply(q, op).queue.jobs.items[id].status == Queued
  {
    hide Indexed, JobOk, Claim, RecoverStale, Succeed, Fail, AllMove;
    if op.EnqueueOp? {
      EnqueueAdds(q, op.command, op.freshId, op.now);
    } else {
      StepMoves(q, op);
    }
  }

  // ----- Keys -----

  /** From any point of a run on, a stored job keeps its identity. */
  lemma {:induction false} JobsPersist(ops: seq<Op>, n: nat, id: string)
    requires FreshIds(ops) && n <= |ops| && id in ApplyAll(ops[..n]).jobs.items
    ensures id in ApplyAll(ops).jobs.items
    ensures KeyOf(ApplyAll(ops).jobs.items[id]) == KeyOf(ApplyAll(ops[..n]).jobs.items[id])
  {
    hide QueueOk, Apply, Moves, KeyOf;
    if n == |ops| {
      assert ops[..n] == ops;
    } else {
      var front := ops[..|ops| - 1];
      assert front[..n] == ops[..n];
      FreshFront(ops);
      JobsPersist(front, n, id);
      EveryRunKeepsTheQueue(front);
      StepKeepsQueue(ApplyAll(front), ops[|ops| - 1]);
      SameAttempts(ApplyAll(front).jobs.items[id], ApplyAll(ops).jobs.items[id]);
    }
  }

  lemma FreshPrefix(ops: seq<Op>, n: nat)
    requires FreshIds(ops) && n <= |ops|
    ensures FreshIds(ops[..n])
  {
    assert forall k :: 0 <= k < n ==> ops[..n][..k] == ops[..k];
  }

  /** Two `enqueue` calls of one run answer with the same job exactly when organization, type and
      idempotency key agree, however far apart they are and whatever happened in between. */
  lemma SameKeySameJob(ops: seq<Op>, k: nat, l: nat)
    requires FreshIds(ops) && k < l < |ops| && ops[k].EnqueueOp? && ops[l].EnqueueOp?
    ensures var first, second := Apply(ApplyAll(ops[..k]), ops[k]), Apply(ApplyAll(ops[..l]), ops[l]);
            && first.error.None? && second.error.None? && |first.returned| == 1 && |second.returned| == 1
            && (first.returned[0].jobId == second.returned[0].jobId
                <==> CommandKey(ops[k].command) == CommandKey(ops[l].command))
  {
    hide KeyOf, CommandKey, Enqueue, NewJob, JobOk;
    var q, r := ApplyAll(ops[..k]), ApplyAll(ops[..l]);
    FreshPrefix(ops, k);
    FreshPrefix(ops, k + 1);
    FreshPrefix(ops, l);
    EveryRunKeepsTheQueue(ops[..k]);
    EveryRunKeepsTheQueue(ops[..l]);
    EnqueueAnswers(q, ops[k].command, ops[k].freshId, ops[k].now);
    EnqueueAnswers(r, ops[l].command, ops[l].freshId, ops[l].now);
    assert ops[..k + 1][..k] == ops[..k];
    assert ops[..l][..k + 1] == ops[..k + 1];
    var id := Apply(q, ops[k]).returned[0].jobId;
    JobsPersist(ops[..l], k + 1, id);
  }

  /** The job that `enqueue` answers with is stored under its id, and has the command's key. */
  lemma EnqueueAnswers(q: Queue, c: EnqueueJob, jobId: string, now: int)
    requires QueueOk(q) && jobId !in q.jobs.items
    ensures var s := Enqueue(q, c, jobId, now);
            && s.error.None? && |s.returned| == 1
            && s.returned[0].jobId in s.queue.jobs.items && s.queue.jobs.items[s.returned[0].jobId] == s.returned[0]
            && KeyOf(s.returned[0]) == CommandKey(c)
            && (CommandKey(c) in q.idempotency ==>
                  s.queue == q && s.returned[0].jobId == q.idempotency[CommandKey(c)])
            && (CommandKey(c) !in q.idempotency ==> s.returned[0].jobId == jobId)
  {
    hide JobOk;
  }
}
