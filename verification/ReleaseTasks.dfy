/** Coroutines as the event loop really runs them. The bodies under the lock never await, so the lock
    is free whenever it is asked for, and a coroutine is suspended only in an append to the audit
    sink. What happens between two appends happens at once. */
module ReleaseTasks {
  import opened ReleaseModel
  import opened ReleaseGates

  /** Runs a task up to its next append, to its end, or to its exception. */
  function Settle(a: Authority, task: seq<Action>): Progress
    decreases TotalWeight(task)
  {
    if task == [] || task[0].Append? then Progress(a, task)
    else
      match Exec(a, task[0])
      case Err(_) => Progress(a, [])
      case Ok(p) =>
        ExecLightens(a, task[0]);
        TotalWeightConcat(p.next, task[1..]);
        Settle(p.authority, p.next + task[1..])
  }

  /** A call starts and runs up to its first append; or the append of a task is done and the task
      runs on to the next one. */
  function Wake(l: Loop, turn: Turn): Loop {
    match turn
    case Start(call) =>
      (match Begin(l.authority, call)
       case Err(_) => l
       case Ok(action) =>
         var p := Settle(l.authority, [action]);
         Loop(p.authority, l.tasks + [p.next]))
    case Advance(i) =>
      if i >= |l.tasks| || l.tasks[i] == [] || !l.tasks[i][0].Append? then l
      else
        var appended := l.authority.(log := l.authority.log + [l.tasks[i][0].event]);
        var p := Settle(appended, l.tasks[i][1..]);
        Loop(p.authority, l.tasks[i := p.next])
  }

  function WakeAll(l: Loop, turns: seq<Turn>): Loop {
    if turns == [] then l else Wake(WakeAll(l, turns[..|turns| - 1]), turns[|turns| - 1])
  }

  // ----- Real runs are schedules -----

  lemma {:induction false} SettleIsASchedule(l: Loop, i: nat) returns (turns: seq<Turn>)
    requires i < |l.tasks|
    ensures var p := Settle(l.authority, l.tasks[i]);
            TakeAll(l, turns) == Loop(p.authority, l.tasks[i := p.next])
    decreases TotalWeight(l.tasks[i])
  {
    var task := l.tasks[i];
    if task == [] || task[0].Append? {
      turns := [];
      assert l.tasks[i := task] == l.tasks;
    } else if Exec(l.authority, task[0]).Err? {
      turns := [Advance(i)];
      assert turns[..0] == [];
    } else {
      var p := Exec(l.authority, task[0]).value;
      ExecLightens(l.authority, task[0]);
      TotalWeightConcat(p.next, task[1..]);
      var after := Take(l, Advance(i));
      var rest := SettleIsASchedule(after, i);
      turns := [Advance(i)] + rest;
      TakeFirst(l, Advance(i), rest);
      var q := Settle(p.authority, p.next + task[1..]);
      assert after.tasks[i := q.next] == l.tasks[i := q.next];
    }
  }

  lemma WakeIsASchedule(l: Loop, turn: Turn) returns (turns: seq<Turn>)
    ensures TakeAll(l, turns) == Wake(l, turn)
  {
    if turn.Start? {
      if Begin(l.authority, turn.call).Err? {
        turns := [];
      } else {
        var started := Take(l, turn);
        var rest := SettleIsASchedule(started, |l.tasks|);
        turns := [turn] + rest;
        TakeFirst(l, turn, rest);
        var p := Settle(l.authority, [Begin(l.authority, turn.call).value]);
        assert started.tasks[|l.tasks| := p.next] == l.tasks + [p.next];
      }
    } else if turn.task >= |l.tasks| || l.tasks[turn.task] == [] || !l.tasks[turn.task][0].Append? {
      turns := [];
    } else {
      var i := turn.task;
      var appended := Take(l, turn);
      assert [] + l.tasks[i][1..] == l.tasks[i][1..];
      var rest := SettleIsASchedule(appended, i);
      turns := [turn] + rest;
      TakeFirst(l, turn, rest);
      var p := Settle(appended.authority, l.tasks[i][1..]);
      assert appended.tasks[i := p.next] == l.tasks[i := p.next];
    }
  }

  /** Every run of the event loop is one of the schedules, so what holds of all schedules holds of it. */
  lemma {:induction false} RealRunIsASchedule(l: Loop, woken: seq<Turn>) returns (turns: seq<Turn>)
    ensures TakeAll(l, turns) == WakeAll(l, woken)
  {
    if woken == [] {
      turns := [];
    } else {
      var front := RealRunIsASchedule(l, woken[..|woken| - 1]);
      var last := WakeIsASchedule(TakeAll(l, front), woken[|woken| - 1]);
      turns := front + last;
      TakeConcat(l, front, last);
    }
  }

  // ----- Awaited calls are real runs -----

  lemma {:induction false} RunSettles(a: Authority, task: seq<Action>)
    ensures Run(a, task).authority == Run(Settle(a, task).authority, Settle(a, task).next).authority
    decreases TotalWeight(task)
  {
    if task != [] && !task[0].Append? && Exec(a, task[0]).Ok? {
      var p := Exec(a, task[0]).value;
      ExecLightens(a, task[0]);
      TotalWeightConcat(p.next, task[1..]);
      RunSettles(p.authority, p.next + task[1..]);
    }
  }

  lemma {:induction false} SettledWeight(a: Authority, task: seq<Action>)
    ensures TotalWeight(Settle(a, task).next) <= TotalWeight(task)
    ensures Settle(a, task).next == [] || Settle(a, task).next[0].Append?
    decreases TotalWeight(task)
  {
    if task != [] && !task[0].Append? && Exec(a, task[0]).Ok? {
      var p := Exec(a, task[0]).value;
      ExecLightens(a, task[0]);
      TotalWeightConcat(p.next, task[1..]);
      SettledWeight(p.authority, p.next + task[1..]);
    }
  }

  lemma {:induction false} WakeFirst(l: Loop, turn: Turn, rest: seq<Turn>)
    ensures WakeAll(l, [turn] + rest) == WakeAll(Wake(l, turn), rest)
  {
    if rest == [] {
      assert ([turn] + rest)[..0] == [];
    } else {
      assert ([turn] + rest)[..|rest|] == [turn] + rest[..|rest| - 1];
      WakeFirst(l, turn, rest[..|rest| - 1]);
    }
  }

  lemma {:induction false} WakeConcat(l: Loop, first: seq<Turn>, second: seq<Turn>)
    ensures WakeAll(l, first + second) == WakeAll(WakeAll(l, first), second)
  {
    if second == [] {
      assert first + second == first;
    } else {
      assert (first + second)[..|first + second| - 1] == first + second[..|second| - 1];
      WakeConcat(l, first, second[..|second| - 1]);
    }
  }

  /** A settled task, woken until it is done. */
  lemma {:induction false} RunIsReal(l: Loop, i: nat) returns (turns: seq<Turn>)
    requires i < |l.tasks| && (l.tasks[i] == [] || l.tasks[i][0].Append?)
    ensures WakeAll(l, turns).authority == Run(l.authority, l.tasks[i]).authority
    decreases TotalWeight(l.tasks[i])
  {
    var task := l.tasks[i];
    if task == [] {
      turns := [];
    } else {
      var a := l.authority.(log := l.authority.log + [task[0].event]);
      assert [] + task[1..] == task[1..];
      assert Run(l.authority, task) == Run(a, task[1..]);
      RunSettles(a, task[1..]);
      SettledWeight(a, task[1..]);
      var rest := RunIsReal(Wake(l, Advance(i)), i);
      turns := [Advance(i)] + rest;
      WakeFirst(l, Advance(i), rest);
    }
  }

  /** Every run of awaited calls is a run of the event loop. */
  lemma {:induction false} AwaitedRunIsReal(calls: seq<Call>) returns (turns: seq<Turn>)
    ensures WakeAll(Loop(EMPTY_AUTHORITY, []), turns).authority == PerformAll(EMPTY_AUTHORITY, calls)
  {
    if calls == [] {
      turns := [];
    } else {
      var call := calls[|calls| - 1];
      var first := AwaitedRunIsReal(calls[..|calls| - 1]);
      var l := WakeAll(Loop(EMPTY_AUTHORITY, []), first);
      if Begin(l.authority, call).Err? {
        turns := first;
      } else {
        var action := Begin(l.authority, call).value;
        RunSettles(l.authority, [action]);
        SettledWeight(l.authority, [action]);
        var started := Wake(l, Start(call));
        var rest := RunIsReal(started, |l.tasks|);
        WakeFirst(l, Start(call), rest);
        WakeConcat(Loop(EMPTY_AUTHORITY, []), first, [Start(call)] + rest);
        turns := first + ([Start(call)] + rest);
      }
    }
  }
}
