/** Which workers the pool starts and lets go, and the order in which it hands out buffered jobs, over whole runs. */
module PoolWorkers {
  import opened Basics
  import opened Pools
  import opened PoolStops

  // ---------- What a call of `Put` starts ----------

  /** What the call of `Put` saw when it looked at the buffer: whether the buffer was full. */
  function Seen(s: State, run: seq<Action>, t: Ticket): Option<bool> {
    if run == [] then None
    else
      var before := Final(s, run[..|run| - 1]);
      if run[|run| - 1] == Scale(t) && At(before, t, Scaling) then Some(|before.queue| == before.capacity)
      else Seen(s, run[..|run| - 1], t)
  }

  /** How many workers have come to life on behalf of the call. */
  function Hired(s: State, run: seq<Action>, t: Ticket): nat {
    if run == [] then 0
    else
      var before, a := Final(s, run[..|run| - 1]), run[|run| - 1];
      Hired(s, run[..|run| - 1], t)
      + One(a.SpawnFor? && a.job == t && a.worker !in before.workers && a.worker in Step(before, a).workers)
  }

  /** What one call has seen and started by now. */
  ghost predicate Hires(s: State, t: Ticket, seen: Option<bool>, hired: nat) {
    if t !in s.accepted || At(s, t, Scaling) then t !in s.puts || s.puts[t] == Scaling
    else if At(s, t, Spawning) then seen == Some(true) && hired == 0
    else seen.Some? && hired == One(seen.value)
  }

  ghost predicate Fresh(s: State, t: Ticket, seen: Option<bool>, hired: nat) {
    t !in s.accepted || At(s, t, Scaling) ==> seen == None && hired == 0 && (t !in s.accepted ==> t !in s.puts)
  }

  lemma StepHires(s: State, a: Action, t: Ticket, seen: Option<bool>, hired: nat)
    requires Allowed(s, a) && Hires(s, t, seen, hired) && Fresh(s, t, seen, hired)
    ensures var f := Step(s, a);
            var seen' := if a == Scale(t) && At(s, t, Scaling) then Some(|s.queue| == s.capacity) else seen;
            var hired' := hired + One(a.SpawnFor? && a.job == t && a.worker !in s.workers && a.worker in f.workers);
            Hires(f, t, seen', hired') && Fresh(f, t, seen', hired')
  {
    PutsAfter(s, a, t);
    hide Step, Allowed, NewPool;
  }

  /** What a step does to one call of `Put`. */
  lemma PutsAfter(s: State, a: Action, t: Ticket)
    requires Allowed(s, a)
    ensures var f := Step(s, a);
            && (t in f.accepted <==> t in s.accepted || (a == Put(t) && !s.closed))
            && (a == Put(t) && !s.closed ==> t !in s.accepted && At(f, t, Scaling))
            && (a == Scale(t) && At(s, t, Scaling) ==>
                  At(f, t, if |s.queue| == s.capacity then Spawning else Sending))
            && (a.SpawnFor? && a.job == t ==>
                  if At(s, t, Spawning) && a.worker !in s.workers then At(f, t, Sending) && a.worker in f.workers
                  else f == s)
            && ((a == Put(t) && !s.closed) || (a == Scale(t) && At(s, t, Scaling)) || (a.SpawnFor? && a.job == t)
                || SameCall(s, f, t) || (At(s, t, Sending) && t !in f.puts))
  {
    if a.SpawnFor? {
      WorkersTouch(s.(puts := s.puts[a.job := Sending]), a.worker);
    }
    hide NewWorker, Exited, Receive;
    if !a.Put? && !a.Scale? && !a.SpawnFor? && !a.Enqueue? && !a.HandOver? {
      OthersLeaveCalls(s, a);
    }
  }

  ghost predicate SameCall(s: State, f: State, t: Ticket) {
    (t in f.puts <==> t in s.puts) && (t in s.puts ==> f.puts[t] == s.puts[t])
  }

  lemma OthersLeaveCalls(s: State, a: Action)
    requires !a.Put? && !a.Scale? && !a.SpawnFor? && !a.Enqueue? && !a.HandOver?
    ensures Step(s, a).puts == s.puts && Step(s, a).accepted == s.accepted
  {
    if a.Start? || a.Stop? || a.CloseJobs? || a.ScaleTo? {
      PoolActs(s, a);
    } else {
      WorkerActs(s, a);
    }
    hide Step;
  }

  /** What the actions of the pool itself may touch, and what those of its workers may touch. */
  lemma PoolActs(s: State, a: Action)
    requires a.Start? || a.Stop? || a.CloseJobs? || a.ScaleTo?
    ensures var f := Step(s, a);
            && f.puts == s.puts && f.accepted == s.accepted && f.queue == s.queue && f.capacity == s.capacity
            && ((s.closed <==> !s.started || s.stopped) && Allowed(s, a) ==> (f.closed <==> !f.started || f.stopped))
  {
  }

  ghost predicate OnlyWorkersMove(s: State, f: State) {
    && f.puts == s.puts && f.accepted == s.accepted && f.capacity == s.capacity
    && f.closed == s.closed && f.started == s.started && f.stopped == s.stopped
  }

  lemma WorkerActs(s: State, a: Action)
    requires a.Spawn? || a.Take? || a.Execute? || a.Report? || a.Quit? || a.IdleStop?
    ensures OnlyWorkersMove(s, Step(s, a)) && (!a.Take? ==> Step(s, a).queue == s.queue)
  {
    match a
    case Take(w) => WorkerTakes(s, w);
    case Execute(w, ok) => WorkerExecutes(s, w, ok);
    case Report(w) => WorkerReports(s, w);
    case Spawn(w) => WorkerComes(s, w);
    case Quit(w) => WorkerQuits(s, w);
    case IdleStop(w) => WorkerIdles(s, w);
    hide *;
  }

  lemma WorkerComes(s: State, w: Worker)
    ensures OnlyWorkersMove(s, Step(s, Spawn(w))) && Step(s, Spawn(w)).queue == s.queue
  {
    WorkersTouch(s.(spawns := if s.spawns > 0 then s.spawns - 1 else 0), w);
    hide NewWorker;
  }

  lemma WorkerQuits(s: State, w: Worker)
    ensures OnlyWorkersMove(s, Step(s, Quit(w))) && Step(s, Quit(w)).queue == s.queue
  {
    WorkersTouch(s, w);
    hide Exited;
  }

  lemma WorkerIdles(s: State, w: Worker)
    ensures OnlyWorkersMove(s, Step(s, IdleStop(w))) && Step(s, IdleStop(w)).queue == s.queue
  {
    WorkersTouch(s, w);
    hide Exited;
  }

  lemma WorkerTakes(s: State, w: Worker)
    ensures OnlyWorkersMove(s, Step(s, Take(w)))
  {
    WorkersTouch(s, w);
    hide Receive;
  }

  lemma WorkerExecutes(s: State, w: Worker, ok: bool)
    ensures OnlyWorkersMove(s, Step(s, Execute(w, ok))) && Step(s, Execute(w, ok)).queue == s.queue
  {
  }

  lemma WorkerReports(s: State, w: Worker)
    ensures OnlyWorkersMove(s, Step(s, Report(w))) && Step(s, Report(w)).queue == s.queue
  {
  }

  /** And those of a call of `Put`. */
  lemma CallActs(s: State, a: Action)
    requires a.Put? || a.Scale? || a.SpawnFor? || a.Enqueue? || a.HandOver?
    ensures var f := Step(s, a);
            && f.capacity == s.capacity && f.closed == s.closed && f.started == s.started && f.stopped == s.stopped
            && (!a.Enqueue? ==> f.queue == s.queue)
  {
    if a.SpawnFor? {
      WorkersTouch(s.(puts := s.puts[a.job := Sending]), a.worker);
    }
    hide NewWorker, Exited, Receive;
  }

  /** Workers that come, go or receive a job touch nothing but themselves and the buffer. */
  lemma WorkersTouch(s: State, w: Worker)
    ensures var f := NewWorker(s, w);
            f == s.(workers := f.workers, numRunningWorkers := f.numRunningWorkers) && w in f.workers
    ensures var f := Exited(s, w); f == s.(workers := f.workers, numRunningWorkers := f.numRunningWorkers)
    ensures IsIdle(s, w) ==> var f := Receive(s, w); f == s.(workers := f.workers, queue := f.queue)
  {
  }

  lemma {:induction false} RunHires(min: nat, capacity: nat, run: seq<Action>, t: Ticket)
    requires AllowedRun(NewPool(min, capacity), run)
    ensures var s := NewPool(min, capacity);
            && Hires(Final(s, run), t, Seen(s, run, t), Hired(s, run, t))
            && Fresh(Final(s, run), t, Seen(s, run, t), Hired(s, run, t))
  {
    if run != [] {
      var s, n := NewPool(min, capacity), |run| - 1;
      AllowedBefore(s, run);
      RunHires(min, capacity, run[..n], t);
      LastAllowed(s, run);
      LastStep(s, run);
      hide Hires, Fresh, Step, Allowed, AllowedRun, Final, At, NewPool;
      StepHires(Final(s, run[..n]), run[n], t, Seen(s, run[..n], t), Hired(s, run[..n], t));
    }
  }

  lemma LastAllowed(s: State, run: seq<Action>)
    requires run != [] && AllowedRun(s, run)
    ensures Allowed(Final(s, run[..|run| - 1]), run[|run| - 1])
  {
    hide Allowed, Final;
  }

  /** A call of `Put` never starts more than one worker. By the time it sends its job, and ever after, it has looked
      at the buffer and has started exactly one worker if the buffer was full, and none if it was not. */
  lemma PutStartsWorkerIffFull(min: nat, capacity: nat, run: seq<Action>, t: Ticket)
    requires AllowedRun(NewPool(min, capacity), run)
    ensures var s := NewPool(min, capacity);
            && Hired(s, run, t) <= 1
            && (t in Final(s, run).accepted && (t in Final(s, run).puts ==> Final(s, run).puts[t] == Sending) ==>
                  && Seen(s, run, t).Some?
                  && Hired(s, run, t) == if Seen(s, run, t).value then 1 else 0)
  {
    RunHires(min, capacity, run, t);
    hide Final, Seen, Hired;
  }

  // ---------- How many workers `Start` and `ScaleTo` start ----------

  ghost predicate OnlySpawns(run: seq<Action>) {
    forall k :: 0 <= k < |run| ==> run[k].Spawn?
  }

  lemma {:induction false} SpawnsKeepSum(s: State, run: seq<Action>)
    requires OnlySpawns(run)
    ensures |Final(s, run).workers| + Final(s, run).spawns == |s.workers| + s.spawns
  {
    if run != [] {
      var before, a := Final(s, run[..|run| - 1]), run[|run| - 1];
      SpawnsKeepSum(s, run[..|run| - 1]);
      WorkersCount(before.workers, a.worker, Idle);
    }
  }

  /** Scaling a pool brings it to exactly the target, or leaves it as large as it was: never above both on the
      way, and there when all calls of `newWorker` have been made. */
  lemma ScalingReaches(min: nat, capacity: nat, run: seq<Action>, target: nat, more: seq<Action>)
    requires AllowedRun(NewPool(min, capacity), run) && OnlySpawns(more)
    requires Final(NewPool(min, capacity), run).spawns == 0
    ensures var s := Final(NewPool(min, capacity), run);
            var f := Final(s, [ScaleTo(target)] + more);
            var size := if |s.workers| >= target then |s.workers| else target;
            |f.workers| <= size && (|f.workers| == size <==> f.spawns == 0)
  {
    WorkersAreCounted(min, capacity, run);
    var s := Final(NewPool(min, capacity), run);
    RunIsEmpty(s);
    OneMore(s, [], ScaleTo(target));
    assert [] + [ScaleTo(target)] == [ScaleTo(target)];
    RunOn(s, [ScaleTo(target)], more);
    SpawnsKeepSum(Step(s, ScaleTo(target)), more);
    hide Final, AllowedRun;
  }

  /** Starting a new pool starts exactly the minimum of workers, and starting it again starts none. */
  lemma StartReaches(min: nat, capacity: nat, more: seq<Action>, again: seq<Action>)
    requires OnlySpawns(more) && OnlySpawns(again)
    ensures var f := Final(NewPool(min, capacity), [Start] + more);
            && |f.workers| <= min && (|f.workers| == min <==> f.spawns == 0)
            && |Final(f, [Start] + again).workers| <= min
            && Final(f, [Start] + again).spawns + |Final(f, [Start] + again).workers| == min
  {
    var s := NewPool(min, capacity);
    StartThenSpawns(s, more);
    var f := Final(s, [Start] + more);
    StartThenSpawns(f, again);
    StaysStarted(Step(s, Start), more);
    hide Final;
  }

  lemma StartThenSpawns(s: State, more: seq<Action>)
    requires OnlySpawns(more)
    ensures var f := Final(s, [Start] + more);
            && f == Final(Step(s, Start), more)
            && |f.workers| + f.spawns == |Step(s, Start).workers| + Step(s, Start).spawns
  {
    RunIsEmpty(s);
    OneMore(s, [], Start);
    assert [] + [Start] == [Start];
    RunOn(s, [Start], more);
    SpawnsKeepSum(Step(s, Start), more);
  }

  lemma {:induction false} StaysStarted(s: State, run: seq<Action>)
    requires OnlySpawns(run) && s.started
    ensures Final(s, run).started
  {
    if run != [] {
      StaysStarted(s, run[..|run| - 1]);
    }
  }

  /** In every reachable state, an idle worker leaves for want of work exactly when the pool is above its minimum,
      and then nothing else changes but the counter. */
  lemma IdleLeavesIffAboveMinimum(min: nat, capacity: nat, run: seq<Action>, w: Worker)
    requires AllowedRun(NewPool(min, capacity), run)
    requires IsIdle(Final(NewPool(min, capacity), run), w)
    ensures var s := Final(NewPool(min, capacity), run);
            var f := Step(s, IdleStop(w));
            && f.workers == (if |s.workers| > s.minRunningWorkers then s.workers - {w} else s.workers)
            && f.numRunningWorkers == |f.workers|
            && f == s.(workers := f.workers, numRunningWorkers := f.numRunningWorkers)
  {
    WorkersAreCounted(min, capacity, run);
    var s := Final(NewPool(min, capacity), run);
    LeavesIff(s, w);
    hide *;
  }

  lemma LeavesIff(s: State, w: Worker)
    requires IsIdle(s, w) && s.numRunningWorkers == |s.workers|
    ensures var f := Step(s, IdleStop(w));
            && f.workers == (if |s.workers| > s.minRunningWorkers then s.workers - {w} else s.workers)
            && f.numRunningWorkers == |f.workers|
            && f == s.(workers := f.workers, numRunningWorkers := f.numRunningWorkers)
  {
    WorkersCount(s.workers, w, Idle);
  }

  // ---------- The order of the jobs ----------

  /** The jobs that calls of `Put` have sent, in order, and those that workers have received: through the buffer, or
      from hand to hand. */
  function Sent(s: State, run: seq<Action>): seq<Ticket> {
    if run == [] then []
    else
      var before, a := Final(s, run[..|run| - 1]), run[|run| - 1];
      Sent(s, run[..|run| - 1])
      + if (a.Enqueue? || a.HandOver?) && a.job in before.puts && a.job !in Step(before, a).puts then [a.job] else []
  }

  function Received(s: State, run: seq<Action>): seq<Ticket> {
    if run == [] then []
    else
      var before, a := Final(s, run[..|run| - 1]), run[|run| - 1];
      Received(s, run[..|run| - 1])
      + if (a.Take? || a.HandOver?) && IsIdle(before, a.worker) && Busy(Step(before, a), a.worker)
        then [Step(before, a).workers[a.worker].job] else []
  }

  predicate Busy(s: State, w: Worker) {
    w in s.workers && !s.workers[w].Idle?
  }

  /** Jobs are received in the order in which they were sent: those received so far, followed by those in the buffer,
      are the jobs sent; and the buffer never holds more than its capacity. */
  lemma {:induction false} JobsAreFirstInFirstOut(s: State, run: seq<Action>)
    requires |s.queue| <= s.capacity
    ensures s.queue + Sent(s, run) == Received(s, run) + Final(s, run).queue
    ensures |Final(s, run).queue| <= Final(s, run).capacity == s.capacity
  {
    if run != [] {
      var before, a := Final(s, run[..|run| - 1]), run[|run| - 1];
      JobsAreFirstInFirstOut(s, run[..|run| - 1]);
      LastStep(s, run);
      hide Final;
      if a.Enqueue? {
        EnqueueStep(before, a);
      } else if a.HandOver? {
        HandOverStep(before, a);
      } else if a.Take? {
        TakeStep(before, a);
      } else {
        OthersLeaveQueue(before, a);
      }
      hide Step;
      var sent, received := Sent(s, run[..|run| - 1]), Received(s, run[..|run| - 1]);
      assert sent + [] == sent && received + [] == received;
      if a.Take? && before.queue != [] {
        Moved(received, before.queue);
      } else if a.Enqueue? || a.HandOver? {
        assert s.queue + (sent + [a.job]) == (s.queue + sent) + [a.job];
        assert received + before.queue + [a.job] == received + (before.queue + [a.job]);
      }
    } else {
      assert s.queue + [] == [] + s.queue;
    }
  }

  lemma Moved(done: seq<Ticket>, q: seq<Ticket>)
    requires q != []
    ensures done + q == (done + [q[0]]) + q[1..]
  {
  }

  lemma EnqueueStep(s: State, a: Action)
    requires a.Enqueue? && |s.queue| <= s.capacity
    ensures var f := Step(s, a);
            && f.capacity == s.capacity && |f.queue| <= s.capacity
            && f.queue == if a.job in s.puts && a.job !in f.puts then s.queue + [a.job] else s.queue
  {
  }

  lemma HandOverStep(s: State, a: Action)
    requires a.HandOver?
    ensures var f := Step(s, a);
            && f.capacity == s.capacity && f.queue == s.queue
            && (if a.job in s.puts && a.job !in f.puts
                then s.queue == [] && IsIdle(s, a.worker) && a.worker in f.workers
                     && f.workers[a.worker] == Executing(a.job)
                else IsIdle(s, a.worker) ==> !Busy(f, a.worker))
  {
  }

  lemma TakeStep(s: State, a: Action)
    requires a.Take?
    ensures var f := Step(s, a);
            && f.capacity == s.capacity
            && (if IsIdle(s, a.worker) && s.queue != []
                then f.queue == s.queue[1..] && a.worker in f.workers
                     && f.workers[a.worker] == Executing(s.queue[0])
                else f.queue == s.queue && (IsIdle(s, a.worker) ==> !Busy(f, a.worker)))
  {
  }

  lemma OthersLeaveQueue(s: State, a: Action)
    requires !a.Enqueue? && !a.Take?
    ensures Step(s, a).queue == s.queue && Step(s, a).capacity == s.capacity
  {
    if a.Start? || a.Stop? || a.CloseJobs? || a.ScaleTo? {
      PoolActs(s, a);
    } else if a.Put? || a.Scale? || a.SpawnFor? || a.HandOver? {
      CallActs(s, a);
    } else {
      WorkerActs(s, a);
    }
    hide Step;
  }

  // ---------- When a job is accepted ----------

  lemma {:induction false} ClosedMeans(min: nat, capacity: nat, run: seq<Action>)
    requires AllowedRun(NewPool(min, capacity), run)
    ensures var s := Final(NewPool(min, capacity), run); s.closed <==> !s.started || s.stopped
  {
    if run != [] {
      var s, n := NewPool(min, capacity), |run| - 1;
      AllowedBefore(s, run);
      LastAllowed(s, run);
      ClosedMeans(min, capacity, run[..n]);
      LastStep(s, run);
      hide Final, AllowedRun, NewPool;
      OpensAndCloses(Final(s, run[..n]), run[n]);
    }
  }

  lemma OpensAndCloses(s: State, a: Action)
    requires Allowed(s, a) && (s.closed <==> !s.started || s.stopped)
    ensures var f := Step(s, a); f.closed <==> !f.started || f.stopped
  {
    if a.Start? || a.Stop? || a.CloseJobs? || a.ScaleTo? {
      PoolActs(s, a);
    } else if a.Put? || a.Scale? || a.SpawnFor? || a.Enqueue? || a.HandOver? {
      CallActs(s, a);
    } else {
      WorkerActs(s, a);
    }
    hide Step, Allowed;
  }

  /** The pool takes a job exactly when it has been started and not stopped; otherwise nothing changes. */
  lemma AcceptedIffOpen(min: nat, capacity: nat, run: seq<Action>, t: Ticket)
    requires AllowedRun(NewPool(min, capacity), run)
    requires t !in Final(NewPool(min, capacity), run).accepted
    ensures var s := Final(NewPool(min, capacity), run);
            && (t in Step(s, Put(t)).accepted <==> s.started && !s.stopped)
            && (t !in Step(s, Put(t)).accepted ==> Step(s, Put(t)) == s)
  {
    ClosedMeans(min, capacity, run);
    hide Final, AllowedRun;
  }
}
