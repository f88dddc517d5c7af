/** When the pool's promises fail: stopping with calls in flight, and a minimum of no workers. */
module PoolStops {
  import opened Basics
  import opened Pools

  lemma {:induction false} RunOn(s: State, a: seq<Action>, b: seq<Action>)
    ensures Final(s, a + b) == Final(Final(s, a), b)
    ensures AllowedRun(s, a) && AllowedRun(Final(s, a), b) ==> AllowedRun(s, a + b)
  {
    hide Step, Allowed;
    if b == [] {
      assert a + b == a;
    } else {
      assert (a + b)[..|a + b| - 1] == a + b[..|b| - 1];
      RunOn(s, a, b[..|b| - 1]);
    }
  }

  lemma OneMore(s: State, run: seq<Action>, a: Action)
    ensures Final(s, run + [a]) == Step(Final(s, run), a)
    ensures AllowedRun(s, run) && Allowed(Final(s, run), a) ==> AllowedRun(s, run + [a])
  {
    assert (run + [a])[..|run|] == run;
  }

  lemma RunIsEmpty(s: State)
    ensures Final(s, []) == s && AllowedRun(s, [])
  {
  }

  lemma TwoSteps(s: State, a: Action, b: Action)
    ensures Final(s, [a, b]) == Step(Step(s, a), b)
    ensures Allowed(s, a) && Allowed(Step(s, a), b) ==> AllowedRun(s, [a, b])
  {
    RunIsEmpty(s);
    OneMore(s, [], a);
    OneMore(s, [a], b);
    hide Final, AllowedRun, Step, Allowed;
    assert [] + [a] == [a] && [a] + [b] == [a, b];
  }

  /** All but the workers and the logs. */
  ghost predicate OnlyWorkers(s: State, f: State) {
    && f.puts == s.puts && f.spawns == s.spawns && f.queue == s.queue && f.capacity == s.capacity
    && f.stopped == s.stopped && f.jobsClosed == s.jobsClosed && f.panicked == s.panicked && f.closed == s.closed
  }

  lemma Executes(s: State, w: Worker)
    requires w in s.workers
    ensures var f := Step(s, Execute(w, true));
            OnlyWorkers(s, f)
            && f.workers
              == if s.workers[w].Executing? then s.workers[w := Reporting(s.workers[w].job, true)] else s.workers
  {
  }

  lemma Reported(s: State, w: Worker)
    requires w in s.workers && !s.workers[w].Executing?
    ensures OnlyWorkers(s, Step(s, Report(w))) && Step(s, Report(w)).workers == s.workers[w := Idle]
  {
    assert s.workers[w].Idle? ==> s.workers[w := Idle] == s.workers;
  }

  lemma FinishesJob(s: State, w: Worker)
    requires w in s.workers
    ensures var f := Step(Step(s, Execute(w, true)), Report(w));
            OnlyWorkers(s, f) && f.workers == s.workers[w := Idle]
  {
    Executes(s, w);
    hide Step;
    Reported(Step(s, Execute(w, true)), w);
  }

  /** One worker of a stopped pool finishes its job and returns. */
  lemma OneReturns(s: State, w: Worker) returns (run: seq<Action>)
    requires s.stopped && w in s.workers
    ensures AllowedRun(s, run) && OnlyWorkers(s, Final(s, run)) && Final(s, run).workers == s.workers - {w}
  {
    FinishesJob(s, w);
    TwoSteps(s, Execute(w, true), Report(w));
    var f := Final(s, [Execute(w, true), Report(w)]);
    OneMore(s, [Execute(w, true), Report(w)], Quit(w));
    run := [Execute(w, true), Report(w)] + [Quit(w)];
    assert Step(f, Quit(w)).workers == f.workers - {w} && OnlyWorkers(f, Step(f, Quit(w)));
    hide Step, Final, AllowedRun;
    assert s.workers[w := Idle] - {w} == s.workers - {w};
  }

  /** All workers of a stopped pool return. */
  lemma {:induction false} AllReturn(s: State) returns (run: seq<Action>)
    requires s.stopped
    ensures AllowedRun(s, run) && OnlyWorkers(s, Final(s, run)) && Final(s, run).workers == map[]
    decreases |s.workers|
  {
    if s.workers == map[] {
      run := [];
    } else {
      var w :| w in s.workers;
      var first := OneReturns(s, w);
      WorkersCount(s.workers, w, Idle);
      hide Step, Allowed, Final, AllowedRun;
      var rest := AllReturn(Final(s, first));
      run := first + rest;
      RunOn(s, first, rest);
    }
  }

  /** A `Put` in flight comes to send on the channel. */
  lemma PutSends(s: State, t: Ticket) returns (run: seq<Action>)
    requires s.stopped && s.workers == map[] && t in s.puts
    ensures AllowedRun(s, run)
    ensures var f := Final(s, run);
            f.stopped && f.workers == map[] && At(f, t, Sending)
  {
    TwoSteps(s, Scale(t), SpawnFor(t, 0));
    var f := Final(s, [Scale(t), SpawnFor(t, 0)]);
    assert At(f, t, Sending) && f.stopped;
    hide Step, Final, AllowedRun;
    var rest := AllReturn(f);
    run := [Scale(t), SpawnFor(t, 0)] + rest;
    RunOn(s, [Scale(t), SpawnFor(t, 0)], rest);
  }

  lemma ClosesAndPanics(s: State, t: Ticket)
    requires s.stopped && s.workers == map[] && At(s, t, Sending)
    ensures AllowedRun(s, [CloseJobs, Enqueue(t)]) && Final(s, [CloseJobs, Enqueue(t)]).panicked
  {
    TwoSteps(s, CloseJobs, Enqueue(t));
  }

  lemma PutInFlightPanics(s: State, t: Ticket) returns (run: seq<Action>)
    requires s.stopped && t in s.puts
    ensures AllowedRun(s, run) && Final(s, run).panicked
  {
    hide Step, Final, AllowedRun;
    var a := AllReturn(s);
    var s1 := Final(s, a);
    var b := PutSends(s1, t);
    RunOn(s, a, b);
    var s2 := Final(s, a + b);
    ClosesAndPanics(s2, t);
    RunOn(s, a + b, [CloseJobs, Enqueue(t)]);
    run := a + b + [CloseJobs, Enqueue(t)];
  }

  lemma ClosesAndSpawns(s: State)
    requires s.stopped && s.workers == map[] && s.spawns > 0
    ensures var run := [CloseJobs, Spawn(0)];
            AllowedRun(s, run) && Final(s, run).jobsClosed && Final(s, run).workers != map[]
  {
    TwoSteps(s, CloseJobs, Spawn(0));
  }

  lemma SpawnInFlightOutlives(s: State) returns (run: seq<Action>)
    requires s.stopped && s.spawns > 0
    ensures AllowedRun(s, run) && Final(s, run).jobsClosed && Final(s, run).workers != map[]
  {
    hide Step, Final, AllowedRun;
    var a := AllReturn(s);
    ClosesAndSpawns(Final(s, a));
    run := a + [CloseJobs, Spawn(0)];
    RunOn(s, a, [CloseJobs, Spawn(0)]);
  }

  ghost predicate Clean(s: State) {
    !s.panicked && (s.jobsClosed ==> s.workers == map[] && s.numRunningWorkers == 0)
  }

  /** Stopping is safe, in that no run after it panics or leaves a worker behind, if and only if no call
      of `Put` and no start of a worker is under way when `Stop` is called. */
  lemma StopIsCleanIff(s: State)
    requires Inv(s) && !s.stopped
    ensures (forall run :: AllowedRun(Step(s, Stop), run) ==> Clean(Final(Step(s, Stop), run)))
       <==> s.puts == map[] && s.spawns == 0
  {
    var f := Step(s, Stop);
    hide Final, AllowedRun, Books;
    if s.puts == map[] && s.spawns == 0 {
      StepKeeps(s, Stop);
      forall run | AllowedRun(f, run) ensures Clean(Final(f, run)) {
        RunKeeps(f, run);
      }
    } else if s.puts != map[] {
      var t :| t in s.puts;
      var run := PutInFlightPanics(f, t);
      assert !Clean(Final(f, run));
    } else {
      var run := SpawnInFlightOutlives(f);
      assert !Clean(Final(f, run));
    }
  }

  /** What the pool does by itself, without anyone calling it. */
  predicate Internal(a: Action) {
    !a.Start? && !a.Stop? && !a.ScaleTo? && !a.Put?
  }

  lemma Stuck(s: State, a: Action)
    requires s.puts == map[] && s.workers == map[] && s.spawns == 0 && !s.stopped && Internal(a)
    ensures Step(s, a) == s
  {
  }

  lemma AcceptsFirst(capacity: nat)
    ensures var s := Step(Step(NewPool(0, capacity), Start), Put(7));
            s == NewPool(0, capacity).(started := true, closed := false, accepted := {7}, puts := map[7 := Scaling])
  {
  }

  lemma QueuesFirst(s: State, t: Ticket)
    requires s.puts == map[t := Scaling] && s.queue == [] && s.capacity > 0 && !s.jobsClosed
    ensures var f := Step(Step(s, Scale(t)), Enqueue(t)); f == s.(puts := map[], queue := [t])
  {
    assert s.puts[t := Sending] - {t} == map[];
  }

  /** With a minimum of no workers and any buffer at all, the first job is accepted and then never taken:
      `scale` starts a worker only when the buffer is full. */
  lemma ZeroMinimumStrandsJob(capacity: nat)
    requires capacity > 0
    ensures var run := [Start, Put(7), Scale(7), Enqueue(7)];
            var s := Final(NewPool(0, capacity), run);
            && AllowedRun(NewPool(0, capacity), run) && s.queue == [7] && 7 in s.accepted
            && forall a :: Internal(a) ==> Step(s, a) == s
  {
    var s := NewPool(0, capacity);
    TwoSteps(s, Start, Put(7));
    AcceptsFirst(capacity);
    assert Allowed(s, Start) && Allowed(Step(s, Start), Put(7));
    hide Final, AllowedRun, Step;
    var s2 := Final(s, [Start, Put(7)]);
    TwoSteps(s2, Scale(7), Enqueue(7));
    QueuesFirst(s2, 7);
    RunOn(s, [Start, Put(7)], [Scale(7), Enqueue(7)]);
    assert [Start, Put(7)] + [Scale(7), Enqueue(7)] == [Start, Put(7), Scale(7), Enqueue(7)];
    var s4 := Final(s2, [Scale(7), Enqueue(7)]);
    forall a | Internal(a) ensures Step(s4, a) == s4 {
      Stuck(s4, a);
    }
  }
}
