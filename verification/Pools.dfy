/** The worker pool: goroutines as interleaved atomic steps on one shared state. */
module Pools {
  import opened Basics

  /** One call of `Put` and the job it brings; and one worker goroutine. */
  type Ticket = nat
  type Worker = nat

  /** A call of `Put` that has found the pool open: about to call `scale`, about to call `newWorker`, or
      sending on the channel. */
  datatype PutPhase = Scaling | Spawning | Sending

  datatype Phase = Idle | Executing(job: Ticket) | Reporting(job: Ticket, ok: bool)

  /** `spawns` counts the calls of `newWorker` that `Start` and `ScaleTo` still have to make. `executed`
      and `reported` log the calls of `Execute`, and of `OnSuccess` and `OnFailure`. */
  datatype State = State(
    capacity: nat,
    minRunningWorkers: nat,
    numRunningWorkers: nat,
    closed: bool,
    started: bool,
    stopped: bool,
    jobsClosed: bool,
    spawns: nat,
    puts: map<Ticket, PutPhase>,
    queue: seq<Ticket>,
    workers: map<Worker, Phase>,
    accepted: set<Ticket>,
    executed: seq<(Ticket, bool)>,
    reported: seq<(Ticket, bool)>,
    panicked: bool)

  function NewPool(minRunningWorkers: nat, capacity: nat): State {
    State(capacity, minRunningWorkers, 0, true, false, false, false, 0, map[], [], map[], {}, [], [], false)
  }

  datatype Action =
    | Start
    | Stop
    | CloseJobs
    | ScaleTo(target: nat)
    | Spawn(worker: Worker)
    | Put(job: Ticket)
    | Scale(job: Ticket)
    | SpawnFor(job: Ticket, worker: Worker)
    | Enqueue(job: Ticket)
    | HandOver(job: Ticket, worker: Worker)
    | Take(worker: Worker)
    | Execute(worker: Worker, ok: bool)
    | Report(worker: Worker)
    | Quit(worker: Worker)
    | IdleStop(worker: Worker)

  predicate At(s: State, t: Ticket, p: PutPhase) {
    t in s.puts && s.puts[t] == p
  }

  predicate IsIdle(s: State, w: Worker) {
    w in s.workers && s.workers[w] == Idle
  }

  /** `newWorker`; goroutine names are fresh. */
  function NewWorker(s: State, w: Worker): State {
    s.(workers := s.workers[w := Idle], numRunningWorkers := s.numRunningWorkers + 1)
  }

  /** The counter is unsigned, and wraps below zero. */
  function Exited(s: State, w: Worker): State {
    s.(workers := s.workers - {w},
       numRunningWorkers := if s.numRunningWorkers > 0 then s.numRunningWorkers - 1 else 0xFFFF_FFFF_FFFF_FFFF)
  }

  function Send(s: State, t: Ticket): State {
    if s.jobsClosed then s.(panicked := true)
    else if |s.queue| < s.capacity then s.(queue := s.queue + [t], puts := s.puts - {t})
    else s
  }

  /** The `select` of an idle worker receiving a job, or finding the channel closed and drained. */
  function Receive(s: State, w: Worker): State {
    if s.queue != [] then s.(queue := s.queue[1..], workers := s.workers[w := Executing(s.queue[0])])
    else if s.jobsClosed then s.(workers := s.workers - {w})
    else s
  }

  /** An action that is not possible leaves the state as it is. */
  function Step(s: State, a: Action): State {
    match a
    case Start => s.(closed := false, started := true, spawns := if s.started then s.spawns
      else s.spawns + s.minRunningWorkers)
    case Stop => if s.stopped then s else s.(closed := true, stopped := true)
    case CloseJobs => if s.stopped && s.workers == map[] then s.(jobsClosed := true) else s
    case ScaleTo(n) =>
      var more := if s.numRunningWorkers >= n then 0 else n - s.numRunningWorkers;
      s.(minRunningWorkers := n, spawns := s.spawns + more)
    case Spawn(w) => if s.spawns > 0 && w !in s.workers then NewWorker(s.(spawns := s.spawns - 1), w) else s
    case Put(t) => if s.closed then s else s.(accepted := s.accepted + {t}, puts := s.puts[t := Scaling])
    case Scale(t) =>
      if At(s, t, Scaling)
      then s.(puts := s.puts[t := if |s.queue| == s.capacity then Spawning else Sending]) else s
    case SpawnFor(t, w) =>
      if At(s, t, Spawning) && w !in s.workers then NewWorker(s.(puts := s.puts[t := Sending]), w) else s
    case Enqueue(t) => if At(s, t, Sending) then Send(s, t) else s
    case HandOver(t, w) =>
      if At(s, t, Sending) && !s.jobsClosed && s.queue == [] && IsIdle(s, w)
      then s.(puts := s.puts - {t}, workers := s.workers[w := Executing(t)]) else s
    case Take(w) => if IsIdle(s, w) then Receive(s, w) else s
    case Execute(w, ok) =>
      if w in s.workers && s.workers[w].Executing?
      then s.(workers := s.workers[w := Reporting(s.workers[w].job, ok)],
              executed := s.executed + [(s.workers[w].job, ok)]) else s
    case Report(w) =>
      if w in s.workers && s.workers[w].Reporting?
      then s.(workers := s.workers[w := Idle], reported := s.reported + [(s.workers[w].job, s.workers[w].ok)]) else s
    case Quit(w) => if s.stopped && IsIdle(s, w) then Exited(s, w) else s
    case IdleStop(w) => if IsIdle(s, w) && s.numRunningWorkers > s.minRunningWorkers then Exited(s, w) else s
  }

  /** Every call of `Put`, `ScaleTo` and `Start` has returned before `Stop` is called and none but `Put`
      is made afterwards. Every call of `Put` has its own ticket. */
  predicate Allowed(s: State, a: Action) {
    match a
    case Stop => s.puts == map[] && s.spawns == 0
    case Start => !s.stopped
    case ScaleTo(_) => !s.stopped
    case Put(t) => t !in s.accepted
    case _ => true
  }

  // ---------- The invariant ----------

  function One(b: bool): nat {
    if b then 1 else 0
  }

  function In(workers: map<Worker, Phase>, p: Phase): set<Worker> {
    set w | w in workers && workers[w] == p
  }

  /** How many workers have a job in hand. */
  function Held(workers: map<Worker, Phase>, t: Ticket): nat {
    |In(workers, Executing(t))| + |In(workers, Reporting(t, true))| + |In(workers, Reporting(t, false))|
  }

  function Reports(log: seq<(Ticket, bool)>, t: Ticket): nat {
    multiset(log)[(t, true)] + multiset(log)[(t, false)]
  }

  /** How often a job occurs: still with its `Put`, queued, with a worker, or reported. */
  function Copies(s: State, t: Ticket): nat {
    One(t in s.puts) + multiset(s.queue)[t] + Held(s.workers, t) + Reports(s.reported, t)
  }

  /** Every execution is followed by its own report. */
  ghost predicate ReportsFollowFor(s: State, t: Ticket, ok: bool) {
    multiset(s.executed)[(t, ok)] == |In(s.workers, Reporting(t, ok))| + multiset(s.reported)[(t, ok)]
  }

  ghost predicate Counted(s: State) {
    && s.numRunningWorkers == |s.workers|
    && |s.queue| <= s.capacity
    && (s.started && !s.stopped ==> s.numRunningWorkers + s.spawns >= s.minRunningWorkers)
    && (s.stopped ==> s.closed && s.puts == map[] && s.spawns == 0)
    && (s.jobsClosed ==> s.stopped && s.workers == map[])
    && !s.panicked
  }

  /** The accounts of one job, and the counter of workers. */
  ghost predicate Books(s: State, t: Ticket) {
    && Copies(s, t) == One(t in s.accepted)
    && ReportsFollowFor(s, t, true) && ReportsFollowFor(s, t, false)
    && s.numRunningWorkers == |s.workers|
  }

  ghost predicate Inv(s: State) {
    Counted(s) && forall t :: Books(s, t)
  }

  // ---------- Preservation ----------

  lemma PhaseSet(ws: map<Worker, Phase>, w: Worker, p: Phase, q: Phase)
    ensures |In(ws[w := p], q)| == |In(ws, q)| - One(w in ws && ws[w] == q) + One(p == q)
  {
    var rest := In(ws, q) - {w};
    assert In(ws[w := p], q) == if p == q then rest + {w} else rest;
    assert In(ws, q) == if w in ws && ws[w] == q then rest + {w} else rest;
  }

  lemma PhaseGone(ws: map<Worker, Phase>, w: Worker, q: Phase)
    ensures |In(ws - {w}, q)| == |In(ws, q)| - One(w in ws && ws[w] == q)
  {
    var rest := In(ws, q) - {w};
    assert In(ws - {w}, q) == rest;
    assert In(ws, q) == if w in ws && ws[w] == q then rest + {w} else rest;
  }

  lemma WorkersCount(ws: map<Worker, Phase>, w: Worker, p: Phase)
    ensures |ws[w := p]| == |ws| + One(w !in ws)
    ensures |ws - {w}| == |ws| - One(w in ws)
  {
    assert ws[w := p].Keys == ws.Keys + {w};
    assert (ws - {w}).Keys == ws.Keys - {w};
    assert w in ws ==> ws.Keys - {w} + {w} == ws.Keys;
  }

  function Carries(p: Phase, t: Ticket): bool {
    !p.Idle? && p.job == t
  }

  lemma HeldAfterSet(ws: map<Worker, Phase>, w: Worker, p: Phase, t: Ticket)
    ensures Held(ws[w := p], t) == Held(ws, t) - One(w in ws && Carries(ws[w], t)) + One(Carries(p, t))
  {
    PhaseSet(ws, w, p, Executing(t));
    PhaseSet(ws, w, p, Reporting(t, true));
    PhaseSet(ws, w, p, Reporting(t, false));
    hide In;
  }

  lemma HeldAfterExit(ws: map<Worker, Phase>, w: Worker, t: Ticket)
    requires w in ws && ws[w] == Idle
    ensures Held(ws - {w}, t) == Held(ws, t)
  {
    PhaseGone(ws, w, Executing(t));
    PhaseGone(ws, w, Reporting(t, true));
    PhaseGone(ws, w, Reporting(t, false));
    hide In;
  }

  lemma ReportsAppend(log: seq<(Ticket, bool)>, u: Ticket, ok: bool, t: Ticket)
    ensures Reports(log + [(u, ok)], t) == Reports(log, t) + One(u == t)
  {
  }

  lemma QueueHead(q: seq<Ticket>, t: Ticket)
    requires q != []
    ensures multiset(q)[t] == multiset(q[1..])[t] + One(q[0] == t)
  {
    assert q == [q[0]] + q[1..];
  }

  /** Everything that the books say about the workers, after one of them has moved. */
  lemma MovesTo(ws: map<Worker, Phase>, w: Worker, p: Phase, t: Ticket)
    ensures Held(ws[w := p], t) == Held(ws, t) - One(w in ws && Carries(ws[w], t)) + One(Carries(p, t))
    ensures forall ok :: |In(ws[w := p], Reporting(t, ok))| == |In(ws, Reporting(t, ok))|
                                          - One(w in ws && ws[w] == Reporting(t, ok)) + One(p == Reporting(t, ok))
    ensures |ws[w := p]| == |ws| + One(w !in ws)
  {
    HeldAfterSet(ws, w, p, t);
    WorkersCount(ws, w, p);
    hide In, Held;
    forall ok
      ensures |In(ws[w := p], Reporting(t, ok))| == |In(ws, Reporting(t, ok))|
                                          - One(w in ws && ws[w] == Reporting(t, ok)) + One(p == Reporting(t, ok))
    {
      PhaseSet(ws, w, p, Reporting(t, ok));
    }
  }

  lemma StartedKeepsBooks(s: State, w: Worker, t: Ticket)
    requires Books(s, t) && w !in s.workers
    ensures Books(NewWorker(s, w), t)
  {
    MovesTo(s.workers, w, Idle, t);
    hide In, Held, Reports;
  }

  lemma ExitedKeepsBooks(s: State, w: Worker, t: Ticket)
    requires Books(s, t) && IsIdle(s, w)
    ensures Books(Exited(s, w), t) && s.numRunningWorkers > 0
  {
    HeldAfterExit(s.workers, w, t);
    WorkersCount(s.workers, w, Idle);
    PhaseGone(s.workers, w, Reporting(t, true));
    PhaseGone(s.workers, w, Reporting(t, false));
    hide In, Held, Reports;
  }

  lemma SpawnKeepsBooks(s: State, w: Worker, t: Ticket)
    requires Books(s, t)
    ensures Books(Step(s, Spawn(w)), t)
  {
    hide In, Held, Reports, NewWorker;
    if s.spawns > 0 && w !in s.workers {
      StartedKeepsBooks(s.(spawns := s.spawns - 1), w, t);
    }
  }

  lemma SpawnForKeepsBooks(s: State, u: Ticket, w: Worker, t: Ticket)
    requires Books(s, t)
    ensures Books(Step(s, SpawnFor(u, w)), t)
  {
    hide In, Held, Reports, NewWorker;
    if At(s, u, Spawning) && w !in s.workers {
      var s1 := s.(puts := s.puts[u := Sending]);
      assert Copies(s1, t) == Copies(s, t);
      StartedKeepsBooks(s1, w, t);
    }
  }

  lemma HandOverKeepsBooks(s: State, u: Ticket, w: Worker, t: Ticket)
    requires Books(s, t)
    ensures Books(Step(s, HandOver(u, w)), t)
  {
    MovesTo(s.workers, w, Executing(u), t);
    hide In, Held, Reports;
  }

  lemma TakeKeepsBooks(s: State, w: Worker, t: Ticket)
    requires Books(s, t) && (s.jobsClosed ==> s.workers == map[])
    ensures Books(Step(s, Take(w)), t)
  {
    if IsIdle(s, w) && s.queue != [] {
      MovesTo(s.workers, w, Executing(s.queue[0]), t);
      QueueHead(s.queue, t);
    }
    hide In, Held, Reports;
  }

  lemma ExecuteKeepsBooks(s: State, w: Worker, ok: bool, t: Ticket)
    requires Books(s, t)
    ensures Books(Step(s, Execute(w, ok)), t)
  {
    if w in s.workers && s.workers[w].Executing? {
      MovesTo(s.workers, w, Reporting(s.workers[w].job, ok), t);
    }
    hide In, Held, Reports;
  }

  lemma ReportKeepsBooks(s: State, w: Worker, t: Ticket)
    requires Books(s, t)
    ensures Books(Step(s, Report(w)), t)
  {
    if w in s.workers && s.workers[w].Reporting? {
      MovesTo(s.workers, w, Idle, t);
      ReportsAppend(s.reported, s.workers[w].job, s.workers[w].ok, t);
    }
    hide In, Held, Reports;
  }

  /** The actions that no worker takes part in. */
  lemma OthersKeepBooks(s: State, a: Action, t: Ticket)
    requires Books(s, t) && Allowed(s, a) && (s.jobsClosed ==> s.workers == map[])
    requires a.Start? || a.Stop? || a.CloseJobs? || a.ScaleTo? || a.Put? || a.Scale? || a.Enqueue?
    ensures Books(Step(s, a), t)
  {
    hide In, Held, Reports;
  }

  lemma StepKeepsBooks(s: State, a: Action, t: Ticket)
    requires Books(s, t) && Allowed(s, a) && (s.jobsClosed ==> s.workers == map[])
    ensures Books(Step(s, a), t)
  {
    hide Books;
    match a
    case Spawn(w) => SpawnKeepsBooks(s, w, t);
    case SpawnFor(u, w) => SpawnForKeepsBooks(s, u, w, t);
    case HandOver(u, w) => HandOverKeepsBooks(s, u, w, t);
    case Take(w) => TakeKeepsBooks(s, w, t);
    case Execute(w, ok) => ExecuteKeepsBooks(s, w, ok, t);
    case Report(w) => ReportKeepsBooks(s, w, t);
    case Quit(w) => if s.stopped && IsIdle(s, w) { ExitedKeepsBooks(s, w, t); }
    case IdleStop(w) => if IsIdle(s, w) { ExitedKeepsBooks(s, w, t); }
    case _ => OthersKeepBooks(s, a, t);
  }

  lemma StepKeepsCount(s: State, a: Action)
    requires Counted(s) && Allowed(s, a) && Step(s, a).numRunningWorkers == |Step(s, a).workers|
    ensures Counted(Step(s, a))
  {
    if a.Put? || a.Scale? || a.SpawnFor? || a.Enqueue? || a.HandOver? {
      assert s.puts != map[] || a.Put? || Step(s, a) == s;
    }
  }

  // ---------- Runs ----------

  function Final(s: State, run: seq<Action>): State {
    if run == [] then s else Step(Final(s, run[..|run| - 1]), run[|run| - 1])
  }

  predicate AllowedRun(s: State, run: seq<Action>) {
    run == [] || (AllowedRun(s, run[..|run| - 1]) && Allowed(Final(s, run[..|run| - 1]), run[|run| - 1]))
  }

  lemma StepKeeps(s: State, a: Action)
    requires Inv(s) && Allowed(s, a)
    ensures Inv(Step(s, a))
  {
    hide Books;
    forall t ensures Books(Step(s, a), t) {
      StepKeepsBooks(s, a, t);
    }
    assert Books(Step(s, a), 0);
    BooksCount(Step(s, a), 0);
    StepKeepsCount(s, a);
  }

  lemma BooksCount(s: State, t: Ticket)
    requires Books(s, t)
    ensures s.numRunningWorkers == |s.workers|
  {
  }

  lemma {:induction false} RunKeeps(s: State, run: seq<Action>)
    requires Inv(s) && AllowedRun(s, run)
    ensures Inv(Final(s, run))
  {
    hide Inv, Step, Allowed;
    if run != [] {
      RunKeeps(s, run[..|run| - 1]);
      StepKeeps(Final(s, run[..|run| - 1]), run[|run| - 1]);
    }
  }

  lemma NewPoolKeeps(min: nat, capacity: nat)
    ensures Inv(NewPool(min, capacity))
  {
    forall t ensures Books(NewPool(min, capacity), t) {
      assert forall p :: In(map[], p) == {};
    }
  }

  function Executions(s: State, t: Ticket): nat {
    Reports(s.executed, t)
  }

  /** At every moment of every run: an accepted job is in exactly one place, it has been executed at most
      once, and reported at most once and only with the outcome of its execution; nothing else has run. */
  lemma EveryJobOnce(min: nat, capacity: nat, run: seq<Action>, t: Ticket)
    requires AllowedRun(NewPool(min, capacity), run)
    ensures var s := Final(NewPool(min, capacity), run);
            && Copies(s, t) == One(t in s.accepted)
            && Reports(s.reported, t) <= Executions(s, t) <= One(t in s.accepted)
            && (forall ok :: multiset(s.reported)[(t, ok)] <= multiset(s.executed)[(t, ok)])
  {
    NewPoolKeeps(min, capacity);
    RunKeeps(NewPool(min, capacity), run);
    var s := Final(NewPool(min, capacity), run);
    hide Final, AllowedRun, In;
    assert Books(s, t);
    forall ok ensures multiset(s.reported)[(t, ok)] <= multiset(s.executed)[(t, ok)] {
      assert ReportsFollowFor(s, t, ok);
    }
  }

  /** Once nothing is under way, every accepted job has been executed and reported exactly once. */
  lemma QuietMeansDone(min: nat, capacity: nat, run: seq<Action>, t: Ticket)
    requires AllowedRun(NewPool(min, capacity), run)
    requires var s := Final(NewPool(min, capacity), run);
             s.puts == map[] && s.queue == [] && forall w :: w in s.workers ==> s.workers[w] == Idle
    ensures var s := Final(NewPool(min, capacity), run);
            && Executions(s, t) == Reports(s.reported, t) == One(t in s.accepted)
            && (forall ok :: multiset(s.reported)[(t, ok)] == multiset(s.executed)[(t, ok)])
  {
    EveryJobOnce(min, capacity, run, t);
    var s := Final(NewPool(min, capacity), run);
    hide Final, AllowedRun;
    assert In(s.workers, Executing(t)) == {};
    assert forall ok :: In(s.workers, Reporting(t, ok)) == {};
  }

  /** The counter counts the live workers; the minimum is kept while the pool is open; and a stopped pool
      whose workers have all returned counts none, whatever came before. */
  lemma WorkersAreCounted(min: nat, capacity: nat, run: seq<Action>)
    requires AllowedRun(NewPool(min, capacity), run)
    ensures var s := Final(NewPool(min, capacity), run);
            && s.numRunningWorkers == |s.workers| && !s.panicked
            && (s.started && !s.stopped && s.spawns == 0 ==> s.numRunningWorkers >= s.minRunningWorkers)
            && (s.jobsClosed ==> s.numRunningWorkers == 0 && s.workers == map[])
  {
    NewPoolKeeps(min, capacity);
    RunKeeps(NewPool(min, capacity), run);
    hide Final, AllowedRun, Books;
  }

  /** A run in which the pool is neither stopped nor scaled. */
  predicate Steady(run: seq<Action>) {
    forall k :: 0 <= k < |run| ==> !run[k].Stop? && !run[k].ScaleTo?
  }

  /** Once the minimum of workers is running it stays running: whatever workers and callers of `Put` do,
      idling never takes the pool below it again, until the pool is stopped or scaled. */
  lemma {:induction false} MinimumIsKept(s: State, run: seq<Action>)
    requires Inv(s) && AllowedRun(s, run) && Steady(run)
    requires !s.stopped && s.numRunningWorkers >= s.minRunningWorkers
    ensures var f := Final(s, run);
            !f.stopped && f.minRunningWorkers == s.minRunningWorkers <= f.numRunningWorkers == |f.workers|
  {
    if run == [] {
    } else {
      var n := |run| - 1;
      var before := Final(s, run[..n]);
      hide Books, AllowedRun;
      AllowedBefore(s, run);
      MinimumIsKept(s, run[..n]);
      RunKeeps(s, run[..n]);
      RunKeeps(s, run);
      assert Counted(Final(s, run));
      hide Final, Inv;
      StaysAtMinimum(before, run[n]);
      LastStep(s, run);
    }
  }

  lemma AllowedBefore(s: State, run: seq<Action>)
    requires run != [] && AllowedRun(s, run)
    ensures AllowedRun(s, run[..|run| - 1])
  {
    hide Allowed, Final;
  }

  lemma LastStep(s: State, run: seq<Action>)
    requires run != []
    ensures Final(s, run) == Step(Final(s, run[..|run| - 1]), run[|run| - 1])
  {
    hide Step;
  }

  lemma StaysAtMinimum(s: State, a: Action)
    requires !s.stopped && s.numRunningWorkers >= s.minRunningWorkers && !a.Stop? && !a.ScaleTo?
    ensures var t := Step(s, a);
            !t.stopped && t.minRunningWorkers == s.minRunningWorkers <= t.numRunningWorkers
  {
  }

  /** With a minimum of at least one, a queued job always has a live worker: one to take it, or a busy one. */
  lemma QueuedJobHasWorker(min: nat, capacity: nat, run: seq<Action>)
    requires AllowedRun(NewPool(min, capacity), run)
    requires var s := Final(NewPool(min, capacity), run);
             s.started && !s.stopped && s.spawns == 0 && s.minRunningWorkers >= 1 && s.queue != []
    ensures var s := Final(NewPool(min, capacity), run);
            exists w :: w in s.workers && (!s.workers[w].Idle? || |Step(s, Take(w)).queue| < |s.queue|)
  {
    WorkersAreCounted(min, capacity, run);
    var s := Final(NewPool(min, capacity), run);
    hide Final, AllowedRun;
    assert |s.workers| > 0 && s.workers.Keys != {};
    var w :| w in s.workers;
  }
}
