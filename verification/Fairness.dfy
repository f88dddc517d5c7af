/** Runs of one scheduler against a clock, and how unfair they can get. */
module Fairness {
  import opened Basics
  import opened Services
  import opened Heaps
  import opened Schedulers
  import opened DueBags

  /** `nextTag` is larger than the tag of every entry ever pushed. */
  datatype Timed = Timed(sched: Scheduler, clock: int, nextTag: nat)

  /** A turn of the loop may come arbitrarily late, but not before the top entry is due. */
  datatype Step =
    | Add(id: Id, now: int, jitter: int)
    | Drop(id: Id)
    | Turn(now: int, jitter: int)
    | Halt

  function Begin(interval: Duration, now: int): Timed {
    Timed(NewScheduler(interval), now, 0)
  }

  predicate Enabled(t: Timed, s: Step) {
    match s
    case Add(_, now, jitter) => now >= t.clock && Jitter(t.sched.interval, jitter)
    case Drop(_) => true
    case Turn(now, jitter) =>
      && now >= t.clock && Jitter(t.sched.interval, jitter)
      && t.sched.isRunning
      && (t.sched.heap != [] ==> t.sched.heap[0].time <= now)
    case Halt => !t.sched.stopped
  }

  function Next(t: Timed, s: Step): Timed
    requires t.sched.interval >= OFFSET && Enabled(t, s)
  {
    match s
    case Add(id, now, jitter) =>
      Timed(Schedule(t.sched, id, t.nextTag, now, NewCheckInterval(t.sched.interval, jitter)), now, t.nextTag + 1)
    case Drop(id) => t.(sched := Remove(t.sched, id).0)
    case Turn(now, jitter) =>
      t.(sched := Iterate(t.sched, now, NewCheckInterval(t.sched.interval, jitter)), clock := now)
    case Halt => t.(sched := t.sched.(stopped := true))
  }

  /** The entry whose service this step sends to be checked. */
  function Ticked(t: Timed, s: Step): Option<Entry> {
    if s.Turn? && !t.sched.stopped && t.sched.heap != [] then Some(t.sched.heap[0]) else None
  }

  /** `ts[k + 1]` is what step `k` makes of `ts[k]`, from a new scheduler on. */
  ghost predicate Run(interval: Duration, ts: seq<Timed>, steps: seq<Step>) {
    && interval >= OFFSET
    && |ts| == |steps| + 1
    && ts[0] == Begin(interval, ts[0].clock)
    && forall k :: 0 <= k < |steps| ==> StepTo(ts[k], steps[k], ts[k + 1])
  }

  ghost predicate StepTo(t: Timed, s: Step, t': Timed) {
    t.sched.interval >= OFFSET && Enabled(t, s) && t' == Next(t, s)
  }

  function TickLog(ts: seq<Timed>, steps: seq<Step>): (log: seq<Option<Entry>>)
    requires |ts| == |steps| + 1
    ensures |log| == |steps|
  {
    seq(|steps|, k requires 0 <= k < |steps| => Ticked(ts[k], steps[k]))
  }

  // ---------- Schedulers as bags ----------

  function AsBag(t: Timed): Bag {
    Bag(multiset(t.sched.heap), t.clock, t.nextTag, 9 * t.sched.interval - 5 * TENTH)
  }

  lemma AddMoves(t: Timed, s: Step)
    requires WellFormed(t.sched) && t.sched.interval >= OFFSET && s.Add? && Enabled(t, s)
    ensures WellFormed(Next(t, s).sched) && Moves(AsBag(t), AsBag(Next(t, s)), None)
    ensures exists e :: Quiet(AsBag(t), AsBag(Next(t, s)), None, Some(e)) && e.live && e.id == s.id
              && e.tag == t.nextTag && 10 * (e.time - s.now) <= 21 * t.sched.interval + 5 * TENTH - 10 * OFFSET
  {
    GapBounds(t.sched.interval, s.jitter);
    hide NewCheckInterval, Schedulable, MaxOffsets;
    var gap := NewCheckInterval(t.sched.interval, s.jitter);
    ScheduleAdds(t.sched, s.id, t.nextTag, s.now, gap);
    var e :| multiset(Next(t, s).sched.heap) == multiset(t.sched.heap) + multiset{e}
             && e.tag == t.nextTag && e.id == s.id && e.live
             && s.now + gap <= e.time <= s.now + gap + t.sched.interval - OFFSET;
    assert Quiet(AsBag(t), AsBag(Next(t, s)), None, Some(e));
  }

  lemma DropParts(t: Timed, s: Step, t': Timed)
    requires WellFormed(t.sched) && s.Drop? && StepTo(t, s, t')
    ensures WellFormed(t'.sched) && t'.clock == t.clock && t'.sched.interval == t.sched.interval
    ensures var h, i := t.sched.heap, IndexOfService(t.sched.heap, s.id);
            if i == -1 then t'.sched.heap == h
            else
              && 0 <= i < |h| && h[i].id == s.id
              && multiset(t'.sched.heap) == multiset(h) - multiset{h[i]}
                                            + if i == 0 then multiset{h[0].(live := false)} else multiset{}
  {
    RemoveTakesOut(t.sched, s.id);
    hide Remove, WellFormed;
  }

  lemma DropMoves(t: Timed, s: Step)
    requires WellFormed(t.sched) && t.sched.interval >= OFFSET && s.Drop? && Enabled(t, s)
    ensures WellFormed(Next(t, s).sched) && Moves(AsBag(t), AsBag(Next(t, s)), None)
  {
    hide NewCheckInterval, Schedulable, Jitter, Iterate, Schedule, WellFormed, IndexOfService;
    var b, b' := AsBag(t), AsBag(Next(t, s));
    var h, i := t.sched.heap, IndexOfService(t.sched.heap, s.id);
    DropParts(t, s, Next(t, s));
    assert b'.nextTag == b.nextTag;
    hide Next;
    if i == -1 {
      QuietMoves(b, b', None, None);
    } else {
      assert h[i] in b.entries;
      QuietMoves(b, b', Some(h[i]), if i == 0 then Some(h[i].(live := false)) else None);
    }
  }

  lemma QuietMoves(b: Bag, b': Bag, out: Option<Entry>, put: Option<Entry>)
    requires b'.clock >= b.clock && b'.nextTag >= b.nextTag && b'.gap == b.gap
    requires Quiet(b, b', out, put)
    ensures Moves(b, b', None)
  {
  }

  function Back(t: Timed, s: Step): Option<Entry>
    requires s.Turn? && t.sched.interval >= OFFSET && Enabled(t, s) && t.sched.heap != []
  {
    var top := t.sched.heap[0];
    if top.live then Some(top.(time := s.now + NewCheckInterval(t.sched.interval, s.jitter))) else None
  }

  lemma TurnTicks(t: Timed, s: Step, s': Scheduler)
    requires WellFormed(t.sched) && t.sched.interval >= OFFSET && s.Turn? && Enabled(t, s) && Ticked(t, s).Some?
    requires s' == Iterate(t.sched, s.now, NewCheckInterval(t.sched.interval, s.jitter))
    ensures WellFormed(s') && s'.interval == t.sched.interval
    ensures Tick(AsBag(t), AsBag(t.(sched := s', clock := s.now)), t.sched.heap[0], Back(t, s))
  {
    hide Iterate, WellFormed, NewCheckInterval, Schedulable, MaxOffsets, Jitter, RoundTenth, Schedule, Remove, Abs;
    GapBounds(t.sched.interval, s.jitter);
    IterateReschedules(t.sched, s.now, NewCheckInterval(t.sched.interval, s.jitter));
    forall e | e in multiset(t.sched.heap) ensures t.sched.heap[0].time <= e.time {
      assert e in t.sched.heap;
    }
    assert t.sched.heap[0] in multiset(t.sched.heap);
  }

  lemma TurnMoves(t: Timed, s: Step)
    requires WellFormed(t.sched) && t.sched.interval >= OFFSET && s.Turn? && Enabled(t, s)
    ensures WellFormed(Next(t, s).sched) && Moves(AsBag(t), AsBag(Next(t, s)), Ticked(t, s))
    ensures Ticked(t, s).Some? ==> Tick(AsBag(t), AsBag(Next(t, s)), t.sched.heap[0], Back(t, s))
  {
    if Ticked(t, s).Some? {
      TurnTicks(t, s, Next(t, s).sched);
    } else {
      assert Quiet(AsBag(t), AsBag(Next(t, s)), None, None);
    }
  }

  /** Every step of the heap-based scheduler is a step of the bag. */
  lemma NextMoves(t: Timed, s: Step)
    requires WellFormed(t.sched) && t.sched.interval >= OFFSET && Enabled(t, s)
    ensures WellFormed(Next(t, s).sched) && Moves(AsBag(t), AsBag(Next(t, s)), Ticked(t, s))
  {
    match s
    case Add(_, _, _) => AddMoves(t, s);
    case Drop(_) => DropMoves(t, s);
    case Turn(_, _) => TurnMoves(t, s);
    case Halt => assert Quiet(AsBag(t), AsBag(Next(t, s)), None, None);
  }

  lemma {:induction false} RunKeeps(interval: Duration, ts: seq<Timed>, steps: seq<Step>, k: nat)
    requires Run(interval, ts, steps) && k < |ts|
    ensures WellFormed(ts[k].sched) && ts[k].sched.interval == interval
    ensures k > 0 ==> Moves(AsBag(ts[k - 1]), AsBag(ts[k]), Ticked(ts[k - 1], steps[k - 1]))
  {
    if k == 0 {
      NewIsWellFormed(interval);
    } else {
      RunKeeps(interval, ts, steps, k - 1);
      assert StepTo(ts[k - 1], steps[k - 1], ts[k - 1 + 1]);
      NextMoves(ts[k - 1], steps[k - 1]);
    }
  }

  function Bags(ts: seq<Timed>): (bs: seq<Bag>)
    ensures |bs| == |ts|
  {
    seq(|ts|, k requires 0 <= k < |ts| => AsBag(ts[k]))
  }

  lemma RunIsTrace(interval: Duration, ts: seq<Timed>, steps: seq<Step>)
    requires Run(interval, ts, steps)
    ensures Trace(Bags(ts), TickLog(ts, steps)) && Good(Bags(ts)[0])
  {
    forall k | 0 <= k < |steps|
      ensures Moves(Bags(ts)[k], Bags(ts)[k + 1], TickLog(ts, steps)[k])
    {
      RunKeeps(interval, ts, steps, k + 1);
    }
  }

  // ---------- The theorems ----------

  /** An unstopped scheduler with services on its heap has its loop running, and the service it checks
      next is one that no other is due before, at every moment of every run. */
  lemma LoopNeverStalls(interval: Duration, ts: seq<Timed>, steps: seq<Step>, k: nat, e: Entry)
    requires Run(interval, ts, steps) && k < |ts| && e in multiset(ts[k].sched.heap)
    ensures !ts[k].sched.stopped ==> ts[k].sched.isRunning
    ensures ts[k].sched.heap[0].time <= e.time
  {
    RunKeeps(interval, ts, steps, k);
    assert e in ts[k].sched.heap;
    var n :| 0 <= n < |ts[k].sched.heap| && ts[k].sched.heap[n] == e;
    TopIsDueFirst(ts[k].sched.heap, n);
  }

  /** From the tick of a live service, at step `i`, until it is ticked again, no other entry is ticked
      more than twice: however late the loop runs, and whatever is added or removed meanwhile. */
  lemma AtMostTwiceBetweenTicks(interval: Duration, ts: seq<Timed>, steps: seq<Step>, i: nat, j: nat, x: Entry, y: nat)
    requires Run(interval, ts, steps) && i < j <= |steps|
    requires Ticked(ts[i], steps[i]) == Some(x) && x.live
    requires Count(TickLog(ts, steps), i + 1, j, x.tag) == 0 && Holds(AsBag(ts[j]), x.tag)
    ensures Count(TickLog(ts, steps), i + 1, j, y) <= 2
  {
    RunIsTrace(interval, ts, steps);
    var bs := Bags(ts);
    var due := NextDue(interval, ts, steps, i, x);
    TraceGood(bs, TickLog(ts, steps), i);
    RunKeeps(interval, ts, steps, 0);
    Waiting(bs, TickLog(ts, steps), i + 1, j, x.tag, due, y, 2);
  }

  lemma NextDue(interval: Duration, ts: seq<Timed>, steps: seq<Step>, i: nat, x: Entry) returns (due: int)
    requires Run(interval, ts, steps) && i < |steps| && Ticked(ts[i], steps[i]) == Some(x) && x.live
    ensures DueAt(AsBag(ts[i + 1]), x.tag, due)
    ensures 10 * (due - ts[i + 1].clock) <= 11 * interval + 5 * TENTH
  {
    RunIsTrace(interval, ts, steps);
    RunKeeps(interval, ts, steps, i);
    assert StepTo(ts[i], steps[i], ts[i + 1]);
    TurnMoves(ts[i], steps[i]);
    TraceGood(Bags(ts), TickLog(ts, steps), i);
    BackIsDue(ts[i], steps[i], AsBag(ts[i + 1]), x);
    due := Back(ts[i], steps[i]).value.time;
    assert ts[i + 1].clock == steps[i].now;
  }

  lemma BackIsDue(t: Timed, s: Step, b': Bag, x: Entry)
    requires Good(AsBag(t)) && s.Turn? && t.sched.interval >= OFFSET && Enabled(t, s) && t.sched.heap != []
    requires Tick(AsBag(t), b', t.sched.heap[0], Back(t, s)) && x == t.sched.heap[0] && x.live
    requires b'.nextTag >= t.nextTag
    ensures DueAt(b', x.tag, Back(t, s).value.time)
  {
    hide NewCheckInterval;
    ExchangeUnique(AsBag(t).entries, b'.entries, Some(x), Back(t, s));
  }

  /** A service scheduled at step `i` waits for its first tick while no other entry is ticked more than
      three times. */
  lemma AtMostThriceBeforeFirstTick(interval: Duration, ts: seq<Timed>, steps: seq<Step>, i: nat, j: nat, y: nat)
    requires Run(interval, ts, steps) && i < j <= |steps| && steps[i].Add?
    requires Count(TickLog(ts, steps), i + 1, j, ts[i].nextTag) == 0 && Holds(AsBag(ts[j]), ts[i].nextTag)
    ensures Count(TickLog(ts, steps), i + 1, j, y) <= 3
  {
    RunIsTrace(interval, ts, steps);
    var bs, x := Bags(ts), ts[i].nextTag;
    var due := FirstDue(interval, ts, steps, i);
    TraceGood(bs, TickLog(ts, steps), i);
    Waiting(bs, TickLog(ts, steps), i + 1, j, x, due, y, 3);
  }

  lemma FirstDue(interval: Duration, ts: seq<Timed>, steps: seq<Step>, i: nat) returns (due: int)
    requires Run(interval, ts, steps) && i < |steps| && steps[i].Add?
    ensures DueAt(AsBag(ts[i + 1]), ts[i].nextTag, due)
    ensures 10 * (due - ts[i + 1].clock) <= 21 * interval + 5 * TENTH - 10 * OFFSET
  {
    RunIsTrace(interval, ts, steps);
    RunKeeps(interval, ts, steps, i);
    assert StepTo(ts[i], steps[i], ts[i + 1]);
    TraceGood(Bags(ts), TickLog(ts, steps), i);
    due := AddedIsDue(ts[i], steps[i], ts[i + 1]);
  }

  lemma AddedIsDue(t: Timed, s: Step, t': Timed) returns (due: int)
    requires WellFormed(t.sched) && Good(AsBag(t)) && s.Add? && StepTo(t, s, t')
    ensures DueAt(AsBag(t'), t.nextTag, due)
    ensures 10 * (due - t'.clock) <= 21 * t.sched.interval + 5 * TENTH - 10 * OFFSET
  {
    AddMoves(t, s);
    assert t'.clock == s.now && t'.nextTag > t.nextTag;
    hide Next, StepTo, WellFormed;
    var e :| Quiet(AsBag(t), AsBag(t'), None, Some(e)) && e.tag == t.nextTag
             && 10 * (e.time - s.now) <= 21 * t.sched.interval + 5 * TENTH - 10 * OFFSET;
    ExchangeUnique(AsBag(t).entries, AsBag(t').entries, None, Some(e));
    due := e.time;
  }
}
