/** Fairness between services rather than heap entries: a service is not ticked too often as long as it does
    not return to a scheduler that still holds an entry of it. */
module ServiceFairness {
  import opened Basics
  import opened Services
  import opened Heaps
  import opened Schedulers
  import opened Fairness

  predicate TicksService(t: Option<Entry>, id: Id) {
    t.Some? && t.value.id == id
  }

  /** Number of ticks of a service among steps [i, j). */
  function TicksOf(log: seq<Option<Entry>>, i: nat, j: nat, id: Id): nat
    requires i <= j <= |log|
  {
    if i == j then 0 else TicksOf(log, i, j - 1, id) + if TicksService(log[j - 1], id) then 1 else 0
  }

  /** Ten times the shortest gap between two checks. */
  function ShortGap(interval: Duration): int {
    9 * interval - 5 * TENTH
  }

  ghost predicate Waits(h: seq<Entry>, x: Id, due: int) {
    exists e :: e in multiset(h) && e.id == x && e.live && e.time == due
  }

  /** No entry of the service is due before `bound` tenths. */
  ghost predicate NotBefore(h: seq<Entry>, y: Id, bound: int) {
    forall e :: e in multiset(h) && e.id == y ==> 10 * e.time >= bound
  }

  /** Since `start`, while `x` has been waiting until `due`, service `y` was ticked `c` times. */
  ghost predicate Held(t: Timed, x: Id, due: int, y: Id, start: int, c: nat) {
    && Waits(t.sched.heap, x, due) && t.clock >= start
    && (c >= 1 ==>
          && NotBefore(t.sched.heap, y, 10 * start + c * ShortGap(t.sched.interval))
          && 10 * t.clock >= 10 * start + (c - 1) * ShortGap(t.sched.interval))
  }

  lemma AddHolds(t: Timed, s: Step, t': Timed, x: Id, due: int, y: Id, start: int, c: nat)
    requires WellFormed(t.sched) && StepTo(t, s, t') && s.Add?
    requires Held(t, x, due, y, start, c)
    ensures Held(t', x, due, y, start, c)
  {
    GapBounds(t.sched.interval, s.jitter);
    hide NewCheckInterval, Schedulable, MaxOffsets, Jitter, RoundTenth;
    var gap := NewCheckInterval(t.sched.interval, s.jitter);
    ScheduleAdds(t.sched, s.id, t.nextTag, s.now, gap);
    var e :| multiset(t'.sched.heap) == multiset(t.sched.heap) + multiset{e} && e.id == s.id && s.now + gap <= e.time;
    hide Schedule, WellFormed;
    var w :| w in multiset(t.sched.heap) && w.id == x && w.live && w.time == due;
    assert w in multiset(t'.sched.heap);
    Multiples(c, ShortGap(t.sched.interval));
    forall f | f in multiset(t'.sched.heap) && f.id == y && c >= 1
      ensures 10 * f.time >= 10 * start + c * ShortGap(t.sched.interval)
    {
      assert f == e || f in multiset(t.sched.heap);
    }
  }

  lemma Multiples(c: nat, gap: int)
    ensures (c + 1) * gap == c * gap + gap && (c - 1) * gap == c * gap - gap
  {
  }

  /** Entries are taken out or changed, none of them a live one of `x`, and none gets due earlier. */
  lemma ExchangeHolds(h: seq<Entry>, r: seq<Entry>, gone: Entry, back: Option<Entry>, x: Id, due: int, y: Id,
                      bound: int)
    requires gone in multiset(h) && !(gone.id == x && gone.live)
    requires multiset(r) == multiset(h) - multiset{gone} + if back.Some? then multiset{back.value} else multiset{}
    requires back.Some? && back.value.id == y ==> 10 * back.value.time >= bound
    ensures Waits(h, x, due) ==> Waits(r, x, due)
    ensures NotBefore(h, y, bound) ==> NotBefore(r, y, bound)
  {
    if Waits(h, x, due) {
      var w :| w in multiset(h) && w.id == x && w.live && w.time == due;
      assert w in multiset(r);
    }
    forall e | e in multiset(r) && e.id == y && NotBefore(h, y, bound) ensures 10 * e.time >= bound {
      assert (back.Some? && e == back.value) || e in multiset(h);
    }
  }

  lemma DropHolds(t: Timed, s: Step, t': Timed, x: Id, due: int, y: Id, start: int, c: nat)
    requires WellFormed(t.sched) && StepTo(t, s, t') && s.Drop? && s.id != x
    requires Held(t, x, due, y, start, c)
    ensures Held(t', x, due, y, start, c)
  {
    hide WellFormed, StepTo, IndexOfService, ShortGap;
    DropParts(t, s, t');
    var h, i := t.sched.heap, IndexOfService(t.sched.heap, s.id);
    if i != -1 {
      assert h[i] in multiset(h);
      var bound := if c >= 1 then 10 * start + c * ShortGap(t.sched.interval) else 10 * h[i].time;
      ExchangeHolds(h, t'.sched.heap, h[i], if i == 0 then Some(h[i].(live := false)) else None, x, due, y, bound);
    }
  }

  /** There is at most one entry of the service. */
  ghost predicate OneEntryOf(h: seq<Entry>, y: Id) {
    forall e, f :: e in multiset(h) && f in multiset(h) && e.id == y && f.id == y ==> e == f && multiset(h)[e] == 1
  }

  /** When it is ticked, then, it has no entry but the one put back. */
  lemma OnlyTop(h: seq<Entry>, top: Entry)
    requires OneEntryOf(h, top.id) && top in multiset(h)
    ensures forall e :: e in multiset(h) - multiset{top} ==> e.id != top.id
  {
    forall e | e in multiset(h) - multiset{top} ensures e.id != top.id {
      assert e in multiset(h);
      assert multiset(h)[top] == 1 && (multiset(h) - multiset{top})[top] == 0;
    }
  }

  lemma ExchangeKeepsOne(h: seq<Entry>, r: seq<Entry>, gone: Entry, back: Option<Entry>, y: Id)
    requires OneEntryOf(h, y) && gone in multiset(h) && (back.Some? ==> back.value.id == gone.id)
    requires multiset(r) == multiset(h) - multiset{gone} + if back.Some? then multiset{back.value} else multiset{}
    ensures OneEntryOf(r, y)
  {
    if gone.id == y {
      OnlyTop(h, gone);
    } else {
      forall e | e in multiset(r) && e.id == y ensures e in multiset(h) && multiset(r)[e] == multiset(h)[e] {
      }
    }
  }

  lemma OneMoreKeepsOne(h: seq<Entry>, r: seq<Entry>, e: Entry, y: Id)
    requires OneEntryOf(h, y) && multiset(r) == multiset(h) + multiset{e}
    requires e.id == y ==> IndexOfService(h, y) == -1
    ensures OneEntryOf(r, y)
  {
    if e.id == y {
      forall f | f in multiset(h) ensures f.id != y {
        assert f in h;
      }
    } else {
      forall f | f in multiset(r) && f.id == y ensures f in multiset(h) && multiset(r)[f] == multiset(h)[f] {
      }
    }
  }

  lemma AddKeepsOne(t: Timed, s: Step, t': Timed, y: Id)
    requires WellFormed(t.sched) && StepTo(t, s, t') && s.Add? && OneEntryOf(t.sched.heap, y)
    requires s.id == y ==> IndexOfService(t.sched.heap, y) == -1
    ensures OneEntryOf(t'.sched.heap, y)
  {
    hide NewCheckInterval, Schedulable, MaxOffsets, Jitter, RoundTenth, Schedule, WellFormed, OneEntryOf;
    hide IndexOfService;
    var e := AddParts(t, s, t');
    OneMoreKeepsOne(t.sched.heap, t'.sched.heap, e, y);
  }

  lemma AddParts(t: Timed, s: Step, t': Timed) returns (e: Entry)
    requires WellFormed(t.sched) && StepTo(t, s, t') && s.Add?
    ensures multiset(t'.sched.heap) == multiset(t.sched.heap) + multiset{e} && e.id == s.id
  {
    hide NewCheckInterval, Schedulable, MaxOffsets, Jitter, RoundTenth, Schedule, WellFormed, Iterate, Remove;
    GapBounds(t.sched.interval, s.jitter);
    var gap := NewCheckInterval(t.sched.interval, s.jitter);
    ScheduleAdds(t.sched, s.id, t.nextTag, s.now, gap);
    e :| multiset(t'.sched.heap) == multiset(t.sched.heap) + multiset{e} && e.id == s.id;
  }

  /** Every step keeps it, but for an early return of that service. */
  lemma StepKeepsOne(t: Timed, s: Step, t': Timed, y: Id)
    requires WellFormed(t.sched) && StepTo(t, s, t') && OneEntryOf(t.sched.heap, y)
    requires s.Add? && s.id == y ==> IndexOfService(t.sched.heap, y) == -1
    ensures OneEntryOf(t'.sched.heap, y)
  {
    var h := t.sched.heap;
    match s
    case Add(_, _, _) => AddKeepsOne(t, s, t', y);
    case Drop(id) =>
      hide WellFormed, StepTo, IndexOfService, OneEntryOf;
      DropParts(t, s, t');
      var i := IndexOfService(h, id);
      if i != -1 {
        assert h[i] in multiset(h);
        ExchangeKeepsOne(h, t'.sched.heap, h[i], if i == 0 then Some(h[i].(live := false)) else None, y);
      }
    case Turn(_, _) =>
      hide WellFormed, StepTo, Enabled, Back, ShortGap, OneEntryOf;
      TurnParts(t, s, t');
      if Ticked(t, s).Some? {
        assert h[0] in multiset(h);
        ExchangeKeepsOne(h, t'.sched.heap, h[0], Back(t, s), y);
      }
    case Halt =>
  }

  /** The service is not scheduled while the scheduler still holds an entry of it, dead or alive. */
  ghost predicate NeverReturnsEarly(ts: seq<Timed>, steps: seq<Step>, n: nat, y: Id)
    requires n <= |steps| < |ts|
  {
    forall k :: 0 <= k < n && steps[k].Add? && steps[k].id == y ==> IndexOfService(ts[k].sched.heap, y) == -1
  }

  lemma {:induction false} RunKeepsOne(interval: Duration, ts: seq<Timed>, steps: seq<Step>, n: nat, y: Id)
    requires Run(interval, ts, steps) && n <= |steps| && NeverReturnsEarly(ts, steps, n, y)
    ensures OneEntryOf(ts[n].sched.heap, y)
  {
    hide Next, Enabled, IndexOfService;
    if n == 0 {
      assert ts[0].sched.heap == [];
    } else {
      RunKeepsOne(interval, ts, steps, n - 1, y);
      RunKeeps(interval, ts, steps, n - 1);
      assert StepTo(ts[n - 1], steps[n - 1], ts[n - 1 + 1]);
      hide StepTo, WellFormed, OneEntryOf;
      StepKeepsOne(ts[n - 1], steps[n - 1], ts[n], y);
    }
  }

  lemma TurnHolds(t: Timed, s: Step, t': Timed, x: Id, due: int, y: Id, start: int, c: nat, m: nat)
    requires WellFormed(t.sched) && OneEntryOf(t.sched.heap, y) && StepTo(t, s, t') && s.Turn?
    requires Held(t, x, due, y, start, c) && x != y && !TicksService(Ticked(t, s), x)
    requires 10 * (due - start) < m * ShortGap(t.sched.interval) && m >= 1 && c <= m
    ensures var c' := c + if TicksService(Ticked(t, s), y) then 1 else 0;
            c' <= m && Held(t', x, due, y, start, c')
  {
    hide WellFormed, OneEntryOf, StepTo, ShortGap, Enabled, Back, Waits, NotBefore;
    TurnParts(t, s, t');
    assert Waits(t.sched.heap, x, due);
    hide Held;
    if Ticked(t, s).Some? {
      var h := t.sched.heap;
      var top, back := h[0], Back(t, s);
      assert top in multiset(h);
      TopNotLater(h, x, due);
      if top.id == y {
        OnlyTop(h, top);
        TickedAgain(t, t', top, back, x, due, y, start, c, m);
      } else {
        ExchangeHolds(h, t'.sched.heap, top, back, x, due, y, 10 * start + c * ShortGap(t.sched.interval));
        StillHeld(t, t', x, due, y, start, c);
      }
    } else {
      StillHeld(t, t', x, due, y, start, c);
    }
  }

  lemma StillHeld(t: Timed, t': Timed, x: Id, due: int, y: Id, start: int, c: nat)
    requires Held(t, x, due, y, start, c) && t'.sched.interval == t.sched.interval && t'.clock >= t.clock
    requires Waits(t'.sched.heap, x, due)
    requires var bound := 10 * start + c * ShortGap(t.sched.interval);
             NotBefore(t.sched.heap, y, bound) ==> NotBefore(t'.sched.heap, y, bound)
    ensures Held(t', x, due, y, start, c)
  {
    hide Waits, NotBefore, ShortGap;
  }

  lemma TurnParts(t: Timed, s: Step, t': Timed)
    requires WellFormed(t.sched) && StepTo(t, s, t') && s.Turn?
    ensures s.now >= t.clock && t'.clock == s.now && t'.sched.interval == t.sched.interval >= OFFSET && Enabled(t, s)
    ensures Ticked(t, s).None? ==> t'.sched.heap == t.sched.heap
    ensures Ticked(t, s).Some? ==>
              var h := t.sched.heap;
              && h != [] && h[0].time <= s.now && (forall k :: 0 <= k < |h| ==> h[0].time <= h[k].time)
              && multiset(t'.sched.heap) == multiset(h) - multiset{h[0]}
                                            + (if Back(t, s).Some? then multiset{Back(t, s).value} else multiset{})
              && (Back(t, s).Some? ==> Back(t, s).value.id == h[0].id
                                       && 10 * (Back(t, s).value.time - s.now) >= ShortGap(t.sched.interval))
  {
    hide NewCheckInterval, Schedulable, MaxOffsets, Jitter, RoundTenth, Iterate, Schedule, Remove, WellFormed, Abs;
    GapBounds(t.sched.interval, s.jitter);
    IterateReschedules(t.sched, s.now, NewCheckInterval(t.sched.interval, s.jitter));
  }

  lemma TopNotLater(h: seq<Entry>, x: Id, due: int)
    requires Waits(h, x, due) && h != [] && forall k :: 0 <= k < |h| ==> h[0].time <= h[k].time
    ensures h[0].time <= due
  {
    var w :| w in multiset(h) && w.id == x && w.live && w.time == due;
    assert w in h;
  }

  /** The tick of `y` comes no later than `x` is due, and puts `y` another short gap behind. */
  lemma TickedAgain(t: Timed, t': Timed, top: Entry, back: Option<Entry>, x: Id, due: int, y: Id, start: int,
                    c: nat, m: nat)
    requires Held(t, x, due, y, start, c) && top in multiset(t.sched.heap) && top.id == y != x
    requires top.time <= due && top.time <= t'.clock && t'.clock >= t.clock && t'.sched.interval == t.sched.interval
    requires forall e :: e in multiset(t.sched.heap) - multiset{top} ==> e.id != y
    requires multiset(t'.sched.heap) == multiset(t.sched.heap) - multiset{top}
                                        + if back.Some? then multiset{back.value} else multiset{}
    requires back.Some? ==> back.value.id == y
                            && 10 * (back.value.time - t'.clock) >= ShortGap(t.sched.interval)
    requires 10 * (due - start) < m * ShortGap(t.sched.interval) && m >= 1 && c <= m
    ensures c + 1 <= m && Held(t', x, due, y, start, c + 1)
  {
    var short := ShortGap(t.sched.interval);
    hide ShortGap;
    Multiples(c, short);
    assert 10 * t'.clock >= 10 * start + c * short by {
      assert c == 0 ==> c * short == 0;
    }
    assert c >= 1 ==> 10 * top.time >= 10 * start + c * short;
    assert c != m by {
      assert c == m ==> c * short == m * short;
    }
    ExchangeHolds(t.sched.heap, t'.sched.heap, top, back, x, due, x, 10 * due);
    forall e | e in multiset(t'.sched.heap) && e.id == y ensures 10 * e.time >= 10 * start + (c + 1) * short {
      assert back.Some? && e == back.value;
    }
  }

  /** While `x` waits and is not removed, one step ticks `y` at most once more, and at most `m` times in all. */
  lemma StepHolds(t: Timed, s: Step, t': Timed, x: Id, due: int, y: Id, start: int, c: nat, m: nat)
    requires WellFormed(t.sched) && OneEntryOf(t.sched.heap, y) && StepTo(t, s, t')
    requires s != Drop(x) && !TicksService(Ticked(t, s), x) && x != y
    requires Held(t, x, due, y, start, c) && c <= m
    requires 10 * (due - start) < m * ShortGap(t.sched.interval) && m >= 1
    ensures var c' := c + if TicksService(Ticked(t, s), y) then 1 else 0;
            c' <= m && Held(t', x, due, y, start, c')
  {
    hide Held, StepTo, WellFormed, OneEntryOf, ShortGap;
    match s
    case Add(_, _, _) => AddHolds(t, s, t', x, due, y, start, c);
    case Drop(_) => DropHolds(t, s, t', x, due, y, start, c);
    case Turn(_, _) => TurnHolds(t, s, t', x, due, y, start, c, m);
    case Halt => HaltHolds(t, t', x, due, y, start, c);
  }

  lemma HaltHolds(t: Timed, t': Timed, x: Id, due: int, y: Id, start: int, c: nat)
    requires StepTo(t, Halt, t') && Held(t, x, due, y, start, c)
    ensures Held(t', x, due, y, start, c)
  {
  }

  lemma {:induction false} WaitingService(interval: Duration, ts: seq<Timed>, steps: seq<Step>, i: nat, j: nat,
                                          x: Id, due: int, y: Id, m: nat)
    requires Run(interval, ts, steps) && i <= j <= |steps| && NeverReturnsEarly(ts, steps, j, y) && x != y
    requires Waits(ts[i].sched.heap, x, due) && 10 * (due - ts[i].clock) < m * ShortGap(interval) && m >= 1
    requires forall k :: i <= k < j ==> steps[k] != Drop(x)
    requires TicksOf(TickLog(ts, steps), i, j, x) == 0
    ensures TicksOf(TickLog(ts, steps), i, j, y) <= m
    ensures Held(ts[j], x, due, y, ts[i].clock, TicksOf(TickLog(ts, steps), i, j, y))
    decreases j
  {
    hide StepTo, Waits, NotBefore, IndexOfService, WellFormed, OneEntryOf, ShortGap, Ticked;
    if i < j {
      var log := TickLog(ts, steps);
      assert log[j - 1] == Ticked(ts[j - 1], steps[j - 1]);
      WaitingService(interval, ts, steps, i, j - 1, x, due, y, m);
      RunKeeps(interval, ts, steps, j - 1);
      RunKeepsOne(interval, ts, steps, j - 1, y);
      assert StepTo(ts[j - 1], steps[j - 1], ts[j - 1 + 1]);
      hide Held, Run, TickLog;
      StepHolds(ts[j - 1], steps[j - 1], ts[j], x, due, y, ts[i].clock, TicksOf(log, i, j - 1, y), m);
    }
  }

  /** Between two ticks of a service that is not removed in the meantime, a service that never returns early
      is not ticked three times, whatever others do. */
  lemma ServiceAtMostTwiceBetweenTicks(interval: Duration, ts: seq<Timed>, steps: seq<Step>, i: nat, j: nat, y: Id)
    requires Run(interval, ts, steps) && i < j <= |steps| && NeverReturnsEarly(ts, steps, j, y)
    requires Ticked(ts[i], steps[i]).Some? && Ticked(ts[i], steps[i]).value.live
    requires var x := Ticked(ts[i], steps[i]).value.id;
             && x != y && (forall k :: i < k < j ==> steps[k] != Drop(x))
             && TicksOf(TickLog(ts, steps), i + 1, j, x) == 0
    ensures TicksOf(TickLog(ts, steps), i + 1, j, y) <= 2
  {
    var x := Ticked(ts[i], steps[i]).value;
    RunKeeps(interval, ts, steps, i);
    assert StepTo(ts[i], steps[i], ts[i + 1]);
    BackWaits(ts[i], steps[i], ts[i + 1]);
    var due := Back(ts[i], steps[i]).value.time;
    hide Next, Enabled, WellFormed, Waits, Ticked;
    WaitingService(interval, ts, steps, i + 1, j, x.id, due, y, 2);
  }

  lemma BackWaits(t: Timed, s: Step, t': Timed)
    requires WellFormed(t.sched) && StepTo(t, s, t') && s.Turn? && Ticked(t, s).Some? && t.sched.heap[0].live
    ensures Back(t, s).Some?
    ensures Waits(t'.sched.heap, t.sched.heap[0].id, Back(t, s).value.time)
    ensures 10 * (Back(t, s).value.time - t'.clock) <= 11 * t.sched.interval + 5 * TENTH
  {
    hide WellFormed, NewCheckInterval, Jitter, Schedulable, Iterate, Schedule, Remove;
    TurnParts(t, s, t');
    GapBounds(t.sched.interval, s.jitter);
    var back := Back(t, s).value;
    assert back in multiset(t'.sched.heap);
  }

  /** Before a newly scheduled service is ticked for the first time, a service that never returns early is
      not ticked four times. */
  lemma ServiceAtMostThriceBeforeFirstTick(interval: Duration, ts: seq<Timed>, steps: seq<Step>, i: nat, j: nat, y: Id)
    requires Run(interval, ts, steps) && i < j <= |steps| && NeverReturnsEarly(ts, steps, j, y) && steps[i].Add?
    requires steps[i].id != y && (forall k :: i < k < j ==> steps[k] != Drop(steps[i].id))
    requires TicksOf(TickLog(ts, steps), i + 1, j, steps[i].id) == 0
    ensures TicksOf(TickLog(ts, steps), i + 1, j, y) <= 3
  {
    RunKeeps(interval, ts, steps, i);
    assert StepTo(ts[i], steps[i], ts[i + 1]);
    var due := AddedWaits(ts[i], steps[i], ts[i + 1]);
    hide Next, Enabled, WellFormed, Waits;
    WaitingService(interval, ts, steps, i + 1, j, steps[i].id, due, y, 3);
  }

  lemma AddedWaits(t: Timed, s: Step, t': Timed) returns (due: int)
    requires WellFormed(t.sched) && StepTo(t, s, t') && s.Add?
    ensures Waits(t'.sched.heap, s.id, due) && t'.sched.interval == t.sched.interval
    ensures 10 * (due - t'.clock) <= 21 * t.sched.interval + 5 * TENTH - 10 * OFFSET
  {
    hide NewCheckInterval, Schedulable, MaxOffsets, Jitter, RoundTenth;
    GapBounds(t.sched.interval, s.jitter);
    var gap := NewCheckInterval(t.sched.interval, s.jitter);
    ScheduleAdds(t.sched, s.id, t.nextTag, s.now, gap);
    var e :| multiset(t'.sched.heap) == multiset(t.sched.heap) + multiset{e} && e.id == s.id && e.live
             && s.now + gap <= e.time <= s.now + gap + Abs(t.sched.interval) - OFFSET;
    assert e in multiset(t'.sched.heap);
    due := e.time;
  }
}
