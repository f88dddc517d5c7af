/** A run of one scheduler in which early returns make it unfair. */
module UnfairRuns {
  import opened Basics
  import opened Services
  import opened Heaps
  import opened Schedulers
  import opened Fairness
  import opened ServiceFairness

  lemma Rounding()
    ensures RoundTenth(OFFSET) == 5 * TENTH && RoundTenth(OFFSET + TENTH / 2) == 6 * TENTH
  {
    assert OFFSET == 500_000_000 && TENTH == 100_000_000 && OFFSET + TENTH / 2 == 550_000_000;
    assert 500_000_000 % 100_000_000 == 0 && 550_000_000 % 100_000_000 == 50_000_000;
  }

  /** The longest and the shortest gap at an interval of half a second. */
  lemma Gaps()
    ensures Schedulable(OFFSET) && MaxOffsets(OFFSET) == 1
    ensures Jitter(OFFSET, 0) && NewCheckInterval(OFFSET, 0) == 5 * TENTH
    ensures Jitter(OFFSET, TENTH / 2) && NewCheckInterval(OFFSET, TENTH / 2) == 6 * TENTH
  {
    Rounding();
    hide RoundTenth;
  }

  function At(tag: nat, id: Id, tenths: int, live: bool): Entry {
    Entry(tag, id, tenths * TENTH, live)
  }

  function Loop(heap: seq<Entry>, tenths: int, nextTag: nat): Timed {
    Timed(Scheduler(OFFSET, 0, heap, true, false), tenths * TENTH, nextTag)
  }

  lemma PushTo1(a: Entry, b: Entry)
    requires !Less(b, a)
    ensures Push([a], b) == [a, b]
  {
    assert [a] + [b] == [a, b];
  }

  lemma PushTo2(a: Entry, b: Entry, c: Entry)
    requires !Less(c, a)
    ensures Push([a, b], c) == [a, b, c]
  {
    assert [a, b] + [c] == [a, b, c];
  }

  lemma PushTo3(a: Entry, b: Entry, c: Entry, d: Entry)
    requires Less(d, b) && !Less(d, a)
    ensures Push([a, b, c], d) == [a, d, c, b]
  {
    assert [a, b, c] + [d] == [a, b, c, d];
    assert Swap([a, b, c, d], 1, 3) == [a, d, c, b];
  }

  lemma Pop2(a: Entry, b: Entry)
    ensures Pop([a, b]) == (a, [b])
  {
    assert Swap([a, b], 0, 1) == [b, a];
    assert [b, a][..1] == [b];
  }

  lemma Pop3(a: Entry, b: Entry, c: Entry)
    ensures Pop([a, b, c]) == (a, if Less(b, c) then [b, c] else [c, b])
  {
    assert Swap([a, b, c], 0, 2) == [c, b, a];
    assert Swap([c, b, a], 0, 1) == [b, c, a];
    assert [b, c, a][..2] == [b, c] && [c, b, a][..2] == [c, b];
  }

  lemma Pop4(a: Entry, b: Entry, c: Entry, d: Entry)
    requires !Less(c, b) && Less(b, d)
    ensures Pop([a, b, c, d]) == (a, [b, d, c])
  {
    assert Swap([a, b, c, d], 0, 3) == [d, b, c, a];
    assert Swap([d, b, c, a], 0, 1) == [b, d, c, a];
    assert [b, d, c, a][..3] == [b, d, c];
  }

  // ---------- The run ----------

  function States(x: Id, y: Id): seq<Timed> {
    [Begin(OFFSET, 0),
     Loop([At(0, x, 5, true)], 0, 1),
     Loop([At(0, x, 5, true), At(1, y, 6, true)], 0, 2),
     Loop([At(1, y, 6, true), At(0, x, 11, true)], 5, 2),
     Loop([At(1, y, 6, false), At(0, x, 11, true)], 5, 2),
     Loop([At(1, y, 6, false), At(0, x, 11, true), At(2, y, 10, true)], 5, 3),
     Loop([At(1, y, 6, false), At(0, x, 11, true), At(2, y, 10, true)], 5, 3),
     Loop([At(1, y, 6, false), At(3, y, 10, true), At(2, y, 10, true), At(0, x, 11, true)], 5, 4),
     Loop([At(3, y, 10, true), At(0, x, 11, true), At(2, y, 10, true)], 6, 4),
     Loop([At(2, y, 10, true), At(0, x, 11, true), At(3, y, 15, true)], 10, 4),
     Loop([At(0, x, 11, true), At(3, y, 15, true), At(2, y, 15, true)], 10, 4)]
  }

  /** Service `y` is removed and added again twice after the tick of `x`. */
  function Steps(x: Id, y: Id): seq<Step> {
    [Add(x, 0, 0), Add(y, 0, TENTH / 2), Turn(5 * TENTH, TENTH / 2),
     Drop(y), Add(y, 5 * TENTH, 0), Drop(y), Add(y, 5 * TENTH, 0),
     Turn(6 * TENTH, 0), Turn(10 * TENTH, 0), Turn(10 * TENTH, 0)]
  }

  lemma Adds(heap: seq<Entry>, clock: int, nextTag: nat, id: Id, jitter: int, tenths: int, after: seq<Entry>)
    requires jitter == 0 || jitter == TENTH / 2
    requires tenths == clock + if jitter == 0 then 5 else 6
    requires heap != [] && after == Push(heap, At(nextTag, id, tenths, true))
    ensures StepTo(Loop(heap, clock, nextTag), Add(id, clock * TENTH, jitter), Loop(after, clock, nextTag + 1))
  {
    Gaps();
    hide Push, MaxOffsets, NewCheckInterval, Schedulable, Jitter;
  }

  lemma Turns(heap: seq<Entry>, clock: int, now: int, nextTag: nat, jitter: int, rest: seq<Entry>, after: seq<Entry>)
    requires jitter == 0 || jitter == TENTH / 2
    requires heap != [] && Pop(heap) == (heap[0], rest) && clock <= now && heap[0].time <= now * TENTH
    requires after == if heap[0].live then Push(rest, heap[0].(time := (now + if jitter == 0 then 5 else 6) * TENTH))
                      else rest
    ensures StepTo(Loop(heap, clock, nextTag), Turn(now * TENTH, jitter), Loop(after, now, nextTag))
  {
    Gaps();
    hide Push, Pop, MaxOffsets, NewCheckInterval, Schedulable, Jitter;
  }

  lemma Drops(top: Entry, rest: seq<Entry>, clock: int, nextTag: nat)
    ensures StepTo(Loop([top] + rest, clock, nextTag), Drop(top.id), Loop([top.(live := false)] + rest, clock, nextTag))
  {
    var h := [top] + rest;
    assert h[0] == top && IndexOfService(h, top.id) == 0;
    assert h[0 := top.(live := false)] == [top.(live := false)] + rest;
    hide IndexOfService, RemoveAt;
  }

  lemma FirstSteps(x: Id, y: Id, ts: seq<Timed>, steps: seq<Step>)
    requires x != y && ts == States(x, y) && steps == Steps(x, y)
    ensures forall k :: 0 <= k < 5 ==> StepTo(ts[k], steps[k], ts[k + 1])
  {
    hide StepTo, Push, Pop;
    var x5, x11, y6 := At(0, x, 5, true), At(0, x, 11, true), At(1, y, 6, true);
    var dead, y2 := At(1, y, 6, false), At(2, y, 10, true);
    FirstAdd(x);
    PushTo1(x5, y6);
    Adds([x5], 0, 1, y, TENTH / 2, 6, [x5, y6]);
    Pop2(x5, y6);
    PushTo1(y6, x11);
    Turns([x5, y6], 0, 5, 2, TENTH / 2, [y6], [y6, x11]);
    Drops(y6, [x11], 5, 2);
    assert [y6] + [x11] == [y6, x11] && [dead] + [x11] == [dead, x11];
    PushTo2(dead, x11, y2);
    Adds([dead, x11], 5, 2, y, 0, 10, [dead, x11, y2]);
    assert ts[0] == Begin(OFFSET, 0) && ts[1] == Loop([x5], 0, 1) && ts[2] == Loop([x5, y6], 0, 2);
    assert ts[3] == Loop([y6, x11], 5, 2) && ts[4] == Loop([dead, x11], 5, 2) && ts[5] == Loop([dead, x11, y2], 5, 3);
  }

  lemma LastSteps(x: Id, y: Id, ts: seq<Timed>, steps: seq<Step>)
    requires x != y && ts == States(x, y) && steps == Steps(x, y)
    ensures forall k :: 5 <= k < 10 ==> StepTo(ts[k], steps[k], ts[k + 1])
  {
    hide StepTo, Push, Pop;
    var x11, dead := At(0, x, 11, true), At(1, y, 6, false);
    var y2, y3 := At(2, y, 10, true), At(3, y, 10, true);
    var z2, z3 := At(2, y, 15, true), At(3, y, 15, true);
    Drops(dead, [x11, y2], 5, 3);
    assert [dead] + [x11, y2] == [dead, x11, y2];
    PushTo3(dead, x11, y2, y3);
    Adds([dead, x11, y2], 5, 3, y, 0, 10, [dead, y3, y2, x11]);
    Pop4(dead, y3, y2, x11);
    Turns([dead, y3, y2, x11], 5, 6, 4, 0, [y3, x11, y2], [y3, x11, y2]);
    Pop3(y3, x11, y2);
    PushTo2(y2, x11, z3);
    Turns([y3, x11, y2], 6, 10, 4, 0, [y2, x11], [y2, x11, z3]);
    Pop3(y2, x11, z3);
    PushTo2(x11, z3, z2);
    Turns([y2, x11, z3], 10, 10, 4, 0, [x11, z3], [x11, z3, z2]);
    assert ts[5] == ts[6] == Loop([dead, x11, y2], 5, 3) && ts[7] == Loop([dead, y3, y2, x11], 5, 4);
    assert ts[8] == Loop([y3, x11, y2], 6, 4) && ts[9] == Loop([y2, x11, z3], 10, 4);
    assert ts[10] == Loop([x11, z3, z2], 10, 4);
  }

  lemma IsRun(x: Id, y: Id)
    requires x != y
    ensures Run(OFFSET, States(x, y), Steps(x, y))
  {
    hide StepTo, At, Loop;
    FirstSteps(x, y, States(x, y), Steps(x, y));
    LastSteps(x, y, States(x, y), Steps(x, y));
  }

  lemma FirstAdd(x: Id)
    ensures StepTo(Begin(OFFSET, 0), Add(x, 0, 0), Loop([At(0, x, 5, true)], 0, 1))
  {
    Gaps();
    assert [] + [At(0, x, 5, true)] == [At(0, x, 5, true)];
    hide MaxOffsets, NewCheckInterval, Schedulable, Jitter;
  }

  /** After the tick of a service that is not removed, another one is ticked three times before the first
      is ticked again. */
  lemma EarlyReturnsAreUnfair(x: Id, y: Id) returns (ts: seq<Timed>, steps: seq<Step>, i: nat)
    requires x != y
    ensures Run(OFFSET, ts, steps) && i < |steps| && (forall k :: i < k < |steps| ==> steps[k] != Drop(x))
    ensures Ticked(ts[i], steps[i]).Some? && Ticked(ts[i], steps[i]).value.id == x && Ticked(ts[i], steps[i]).value.live
    ensures TicksOf(TickLog(ts, steps), i + 1, |steps|, x) == 0
    ensures TicksOf(TickLog(ts, steps), i + 1, |steps|, y) == 3
  {
    ts, steps, i := States(x, y), Steps(x, y), 2;
    IsRun(x, y);
    LogOf(x, y);
    CountLog(TickLog(ts, steps), x, y);
  }

  lemma LogOf(x: Id, y: Id)
    ensures var log := TickLog(States(x, y), Steps(x, y));
            && |log| == 10 && log[3].None? && log[4].None? && log[5].None? && log[6].None?
            && (forall k :: 7 <= k < 10 ==> log[k].Some? && log[k].value.id == y)
  {
  }

  lemma CountLog(log: seq<Option<Entry>>, x: Id, y: Id)
    requires x != y && |log| == 10 && log[3].None? && log[4].None? && log[5].None? && log[6].None?
    requires forall k :: 7 <= k < 10 ==> log[k].Some? && log[k].value.id == y
    ensures TicksOf(log, 3, 10, x) == 0 && TicksOf(log, 3, 10, y) == 3
  {
    assert TicksOf(log, 3, 4, x) == 0 && TicksOf(log, 3, 4, y) == 0;
    assert TicksOf(log, 3, 6, x) == 0 && TicksOf(log, 3, 6, y) == 0;
    assert TicksOf(log, 3, 7, x) == 0 && TicksOf(log, 3, 7, y) == 0;
    assert TicksOf(log, 3, 8, x) == 0 && TicksOf(log, 3, 8, y) == 1;
    assert TicksOf(log, 3, 9, x) == 0 && TicksOf(log, 3, 9, y) == 2;
  }
}
