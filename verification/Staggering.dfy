/** How one scheduler spreads its services over the interval. */
module Staggering {
  import opened Basics
  import opened Services
  import opened Heaps
  import opened Schedulers

  const HALF_SECOND := 500_000_000

  /** How many half seconds there are in an interval, of either sign. */
  function HalfSeconds(interval: Duration): nat {
    Abs(interval) / HALF_SECOND
  }

  datatype Op =
    | Add(id: Id, tag: nat, now: int, gap: Duration)
    | Drop(id: Id)
    | Turn(now: int, gap: Duration)
    | Halt

  function Apply(s: Scheduler, op: Op): Scheduler {
    match op
    case Add(id, tag, now, gap) => if Schedulable(s.interval) then Schedule(s, id, tag, now, gap) else s
    case Drop(id) => Remove(s, id).0
    case Turn(now, gap) => Iterate(s, now, gap)
    case Halt => s.(stopped := true)
  }

  function After(interval: Duration, ops: seq<Op>): Scheduler {
    if ops == [] then NewScheduler(interval) else Apply(After(interval, ops[..|ops| - 1]), ops[|ops| - 1])
  }

  /** How many services have been scheduled, whatever has become of them. */
  function Adds(ops: seq<Op>): nat {
    if ops == [] then 0 else Adds(ops[..|ops| - 1]) + if ops[|ops| - 1].Add? then 1 else 0
  }

  lemma HalfSecondsMeans(interval: Duration)
    ensures Abs(MaxOffsets(interval)) == HalfSeconds(interval)
    ensures Schedulable(interval) <==> HalfSeconds(interval) > 0
  {
  }

  lemma {:induction false} AtLeastOnce(k: nat, n: nat)
    requires k > 0
    ensures k * n >= n
  {
    if k > 1 {
      var l: int := k - 1;
      assert k * n == l * n + n;
      AtLeastOnce(k - 1, n);
    }
  }

  /** The residue of a number is known from any way to write it as a multiple and a small rest. */
  lemma Residue(x: int, q: int, r: int, n: int)
    requires x == q * n + r && 0 <= r < n
    ensures x % n == r
  {
    var p, t := x / n, x % n;
    assert x == p * n + t;
    assert (p - q) * n == r - t && (q - p) * n == t - r;
    if p > q {
      AtLeastOnce(p - q, n);
    } else if q > p {
      AtLeastOnce(q - p, n);
    }
  }

  /** Going round, with a modulus of either sign. */
  lemma NextRound(a: int, m: int, n: int)
    requires n > 0 && (m == n || m == -n)
    ensures (a % n + 1) % m == (a + 1) % n
  {
    var q, r := a / n, a % n;
    assert a == q * n + r;
    EitherSign(r + 1, m, n);
    if r + 1 == n {
      assert (q + 1) * n == q * n + n;
      Residue(a + 1, q + 1, 0, n);
      Residue(n, 1, 0, n);
    } else {
      Residue(a + 1, q, r + 1, n);
      Residue(r + 1, 0, r + 1, n);
    }
  }

  lemma EitherSign(x: int, m: int, n: int)
    requires n > 0 && (m == n || m == -n)
    ensures x % m == x % n
  {
    if m == -n {
      var q, r := x / m, x % m;
      assert x == q * m + r && 0 <= r < n;
      assert q * m == -q * n;
      Residue(x, -q, r, n);
    }
  }

  lemma ApplyKeeps(s: Scheduler, op: Op)
    requires WellFormed(s)
    ensures var t := Apply(s, op);
            && WellFormed(t) && t.interval == s.interval
            && t.nextOffset == if op.Add? then (s.nextOffset + 1) % MaxOffsets(s.interval) else s.nextOffset
  {
    match op
    case Add(id, tag, now, gap) =>
      ScheduleAdds(s, id, tag, now, gap);
      SchedulableMeans(s.interval);
      hide WellFormed, Push, MaxOffsets;
    case Drop(id) =>
      RemoveTakesOut(s, id);
      hide WellFormed, RemoveAt;
    case Turn(now, gap) =>
      IterateReschedules(s, now, gap);
      hide WellFormed, Push, Pop;
    case Halt =>
  }

  function InRound(j: nat, n: nat): nat
    requires n > 0
  {
    j % n
  }

  lemma InRoundNext(j: nat, m: int, n: int)
    requires n > 0 && (m == n || m == -n)
    ensures (InRound(j, n) + 1) % m == InRound(j + 1, n)
    ensures InRound(0, n) == 0
  {
    NextRound(j, m, n);
    Residue(0, 0, 0, n);
  }

  lemma OffsetBegins(interval: Duration)
    requires Schedulable(interval)
    ensures HalfSeconds(interval) > 0 && InRound(0, HalfSeconds(interval)) == 0
    ensures WellFormed(NewScheduler(interval)) && NewScheduler(interval).nextOffset == 0
    ensures NewScheduler(interval).interval == interval
  {
    HalfSecondsMeans(interval);
    NewIsWellFormed(interval);
    hide WellFormed, HalfSeconds, InRound, MaxOffsets, Schedulable;
    InRoundNext(0, HalfSeconds(interval), HalfSeconds(interval));
  }

  lemma OffsetGoesOn(interval: Duration, j: nat)
    requires HalfSeconds(interval) > 0
    ensures MaxOffsets(interval) != 0
    ensures (InRound(j, HalfSeconds(interval)) + 1) % MaxOffsets(interval) == InRound(j + 1, HalfSeconds(interval))
  {
    HalfSecondsMeans(interval);
    hide HalfSeconds, MaxOffsets, InRound;
    InRoundNext(j, MaxOffsets(interval), HalfSeconds(interval));
  }

  /** The offset counts the services scheduled so far, round after round. */
  lemma {:induction false} OffsetCounts(interval: Duration, ops: seq<Op>)
    requires Schedulable(interval)
    ensures var s := After(interval, ops);
            HalfSeconds(interval) > 0 && WellFormed(s) && s.interval == interval
            && s.nextOffset == InRound(Adds(ops), HalfSeconds(interval))
  {
    hide WellFormed, Apply, MaxOffsets, Schedulable, HalfSeconds, InRound, NewScheduler;
    OffsetBegins(interval);
    if ops != [] {
      var before := ops[..|ops| - 1];
      OffsetCounts(interval, before);
      ApplyKeeps(After(interval, before), ops[|ops| - 1]);
      OffsetGoesOn(interval, Adds(before));
    }
  }

  /** Whatever else is scheduled, removed or checked before: with `n` half seconds in the interval, the `j`-th service
      to be scheduled, counted from 0, is due `j % n` half seconds after its plain gap. */
  lemma DueStaggered(interval: Duration, ops: seq<Op>, id: Id, tag: nat, now: int, gap: Duration)
    requires Schedulable(interval)
    ensures var h, r := After(interval, ops).heap, After(interval, ops + [Add(id, tag, now, gap)]).heap;
            var due := now + gap + (Adds(ops) % HalfSeconds(interval)) * HALF_SECOND;
            HalfSeconds(interval) > 0 && multiset(r) == multiset(h) + multiset{Entry(tag, id, due, true)}
  {
    hide *;
    DueInRound(interval, ops, id, tag, now, gap);
    InRoundMeans(Adds(ops), HalfSeconds(interval));
  }

  lemma InRoundMeans(j: nat, n: nat)
    requires n > 0
    ensures InRound(j, n) == j % n
  {
  }

  lemma DueInRound(interval: Duration, ops: seq<Op>, id: Id, tag: nat, now: int, gap: Duration)
    requires Schedulable(interval)
    ensures var h, r := After(interval, ops).heap, After(interval, ops + [Add(id, tag, now, gap)]).heap;
            HalfSeconds(interval) > 0
            && var due := now + gap + InRound(Adds(ops), HalfSeconds(interval)) * HALF_SECOND;
               multiset(r) == multiset(h) + multiset{Entry(tag, id, due, true)}
  {
    hide *;
    OffsetCounts(interval, ops);
    AfterOneMore(interval, ops, id, tag, now, gap);
    ScheduledEntry(After(interval, ops), id, tag, now, gap);
  }

  lemma AfterOneMore(interval: Duration, ops: seq<Op>, id: Id, tag: nat, now: int, gap: Duration)
    requires Schedulable(After(interval, ops).interval)
    ensures After(interval, ops + [Add(id, tag, now, gap)]) == Schedule(After(interval, ops), id, tag, now, gap)
  {
    hide Schedule, Schedulable, Remove, Iterate;
    assert (ops + [Add(id, tag, now, gap)])[..|ops|] == ops;
  }

  lemma ScheduledEntry(s: Scheduler, id: Id, tag: nat, now: int, gap: Duration)
    requires Schedulable(s.interval)
    ensures multiset(Schedule(s, id, tag, now, gap).heap)
         == multiset(s.heap) + multiset{Entry(tag, id, now + gap + s.nextOffset * HALF_SECOND, true)}
  {
    hide Push, MaxOffsets;
    SchedulableMeans(s.interval);
    PushAdds(s.heap, Entry(tag, id, now + OFFSET * s.nextOffset + gap, true));
  }

  /** So any `n` services scheduled one after the other get different offsets. */
  lemma OffsetsDiffer(i: nat, j: nat, n: nat)
    requires i < j < i + n
    ensures i % n != j % n
  {
    var q, r, d := i / n, i % n, j - i;
    assert i == q * n + r;
    if r + d < n {
      Residue(j, q, r + d, n);
    } else {
      assert (q + 1) * n == q * n + n;
      Residue(j, q + 1, r + d - n, n);
    }
  }
}
