/** The ring buffer behind a service's average round-trip time. */
module RoundTrips {
  type Duration = int

  const CAPACITY := 20

  function Sum(ds: seq<Duration>): Duration {
    if ds == [] then 0 else Sum(ds[..|ds| - 1]) + ds[|ds| - 1]
  }

  function Least(a: nat, b: nat): nat {
    if a < b then a else b
  }

  /** Where the n-th recording goes. */
  function Slot(n: nat): (i: nat)
    ensures i < CAPACITY
  {
    n % CAPACITY
  }

  function Next(i: nat): nat {
    (i + 1) % CAPACITY
  }

  /** The last recordings, at most twenty. */
  function Latest(history: seq<Duration>): seq<Duration> {
    history[|history| - Least(|history|, CAPACITY)..]
  }

  /** Go's integer division, which truncates toward zero. */
  function Quotient(a: int, b: int): int
    requires b > 0
  {
    if a >= 0 then a / b else -(-a / b)
  }

  function Average(history: seq<Duration>): Duration {
    if history == [] then 0 else Quotient(Sum(Latest(history)), |Latest(history)|)
  }

  lemma {:induction false} SumSplits(a: seq<Duration>, b: seq<Duration>)
    ensures Sum(a + b) == Sum(a) + Sum(b)
  {
    if b == [] {
      assert a + b == a;
    } else {
      assert (a + b)[..|a + b| - 1] == a + b[..|b| - 1];
      SumSplits(a, b[..|b| - 1]);
    }
  }

  lemma SumOverwritten(a: seq<Duration>, i: nat, x: Duration)
    requires i < |a|
    ensures Sum(a[i := x]) == Sum(a) - a[i] + x
  {
    assert a == a[..i] + ([a[i]] + a[i + 1..]) && a[i := x] == a[..i] + ([x] + a[i + 1..]);
    SumSplits(a[..i], [a[i]] + a[i + 1..]);
    SumSplits([a[i]], a[i + 1..]);
    SumSplits(a[..i], [x] + a[i + 1..]);
    SumSplits([x], a[i + 1..]);
    assert Sum([x]) == x && Sum([a[i]]) == a[i];
  }

  /** The ring holds the latest recordings, the most recent before index `Slot(|history|)`, and
      zeros where nothing has been recorded yet. */
  ghost predicate Holds(ring: seq<Duration>, history: seq<Duration>) {
    && |ring| == CAPACITY
    && (forall k :: 0 <= k < |history| && |history| - k <= CAPACITY ==> ring[Slot(k)] == history[k])
    && (forall j :: |history| <= j < CAPACITY ==> ring[j] == 0)
  }

  ghost predicate Ring(ring: seq<Duration>, history: seq<Duration>) {
    Holds(ring, history) && Sum(ring) == Sum(Latest(history))
  }

  lemma RingSlot(n: nat)
    ensures n >= CAPACITY ==> Slot(n - CAPACITY) == Slot(n)
    ensures n < CAPACITY ==> Slot(n) == n
    ensures forall k :: n - CAPACITY < k < n && 0 <= k ==> Slot(k) != Slot(n)
  {
  }

  lemma HoldsNext(ring: seq<Duration>, history: seq<Duration>, x: Duration)
    requires Holds(ring, history)
    ensures Holds(ring[Slot(|history|) := x], history + [x])
    ensures ring[Slot(|history|)] == if |history| >= CAPACITY then history[|history| - CAPACITY] else 0
  {
    var h := history + [x];
    RingSlot(|history|);
    hide Slot;
    forall k | 0 <= k < |h| && |h| - k <= CAPACITY ensures ring[Slot(|history|) := x][Slot(k)] == h[k] {
    }
  }

  lemma LatestNext(history: seq<Duration>, x: Duration)
    ensures Sum(Latest(history + [x])) ==
            Sum(Latest(history)) + x - if |history| >= CAPACITY then history[|history| - CAPACITY] else 0
  {
    var l, h := Latest(history), history + [x];
    SumOne(x);
    if |history| >= CAPACITY {
      assert Latest(h) == l[1..] + [x] && l == [l[0]] + l[1..];
      SumOne(l[0]);
      hide Sum;
      SumSplits(l[1..], [x]);
      SumSplits([l[0]], l[1..]);
    } else {
      assert l == history && Latest(h) == h;
      hide Sum;
      SumSplits(history, [x]);
    }
  }

  /** Recording overwrites the oldest of twenty recordings, or fills the next empty slot. */
  lemma RecordKeeps(ring: seq<Duration>, history: seq<Duration>, x: Duration)
    requires Ring(ring, history)
    ensures |ring| == CAPACITY && Ring(ring[Slot(|history|) := x], history + [x])
  {
    HoldsNext(ring, history, x);
    LatestNext(history, x);
    hide Sum, Latest, Slot;
    SumOverwritten(ring, Slot(|history|), x);
  }

  lemma SumOne(x: Duration)
    ensures Sum([x]) == x
  {
    assert [x][..0] == [];
  }

  lemma {:induction false} SumOfZeros(s: seq<Duration>)
    requires forall i :: 0 <= i < |s| ==> s[i] == 0
    ensures Sum(s) == 0
  {
    if s != [] {
      SumOfZeros(s[..|s| - 1]);
    }
  }

  /** The index and the count after one more recording. */
  lemma Advance(n: nat)
    ensures Next(Slot(n)) == Slot(n + 1)
    ensures Least(n + 1, CAPACITY) == if Least(n, CAPACITY) < CAPACITY then Least(n, CAPACITY) + 1
             else Least(n, CAPACITY)
  {
  }

  lemma {:induction false} SumBounds(s: seq<Duration>, lo: Duration, hi: Duration)
    requires forall i :: 0 <= i < |s| ==> lo <= s[i] <= hi
    ensures lo * |s| <= Sum(s) <= hi * |s|
  {
    if s != [] {
      SumBounds(s[..|s| - 1], lo, hi);
    }
  }

  /** The average lies between the shortest and the longest of the last twenty trips; older ones have no
      influence. */
  lemma AverageIsWithin(history: seq<Duration>, lo: Duration, hi: Duration)
    requires history != [] && 0 <= lo
    requires forall i :: 0 <= i < |history| && i >= |history| - CAPACITY ==> lo <= history[i] <= hi
    ensures lo <= Average(history) <= hi
  {
    var l := Latest(history);
    assert forall i :: 0 <= i < |l| ==> l[i] == history[|history| - |l| + i];
    SumBounds(l, lo, hi);
    hide Sum;
    QuotientBounds(Sum(l), |l|, lo, hi);
  }

  lemma Scaled(a: int, b: int, c: nat)
    requires a <= b
    ensures a * c <= b * c
  {
  }

  lemma QuotientBounds(a: int, b: int, lo: int, hi: int)
    requires b > 0 && 0 <= lo && lo * b <= a <= hi * b
    ensures lo <= Quotient(a, b) <= hi
  {
    assert 0 <= lo * b;
    var q := a / b;
    assert q * b <= a < (q + 1) * b;
    if q < lo {
      Scaled(q + 1, lo, b);
    }
    if q > hi {
      Scaled(hi + 1, q, b);
    }
  }

  /** The average of at most twenty trips, rounded towards zero. */
  lemma AverageRounds(history: seq<Duration>)
    requires history != []
    ensures var n := if |history| < 20 then |history| else 20;
            var total, average := Sum(history[|history| - n..]), Average(history);
            if total >= 0 then average * n <= total < (average + 1) * n else (average - 1) * n < total <= average * n
  {
    var n := if |history| < 20 then |history| else 20;
    var total := Sum(history[|history| - n..]);
    hide Sum;
    assert Average(history) == Quotient(total, n);
    QuotientRounds(total, n);
  }

  lemma QuotientRounds(a: int, b: int)
    requires b > 0
    ensures var q := Quotient(a, b);
            if a >= 0 then q * b <= a < (q + 1) * b else (q - 1) * b < a <= q * b
  {
    var m := if a >= 0 then a else -a;
    var q, r := m / b, m % b;
    assert m == q * b + r;
    assert (q + 1) * b == q * b + b && (-q - 1) * b == -(q * b) - b && -q * b == -(q * b);
  }

  class RoundTripper {
    var currentTripStart: int
    const roundtrips: array<Duration>
    var roundtripIdx: nat
    var count: nat
    ghost var history: seq<Duration>

    ghost predicate Valid()
      reads this, roundtrips
    {
      && Ring(roundtrips[..], history)
      && roundtripIdx == Slot(|history|) && count == Least(|history|, CAPACITY)
    }

    constructor ()
      ensures Valid() && history == [] && fresh(roundtrips)
    {
      roundtrips := new Duration[CAPACITY](_ => 0);
      currentTripStart, roundtripIdx, count, history := 0, 0, 0, [];
      new;
      SumOfZeros(roundtrips[..]);
    }

    method StartRecording(now: int)
      requires Valid()
      modifies this`currentTripStart
      ensures Valid() && currentTripStart == now
    {
      currentTripStart := now;
    }

    method EndRecording(now: int)
      requires Valid()
      modifies this`roundtripIdx, this`count, this`history, roundtrips
      ensures Valid() && history == old(history) + [now - currentTripStart]
    {
      var trip := now - currentTripStart;
      RecordKeeps(roundtrips[..], history, trip);
      Advance(|history|);
      hide Ring, Least, Slot, Next;
      assert roundtrips.Length == CAPACITY;
      ghost var recorded := roundtrips[..][roundtripIdx := trip];
      roundtrips[roundtripIdx] := trip;
      assert roundtrips[..] == recorded;
      roundtripIdx := Next(roundtripIdx);
      if count < CAPACITY {
        count := count + 1;
      }
      history := history + [trip];
    }

    /** The average of everything recorded so far, or rather of its last twenty. */
    method AverageRoundtripTime() returns (average: Duration)
      requires Valid()
      ensures average == Average(history)
    {
      if count == 0 {
        return 0;
      }
      var sum := 0;
      for i := 0 to roundtrips.Length
        invariant sum == Sum(roundtrips[..i])
      {
        assert roundtrips[..i + 1][..i] == roundtrips[..i];
        sum := sum + roundtrips[i];
      }
      assert roundtrips[..roundtrips.Length] == roundtrips[..];
      return Quotient(sum, count);
    }
  }
}
