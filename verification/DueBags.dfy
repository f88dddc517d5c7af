/** The waiting argument behind scheduler fairness, on bags of entries: it needs nothing about heaps
    except that the entry ticked is one that no other is due before. */
module DueBags {
  import opened Basics
  import opened Heaps

  /** `gap` is ten times the shortest gap between two checks of a service. */
  datatype Bag = Bag(entries: multiset<Entry>, clock: int, nextTag: nat, gap: int)

  ghost predicate UniqueTags(m: multiset<Entry>) {
    && (forall e :: e in m ==> m[e] == 1)
    && (forall e, f :: e in m && f in m && e.tag == f.tag ==> e == f)
  }

  ghost predicate Good(b: Bag) {
    && b.gap > 0
    && UniqueTags(b.entries)
    && forall e :: e in b.entries ==> e.tag < b.nextTag
  }

  /** Entries `m` with at most `out` gone and at most `put` new. */
  ghost predicate Exchanged(m: multiset<Entry>, m': multiset<Entry>, out: Option<Entry>, put: Option<Entry>) {
    && (out.Some? ==> out.value in m)
    && m' == (if out.Some? then m - multiset{out.value} else m)
             + (if put.Some? then multiset{put.value} else multiset{})
  }

  /** A step that ticks nothing adds one entry, or takes one out, or marks one dead. */
  ghost predicate Quiet(b: Bag, b': Bag, out: Option<Entry>, put: Option<Entry>) {
    && Exchanged(b.entries, b'.entries, out, put)
    && (put.Some? && out.None? ==> put.value.tag == b.nextTag < b'.nextTag)
    && (put.Some? && out.Some? ==> put.value.tag == out.value.tag && put.value.time == out.value.time)
  }

  /** A tick takes an entry that is due, and that no other is due before; it may come back, due at
      least a short gap from now. */
  ghost predicate Tick(b: Bag, b': Bag, top: Entry, back: Option<Entry>) {
    && Exchanged(b.entries, b'.entries, Some(top), back)
    && (forall e :: e in b.entries ==> top.time <= e.time)
    && top.time <= b'.clock
    && (back.Some? ==> back.value.tag == top.tag && 10 * (back.value.time - b'.clock) >= b.gap)
  }

  ghost predicate Moves(b: Bag, b': Bag, ticked: Option<Entry>) {
    && b'.clock >= b.clock && b'.nextTag >= b.nextTag && b'.gap == b.gap
    && if ticked.Some? then exists back :: Tick(b, b', ticked.value, back)
       else exists out, put :: Quiet(b, b', out, put)
  }

  ghost predicate Trace(bs: seq<Bag>, ticks: seq<Option<Entry>>) {
    && |bs| == |ticks| + 1
    && forall k :: 0 <= k < |ticks| ==> Moves(bs[k], bs[k + 1], ticks[k])
  }

  predicate Ticks(t: Option<Entry>, tag: nat) {
    t.Some? && t.value.tag == tag
  }

  /** Number of ticks of `tag` among steps [i, j). */
  function Count(ticks: seq<Option<Entry>>, i: nat, j: nat, tag: nat): nat
    requires i <= j <= |ticks|
  {
    if i == j then 0 else Count(ticks, i, j - 1, tag) + if Ticks(ticks[j - 1], tag) then 1 else 0
  }

  ghost predicate Holds(b: Bag, tag: nat) {
    exists e :: e in b.entries && e.tag == tag
  }

  // ---------- Tags stay unique ----------

  lemma ExchangeUnique(m: multiset<Entry>, m': multiset<Entry>, out: Option<Entry>, put: Option<Entry>)
    requires UniqueTags(m) && Exchanged(m, m', out, put)
    requires put.Some? ==> forall e :: e in m && Some(e) != out ==> e.tag != put.value.tag
    ensures UniqueTags(m')
    ensures forall e :: e in m' <==> Some(e) == put || (e in m && Some(e) != out)
  {
    var rest := if out.Some? then m - multiset{out.value} else m;
    assert forall e :: e in rest <==> e in m && Some(e) != out;
    assert UniqueTags(rest);
  }

  lemma MovesGood(b: Bag, b': Bag, ticked: Option<Entry>)
    requires Good(b) && Moves(b, b', ticked)
    ensures Good(b')
  {
    if ticked.Some? {
      var back :| Tick(b, b', ticked.value, back);
      ExchangeUnique(b.entries, b'.entries, ticked, back);
    } else {
      var out, put :| Quiet(b, b', out, put);
      ExchangeUnique(b.entries, b'.entries, out, put);
    }
  }

  lemma {:induction false} TraceGood(bs: seq<Bag>, ticks: seq<Option<Entry>>, k: nat)
    requires Trace(bs, ticks) && Good(bs[0]) && k < |bs|
    ensures Good(bs[k]) && bs[k].gap == bs[0].gap
  {
    if k > 0 {
      TraceGood(bs, ticks, k - 1);
      MovesGood(bs[k - 1], bs[k], ticks[k - 1]);
    }
  }

  // ---------- Waiting ----------

  ghost predicate DueAt(b: Bag, tag: nat, due: int) {
    tag < b.nextTag && forall e :: e in b.entries && e.tag == tag ==> e.time == due
  }

  /** What `c` ticks of `tag` since `start` imply about when it is due next. */
  ghost predicate Deferred(b: Bag, tag: nat, start: int, c: nat) {
    c >= 1 ==>
      tag < b.nextTag && forall e :: e in b.entries && e.tag == tag ==> 10 * e.time >= 10 * start + c * b.gap
  }

  /** An old entry that is not ticked keeps its due time, and cannot appear out of nothing. */
  lemma KeepsWaiting(b: Bag, b': Bag, ticked: Option<Entry>, x: nat)
    requires Good(b) && Moves(b, b', ticked) && x < b.nextTag && !Ticks(ticked, x)
    ensures Holds(b', x) ==> Holds(b, x)
    ensures forall e' :: e' in b'.entries && e'.tag == x ==>
                           exists e :: e in b.entries && e.tag == x && e.time == e'.time
  {
    if ticked.Some? {
      var back :| Tick(b, b', ticked.value, back);
      ExchangeUnique(b.entries, b'.entries, ticked, back);
    } else {
      var out, put :| Quiet(b, b', out, put);
      ExchangeUnique(b.entries, b'.entries, out, put);
    }
  }

  /** A tick puts the entry at least one more short gap behind `start`. */
  lemma TickDefers(b: Bag, b': Bag, ticked: Option<Entry>, y: nat, start: int, c: nat)
    requires Good(b) && Moves(b, b', ticked) && Ticks(ticked, y)
    requires b.clock >= start && Deferred(b, y, start, c)
    ensures Deferred(b', y, start, c + 1)
  {
    var top := ticked.value;
    var back :| Tick(b, b', top, back);
    ExchangeUnique(b.entries, b'.entries, ticked, back);
    assert (c + 1) * b.gap == c * b.gap + b.gap;
    assert 10 * b'.clock >= 10 * start + c * b.gap by {
      assert c == 0 ==> c * b.gap == 0;
    }
    forall e | e in b'.entries && e.tag == y
      ensures Some(e) == back
    {
    }
  }

  lemma StaysDeferred(b: Bag, b': Bag, ticked: Option<Entry>, y: nat, start: int, c: nat)
    requires Good(b) && Moves(b, b', ticked) && !Ticks(ticked, y)
    requires Deferred(b, y, start, c)
    ensures Deferred(b', y, start, c)
  {
    if c >= 1 {
      KeepsWaiting(b, b', ticked, y);
    }
  }

  /** An entry that is due behind `x` does not tick, so `y` has not yet ticked `m` times. */
  lemma TickBounded(b: Bag, b': Bag, ticked: Option<Entry>, x: nat, due: int, y: nat, start: int, c: nat, m: nat)
    requires Moves(b, b', ticked) && Ticks(ticked, y)
    requires Holds(b, x) && DueAt(b, x, due) && Deferred(b, y, start, c)
    requires 10 * (due - start) < m * b.gap && m >= 1
    ensures c != m
  {
    var back :| Tick(b, b', ticked.value, back);
    var e :| e in b.entries && e.tag == x;
    assert ticked.value.time <= e.time == due;
  }

  lemma WaitingStep(b: Bag, b': Bag, ticked: Option<Entry>, x: nat, due: int, y: nat, start: int, c: nat, m: nat)
    requires Good(b) && Moves(b, b', ticked) && b.clock >= start
    requires !Ticks(ticked, x) && Holds(b, x) && DueAt(b, x, due)
    requires Deferred(b, y, start, c) && c <= m
    requires 10 * (due - start) < m * b.gap && m >= 1
    ensures var c' := c + if Ticks(ticked, y) then 1 else 0;
            DueAt(b', x, due) && c' <= m && Deferred(b', y, start, c')
  {
    KeepsWaiting(b, b', ticked, x);
    if Ticks(ticked, y) {
      TickBounded(b, b', ticked, x, due, y, start, c, m);
      TickDefers(b, b', ticked, y, start, c);
    } else {
      StaysDeferred(b, b', ticked, y, start, c);
    }
  }

  /** While `x` waits from step `i` to step `j` for a time less than `m` short gaps away, no other
      entry ticks more than `m` times. */
  lemma {:induction false} Waiting(
      bs: seq<Bag>, ticks: seq<Option<Entry>>, i: nat, j: nat, x: nat, due: int, y: nat, m: nat)
    requires Trace(bs, ticks) && Good(bs[0]) && i <= j <= |ticks|
    requires DueAt(bs[i], x, due) && 10 * (due - bs[i].clock) < m * bs[0].gap && m >= 1
    requires Count(ticks, i, j, x) == 0 && Holds(bs[j], x)
    ensures Count(ticks, i, j, y) <= m
    ensures DueAt(bs[j], x, due) && bs[j].clock >= bs[i].clock
    ensures Deferred(bs[j], y, bs[i].clock, Count(ticks, i, j, y))
    decreases j
  {
    hide Quiet, Tick, Good, UniqueTags, Moves;
    if i < j {
      LastStep(bs, ticks, i, j, x);
      Waiting(bs, ticks, i, j - 1, x, due, y, m);
      WaitingStep(bs[j - 1], bs[j], ticks[j - 1], x, due, y, bs[i].clock, Count(ticks, i, j - 1, y), m);
    }
  }

  lemma LastStep(bs: seq<Bag>, ticks: seq<Option<Entry>>, i: nat, j: nat, x: nat)
    requires Trace(bs, ticks) && Good(bs[0]) && i < j <= |ticks| && x < bs[i].nextTag
    requires Count(ticks, i, j, x) == 0 && Holds(bs[j], x)
    ensures Moves(bs[j - 1], bs[j], ticks[j - 1]) && bs[j].clock >= bs[j - 1].clock
    ensures Good(bs[j - 1]) && bs[j - 1].gap == bs[0].gap && Holds(bs[j - 1], x)
    ensures !Ticks(ticks[j - 1], x) && Count(ticks, i, j - 1, x) == 0
  {
    hide Quiet, Tick, Good, UniqueTags;
    assert Moves(bs[j - 1], bs[j - 1 + 1], ticks[j - 1]);
    TraceGood(bs, ticks, j - 1);
    TagsGrow(bs, ticks, i, j - 1);
    KeepsWaiting(bs[j - 1], bs[j], ticks[j - 1], x);
  }

  lemma {:induction false} TagsGrow(bs: seq<Bag>, ticks: seq<Option<Entry>>, i: nat, j: nat)
    requires Trace(bs, ticks) && i <= j < |bs|
    ensures bs[i].nextTag <= bs[j].nextTag
    decreases j
  {
    if i < j {
      TagsGrow(bs, ticks, i, j - 1);
      assert Moves(bs[j - 1], bs[j - 1 + 1], ticks[j - 1]);
    }
  }
}
