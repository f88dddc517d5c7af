/** `container/heap` over scheduled services ordered by their next check time. */
module Heaps {
  import opened Basics
  import opened Filters
  import opened Services

  /** `tag` stands for the identity of the heap entry; `live` is `shouldReSchedule`. */
  datatype Entry = Entry(tag: nat, id: Id, time: int, live: bool)

  predicate Less(a: Entry, b: Entry) {
    a.time < b.time
  }

  function Parent(j: nat): (p: nat)
    requires j > 0
    ensures j == 2 * p + 1 || j == 2 * p + 2
  {
    (j - 1) / 2
  }

  function Swap(h: seq<Entry>, i: nat, j: nat): (r: seq<Entry>)
    requires i < |h| && j < |h|
    ensures |r| == |h|
  {
    h[i := h[j]][j := h[i]]
  }

  function Up(h: seq<Entry>, j: nat): (r: seq<Entry>)
    requires j < |h|
    ensures |r| == |h|
    decreases j
  {
    if j == 0 || !Less(h[j], h[Parent(j)]) then h
    else Up(Swap(h, Parent(j), j), Parent(j))
  }

  /** The smaller child of `i` among the first `n` entries. */
  function SmallerChild(h: seq<Entry>, i: nat, n: nat): (c: nat)
    requires 2 * i + 1 < n <= |h|
    ensures c < n && i < c && Parent(c) == i
    ensures forall k: nat :: 0 < k < n && Parent(k) == i ==> !Less(h[k], h[c])
  {
    if 2 * i + 2 < n && Less(h[2 * i + 2], h[2 * i + 1]) then 2 * i + 2 else 2 * i + 1
  }

  predicate Sinks(h: seq<Entry>, i: nat, n: nat)
    requires i < n <= |h|
  {
    2 * i + 1 < n && Less(h[SmallerChild(h, i, n)], h[i])
  }

  function Down(h: seq<Entry>, i: nat, n: nat): (r: seq<Entry>)
    requires i < n <= |h|
    ensures |r| == |h|
    decreases n - i
  {
    if Sinks(h, i, n) then
      var c := SmallerChild(h, i, n);
      Down(Swap(h, i, c), c, n)
    else h
  }

  function Push(h: seq<Entry>, e: Entry): (r: seq<Entry>)
    ensures |r| == |h| + 1
  {
    Up(h + [e], |h|)
  }

  /** Removes and returns the top. */
  function Pop(h: seq<Entry>): (r: (Entry, seq<Entry>))
    requires h != []
    ensures |r.1| == |h| - 1
  {
    var n := |h| - 1;
    var s := Swap(h, 0, n);
    var d := if n > 0 then Down(s, 0, n) else s;
    (d[n], d[..n])
  }

  /** Removes the entry at `i`; the last entry takes its place and moves down or up. */
  function RemoveAt(h: seq<Entry>, i: nat): (r: seq<Entry>)
    requires i < |h|
    ensures |r| == |h| - 1
  {
    var n := |h| - 1;
    if i == n then h[..n]
    else
      var s := Swap(h, i, n);
      if Sinks(s, i, n) then Down(s, i, n)[..n] else Up(s[..n], i)
  }

  // ---------- Contents ----------

  lemma SwapRearranges(h: seq<Entry>, i: nat, j: nat)
    requires i < |h| && j < |h|
    ensures multiset(Swap(h, i, j)) == multiset(h)
  {
  }

  lemma {:induction false} UpRearranges(h: seq<Entry>, j: nat)
    requires j < |h|
    ensures multiset(Up(h, j)) == multiset(h)
    decreases j
  {
    hide Parent;
    if j > 0 && Less(h[j], h[Parent(j)]) {
      SwapRearranges(h, Parent(j), j);
      UpRearranges(Swap(h, Parent(j), j), Parent(j));
    }
  }

  lemma {:induction false} DownRearranges(h: seq<Entry>, i: nat, n: nat)
    requires i < n <= |h|
    ensures multiset(Down(h, i, n)) == multiset(h)
    ensures forall k :: n <= k < |h| ==> Down(h, i, n)[k] == h[k]
    decreases n - i
  {
    hide Parent, Less;
    if Sinks(h, i, n) {
      var c := SmallerChild(h, i, n);
      SwapRearranges(h, i, c);
      DownRearranges(Swap(h, i, c), c, n);
    }
  }

  lemma WithoutLast(h: seq<Entry>)
    requires h != []
    ensures multiset(h) == multiset(h[..|h| - 1]) + multiset{h[|h| - 1]}
  {
    assert h == h[..|h| - 1] + [h[|h| - 1]];
  }

  /** Pushing adds one entry. */
  lemma PushAdds(h: seq<Entry>, e: Entry)
    ensures multiset(Push(h, e)) == multiset(h) + multiset{e}
  {
    UpRearranges(h + [e], |h|);
  }

  /** Popping takes out the first entry. */
  lemma PopTakesTop(h: seq<Entry>)
    requires h != []
    ensures Pop(h).0 == h[0]
    ensures multiset(h) == multiset(Pop(h).1) + multiset{h[0]}
  {
    hide Up, Down;
    var n := |h| - 1;
    var s := Swap(h, 0, n);
    SwapRearranges(h, 0, n);
    if n > 0 {
      DownRearranges(s, 0, n);
      WithoutLast(Down(s, 0, n));
    } else {
      WithoutLast(s);
    }
  }

  lemma SinkingKeeps(s: seq<Entry>, i: nat, n: nat)
    requires n == |s| - 1 && i < n
    ensures multiset(s) == multiset(Down(s, i, n)[..n]) + multiset{s[n]}
  {
    hide Down;
    DownRearranges(s, i, n);
    WithoutLast(Down(s, i, n));
  }

  lemma FloatingKeeps(s: seq<Entry>, i: nat, n: nat)
    requires n == |s| - 1 && i < n
    ensures multiset(s) == multiset(Up(s[..n], i)) + multiset{s[n]}
  {
    hide Up;
    WithoutLast(s);
    UpRearranges(s[..n], i);
  }

  lemma RemoveInnerTakes(h: seq<Entry>, i: nat, n: nat)
    requires n == |h| - 1 && i < n
    ensures multiset(h) == multiset(RemoveAt(h, i)) + multiset{h[i]}
  {
    hide Up, Down, Sinks;
    var s := Swap(h, i, n);
    SwapRearranges(h, i, n);
    assert s[n] == h[i];
    hide Swap;
    SinkingKeeps(s, i, n);
    FloatingKeeps(s, i, n);
  }

  /** Removing takes out the entry at the given index. */
  lemma RemoveAtTakes(h: seq<Entry>, i: nat)
    requires i < |h|
    ensures multiset(h) == multiset(RemoveAt(h, i)) + multiset{h[i]}
  {
    if i == |h| - 1 {
      WithoutLast(h);
    } else {
      RemoveInnerTakes(h, i, |h| - 1);
    }
  }

  function IndexOfService(h: seq<Entry>, id: Id): (i: int)
    ensures -1 <= i < |h|
    ensures i == -1 <==> forall k :: 0 <= k < |h| ==> h[k].id != id
    ensures i != -1 ==> h[i].id == id && forall k :: 0 <= k < i ==> h[k].id != id
  {
    FirstIndex((e: Entry) => e.id == id, h)
  }

  // ---------- Heap order ----------

  /** The first `n` entries form a heap. */
  ghost predicate IsHeapTo(h: seq<Entry>, n: nat)
    requires n <= |h|
  {
    forall j: nat :: 0 < j < n ==> h[Parent(j)].time <= h[j].time
  }

  ghost predicate IsHeap(h: seq<Entry>) {
    IsHeapTo(h, |h|)
  }

  /** A heap but for entry `j`, which may be too small for its place. */
  ghost predicate HeapButUp(h: seq<Entry>, j: nat) {
    && j < |h|
    && (forall k: nat :: 0 < k < |h| && k != j ==> h[Parent(k)].time <= h[k].time)
    && (forall k: nat :: 0 < k < |h| && Parent(k) == j && j > 0 ==> h[Parent(j)].time <= h[k].time)
  }

  /** A heap but for entry `i`, which may be too large for its place. */
  ghost predicate HeapButDown(h: seq<Entry>, i: nat, n: nat) {
    && i < n <= |h|
    && (forall k: nat :: 0 < k < n && Parent(k) != i ==> h[Parent(k)].time <= h[k].time)
    && (forall k: nat :: 0 < k < n && Parent(k) == i && i > 0 ==> h[Parent(i)].time <= h[k].time)
  }

  lemma {:induction false} UpRestores(h: seq<Entry>, j: nat)
    requires HeapButUp(h, j)
    ensures IsHeap(Up(h, j))
    decreases j
  {
    hide Parent;
    if j > 0 && Less(h[j], h[Parent(j)]) {
      UpRestores(Swap(h, Parent(j), j), Parent(j));
    }
  }

  lemma {:induction false} DownRestores(h: seq<Entry>, i: nat, n: nat)
    requires HeapButDown(h, i, n)
    ensures IsHeapTo(Down(h, i, n), n)
    decreases n - i
  {
    if Sinks(h, i, n) {
      var c := SmallerChild(h, i, n);
      DownRestores(Swap(h, i, c), c, n);
    } else {
      forall j: nat | 0 < j < n
        ensures h[Parent(j)].time <= h[j].time
      {
        if Parent(j) == i {
          assert 2 * i + 1 < n;
        }
      }
    }
  }

  lemma PushKeepsHeap(h: seq<Entry>, e: Entry)
    requires IsHeap(h)
    ensures IsHeap(Push(h, e))
  {
    forall k: nat | 0 < k < |h| + 1
      ensures Parent(k) < |h|
    {
    }
    UpRestores(h + [e], |h|);
  }

  lemma PrefixIsHeap(h: seq<Entry>, n: nat)
    requires n <= |h| && IsHeapTo(h, n)
    ensures IsHeap(h[..n])
  {
    assert forall k: nat :: k < n ==> h[..n][k] == h[k];
  }

  /** Replacing the top by the last entry disturbs only the top. */
  lemma TopReplaced(h: seq<Entry>, n: nat)
    requires IsHeap(h) && n == |h| - 1 && n > 0
    ensures HeapButDown(Swap(h, 0, n), 0, n)
  {
    var s := Swap(h, 0, n);
    forall k: nat | 0 < k < n && Parent(k) != 0
      ensures s[Parent(k)].time <= s[k].time
    {
      assert s[k] == h[k] && s[Parent(k)] == h[Parent(k)];
    }
  }

  lemma PopKeepsHeap(h: seq<Entry>)
    requires IsHeap(h) && h != []
    ensures IsHeap(Pop(h).1)
  {
    hide Down, Swap, HeapButDown;
    var n := |h| - 1;
    if n > 0 {
      TopReplaced(h, n);
      DownRestores(Swap(h, 0, n), 0, n);
      PrefixIsHeap(Down(Swap(h, 0, n), 0, n), n);
    }
  }

  /** The last entry, put in place of entry `i`, is too large there: one step down leaves a heap
      but for the child it was exchanged with. */
  lemma ReplacementSinks(h: seq<Entry>, i: nat, n: nat)
    requires IsHeap(h) && n == |h| - 1 && i < n && Sinks(Swap(h, i, n), i, n)
    ensures var s := Swap(h, i, n); var c := SmallerChild(s, i, n);
            HeapButDown(Swap(s, i, c), c, n)
  {
    var s := Swap(h, i, n);
    var c := SmallerChild(s, i, n);
    var t := Swap(s, i, c);
    assert t[i] == h[c] && t[c] == h[n];
    forall k: nat | 0 < k < n && Parent(k) != c
      ensures t[Parent(k)].time <= t[k].time
    {
      if Parent(k) == i {
        assert k != i;
        assert !Less(s[k], s[c]);
      } else if k == i {
        assert h[Parent(i)].time <= h[i].time <= h[c].time;
      } else {
        assert t[k] == h[k] && t[Parent(k)] == h[Parent(k)];
      }
    }
    forall k: nat | 0 < k < n && Parent(k) == c
      ensures t[i].time <= t[k].time
    {
      assert t[k] == h[k];
    }
  }

  /** Otherwise it may only be too small there. */
  lemma ReplacementFloats(h: seq<Entry>, i: nat, n: nat)
    requires IsHeap(h) && n == |h| - 1 && i < n && !Sinks(Swap(h, i, n), i, n)
    ensures HeapButUp(Swap(h, i, n)[..n], i)
  {
    var s := Swap(h, i, n);
    var t := s[..n];
    forall k: nat | 0 < k < n && k != i
      ensures t[Parent(k)].time <= t[k].time
    {
      if Parent(k) == i {
        assert !Less(s[k], s[SmallerChild(s, i, n)]);
      } else {
        assert t[k] == h[k] && t[Parent(k)] == h[Parent(k)];
      }
    }
    forall k: nat | 0 < k < n && Parent(k) == i && i > 0
      ensures t[Parent(i)].time <= t[k].time
    {
      assert h[Parent(i)].time <= h[i].time <= h[k].time;
    }
  }

  lemma RemoveAtKeepsHeap(h: seq<Entry>, i: nat)
    requires IsHeap(h) && i < |h|
    ensures IsHeap(RemoveAt(h, i))
  {
    hide Up, Swap, HeapButDown, HeapButUp;
    var n := |h| - 1;
    if i < n {
      var s := Swap(h, i, n);
      if Sinks(s, i, n) {
        ReplacementSinks(h, i, n);
        var c := SmallerChild(s, i, n);
        assert Down(s, i, n) == Down(Swap(s, i, c), c, n);
        hide Down;
        DownRestores(Swap(s, i, c), c, n);
        PrefixIsHeap(Down(s, i, n), n);
      } else {
        ReplacementFloats(h, i, n);
        UpRestores(s[..n], i);
      }
    } else {
      PrefixIsHeap(h, n);
    }
  }

  /** The top of a heap is the entry that is due first. */
  lemma {:induction false} TopIsDueFirst(h: seq<Entry>, k: nat)
    requires IsHeap(h) && k < |h|
    ensures h[0].time <= h[k].time
    decreases k
  {
    if k > 0 {
      TopIsDueFirst(h, Parent(k));
    }
  }

  // ---------- The slice, changed in place ----------

  class ServiceHeap {
    var h: seq<Entry>

    constructor ()
      ensures h == []
    {
      h := [];
    }

    method SwapEntries(i: nat, j: nat)
      requires i < |h| && j < |h|
      modifies this
      ensures h == Swap(old(h), i, j)
    {
      h := h[i := h[j]][j := h[i]];
    }

    method SiftUp(j0: nat)
      requires j0 < |h|
      modifies this
      ensures h == Up(old(h), j0)
    {
      var j: nat := j0;
      while j > 0
        invariant j < |h|
        invariant Up(h, j) == Up(old(h), j0)
      {
        var i := (j - 1) / 2;
        if !Less(h[j], h[i]) {
          return;
        }
        SwapEntries(i, j);
        j := i;
      }
    }

    method SiftDown(i0: nat, n: nat) returns (moved: bool)
      requires i0 < n <= |h|
      modifies this
      ensures h == Down(old(h), i0, n)
      ensures moved <==> Sinks(old(h), i0, n)
    {
      var i: nat := i0;
      moved := false;
      while 2 * i + 1 < n
        invariant i < n <= |h|
        invariant Down(h, i, n) == Down(old(h), i0, n)
        invariant if moved then Sinks(old(h), i0, n) else i == i0 && h == old(h)
        decreases n - i
      {
        var j := 2 * i + 1;
        if j + 1 < n && Less(h[j + 1], h[j]) {
          j := j + 1;
        }
        assert j == SmallerChild(h, i, n);
        if !Less(h[j], h[i]) {
          return;
        }
        SwapEntries(i, j);
        i, moved := j, true;
      }
    }

    method PushEntry(e: Entry)
      modifies this
      ensures h == Push(old(h), e)
      ensures IsHeap(old(h)) ==> IsHeap(h)
    {
      if IsHeap(h) {
        PushKeepsHeap(h, e);
      }
      h := h + [e];
      SiftUp(|h| - 1);
    }

    method PopEntry() returns (top: Entry)
      requires h != []
      modifies this
      ensures (top, h) == Pop(old(h))
      ensures IsHeap(old(h)) ==> IsHeap(h)
    {
      if IsHeap(h) {
        PopKeepsHeap(h);
      }
      var n := |h| - 1;
      SwapEntries(0, n);
      if n > 0 {
        var _ := SiftDown(0, n);
      }
      top := h[n];
      h := h[..n];
    }

    method RemoveEntry(i: nat)
      requires i < |h|
      modifies this
      ensures h == RemoveAt(old(h), i)
      ensures IsHeap(old(h)) ==> IsHeap(h)
    {
      hide Up, Down, Swap, Sinks, IsHeap;
      if IsHeap(h) {
        RemoveAtKeepsHeap(h, i);
      }
      var n := |h| - 1;
      if i != n {
        ghost var s := Swap(h, i, n);
        SwapEntries(i, n);
        var moved := SiftDown(i, n);
        if !moved {
          NotSinking(s, i, n);
          UpIgnoresTail(s, i, n);
          SiftUp(i);
        }
      }
      h := h[..n];
    }
  }

  lemma NotSinking(h: seq<Entry>, i: nat, n: nat)
    requires i < n <= |h| && !Sinks(h, i, n)
    ensures Down(h, i, n) == h
  {
  }

  /** Sifting up never looks past its start. */
  lemma {:induction false} UpIgnoresTail(h: seq<Entry>, j: nat, n: nat)
    requires j < n <= |h|
    ensures Up(h, j) == Up(h[..n], j) + h[n..]
    decreases j
  {
    hide Parent;
    if j > 0 && Less(h[j], h[Parent(j)]) {
      var s := Swap(h, Parent(j), j);
      UpIgnoresTail(s, Parent(j), n);
      assert s[..n] == Swap(h[..n], Parent(j), j);
      assert s[n..] == h[n..];
    } else {
      assert h == h[..n] + h[n..];
    }
  }
}
