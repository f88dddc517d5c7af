/** What the repository relies on when it calls `slices.SortFunc`: a rearrangement of the input
    in which no element is less than an earlier one. */
module Sorting {
  import opened Basics

  ghost predicate StrictWeakOrder<T(!new)>(less: (T, T) -> bool) {
    && (forall a :: !less(a, a))
    && (forall a, b, c :: less(a, b) && less(b, c) ==> less(a, c))
    && (forall a, b, c :: less(a, c) ==> less(a, b) || less(b, c))
  }

  ghost predicate Ordered<T>(less: (T, T) -> bool, s: seq<T>) {
    forall i, j :: 0 <= i < j < |s| ==> !less(s[j], s[i])
  }

  ghost predicate SortOf<T>(less: (T, T) -> bool, s: seq<T>, r: seq<T>) {
    multiset(s) == multiset(r) && Ordered(less, r)
  }

  /** Moves the last element leftwards past every element it is less than. */
  function Sift<T>(less: (T, T) -> bool, s: seq<T>, x: T): (r: seq<T>)
    ensures multiset(r) == multiset(s) + multiset{x} && |r| == |s| + 1
  {
    if s != [] && less(x, s[|s| - 1]) then
      var n := |s| - 1;
      assert s == s[..n] + [s[n]];
      Sift(less, s[..n], x) + [s[n]]
    else
      s + [x]
  }

  function InsertionSort<T>(less: (T, T) -> bool, s: seq<T>): (r: seq<T>)
    ensures multiset(r) == multiset(s)
  {
    if s == [] then []
    else
      assert s == s[..|s| - 1] + [s[|s| - 1]];
      Sift(less, InsertionSort(less, s[..|s| - 1]), s[|s| - 1])
  }

  /** Everything sifted stays below an element that was above all of it. */
  lemma SiftBelow<T(!new)>(less: (T, T) -> bool, s: seq<T>, x: T, top: T)
    requires StrictWeakOrder(less) && less(x, top)
    requires forall i :: 0 <= i < |s| ==> !less(top, s[i])
    ensures forall i :: 0 <= i < |s| + 1 ==> !less(top, Sift(less, s, x)[i])
  {
    var r := Sift(less, s, x);
    forall i | 0 <= i < |r|
      ensures !less(top, r[i])
    {
      assert r[i] in multiset(r);
      if r[i] != x {
        assert r[i] in multiset(s);
      }
    }
  }

  lemma {:induction false} SiftOrders<T(!new)>(less: (T, T) -> bool, s: seq<T>, x: T)
    requires StrictWeakOrder(less) && Ordered(less, s)
    ensures Ordered(less, Sift(less, s, x))
  {
    if s != [] && less(x, s[|s| - 1]) {
      var n := |s| - 1;
      SiftOrders(less, s[..n], x);
      SiftBelow(less, s[..n], x, s[n]);
    } else if s != [] {
      forall i | 0 <= i < |s|
        ensures !less(x, s[i])
      {
        assert i < |s| - 1 ==> !less(s[|s| - 1], s[i]);
      }
    }
  }

  lemma {:induction false} InsertionSortSorts<T(!new)>(less: (T, T) -> bool, s: seq<T>)
    requires StrictWeakOrder(less)
    ensures SortOf(less, s, InsertionSort(less, s))
  {
    if s != [] {
      InsertionSortSorts(less, s[..|s| - 1]);
      SiftOrders(less, InsertionSort(less, s[..|s| - 1]), s[|s| - 1]);
    }
  }

  /** Two comparisons that agree on all elements. */
  ghost predicate AgreeOn<T(!new)>(less1: (T, T) -> bool, less2: (T, T) -> bool, s: multiset<T>) {
    forall a, b :: a in s && b in s ==> less1(a, b) == less2(a, b)
  }

  lemma {:induction false} SiftAgrees<T(!new)>(less1: (T, T) -> bool, less2: (T, T) -> bool, s: seq<T>, x: T)
    requires AgreeOn(less1, less2, multiset(s) + multiset{x})
    ensures Sift(less1, s, x) == Sift(less2, s, x)
  {
    if s != [] {
      var n := |s| - 1;
      assert s[n] in multiset(s);
      assert s == s[..n] + [s[n]];
      SiftAgrees(less1, less2, s[..n], x);
    }
  }

  /** Sorting looks at nothing but the comparisons of its elements. */
  lemma {:induction false} InsertionSortAgrees<T(!new)>(less1: (T, T) -> bool, less2: (T, T) -> bool, s: seq<T>)
    requires AgreeOn(less1, less2, multiset(s))
    ensures InsertionSort(less1, s) == InsertionSort(less2, s)
  {
    if s != [] {
      var n := |s| - 1;
      assert s == s[..n] + [s[n]];
      InsertionSortAgrees(less1, less2, s[..n]);
      SiftAgrees(less1, less2, InsertionSort(less1, s[..n]), s[n]);
    }
  }

  ghost predicate NoTies<T>(less: (T, T) -> bool, s: seq<T>) {
    forall i, j :: 0 <= i < |s| && 0 <= j < |s| && s[i] != s[j] ==> less(s[i], s[j]) || less(s[j], s[i])
  }

  lemma SortedSameLast<T(!new)>(less: (T, T) -> bool, a: seq<T>, b: seq<T>)
    requires Ordered(less, a) && Ordered(less, b) && multiset(a) == multiset(b) && a != []
    requires NoTies(less, a)
    ensures |a| == |b| && a[|a| - 1] == b[|b| - 1]
  {
    Rearranged(a, b);
    var n := |a| - 1;
    if a[n] != b[n] {
      assert a[n] in b && b[n] in a;
      var i :| 0 <= i < |b| && b[i] == a[n];
      var j :| 0 <= j < |a| && a[j] == b[n];
      assert false;
    }
  }

  lemma AllButLast<T(!new)>(less: (T, T) -> bool, a: seq<T>)
    requires a != [] && Ordered(less, a) && NoTies(less, a)
    ensures var r := a[..|a| - 1];
            && Ordered(less, r) && NoTies(less, r)
            && multiset(r) == multiset(a) - multiset{a[|a| - 1]}
            && a == r + [a[|a| - 1]]
  {
    var n := |a| - 1;
    assert a == a[..n] + [a[n]];
  }

  lemma NoTiesRearranged<T(!new)>(less: (T, T) -> bool, a: seq<T>, b: seq<T>)
    requires multiset(a) == multiset(b) && NoTies(less, a)
    ensures NoTies(less, b)
  {
    Rearranged(a, b);
    forall i, j | 0 <= i < |b| && 0 <= j < |b| && b[i] != b[j]
      ensures less(b[i], b[j]) || less(b[j], b[i])
    {
      assert b[i] in a && b[j] in a;
    }
  }

  /** When no two elements tie, a collection has only one sorted arrangement. */
  lemma {:induction false} SortedArrangementIsUnique<T(!new)>(less: (T, T) -> bool, a: seq<T>, b: seq<T>)
    requires Ordered(less, a) && Ordered(less, b) && multiset(a) == multiset(b)
    requires NoTies(less, a)
    ensures a == b
  {
    hide Ordered, NoTies;
    if a == [] {
      Rearranged(a, b);
    } else {
      SortedSameLast(less, a, b);
      NoTiesRearranged(less, a, b);
      AllButLast(less, a);
      AllButLast(less, b);
      SortedArrangementIsUnique(less, a[..|a| - 1], b[..|b| - 1]);
    }
  }

  lemma SwapTied<T(!new)>(less: (T, T) -> bool, r: seq<T>, p: nat, q: nat)
    requires StrictWeakOrder(less) && Ordered(less, r) && p < |r| && q < |r|
    requires !less(r[p], r[q]) && !less(r[q], r[p])
    ensures Ordered(less, r[p := r[q]][q := r[p]])
    ensures multiset(r[p := r[q]][q := r[p]]) == multiset(r)
  {
    var t := r[p := r[q]][q := r[p]];
    forall x
      ensures less(x, r[p]) <==> less(x, r[q])
      ensures less(r[p], x) <==> less(r[q], x)
    {
    }
    forall i, j | 0 <= i < j < |t| ensures !less(t[j], t[i]) {
      assert !less(r[j], r[i]);
    }
  }

  lemma TieHasTwoSorts<T(!new)>(less: (T, T) -> bool, s: seq<T>, i: nat, j: nat) returns (a: seq<T>, b: seq<T>)
    requires StrictWeakOrder(less) && i < |s| && j < |s| && s[i] != s[j]
    requires !less(s[i], s[j]) && !less(s[j], s[i])
    ensures SortOf(less, s, a) && SortOf(less, s, b) && a != b
  {
    a := InsertionSort(less, s);
    InsertionSortSorts(less, s);
    Rearranged(s, a);
    hide Ordered, StrictWeakOrder, InsertionSort;
    assert s[i] in a && s[j] in a;
    var p :| 0 <= p < |a| && a[p] == s[i];
    var q :| 0 <= q < |a| && a[q] == s[j];
    SwapTied(less, a, p, q);
    b := a[p := a[q]][q := a[p]];
    assert b[p] != a[p];
  }

  /** All ways of sorting give the same sequence exactly when no two different elements tie. */
  lemma SortsAgreeIffNoTies<T(!new)>(less: (T, T) -> bool, s: seq<T>)
    requires StrictWeakOrder(less)
    ensures (forall a, b :: SortOf(less, s, a) && SortOf(less, s, b) ==> a == b) <==> NoTies(less, s)
  {
    if NoTies(less, s) {
      forall a, b | SortOf(less, s, a) && SortOf(less, s, b) ensures a == b {
        hide NoTies, Ordered, StrictWeakOrder;
        NoTiesRearranged(less, s, a);
        SortedArrangementIsUnique(less, a, b);
      }
    } else {
      var i, j :| 0 <= i < |s| && 0 <= j < |s| && s[i] != s[j] && !less(s[i], s[j]) && !less(s[j], s[i]);
      hide NoTies, SortOf, StrictWeakOrder;
      var a, b := TieHasTwoSorts(less, s, i, j);
    }
  }
}
