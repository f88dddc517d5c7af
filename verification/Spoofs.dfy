/** The desired DNS spoofs: what the store says, and the canonical form its hash is taken of. */
module Spoofs {
  import opened Basics
  import opened Services
  import opened Sorting
  import opened Strings
  import R = ServiceRepos

  datatype Spoof = Spoof(fqdn: string, ip: string, dc: string)

  function Key(s: Spoof): string {
    s.fqdn + ":" + s.dc
  }

  predicate KeyBelow(a: Spoof, b: Spoof) {
    Below(Key(a), Key(b))
  }

  ghost predicate DistinctKeys(ss: seq<Spoof>) {
    forall i, j :: 0 <= i < j < |ss| ==> Key(ss[i]) != Key(ss[j])
  }

  function SpoofOf(r: Record): Spoof {
    Spoof(r.memberOf, r.ip, r.datacenter)
  }

  // ---------- Reading the store ----------

  function ActiveOf(rs: seq<Record>): seq<Spoof> {
    if rs == [] then []
    else ActiveOf(rs[..|rs| - 1]) + if rs[|rs| - 1].isActive then [SpoofOf(rs[|rs| - 1])] else []
  }

  /** The spoofs of the store, its keys visited in the order `keys`. */
  function AllActive(st: R.Store, keys: seq<string>): seq<Spoof> {
    if keys == [] then []
    else AllActive(st, keys[..|keys| - 1]) + ActiveOf(R.Read(st, keys[|keys| - 1]))
  }

  /** An order in which a loop over the store may visit it. */
  ghost predicate Visits(st: R.Store, keys: seq<string>) {
    NoDup(keys) && forall g :: g in keys <==> g in st
  }

  method ReadAll(st: R.Store, keys: seq<string>) returns (spoofs: seq<Spoof>)
    requires Visits(st, keys)
    ensures spoofs == AllActive(st, keys)
  {
    spoofs := [];
    for i := 0 to |keys|
      invariant spoofs == AllActive(st, keys[..i])
    {
      var group := st[keys[i]];
      assert keys[..i + 1][..i] == keys[..i];
      for j := 0 to |group|
        invariant spoofs == AllActive(st, keys[..i]) + ActiveOf(group[..j])
      {
        assert group[..j + 1][..j] == group[..j];
        if group[j].isActive {
          spoofs := spoofs + [SpoofOf(group[j])];
        }
      }
      assert group[..|group|] == group;
    }
    assert keys[..|keys|] == keys;
  }

  lemma AllActiveLast(st: R.Store, keys: seq<string>, last: string)
    ensures multiset(AllActive(st, keys + [last]))
             == multiset(AllActive(st, keys)) + multiset(ActiveOf(R.Read(st, last)))
  {
    hide ActiveOf;
    assert (keys + [last])[..|keys|] == keys;
  }

  lemma {:induction false} AllActiveWithout(st: R.Store, keys: seq<string>, i: nat)
    requires i < |keys|
    ensures multiset(AllActive(st, keys))
         == multiset(AllActive(st, keys[..i] + keys[i + 1..])) + multiset(ActiveOf(R.Read(st, keys[i])))
  {
    hide ActiveOf, AllActive;
    var n := |keys| - 1;
    var init := keys[..n];
    assert keys == init + [keys[n]];
    AllActiveLast(st, init, keys[n]);
    if i == n {
      assert keys[..i] + keys[i + 1..] == init;
    } else {
      AllActiveWithout(st, init, i);
      AllActiveLast(st, init[..i] + init[i + 1..], keys[n]);
      CutBeforeLast(keys, i);
    }
  }

  lemma CutBeforeLast(keys: seq<string>, i: nat)
    requires i < |keys| - 1
    ensures var n := |keys| - 1;
            keys[..i] + keys[i + 1..] == keys[..n][..i] + keys[..n][i + 1..] + [keys[n]]
  {
  }

  /** However a loop visits the groups, it collects the same spoofs. */
  lemma {:induction false} OrderOnlyRearranges(st: R.Store, a: seq<string>, b: seq<string>)
    requires multiset(a) == multiset(b)
    ensures multiset(AllActive(st, a)) == multiset(AllActive(st, b))
  {
    hide ActiveOf;
    if a == [] {
      assert b == [] by { Rearranged(a, b); }
    } else {
      var i := FindLast(a, b);
      OrderOnlyRearranges(st, a[..|a| - 1], b[..i] + b[i + 1..]);
      AllActiveWithout(st, b, i);
    }
  }

  lemma {:induction false} SpoofInGroup(rs: seq<Record>, x: Spoof) returns (k: nat)
    requires x in ActiveOf(rs)
    ensures k < |rs| && rs[k].isActive && x == SpoofOf(rs[k])
  {
    var n := |rs| - 1;
    if x in ActiveOf(rs[..n]) {
      k := SpoofInGroup(rs[..n], x);
    } else {
      k := n;
    }
  }

  lemma {:induction false} SpoofInStore(st: R.Store, keys: seq<string>, x: Spoof) returns (g: string, k: nat)
    requires x in AllActive(st, keys)
    ensures g in keys && k < |R.Read(st, g)| && R.Read(st, g)[k].isActive && x == SpoofOf(R.Read(st, g)[k])
  {
    var n := |keys| - 1;
    if x in AllActive(st, keys[..n]) {
      g, k := SpoofInStore(st, keys[..n], x);
    } else {
      g := keys[n];
      k := SpoofInGroup(R.Read(st, g), x);
    }
  }

  lemma {:induction false} GroupHasSpoof(rs: seq<Record>, k: nat)
    requires k < |rs| && rs[k].isActive
    ensures SpoofOf(rs[k]) in ActiveOf(rs)
  {
    var n := |rs| - 1;
    if k < n {
      GroupHasSpoof(rs[..n], k);
      assert rs[..n][k] == rs[k];
    }
  }

  lemma {:induction false} StoreHasSpoof(st: R.Store, keys: seq<string>, g: string, k: nat)
    requires g in keys && k < |R.Read(st, g)| && R.Read(st, g)[k].isActive
    ensures SpoofOf(R.Read(st, g)[k]) in AllActive(st, keys)
  {
    hide ActiveOf;
    var n := |keys| - 1;
    if keys[n] == g {
      GroupHasSpoof(R.Read(st, g), k);
    } else {
      StoreHasSpoof(st, keys[..n], g, k);
    }
  }

  /** A spoof is asked for exactly when a flagged record of its group has its datacenter and its address. */
  lemma SpoofAskedIff(st: R.Store, keys: seq<string>, x: Spoof)
    requires R.WellStored(st) && Visits(st, keys)
    ensures x in AllActive(st, keys) <==>
            exists id :: var r := R.Lookup(st, x.fqdn, id);
                         r.Some? && r.value.isActive && r.value.datacenter == x.dc && r.value.ip == x.ip
  {
    hide AllActive;
    if x in AllActive(st, keys) {
      var g, k := SpoofInStore(st, keys, x);
      R.FindsMembers(st[g], st[g][k].id);
      assert R.Lookup(st, x.fqdn, st[g][k].id) == Some(st[g][k]);
    }
    if id :| var r := R.Lookup(st, x.fqdn, id);
             r.Some? && r.value.isActive && r.value.datacenter == x.dc && r.value.ip == x.ip {
      R.FindsMembers(R.Read(st, x.fqdn), id);
      var rs, r := R.Read(st, x.fqdn), R.Lookup(st, x.fqdn, id).value;
      var k :| 0 <= k < |rs| && rs[k] == r;
      StoreHasSpoof(st, keys, x.fqdn, k);
    }
  }

  // ---------- The canonical form ----------

  lemma KeyBelowIsStrictOrder()
    ensures StrictWeakOrder(KeyBelow)
  {
    BelowIsStrictOrder();
    hide Below;
  }

  lemma DistinctKeysDoNotTie(ss: seq<Spoof>)
    requires DistinctKeys(ss)
    ensures NoTies(KeyBelow, ss) && NoDup(ss)
  {
    hide Below;
    forall i, j | 0 <= i < |ss| && 0 <= j < |ss| && ss[i] != ss[j]
      ensures KeyBelow(ss[i], ss[j]) || KeyBelow(ss[j], ss[i])
    {
      assert Key(ss[i]) != Key(ss[j]);
      Trichotomy(Key(ss[i]), Key(ss[j]));
    }
  }

  /** The sorted list of spoofs, hence every hash of it, depends neither on the order in which the
      store is visited nor on the sorting algorithm. */
  lemma HashIgnoresVisitOrder(st: R.Store, a: seq<string>, b: seq<string>, r1: seq<Spoof>, r2: seq<Spoof>)
    requires Visits(st, a) && Visits(st, b) && DistinctKeys(AllActive(st, a))
    requires SortOf(KeyBelow, AllActive(st, a), r1) && SortOf(KeyBelow, AllActive(st, b), r2)
    ensures r1 == r2
  {
    SameElements(a, b);
    OrderOnlyRearranges(st, a, b);
    DistinctKeysDoNotTie(AllActive(st, a));
    hide AllActive, NoTies, Ordered, KeyBelow, DistinctKeys, Visits;
    NoTiesRearranged(KeyBelow, AllActive(st, a), r1);
    SortedArrangementIsUnique(KeyBelow, r1, r2);
  }

  /** The sorted form is the same for all sorting algorithms and visiting orders if and only if no two
      different spoofs share a key. */
  lemma CanonicalIffKeysDiffer(ss: seq<Spoof>)
    ensures (forall r1, r2 :: SortOf(KeyBelow, ss, r1) && SortOf(KeyBelow, ss, r2) ==> r1 == r2)
       <==> (forall i, j :: 0 <= i < |ss| && 0 <= j < |ss| && ss[i] != ss[j] ==> Key(ss[i]) != Key(ss[j]))
  {
    KeyBelowIsStrictOrder();
    SortsAgreeIffNoTies(KeyBelow, ss);
    hide Below, StrictWeakOrder, SortOf;
    forall i, j | 0 <= i < |ss| && 0 <= j < |ss|
      ensures Key(ss[i]) != Key(ss[j]) <==> KeyBelow(ss[i], ss[j]) || KeyBelow(ss[j], ss[i])
    {
      Trichotomy(Key(ss[i]), Key(ss[j]));
    }
  }

  /** Serialising and hashing, assumed to be injective. */
  ghost predicate Injective(digest: seq<Spoof> -> string) {
    forall a, b :: digest(a) == digest(b) ==> a == b
  }

  /** The hash of what a server has configured is the desired hash exactly when the server has the
      desired spoofs and no other. */
  lemma HashDecides(digest: seq<Spoof> -> string, configured: seq<Spoof>, desired: seq<Spoof>,
                    r1: seq<Spoof>, r2: seq<Spoof>)
    requires Injective(digest) && DistinctKeys(desired)
    requires SortOf(KeyBelow, configured, r1) && SortOf(KeyBelow, desired, r2)
    ensures digest(r1) == digest(r2) <==> multiset(configured) == multiset(desired)
    ensures digest(r1) == digest(r2) <==> NoDup(configured) && (forall s :: s in configured <==> s in desired)
  {
    DistinctKeysDoNotTie(desired);
    hide NoTies, Ordered, KeyBelow, DistinctKeys;
    if multiset(configured) == multiset(desired) {
      NoTiesRearranged(KeyBelow, desired, r2);
      SortedArrangementIsUnique(KeyBelow, r2, r1);
      Rearranged(configured, desired);
    }
    if NoDup(configured) && (forall s :: s in configured <==> s in desired) {
      SameElements(configured, desired);
    }
  }

  // ---------- Why the keys are distinct ----------

  lemma FirstColon(g: string, d: string)
    requires ':' !in g
    ensures var k := g + ":" + d;
            && k[|g|] == ':' && (forall i :: 0 <= i < |g| ==> k[i] != ':')
            && k[..|g|] == g && k[|g| + 1..] == d
  {
  }

  /** A name without a colon is recovered from a key. */
  lemma KeySplits(g: string, d: string, h: string, e: string)
    requires ':' !in g && ':' !in h && g + ":" + d == h + ":" + e
    ensures g == h && d == e
  {
    FirstColon(g, d);
    FirstColon(h, e);
  }

  ghost predicate OneActive(rs: seq<Record>) {
    forall i, j :: 0 <= i < |rs| && 0 <= j < |rs| && rs[i].isActive && rs[j].isActive ==> i == j
  }

  lemma {:induction false} AtMostOneSpoof(g: string, rs: seq<Record>)
    requires OneActive(rs) && forall k :: 0 <= k < |rs| ==> rs[k].memberOf == g
    ensures |ActiveOf(rs)| <= 1
    ensures (forall k :: 0 <= k < |rs| ==> !rs[k].isActive) ==> ActiveOf(rs) == []
    ensures forall s :: s in ActiveOf(rs) ==> s.fqdn == g
  {
    if rs != [] {
      AtMostOneSpoof(g, rs[..|rs| - 1]);
    }
  }

  ghost predicate OneActiveEach(st: R.Store) {
    forall g :: g in st ==> OneActive(st[g]) && ':' !in g && forall k :: 0 <= k < |st[g]| ==> st[g][k].memberOf == g
  }

  lemma {:induction false} SpoofsComeFromGroups(st: R.Store, keys: seq<string>, s: Spoof)
    requires OneActiveEach(st) && (forall g :: g in keys ==> g in st) && s in AllActive(st, keys)
    ensures s.fqdn in keys
  {
    if keys != [] {
      var n := |keys| - 1;
      AtMostOneSpoof(keys[n], st[keys[n]]);
      if s !in ActiveOf(st[keys[n]]) {
        SpoofsComeFromGroups(st, keys[..n], s);
      }
    }
  }

  /** With at most one active record in every group and no colon in a group's name, keys are distinct. */
  lemma {:induction false} StoredKeysDistinct(st: R.Store, keys: seq<string>)
    requires OneActiveEach(st) && NoDup(keys) && forall g :: g in keys ==> g in st
    ensures DistinctKeys(AllActive(st, keys))
  {
    if keys != [] {
      var n := |keys| - 1;
      StoredKeysDistinct(st, keys[..n]);
      AtMostOneSpoof(keys[n], st[keys[n]]);
      var ss := AllActive(st, keys[..n]);
      var last := ActiveOf(st[keys[n]]);
      forall i | 0 <= i < |ss| && last != []
        ensures Key(ss[i]) != Key(last[0])
      {
        SpoofsComeFromGroups(st, keys[..n], ss[i]);
        assert last[0] in last;
        if Key(ss[i]) == Key(last[0]) {
          KeySplits(ss[i].fqdn, ss[i].dc, last[0].fqdn, last[0].dc);
        }
      }
    }
  }
}
