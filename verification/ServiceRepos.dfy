/** The repository of service records: one stored sequence of records per group. */
module ServiceRepos {
  import opened Basics
  import opened Filters
  import opened Services

  type Store = map<string, seq<Record>>

  /** A missing key loads as the empty group. */
  function Read(st: Store, g: string): seq<Record> {
    if g in st then st[g] else []
  }

  function FirstActive(rs: seq<Record>): (r: Option<Record>)
    ensures r.None? <==> forall k :: 0 <= k < |rs| ==> !rs[k].isActive
    ensures r.Some? ==> r.value in rs && r.value.isActive
  {
    if rs == [] then None else if rs[0].isActive then Some(rs[0]) else FirstActive(rs[1..])
  }

  /** The answer is the first active record, whatever comes behind it. */
  lemma {:induction false} FirstActiveIsFirst(rs: seq<Record>, i: nat)
    requires i < |rs| && rs[i].isActive && forall k :: 0 <= k < i ==> !rs[k].isActive
    ensures FirstActive(rs) == Some(rs[i])
  {
    if i > 0 {
      FirstActiveIsFirst(rs[1..], i - 1);
    }
  }

  function GetActive(st: Store, g: string): Option<Record> {
    FirstActive(Read(st, g))
  }

  predicate HasOverride(st: Store, g: string) {
    GetActive(st, g).Some? && GetActive(st, g).value.hasOverride
  }

  function IndexOfId(rs: seq<Record>, id: Id): (i: int)
    ensures -1 <= i < |rs|
    ensures i == -1 <==> forall k :: 0 <= k < |rs| ==> rs[k].id != id
    ensures i != -1 ==> rs[i].id == id && forall k :: 0 <= k < i ==> rs[k].id != id
  {
    FirstIndex((r: Record) => r.id == id, rs)
  }

  function OtherThan(id: Id): Record -> bool {
    (r: Record) => r.id != id
  }

  function WithoutId(rs: seq<Record>, id: Id): (r: seq<Record>)
    ensures |r| <= |rs|
  {
    FilterShrinks(OtherThan(id), rs);
    Filter(OtherThan(id), rs)
  }

  datatype Saved = Saved(store: Store) | Refused

  function Update(st: Store, n: Record): Saved {
    var rs := Read(st, n.memberOf);
    var i := IndexOfId(rs, n.id);
    if i == -1 then Refused
    else
      var n1 := if rs[i].isActive && HasOverride(st, n.memberOf) then n.(ip := rs[i].ip, hasOverride := true) else n;
      Saved(st[n.memberOf := rs[i := n1]])
  }

  function Create(st: Store, n: Record): Store {
    if HasOverride(st, n.memberOf) then st
    else if n.memberOf !in st then st[n.memberOf := [n]]
    else if IndexOfId(st[n.memberOf], n.id) != -1 then Update(st, n).store
    else st[n.memberOf := st[n.memberOf] + [n]]
  }

  /** An emptied group is deleted and then saved again as empty, as the code does. */
  function Delete(st: Store, g: string, id: Id): Store {
    if HasOverride(st, g) then st
    else
      var rs := WithoutId(Read(st, g), id);
      (if rs == [] then st - {g} else st)[g := rs]
  }

  // ---------- The abstract view: group -> id -> record ----------

  function Find(rs: seq<Record>, id: Id): Option<Record> {
    var i := IndexOfId(rs, id);
    if i == -1 then None else Some(rs[i])
  }

  function Lookup(st: Store, g: string, id: Id): Option<Record> {
    Find(Read(st, g), id)
  }

  ghost predicate DistinctIds(rs: seq<Record>) {
    forall i, j :: 0 <= i < j < |rs| ==> rs[i].id != rs[j].id
  }

  ghost predicate WellStored(st: Store) {
    forall g :: g in st ==> DistinctIds(st[g]) && forall k :: 0 <= k < |st[g]| ==> st[g][k].memberOf == g
  }

  ghost predicate NoOverrides(st: Store) {
    forall g :: g in st ==> forall k :: 0 <= k < |st[g]| ==> !st[g][k].hasOverride
  }

  lemma FindsMembers(rs: seq<Record>, id: Id)
    ensures Find(rs, id).Some? <==> exists k :: 0 <= k < |rs| && rs[k].id == id
    ensures Find(rs, id).Some? ==> Find(rs, id).value.id == id && Find(rs, id).value in rs
    ensures DistinctIds(rs) ==> forall k :: 0 <= k < |rs| && rs[k].id == id ==> Find(rs, id) == Some(rs[k])
  {
  }

  lemma WithoutIdKeepsOthers(rs: seq<Record>, id: Id)
    ensures forall e :: e in WithoutId(rs, id) <==> e in rs && e.id != id
  {
    FilterKeeps(OtherThan(id), rs);
  }

  lemma {:induction false} WithoutIdDistinct(rs: seq<Record>, id: Id)
    requires DistinctIds(rs)
    ensures DistinctIds(WithoutId(rs, id))
  {
    if rs != [] {
      var r := WithoutId(rs[1..], id);
      WithoutIdDistinct(rs[1..], id);
      WithoutIdKeepsOthers(rs[1..], id);
      forall j | 0 <= j < |r|
        ensures r[j].id != rs[0].id
      {
        assert r[j] in rs[1..];
      }
    }
  }

  lemma WithoutIdFinds(rs: seq<Record>, id: Id, x: Id)
    requires DistinctIds(rs)
    ensures Find(WithoutId(rs, id), x) == if x == id then None else Find(rs, x)
  {
    var r := WithoutId(rs, id);
    WithoutIdDistinct(rs, id);
    WithoutIdKeepsOthers(rs, id);
    FindsMembers(r, x);
    FindsMembers(rs, x);
    if Find(r, x).Some? {
      assert Find(r, x).value in rs;
    }
    if Find(rs, x).Some? && x != id {
      assert Find(rs, x).value in r;
    }
  }

  /** Where the view of `after` differs from the view of `before`: at most at (g, id). */
  ghost predicate OnlyAt(before: Store, after: Store, g: string, id: Id, entry: Option<Record>) {
    forall h, x :: Lookup(after, h, x) == if h == g && x == id then entry else Lookup(before, h, x)
  }

  ghost predicate PlainRecords(g: string, rs: seq<Record>) {
    DistinctIds(rs) && forall k :: 0 <= k < |rs| ==> rs[k].memberOf == g && !rs[k].hasOverride
  }

  ghost predicate PlainStore(st: Store) {
    forall g :: g in st ==> PlainRecords(g, st[g])
  }

  lemma PlainMeans(st: Store)
    ensures PlainStore(st) <==> WellStored(st) && NoOverrides(st)
  {
  }

  /** Saving one group changes the view only inside that group. */
  lemma SavedGroup(st: Store, g: string, rs: seq<Record>, id: Id, entry: Option<Record>)
    requires PlainStore(st) && PlainRecords(g, rs)
    requires forall x :: Find(rs, x) == if x == id then entry else Find(Read(st, g), x)
    ensures PlainStore(st[g := rs])
    ensures OnlyAt(st, st[g := rs], g, id, entry)
  {
    hide Find, PlainRecords;
  }

  lemma Overwritten(g: string, rs: seq<Record>, r: seq<Record>, i: nat, n: Record)
    requires PlainRecords(g, rs) && i < |rs| && rs[i].id == n.id && n.memberOf == g && !n.hasOverride
    requires r == rs[i := n]
    ensures PlainRecords(g, r)
    ensures forall x :: Find(r, x) == if x == n.id then Some(n) else Find(rs, x)
  {
    hide IndexOfId;
    forall x
      ensures Find(r, x) == if x == n.id then Some(n) else Find(rs, x)
    {
      FindsMembers(r, x);
      FindsMembers(rs, x);
      assert r[i] == n;
      if x != n.id && Find(rs, x).Some? {
        var k :| 0 <= k < |rs| && rs[k].id == x;
        assert r[k] == rs[k];
      }
    }
  }

  lemma Appended(g: string, rs: seq<Record>, n: Record)
    requires PlainRecords(g, rs) && IndexOfId(rs, n.id) == -1 && n.memberOf == g && !n.hasOverride
    ensures PlainRecords(g, rs + [n])
    ensures forall x :: Find(rs + [n], x) == if x == n.id then Some(n) else Find(rs, x)
  {
    var r := rs + [n];
    forall x
      ensures Find(r, x) == if x == n.id then Some(n) else Find(rs, x)
    {
      hide IndexOfId;
      FindsMembers(r, x);
      FindsMembers(rs, x);
      assert r[|rs|] == n;
      if x != n.id && Find(rs, x).Some? {
        var k :| 0 <= k < |rs| && rs[k].id == x;
        assert r[k] == rs[k];
      }
    }
  }

  lemma StoredGroup(st: Store, g: string)
    requires PlainStore(st)
    ensures PlainRecords(g, Read(st, g)) && !HasOverride(st, g)
  {
  }

  /** Without overrides, an update rewrites exactly one existing entry, and is refused exactly when
      there is none. */
  lemma UpdateRefines(st: Store, n: Record)
    requires WellStored(st) && NoOverrides(st) && !n.hasOverride
    ensures Update(st, n).Refused? <==> Lookup(st, n.memberOf, n.id).None?
    ensures Update(st, n).Saved? ==>
              && WellStored(Update(st, n).store) && NoOverrides(Update(st, n).store)
              && OnlyAt(st, Update(st, n).store, n.memberOf, n.id, Some(n))
  {
    hide WellStored, NoOverrides, PlainStore, PlainRecords, OnlyAt, HasOverride;
    PlainMeans(st);
    StoredGroup(st, n.memberOf);
    var rs := Read(st, n.memberOf);
    var i := IndexOfId(rs, n.id);
    if i != -1 {
      var r := rs[i := n];
      Overwritten(n.memberOf, rs, r, i, n);
      SavedGroup(st, n.memberOf, r, n.id, Some(n));
      PlainMeans(Update(st, n).store);
    }
  }

  /** Without overrides, creating sets exactly one entry, old or new. */
  lemma CreateRefines(st: Store, n: Record)
    requires WellStored(st) && NoOverrides(st) && !n.hasOverride
    ensures WellStored(Create(st, n)) && NoOverrides(Create(st, n))
    ensures OnlyAt(st, Create(st, n), n.memberOf, n.id, Some(n))
    ensures Create(st, n).Keys == st.Keys + {n.memberOf}
  {
    hide WellStored, NoOverrides, PlainStore, PlainRecords, OnlyAt, HasOverride;
    PlainMeans(st);
    StoredGroup(st, n.memberOf);
    UpdateRefines(st, n);
    var rs := Read(st, n.memberOf);
    if IndexOfId(rs, n.id) == -1 {
      Appended(n.memberOf, rs, n);
      SavedGroup(st, n.memberOf, rs + [n], n.id, Some(n));
      assert [] + [n] == [n];
      PlainMeans(Create(st, n));
    }
  }

  /** Without overrides, deleting clears exactly one entry; an emptied group stays stored, as an empty one. */
  lemma DeleteRefines(st: Store, g: string, id: Id)
    requires WellStored(st) && NoOverrides(st)
    ensures WellStored(Delete(st, g, id)) && NoOverrides(Delete(st, g, id))
    ensures OnlyAt(st, Delete(st, g, id), g, id, None)
    ensures Delete(st, g, id).Keys == st.Keys + {g}
  {
    PlainMeans(st);
    StoredGroup(st, g);
    var rs := Read(st, g);
    var r := WithoutId(rs, id);
    assert Delete(st, g, id) == st[g := r];
    WithoutIdDistinct(rs, id);
    WithoutIdKeepsOthers(rs, id);
    forall k | 0 <= k < |r| ensures r[k] in rs { assert r[k] in r; }
    forall x ensures Find(r, x) == if x == id then None else Find(rs, x) {
      WithoutIdFinds(rs, id, x);
    }
    SavedGroup(st, g, r, id, None);
    PlainMeans(Delete(st, g, id));
  }

  /** While a group's active entry carries an override, creating and deleting in it do nothing. An update still
      rewrites exactly one entry, if there is one; an active one keeps the overriding address and the flag. */
  lemma OverrideProtects(st: Store, g: string, n: Record, id: Id)
    requires HasOverride(st, g) && n.memberOf == g && WellStored(st)
    ensures Create(st, n) == st && Delete(st, g, id) == st
    ensures GetActive(st, g) == Some(Find(st[g], GetActive(st, g).value.id).value)
    ensures Update(st, n).Refused? <==> Lookup(st, g, n.id).None?
    ensures Update(st, n).Saved? ==>
              var r := Lookup(st, g, n.id).value;
              var written := if r.isActive then n.(ip := r.ip, hasOverride := true) else n;
              OnlyAt(st, Update(st, n).store, g, n.id, Some(written))
  {
    ActiveIsFound(st[g], GetActive(st, g).value);
    var i := IndexOfId(st[g], n.id);
    if i != -1 {
      var r := st[g][i];
      OverwritesOne(st[g], i, if r.isActive then n.(ip := r.ip, hasOverride := true) else n);
      hide DistinctIds, IndexOfId;
    }
  }

  lemma OverwritesOne(rs: seq<Record>, i: nat, n: Record)
    requires DistinctIds(rs) && i < |rs| && rs[i].id == n.id
    ensures forall x :: Find(rs[i := n], x) == if x == n.id then Some(n) else Find(rs, x)
  {
    hide IndexOfId;
    forall x ensures Find(rs[i := n], x) == if x == n.id then Some(n) else Find(rs, x) {
      FindsMembers(rs[i := n], x);
      FindsMembers(rs, x);
      assert rs[i := n][i] == n;
      if x != n.id && Find(rs, x).Some? {
        var k :| 0 <= k < |rs| && rs[k].id == x;
        assert rs[i := n][k] == rs[k];
      }
    }
  }

  lemma ActiveIsFound(rs: seq<Record>, a: Record)
    requires DistinctIds(rs) && a in rs
    ensures Find(rs, a.id) == Some(a)
  {
    FindsMembers(rs, a.id);
  }
}
