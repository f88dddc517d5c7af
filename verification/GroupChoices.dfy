/** Whom a group chooses, told by priorities, recorded round trips and the order of the list. */
module GroupChoices {
  import opened Basics
  import opened Services
  import opened Sorting
  import opened ServiceGroups

  // ---------- The order of the members ----------

  /** The first service is not to be listed behind the second: it has a smaller priority, or the same and, if the
      second has a recorded round trip, a recorded one that is not longer. */
  predicate InOrder(a: ServiceData, b: ServiceData) {
    || a.priority < b.priority
    || (a.priority == b.priority && (b.roundtrip > 0 ==> 0 < a.roundtrip <= b.roundtrip))
  }

  ghost predicate ListedInOrder(w: World, ms: seq<Id>) {
    forall i, j :: 0 <= i < j < |ms| ==> InOrder(Get(w, ms[i]), Get(w, ms[j]))
  }

  /** What sorting the members means. */
  lemma SortedIffInOrder(w: World, ms: seq<Id>)
    ensures MembersSorted(w, ms) <==> ListedInOrder(w, ms)
  {
    assert forall a: ServiceData, b: ServiceData :: InOrder(a, b) <==> !Before(b, a);
    hide InOrder, Before;
  }

  /** No healthy member is to be preferred to the active: none has a smaller priority, and of those of its priority
      none has a recorded round trip when the active has none, or a shorter one. */
  ghost predicate Preferred(w: World, ms: seq<Id>, active: Option<Id>) {
    match active
    case None => forall m :: m in ms ==> !Get(w, m).isHealthy
    case Some(a) =>
      && a in ms && Get(w, a).isHealthy
      && forall m :: m in ms && Get(w, m).isHealthy ==> InOrder(Get(w, a), Get(w, m))
  }

  /** The active is the first healthy one of the list. */
  ghost predicate FirstUpIs(w: World, ms: seq<Id>, active: Option<Id>) {
    match active
    case None => forall k :: 0 <= k < |ms| ==> !Get(w, ms[k]).isHealthy
    case Some(a) =>
      exists i :: && 0 <= i < |ms| && ms[i] == a && Get(w, a).isHealthy
                  && forall k :: 0 <= k < i ==> !Get(w, ms[k]).isHealthy
  }

  lemma {:induction false} FirstHealthyIsFirst(w: World, ms: seq<Id>)
    ensures FirstUpIs(w, ms, FirstHealthy(w, ms))
  {
    if ms != [] && !Healthy(w, ms[0]) {
      FirstHealthyIsFirst(w, ms[1..]);
      FirstBehind(w, ms, FirstHealthy(w, ms));
    } else if ms != [] {
      assert ms[0] == FirstHealthy(w, ms).value;
    }
  }

  lemma FirstBehind(w: World, ms: seq<Id>, active: Option<Id>)
    requires ms != [] && !Get(w, ms[0]).isHealthy && FirstUpIs(w, ms[1..], active)
    ensures FirstUpIs(w, ms, active)
  {
    var rest := ms[1..];
    assert forall k :: 0 < k < |ms| ==> ms[k] == rest[k - 1];
    if active.Some? {
      var i :| 0 <= i < |rest| && rest[i] == active.value && Get(w, active.value).isHealthy
               && forall k :: 0 <= k < i ==> !Get(w, rest[k]).isHealthy;
      assert ms[i + 1] == active.value;
    }
  }

  lemma FirstIsPreferred(w: World, ms: seq<Id>, active: Option<Id>)
    requires ListedInOrder(w, ms) && FirstUpIs(w, ms, active)
    ensures Preferred(w, ms, active)
  {
    hide InOrder;
    if active.Some? {
      var i :| 0 <= i < |ms| && ms[i] == active.value && forall k :: 0 <= k < i ==> !Get(w, ms[k]).isHealthy;
      forall m | m in ms && Get(w, m).isHealthy ensures InOrder(Get(w, ms[i]), Get(w, m)) {
        var j :| 0 <= j < |ms| && ms[j] == m;
        if j == i {
          InOrderWithItself(Get(w, m));
        }
      }
    } else {
      forall m | m in ms ensures !Get(w, m).isHealthy {
        var j :| 0 <= j < |ms| && ms[j] == m;
      }
    }
  }

  lemma InOrderWithItself(d: ServiceData)
    ensures InOrder(d, d)
  {
  }

  lemma PreferredAmongSame(w: World, ms: seq<Id>, r: seq<Id>, active: Option<Id>)
    requires forall m :: m in ms <==> m in r
    ensures Preferred(w, ms, active) <==> Preferred(w, r, active)
  {
    hide InOrder;
  }

  // ---------- Elections ----------

  /** An election chooses a member that none is to be preferred to, however it sorts. */
  lemma ChosenIsPreferred(sort: Sorter, w: World, ms: seq<Id>)
    ensures Preferred(w, ms, Chosen(sort, w, ms))
  {
    var r := sort(w, ms);
    assert SortedMembers(w, ms, r);
    SortedIffInOrder(w, r);
    FirstHealthyIsFirst(w, r);
    FirstIsPreferred(w, r, Chosen(sort, w, ms));
    Rearranged(ms, r);
    PreferredAmongSame(w, ms, r, Chosen(sort, w, ms));
  }

  ghost predicate SomeDiffer(w: World, ms: seq<Id>) {
    exists a, b :: a in ms && b in ms && Get(w, a).priority != Get(w, b).priority
  }

  lemma FittingMeans(w: World, ms: seq<Id>)
    requires ms != []
    ensures FittingMode(w, ms) == if SomeDiffer(w, ms) then ActivePassive else ActiveActive
  {
    if !AllSamePriority(w, ms) {
      var k :| 0 <= k < |ms| && Priority(w, ms[k]) != Priority(w, ms[0]);
      assert ms[k] in ms && ms[0] in ms;
    } else {
      forall a, b | a in ms && b in ms ensures Priority(w, a) == Priority(w, b) {
        SamePriority(w, ms, a, b);
      }
    }
  }

  /** All that an update does: it lists the members in order; the mode tells whether priorities differ; the first
      healthy member becomes active; and an event remembers, and names, the one before, except in a group of one. */
  ghost predicate Settled(w: World, g: Group, o: Outcome) {
    && (forall m :: m in o.group.members <==> m in g.members)
    && ListedInOrder(w, o.group.members) && FirstUpIs(w, o.group.members, o.group.active)
    && Preferred(w, o.group.members, o.group.active)
    && o.group.mode == (if SomeDiffer(w, g.members) then ActivePassive else ActiveActive)
    && o.group.name == g.name && o.group.prioritizedDatacenter == g.prioritizedDatacenter && !o.crashed
    && if |g.members| == 1 || o.group.active == g.active
       then o.event.None? && o.group.lastActive == g.lastActive
       else o.event == Some(PromotionEvent(g.name, o.group.active, g.active)) && o.group.lastActive == g.active
  }

  lemma UpdateSettles(sort: Sorter, w: World, g: Group)
    requires g.members != [] && g.mode != ActiveActiveRoundTrip
    ensures Settled(w, g, Update(sort, w, g))
  {
    var ms := sort(w, g.members);
    var first := FirstHealthy(w, ms);
    UpdateMeans(sort, w, g);
    Rearranged(g.members, ms);
    SortedIffInOrder(w, ms);
    FirstHealthyIsFirst(w, ms);
    FirstIsPreferred(w, ms, first);
    FittingMeans(w, ms);
    hide *;
    SettledBy(w, g, ms, first, Update(sort, w, g));
  }

  lemma SettledBy(w: World, g: Group, ms: seq<Id>, first: Option<Id>, o: Outcome)
    requires |ms| == |g.members| > 0 && forall m :: m in g.members <==> m in ms
    requires ListedInOrder(w, ms) && FirstUpIs(w, ms, first) && Preferred(w, ms, first)
    requires FittingMode(w, ms) == if SomeDiffer(w, ms) then ActivePassive else ActiveActive
    requires o == if |ms| == 1 then
                    Outcome(g.(members := ms, mode := ActiveActive, active := first), None, false)
                  else if first == g.active then
                    Outcome(g.(members := ms, mode := FittingMode(w, ms)), None, false)
                  else
                    Outcome(g.(members := ms, mode := FittingMode(w, ms), active := first, lastActive := g.active),
                            Some(PromotionEvent(g.name, first, g.active)), false)
    ensures Settled(w, g, o)
  {
    hide ListedInOrder, FirstUpIs, Preferred, FittingMode;
    assert SomeDiffer(w, g.members) <==> SomeDiffer(w, ms);
    if |ms| == 1 {
      assert ms[0] in ms && forall m :: m in ms ==> m == ms[0];
    }
  }

  /** So do a registration and a removal, with one member more or less; from a group that becomes empty nothing
      is elected. */
  lemma RegistrationSettles(sort: Sorter, w: World, g: Group, id: Id)
    requires id !in g.members && g.mode != ActiveActiveRoundTrip
    ensures Settled(w, g.(members := g.members + [id]), RegisterMember(sort, w, g, id))
  {
    hide Update, Settled;
    UpdateSettles(sort, w, g.(members := g.members + [id]));
  }

  lemma RemovalSettles(sort: Sorter, w: World, g: Group, id: Id)
    requires NoDup(g.members) && id in g.members && g.mode != ActiveActiveRoundTrip && |g.members| > 1
    ensures exists rest ::
              && Settled(w, g.(members := rest), RemoveMember(sort, w, g, id))
              && |rest| == |g.members| - 1 && forall m :: m in rest <==> m in g.members && m != id
  {
    hide Update, Settled;
    WithoutMember(g.members, id);
    UpdateSettles(sort, w, g.(members := Without(g.members, id)));
  }

  // ---------- Health flips ----------

  /** What `GetActive` answers, of any group: in ActivePassive the active, if there is one; otherwise the first healthy
      one of the list, and the active only if nobody is healthy. */
  lemma GetActiveMeans(w: World, g: Group)
    ensures var a := GetActive(w, g);
            if g.mode == ActivePassive || forall m :: m in g.members ==> !Get(w, m).isHealthy then a == g.active
            else FirstUpIs(w, g.members, a) && a.Some?
  {
    FirstHealthyIsFirst(w, g.members);
  }

  /** The member at index `i` is the first of the healthy ones of the smallest priority. */
  ghost predicate FirstBestAt(w: World, ms: seq<Id>, i: int) {
    && 0 <= i < |ms| && Get(w, ms[i]).isHealthy
    && forall k :: 0 <= k < |ms| && Get(w, ms[k]).isHealthy ==>
         if k < i then Get(w, ms[i]).priority < Get(w, ms[k]).priority
         else Get(w, ms[i]).priority <= Get(w, ms[k]).priority
  }

  ghost predicate FirstOfBest(w: World, ms: seq<Id>, active: Option<Id>) {
    match active
    case None => forall k :: 0 <= k < |ms| ==> !Get(w, ms[k]).isHealthy
    case Some(a) => exists i :: FirstBestAt(w, ms, i) && ms[i] == a
  }

  lemma {:induction false} BestHealthyIsFirst(w: World, ms: seq<Id>)
    requires forall k :: 0 <= k < |ms| ==> Get(w, ms[k]).priority < MAX_INT
    ensures FirstOfBest(w, ms, BestHealthy(w, ms))
  {
    if ms != [] {
      var n := |ms| - 1;
      BestHealthyIsFirst(w, ms[..n]);
      if BestHealthy(w, ms[..n]).Some? {
        var i :| FirstBestAt(w, ms[..n], i) && ms[..n][i] == BestHealthy(w, ms[..n]).value;
        BestSoFar(w, ms, i);
      } else {
        NoneSoFar(w, ms);
      }
    }
  }

  lemma BestSoFar(w: World, ms: seq<Id>, i: int)
    requires ms != [] && FirstBestAt(w, ms[..|ms| - 1], i)
    ensures var n := |ms| - 1;
            if Get(w, ms[n]).isHealthy && Get(w, ms[n]).priority < Get(w, ms[i]).priority
            then FirstBestAt(w, ms, n) else FirstBestAt(w, ms, i)
  {
    var n := |ms| - 1;
    assert forall k :: 0 <= k < n ==> ms[..n][k] == ms[k];
  }

  lemma NoneSoFar(w: World, ms: seq<Id>)
    requires ms != [] && FirstOfBest(w, ms[..|ms| - 1], None)
    ensures Get(w, ms[|ms| - 1]).isHealthy ==> FirstBestAt(w, ms, |ms| - 1)
    ensures forall k :: 0 <= k < |ms| - 1 ==> !Get(w, ms[k]).isHealthy
  {
    var n := |ms| - 1;
    assert forall k :: 0 <= k < n ==> ms[..n][k] == ms[k];
  }

  /** A service that comes up takes the role when nobody has it; in ActivePassive from an active whose priority is
      not smaller; in ActiveActive when it is in the preferred datacenter. */
  predicate TakesRole(w: World, g: Group, id: Id) {
    || g.active.None?
    || (g.mode == ActivePassive && Get(w, id).priority <= Get(w, g.active.value).priority)
    || (g.mode == ActiveActive && Get(w, id).datacenter == g.prioritizedDatacenter)
  }

  /** All that the flip of a member leads to, in a soundly elected group. */
  ghost predicate FlipLeads(w: World, g: Group, id: Id, o: Outcome) {
    && !o.crashed
    && o.group == g.(active := o.group.active, lastActive := o.group.lastActive)
    && (if Get(w, id).isHealthy then
          o.group.active == (if TakesRole(w, g, id) then Some(id) else g.active)
        else if g.active == Some(id) then
          if g.mode == ActivePassive then FirstOfBest(w, g.members, o.group.active)
          else FirstUpIs(w, g.members, o.group.active)
        else o.group.active == g.active)
    && (if o.group.active == g.active then o.event.None? && o.group.lastActive == g.lastActive
        else
          && o.event.Some? && o.event.value.group == g.name && o.event.value.newActive == o.group.active
          && o.event.value.oldActive == (if g.mode == ActivePassive && g.active.None? then g.lastActive else g.active)
          && o.group.lastActive ==
             if g.mode == ActiveActive && Get(w, id).isHealthy then g.lastActive else g.active)
  }

  lemma FlipLeadsTo(v: World, w: World, g: Group, id: Id)
    requires Elected(v, g) && id in g.members && Flipped(v, w, id)
    requires !Get(w, id).isHealthy ==> forall m :: m in g.members ==> Get(w, m).priority < MAX_INT
    ensures FlipLeads(w, g, id, OnServiceHealthChange(w, g, id, Get(w, id).isHealthy))
  {
    FlipBasics(v, w, g, id);
    ElectedActive(v, g);
    hide Elected, Flipped, FirstOfBest, FirstUpIs, BestHealthy, FirstHealthy;
    if Get(w, id).isHealthy {
      UpLeads(w, g, id);
    } else {
      BestHealthyIsFirst(w, g.members);
      FirstHealthyIsFirst(w, g.members);
      DownLeads(w, g, id);
    }
  }

  lemma ElectedActive(v: World, g: Group)
    requires Elected(v, g)
    ensures g.active.Some? ==> Healthy(v, g.active.value)
    ensures g.mode != ActiveActiveRoundTrip
  {
  }

  lemma UpLeads(w: World, g: Group, id: Id)
    requires Get(w, id).isHealthy && g.mode != ActiveActiveRoundTrip && g.active != Some(id)
    requires g.active.Some? ==> Healthy(w, g.active.value)
    ensures FlipLeads(w, g, id, OnServiceHealthChange(w, g, id, true))
  {
  }

  lemma DownLeads(w: World, g: Group, id: Id)
    requires !Get(w, id).isHealthy && g.mode != ActiveActiveRoundTrip && g.active.Some?
    requires FirstOfBest(w, g.members, BestHealthy(w, g.members))
    requires FirstUpIs(w, g.members, FirstHealthy(w, g.members))
    ensures FlipLeads(w, g, id, OnServiceHealthChange(w, g, id, false))
  {
    NotItself(w, g.members, id, BestHealthy(w, g.members));
    NotItself(w, g.members, id, FirstHealthy(w, g.members));
    hide FirstOfBest, FirstUpIs, BestHealthy, FirstHealthy;
  }

  lemma NotItself(w: World, ms: seq<Id>, id: Id, active: Option<Id>)
    requires !Get(w, id).isHealthy
    ensures FirstOfBest(w, ms, active) || FirstUpIs(w, ms, active) ==> active != Some(id)
  {
  }
}
