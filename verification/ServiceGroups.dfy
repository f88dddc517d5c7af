/** The election of one active service per group. Members are named by their ids; `World` gives the
    current state of every service object. */
module ServiceGroups {
  import opened Basics
  import opened Filters
  import opened Services
  import opened Sorting

  type World = map<Id, ServiceData>

  const NO_SERVICE := ServiceData("", "", "", "", "", "", "", 0, 0, 0, 0, 0, 0, false, 0)

  function Get(w: World, id: Id): ServiceData {
    if id in w then w[id] else NO_SERVICE
  }

  predicate Healthy(w: World, id: Id) {
    Get(w, id).isHealthy
  }

  function Priority(w: World, id: Id): int {
    Get(w, id).priority
  }

  // ---------- The member order ----------

  /** The three-way comparison passed to the sort. */
  function Compare(a: ServiceData, b: ServiceData): int {
    if a.priority != b.priority then
      if a.priority < b.priority then -1 else 1
    else if a.roundtrip > 0 && b.roundtrip > 0 then
      if a.roundtrip < b.roundtrip then -1 else if a.roundtrip > b.roundtrip then 1 else 0
    else if a.roundtrip > 0 then -1
    else 1
  }

  /** All a sort asks of the comparison. */
  predicate Before(a: ServiceData, b: ServiceData) {
    Compare(a, b) < 0
  }

  predicate MemberBefore(w: World, a: Id, b: Id) {
    Before(Get(w, a), Get(w, b))
  }

  /** The comparison contradicts itself on two services without recorded round trips ... */
  lemma CompareIsNotAntisymmetric(a: ServiceData, b: ServiceData)
    ensures Compare(a, b) > 0 && Compare(b, a) > 0 <==>
            a.priority == b.priority && a.roundtrip <= 0 && b.roundtrip <= 0
  {
  }

  /** ... but the part of it that sorting uses is a strict weak order, refining the priorities. */
  lemma BeforeIsStrictWeakOrder()
    ensures StrictWeakOrder(Before)
    ensures forall a: ServiceData, b: ServiceData :: a.priority < b.priority ==> Before(a, b)
    ensures forall a: ServiceData, b: ServiceData :: Before(a, b) ==> a.priority <= b.priority
  {
  }

  ghost predicate MembersSorted(w: World, ms: seq<Id>) {
    forall i, j :: 0 <= i < j < |ms| ==> !MemberBefore(w, ms[j], ms[i])
  }

  ghost predicate SortedMembers(w: World, ms: seq<Id>, r: seq<Id>) {
    multiset(ms) == multiset(r) && MembersSorted(w, r)
  }

  /** The two worlds compare these members alike. */
  ghost predicate SameOrder(v: World, w: World, ms: seq<Id>) {
    forall a, b :: a in ms && b in ms ==> MemberBefore(v, a, b) == MemberBefore(w, a, b)
  }

  /** A sort rearranges the members into order, and looks at nothing but their comparisons. */
  ghost predicate IsSorter(f: (World, seq<Id>) -> seq<Id>) {
    && (forall w, ms :: SortedMembers(w, ms, f(w, ms)))
    && (forall v, w, ms :: SameOrder(v, w, ms) ==> f(v, ms) == f(w, ms))
  }

  function InsertionSortMembers(w: World, ms: seq<Id>): seq<Id> {
    InsertionSort((a, b) => MemberBefore(w, a, b), ms)
  }

  lemma InsertionSortIsSorter()
    ensures IsSorter(InsertionSortMembers)
  {
    forall w, ms
      ensures SortedMembers(w, ms, InsertionSortMembers(w, ms))
    {
      BeforeIsStrictWeakOrder();
      InsertionSortSorts((a, b) => MemberBefore(w, a, b), ms);
    }
    forall v, w, ms | SameOrder(v, w, ms)
      ensures InsertionSortMembers(v, ms) == InsertionSortMembers(w, ms)
    {
      InsertionSortAgrees((a, b) => MemberBefore(v, a, b), (a, b) => MemberBefore(w, a, b), ms);
    }
  }

  /** Any algorithm that sorts. Ties may come out in any order. */
  type Sorter = f: (World, seq<Id>) -> seq<Id> | IsSorter(f)
    ghost witness (InsertionSortIsSorter(); InsertionSortMembers)

  // ---------- Groups and promotion events ----------

  datatype Mode = ActiveActive | ActivePassive | ActiveActiveRoundTrip

  datatype PromotionEvent = PromotionEvent(group: string, newActive: Option<Id>, oldActive: Option<Id>)

  datatype Group = Group(
    name: string,
    mode: Mode,
    members: seq<Id>,
    active: Option<Id>,
    lastActive: Option<Id>,
    prioritizedDatacenter: string)

  /** What one call on a group leads to. `crashed` stands for a nil dereference. */
  datatype Outcome = Outcome(group: Group, event: Option<PromotionEvent>, crashed: bool)

  function EmptyGroup(name: string): Group {
    Group(name, ActiveActive, [], None, None, "")
  }

  function FirstHealthy(w: World, ms: seq<Id>): (r: Option<Id>)
    ensures r.None? <==> forall m :: m in ms ==> !Healthy(w, m)
    ensures r.Some? ==> r.value in ms && Healthy(w, r.value)
    ensures r.Some? && MembersSorted(w, ms) ==>
              forall m :: m in ms && Healthy(w, m) ==> Priority(w, r.value) <= Priority(w, m)
  {
    if ms == [] then None
    else if Healthy(w, ms[0]) then Some(ms[0])
    else FirstHealthy(w, ms[1..])
  }

  /** The scan of `promoteNextHealthy`: the first member of the best priority strictly below MAX_INT. */
  function BestHealthy(w: World, ms: seq<Id>): (r: Option<Id>)
    ensures r.None? <==> forall m :: m in ms && Healthy(w, m) ==> Priority(w, m) >= MAX_INT
    ensures r.Some? ==> r.value in ms && Healthy(w, r.value) && Priority(w, r.value) < MAX_INT
    ensures r.Some? ==> forall m :: m in ms && Healthy(w, m) ==> Priority(w, r.value) <= Priority(w, m)
  {
    if ms == [] then None
    else
      var m, best := ms[|ms| - 1], BestHealthy(w, ms[..|ms| - 1]);
      if Healthy(w, m) && Priority(w, m) < (if best.Some? then Priority(w, best.value) else MAX_INT)
      then Some(m) else best
  }

  predicate AllSamePriority(w: World, ms: seq<Id>) {
    forall k :: 0 <= k < |ms| ==> Priority(w, ms[k]) == Priority(w, ms[0])
  }

  function SetGroupMode(w: World, g: Group): Group {
    if g.members == [] then g.(mode := ActiveActive)
    else if |g.members| == 1 then
      g.(mode := ActiveActive, active := if Healthy(w, g.members[0]) then Some(g.members[0]) else None)
    else
      match g.mode
      case ActiveActive =>
        if AllSamePriority(w, g.members) then g else g.(mode := ActivePassive)
      case ActivePassive =>
        if AllSamePriority(w, g.members) then g.(mode := ActiveActive) else g
      case _ => g.(mode := ActiveActive)
  }

  function Update(sort: Sorter, w: World, g: Group): Outcome {
    if g.members == [] then Outcome(g, None, false)
    else
      var g1 := SetGroupMode(w, g.(members := sort(w, g.members)));
      var first := FirstHealthy(w, g1.members);
      if first != g1.active then
        var g2 := g1.(lastActive := g1.active, active := first);
        Outcome(g2, Some(PromotionEvent(g.name, first, g1.active)), false)
      else
        Outcome(g1, None, false)
  }

  function RegisterMember(sort: Sorter, w: World, g: Group, id: Id): Outcome {
    if id in g.members then Outcome(g, None, false)
    else Update(sort, w, g.(members := g.members + [id]))
  }

  function IndexOf(ms: seq<Id>, id: Id): (i: int)
    ensures i == -1 <==> id !in ms
    ensures i != -1 ==> 0 <= i < |ms| && ms[i] == id && id !in ms[..i]
  {
    FirstIndex(m => m == id, ms)
  }

  /** The group is empty afterwards exactly when its new member list is. */
  function RemoveMember(sort: Sorter, w: World, g: Group, id: Id): Outcome {
    if id !in g.members then Outcome(g, None, false)
    else Update(sort, w, g.(members := Without(g.members, id)))
  }

  function Without(ms: seq<Id>, id: Id): seq<Id>
    requires id in ms
  {
    var i := IndexOf(ms, id);
    ms[..i] + ms[i + 1..]
  }

  predicate TriggersPromotion(w: World, g: Group, id: Id) {
    && Healthy(w, id)
    && (g.active.None? || !Healthy(w, g.active.value) || Priority(w, id) <= Priority(w, g.active.value))
  }

  function PromoteNextHealthy(w: World, g: Group): Outcome {
    var best := BestHealthy(w, g.members);
    Outcome(g.(active := best), Some(PromotionEvent(g.name, best, g.active)), false)
  }

  function OnServiceHealthChange(w: World, g: Group, id: Id, healthy: bool): Outcome {
    match g.mode
    case ActivePassive =>
      if !healthy then
        if g.active.None? then Outcome(g, None, true)
        else if g.active.value == id then PromoteNextHealthy(w, g.(lastActive := g.active))
        else Outcome(g, None, false)
      else if TriggersPromotion(w, g, id) then
        var oldActive := if g.active.None? then g.lastActive else g.active;
        Outcome(g.(lastActive := g.active, active := Some(id)),
                Some(PromotionEvent(g.name, Some(id), oldActive)), false)
      else Outcome(g, None, false)
    case ActiveActive =>
      if healthy then
        if (Get(w, id).datacenter == g.prioritizedDatacenter && g.active != Some(id))
           || g.active.None? || !Healthy(w, g.active.value) then
          Outcome(g.(active := Some(id)), Some(PromotionEvent(g.name, Some(id), g.active)), false)
        else Outcome(g, None, false)
      else if g.active.None? then Outcome(g, None, true)
      else if g.active.value == id then
        var next := FirstHealthy(w, g.members);
        Outcome(g.(lastActive := g.active, active := next),
                Some(PromotionEvent(g.name, next, g.active)), false)
      else Outcome(g, None, false)
    case ActiveActiveRoundTrip => Outcome(g, None, false)
  }

  function GetActive(w: World, g: Group): Option<Id> {
    if g.mode == ActivePassive && g.active.Some? then g.active
    else
      var first := if g.mode == ActivePassive then None else FirstHealthy(w, g.members);
      if first.Some? then first else g.active
  }

  // ---------- The election invariant ----------

  ghost predicate NoneHealthy(w: World, ms: seq<Id>) {
    forall m :: m in ms ==> !Healthy(w, m)
  }

  /** `a` is a healthy member that no healthy member beats. */
  ghost predicate BestMember(w: World, ms: seq<Id>, a: Id) {
    && a in ms && Healthy(w, a)
    && forall m :: m in ms && Healthy(w, m) ==> Priority(w, a) <= Priority(w, m)
  }

  ghost predicate RightActive(w: World, ms: seq<Id>, active: Option<Id>) {
    if active.Some? then BestMember(w, ms, active.value) else NoneHealthy(w, ms)
  }

  ghost predicate Elected(w: World, g: Group) {
    && g.members != []
    && NoDup(g.members)
    && g.mode == FittingMode(w, g.members)
    && RightActive(w, g.members, g.active)
  }

  lemma ElectedDependsOnMembersOnly(v: World, w: World, g: Group)
    requires Elected(v, g)
    requires forall m :: m in g.members ==> Healthy(v, m) == Healthy(w, m) && Priority(v, m) == Priority(w, m)
    ensures Elected(w, g)
  {
    forall k | 0 <= k < |g.members|
      ensures Priority(v, g.members[k]) == Priority(w, g.members[k])
    {
      assert g.members[k] in g.members;
    }
    assert g.members[0] in g.members;
  }

  /** An event tells the truth about the step from group `g`: it announces the new active, which is
      right, and names the service that was active, or else the one that was last. */
  ghost predicate FaithfulEvent(w: World, g: Group, o: Outcome) {
    match o.event
    case None => true
    case Some(e) =>
      && e.newActive == o.group.active != g.active
      && e.group == o.group.name
      && RightActive(w, o.group.members, e.newActive)
      && (e.oldActive == g.active || (g.active.None? && e.oldActive == g.lastActive))
  }

  function FittingMode(w: World, ms: seq<Id>): Mode {
    if AllSamePriority(w, ms) then ActiveActive else ActivePassive
  }

  function Only(w: World, ms: seq<Id>): Option<Id>
    requires |ms| == 1
  {
    if Healthy(w, ms[0]) then Some(ms[0]) else None
  }

  lemma SetGroupModeFits(w: World, g: Group)
    requires g.members != [] && g.mode != ActiveActiveRoundTrip
    ensures SetGroupMode(w, g) == g.(mode := FittingMode(w, g.members),
                                     active := if |g.members| == 1 then Only(w, g.members) else g.active)
  {
  }

  lemma FirstHealthyIsRight(w: World, ms: seq<Id>)
    requires MembersSorted(w, ms)
    ensures RightActive(w, ms, FirstHealthy(w, ms))
  {
  }

  /** What an update amounts to. */
  lemma UpdateMeans(sort: Sorter, w: World, g: Group)
    requires g.members != [] && g.mode != ActiveActiveRoundTrip
    ensures var ms := sort(w, g.members); var first := FirstHealthy(w, ms);
            && SortedMembers(w, g.members, ms) && ms != []
            && Update(sort, w, g) ==
               (if |ms| == 1 then
                  Outcome(g.(members := ms, mode := ActiveActive, active := first), None, false)
                else if first == g.active then
                  Outcome(g.(members := ms, mode := FittingMode(w, ms)), None, false)
                else
                  Outcome(g.(members := ms, mode := FittingMode(w, ms), active := first, lastActive := g.active),
                          Some(PromotionEvent(g.name, first, g.active)), false))
  {
    var ms := sort(w, g.members);
    assert SortedMembers(w, g.members, ms);
    Rearranged(g.members, ms);
    SetGroupModeFits(w, g.(members := ms));
    if |ms| == 1 {
      assert ms[1..] == [];
    }
  }

  /** Whatever the active was before, an update elects a right one; an event is raised exactly when
      the active changes, except that a lone member takes over silently. */
  lemma UpdateElects(sort: Sorter, w: World, g: Group)
    requires g.members != [] && NoDup(g.members) && g.mode != ActiveActiveRoundTrip
    ensures var o := Update(sort, w, g);
            && !o.crashed
            && Elected(w, o.group)
            && multiset(o.group.members) == multiset(g.members)
            && o.group.name == g.name && o.group.prioritizedDatacenter == g.prioritizedDatacenter
            && FaithfulEvent(w, g, o)
            && (|g.members| == 1 ==> o.event.None? && o.group.lastActive == g.lastActive)
            && (|g.members| > 1 ==> (o.event.None? <==> o.group.active == g.active))
            && (o.group.lastActive == g.lastActive || o.group.lastActive == g.active)
  {
    var ms := sort(w, g.members);
    UpdateMeans(sort, w, g);
    Rearranged(g.members, ms);
    FirstHealthyIsRight(w, ms);
  }

  /** All an election looks at in the members `ms` is the same in both worlds. */
  ghost predicate Alike(v: World, w: World, ms: seq<Id>) {
    forall m :: m in ms ==> Priority(v, m) == Priority(w, m) && Healthy(v, m) == Healthy(w, m)
                            && Get(v, m).roundtrip == Get(w, m).roundtrip
  }

  lemma {:induction false} FirstHealthyFrame(v: World, w: World, ms: seq<Id>)
    requires forall m :: m in ms ==> Healthy(v, m) == Healthy(w, m)
    ensures FirstHealthy(v, ms) == FirstHealthy(w, ms)
  {
    if ms != [] {
      assert ms[0] in ms;
      FirstHealthyFrame(v, w, ms[1..]);
    }
  }

  lemma SortFrame(sort: Sorter, v: World, w: World, ms: seq<Id>)
    requires Alike(v, w, ms)
    ensures sort(v, ms) == sort(w, ms) && forall m :: m in sort(w, ms) <==> m in ms
    ensures FirstHealthy(v, sort(v, ms)) == FirstHealthy(w, sort(w, ms))
  {
    assert SameOrder(v, w, ms);
    assert SortedMembers(w, ms, sort(w, ms));
    Rearranged(ms, sort(w, ms));
    FirstHealthyFrame(v, w, sort(w, ms));
  }

  /** An update depends on nothing else of the world. */
  lemma UpdateFrame(sort: Sorter, v: World, w: World, g: Group)
    requires Alike(v, w, g.members) && g.mode != ActiveActiveRoundTrip
    ensures Update(sort, v, g) == Update(sort, w, g)
  {
    if g.members != [] {
      SortFrame(sort, v, w, g.members);
      UpdateMeans(sort, v, g);
      UpdateMeans(sort, w, g);
      hide Update;
      var ms := sort(w, g.members);
      assert forall k :: 0 <= k < |ms| ==> ms[k] in g.members;
    }
  }

  lemma RemoveFrame(sort: Sorter, v: World, w: World, g: Group, id: Id)
    requires Alike(v, w, g.members) && g.mode != ActiveActiveRoundTrip
    ensures RemoveMember(sort, v, g, id) == RemoveMember(sort, w, g, id)
  {
    hide Update;
    if id in g.members {
      UpdateFrame(sort, v, w, g.(members := Without(g.members, id)));
    }
  }

  /** The member that an update elects from `ms`. */
  function Chosen(sort: Sorter, w: World, ms: seq<Id>): Option<Id> {
    FirstHealthy(w, sort(w, ms))
  }

  lemma UpdateChooses(sort: Sorter, w: World, g: Group)
    requires g.members != [] && g.mode != ActiveActiveRoundTrip
    ensures Update(sort, w, g).group.active == Chosen(sort, w, g.members)
    ensures Update(sort, w, g).event ==
            if |g.members| == 1 || Chosen(sort, w, g.members) == g.active then None
            else Some(PromotionEvent(g.name, Chosen(sort, w, g.members), g.active))
  {
    UpdateMeans(sort, w, g);
    Rearranged(g.members, sort(w, g.members));
  }

  lemma RegisterElects(sort: Sorter, w: World, g: Group, id: Id)
    requires g.members == [] || Elected(w, g)
    requires g.mode != ActiveActiveRoundTrip
    requires id !in g.members
    ensures var o := RegisterMember(sort, w, g, id);
            && !o.crashed
            && Elected(w, o.group)
            && multiset(o.group.members) == multiset(g.members) + multiset{id}
            && o.group.name == g.name && o.group.prioritizedDatacenter == g.prioritizedDatacenter
            && FaithfulEvent(w, g, o)
            && (g.members != [] ==> (o.event.None? <==> o.group.active == g.active))
            && (g.members == [] ==> o.event.None?)
            && (o.group.lastActive == g.lastActive || o.group.lastActive == g.active)
  {
    UpdateElects(sort, w, g.(members := g.members + [id]));
  }

  lemma WithoutMember(ms: seq<Id>, id: Id)
    requires NoDup(ms) && id in ms
    ensures var rest := Without(ms, id);
            && NoDup(rest) && |rest| == |ms| - 1
            && forall m :: m in rest <==> m in ms && m != id
  {
    NoDupWithout(ms, IndexOf(ms, id));
  }

  /** Removing a member re-elects. `g` may be any group whose members are distinct: the removed
      service may already have changed its priority. */
  lemma RemoveElects(sort: Sorter, w: World, g: Group, id: Id)
    requires NoDup(g.members) && id in g.members && g.mode != ActiveActiveRoundTrip
    ensures var o := RemoveMember(sort, w, g, id);
            && !o.crashed
            && |o.group.members| == |g.members| - 1
            && NoDup(o.group.members)
            && (forall m :: m in o.group.members <==> m in g.members && m != id)
            && o.group.name == g.name && o.group.prioritizedDatacenter == g.prioritizedDatacenter
            && (|g.members| == 1 ==> o.event.None?)
            && (|g.members| > 1 ==> Elected(w, o.group))
            && (|g.members| == 2 ==> o.event.None?)
            && (|g.members| > 2 ==> (o.event.None? <==> o.group.active == g.active))
            && FaithfulEvent(w, g, o)
            && (o.group.lastActive == g.lastActive || o.group.lastActive == g.active)
  {
    WithoutMember(g.members, id);
    var rest := Without(g.members, id);
    if rest != [] {
      UpdateElects(sort, w, g.(members := rest));
      Rearranged(rest, Update(sort, w, g.(members := rest)).group.members);
    }
  }

  /** When one of two leaves, an active that stays stays active. */
  lemma SurvivorStays(sort: Sorter, w: World, g: Group, id: Id, a: Id)
    requires NoDup(g.members) && id in g.members && g.mode != ActiveActiveRoundTrip
    requires |g.members| == 2 && a in g.members && a != id && Healthy(w, a)
    ensures RemoveMember(sort, w, g, id).group.active == Some(a)
  {
    RemoveElects(sort, w, g, id);
    var ms := RemoveMember(sort, w, g, id).group.members;
    assert a in ms;
    assert forall m :: m in ms ==> m == ms[0];
  }

  /** A real flip of one member's health: `w` is `v` with that member flipped. */
  ghost predicate Flipped(v: World, w: World, id: Id) {
    && id in v && w.Keys == v.Keys
    && w[id].isHealthy != v[id].isHealthy && w[id].priority == v[id].priority
    && forall x :: x in v && x != id ==> w[x].isHealthy == v[x].isHealthy && w[x].priority == v[x].priority
  }

  lemma FlipBasics(v: World, w: World, g: Group, id: Id)
    requires Elected(v, g) && id in g.members && Flipped(v, w, id)
    ensures forall x :: Priority(w, x) == Priority(v, x)
    ensures forall x :: x != id ==> Healthy(w, x) == Healthy(v, x)
    ensures Healthy(w, id) != Healthy(v, id)
    ensures AllSamePriority(w, g.members) <==> AllSamePriority(v, g.members)
    ensures !Healthy(w, id) ==> g.active.Some?
    ensures g.active.Some? && g.active.value == id ==> !Healthy(w, id)
  {
  }

  /** In ActivePassive, when the active goes down, a member at priority MAX_INT is never picked.
      This is the guard under which the election goes wrong. */
  ghost predicate OnlyUnpickableLeft(w: World, g: Group, id: Id) {
    && g.mode == ActivePassive && g.active == Some(id) && !Healthy(w, id)
    && (exists m :: m in g.members && Healthy(w, m))
    && forall m :: m in g.members && Healthy(w, m) ==> Priority(w, m) >= MAX_INT
  }

  /** A health flip never dereferences a missing active, and it elects a right active exactly when
      it does not run into the scan's MAX_INT sentinel. In ActivePassive a service that comes up takes the role
      from an active exactly when its priority is at most the active's. */
  lemma FlipElects(v: World, w: World, g: Group, id: Id)
    requires Elected(v, g) && id in g.members && Flipped(v, w, id)
    ensures var o := OnServiceHealthChange(w, g, id, Healthy(w, id));
            && !o.crashed
            && o.group.members == g.members
            && (Elected(w, o.group) <==> !OnlyUnpickableLeft(w, g, id))
            && (Healthy(w, id) && g.mode == ActivePassive && g.active.Some? ==>
                  (o.group.active == Some(id) <==> Get(w, id).priority <= Get(w, g.active.value).priority))
  {
    FlipBasics(v, w, g, id);
    var o := OnServiceHealthChange(w, g, id, Healthy(w, id));
    if g.mode == ActiveActive && Healthy(w, id) {
      forall m | m in g.members ensures Priority(w, m) == Priority(w, id) {
        SamePriority(w, g.members, m, id);
      }
    }
    if g.mode == ActiveActive {
      forall a, b | a in g.members && b in g.members ensures Priority(w, a) == Priority(w, b) {
        SamePriority(w, g.members, a, b);
      }
    }
  }

  /** For instance: of two healthy members, the one that is not at priority MAX_INT is active and goes down.
      Nobody is active then, although the other is up. */
  lemma UnpickableIsSkipped(a: ServiceData, b: ServiceData) returns (v: World, w: World, g: Group)
    requires a.id != b.id && a.isHealthy && b.isHealthy && a.priority < MAX_INT == b.priority
    ensures Elected(v, g) && g.active == Some(a.id) && b.id in g.members && Flipped(v, w, a.id)
    ensures OnlyUnpickableLeft(w, g, a.id) && Healthy(w, b.id)
    ensures OnServiceHealthChange(w, g, a.id, false).group.active.None?
  {
    v := map[a.id := a, b.id := b];
    w := v[a.id := a.(isHealthy := false)];
    g := Group("", ActivePassive, [a.id, b.id], Some(a.id), None, "");
    assert g.members[0] == a.id && g.members[1] == b.id;
  }

  lemma SamePriority(w: World, ms: seq<Id>, a: Id, b: Id)
    requires AllSamePriority(w, ms) && a in ms && b in ms
    ensures Priority(w, a) == Priority(w, b)
  {
  }

  /** With priorities below MAX_INT a flip re-elects, changes no other field a caller sees, and
      raises an event exactly when the active changes. */
  lemma FlipElectsBelowMaxInt(v: World, w: World, g: Group, id: Id)
    requires Elected(v, g) && id in g.members && Flipped(v, w, id)
    requires forall m :: m in g.members ==> Priority(w, m) < MAX_INT
    ensures var o := OnServiceHealthChange(w, g, id, Healthy(w, id));
            && !o.crashed
            && Elected(w, o.group)
            && o.group.members == g.members && o.group.name == g.name
            && FaithfulEvent(w, g, o)
            && (o.event.None? <==> o.group.active == g.active)
            && (o.group.lastActive == g.lastActive || o.group.lastActive == g.active)
  {
    FlipElects(v, w, g, id);
    FlipBasics(v, w, g, id);
  }
}
