/** Configuration updates, turns of the loops, and whole runs of the manager. */
module ManagerRuns {
  import opened Basics
  import opened Services
  import opened Managers
  import opened ManagerInvariants
  import opened ManagerPromotions
  import opened ManagerSteps
  import opened ManagerLeaving
  import G = ServiceGroups
  import H = Heaps
  import R = ServiceRepos
  import S = Schedulers

  // ---------- The last two steps of an update ----------

  lemma SaveRecordKeeps(s: State, id: Id)
    requires Inv(s) && id in s.index
    ensures var t := SaveRecord(s, id); Inv(t) && t == s.(store := t.store)
  {
    var t := SaveRecord(s, id);
    hide ObjectsOk, IndexOk, GroupsOk, StoreOk, StoreSane;
    IndexedAt(s, id, None);
    assert s.objs[id].id == id && StoreSane(s) by {
      InvMeans(s, id);
    }
    SaveRecordShrinks(s, s, id, s.objs[id]);
    ScheduleFrame(s, t, None);
    FlagsShrunkKeeps(s, t);
  }

  lemma InvMeans(s: State, id: Id)
    requires Inv(s) && id in s.index
    ensures id in s.objs && s.objs[id].id == id && StoreSane(s)
    ensures IsMember(s, s.objs[id].memberOf, id)
  {
  }

  lemma InvParts(s: State)
    requires Inv(s)
    ensures !s.crashed && ObjectsOk(s) && IndexOk(s, None) && GroupsOk(s) && StoreOk(s) && StoreSane(s)
  {
    hide ObjectsOk, IndexOk, GroupsOk, StoreSane;
  }

  lemma GroupIn(s: State, g: string)
    requires GroupsOk(s) && g in s.groups
    ensures GroupOk(s, g)
  {
    hide GroupOk;
  }

  lemma FlagsShrunkKeeps(s: State, t: State)
    requires GroupsOk(s) && StoreOk(s) && FlagsShrunk(s, t) && t == s.(store := t.store)
    ensures GroupsOk(t) && StoreOk(t)
  {
    HarmlessGroups(s, t);
    hide GroupsOk;
    assert forall h, x :: IsMember(t, h, x) <==> IsMember(s, h, x);
    hide Stored, Flagged, IsMember, StoreSane;
    forall h ensures FlagsOk(t, h) {
      assert FlagsOk(s, h);
    }
  }

  /** The service was scheduled at its default interval, and has another one now. */
  predicate Follows(s: State, id: Id, oldDefault: Duration) {
    oldDefault != Obj(s, id).defaultInterval && oldDefault == Obj(s, id).scheduledInterval
  }

  lemma InvIsAlive(s: State)
    requires Inv(s)
    ensures !s.crashed
  {
  }

  lemma FollowDefaultKeeps(env: Env, s: State, id: Id, oldDefault: Duration)
    requires Inv(s) && id in s.index
    ensures var t := FollowDefault(env, s, id, oldDefault);
            && t.index.Keys == s.index.Keys
            && (t.crashed <==> Follows(s, id, oldDefault) && !S.Schedulable(Obj(s, id).defaultInterval))
            && (!t.crashed ==> Inv(t))
  {
    hide ObjectsOk, IndexOk, GroupsOk, StoreOk, MoveServiceToInterval;
    IndexedAt(s, id, None);
    IntervalsOk(s, id);
    var d := s.objs[id].defaultInterval;
    if Follows(s, id, oldDefault) && S.Schedulable(d) {
      MoveKeeps(env, s, id, d, None);
      var t := MoveServiceToInterval(env, s, id, d);
      GroupsOkFrame(s, t);
      OnlyScheduleStore(s, t);
    } else if Follows(s, id, oldDefault) {
      MoveCrashes(env, s, id, d);
    }
  }

  lemma OnlyScheduleStore(s: State, t: State)
    requires OnlySchedule(s, t) && StoreOk(s)
    ensures StoreOk(t)
  {
    HarmlessStore(s, t);
  }

  // ---------- An update that keeps the group ----------

  lemma UpdateOutcome(s: State, w: G.World, id: Id, d: ServiceData, sort: G.Sorter, o: G.Outcome)
    requires GroupOk(s, d.memberOf) && IsMember(s, d.memberOf, id) && id in s.objs
    requires w == s.objs[id := d] && d.isHealthy == s.objs[id].isHealthy
    requires o == G.Update(sort, w, s.groups[d.memberOf])
    ensures var g := s.groups[d.memberOf];
            && !o.crashed && G.Elected(w, o.group) && o.group.name == d.memberOf
            && (forall m :: m in o.group.members <==> m in g.members)
            && G.FaithfulEvent(w, g, o)
            && (o.group.lastActive == g.lastActive || o.group.lastActive == g.active)
            && (o.event.None? ==> o.group.active == g.active)
  {
    var g := s.groups[d.memberOf];
    GroupFacts(s, d.memberOf);
    G.UpdateElects(sort, w, g);
    hide G.Update, G.Elected, G.FaithfulEvent;
    Rearranged(g.members, o.group.members);
    if |g.members| == 1 {
      LoneActive(s.objs, w, g, o.group);
    }
  }

  /** With one member, its health alone decides who is active. */
  lemma LoneActive(v: G.World, w: G.World, g: G.Group, h: G.Group)
    requires G.Elected(v, g) && G.Elected(w, h) && |g.members| == |h.members| == 1
    requires forall m :: m in h.members <==> m in g.members
    requires forall m :: G.Healthy(v, m) == G.Healthy(w, m)
    ensures h.active == g.active
  {
    assert h.members[0] in g.members;
  }

  lemma RefreshKeeps(env: Env, s: State, id: Id, n: ServiceData)
    requires Inv(s) && id in s.index && id == n.id && Assignable(n)
    requires id in s.objs && n.memberOf == s.objs[id].memberOf
    ensures var t := s.(objs := s.objs[id := Assign(s.objs[id], n)]);
            Inv(RefreshGroup(env, t, n.memberOf)) && RefreshGroup(env, t, n.memberOf).index.Keys == s.index.Keys
  {
    var g, d := n.memberOf, Assign(s.objs[id], n);
    var t := s.(objs := s.objs[id := d]);
    var o := G.Update(env.sort, t.objs, t.groups[g]);
    hide ObjectsOk, IndexOk, GroupsOk, StoreOk, StoreSane, GroupOk, G.Update, G.Elected, G.FaithfulEvent, GroupChanged;
    hide Stored, Flagged;
    InvMeans(s, id);
    InvParts(s);
    hide Inv;
    AssignTouches(s, t, id, n);
    hide SaneService, Assignable;
    GroupIn(s, g);
    UpdateOutcome(s, t.objs, id, d, env.sort, o);
    SameFlags(s, t);
    hide Touched, FlagsShrunk;
    TouchThenChange(env, s, t, id, d, o);
    TouchIndex(env, s, t, id, d, o);
  }

  lemma AssignTouches(s: State, t: State, id: Id, n: ServiceData)
    requires IndexOk(s, None) && ObjectsOk(s) && id in s.index && id in s.objs && id == n.id && Assignable(n)
    requires t == s.(objs := s.objs[id := Assign(s.objs[id], n)], store := t.store)
    ensures Touched(s, t, id, Assign(s.objs[id], n))
  {
    hide IndexOk;
  }

  lemma SameFlags(s: State, t: State)
    requires StoreSane(s) && t.store == s.store
    ensures FlagsShrunk(s, t)
  {
    SameStoreFrame(s, t);
    hide StoreSane, Stored, Flagged;
  }

  lemma TouchIndex(env: Env, s: State, t: State, id: Id, d: ServiceData, o: G.Outcome)
    requires Inv(GroupChanged(env, t, d.memberOf, o)) && t.index == s.index
    requires Inv(s) && Touched(s, t, id, d) && d.memberOf == s.objs[id].memberOf && FlagsShrunk(s, t)
    requires !o.crashed && d.memberOf in s.groups && G.Elected(t.objs, o.group) && o.group.name == d.memberOf
    requires forall m :: m in o.group.members <==> m in s.groups[d.memberOf].members
    requires G.FaithfulEvent(t.objs, s.groups[d.memberOf], o)
    requires o.group.lastActive == s.groups[d.memberOf].lastActive || o.group.lastActive == s.groups[d.memberOf].active
    requires o.event.None? ==> o.group.active == s.groups[d.memberOf].active
    ensures GroupChanged(env, t, d.memberOf, o).index.Keys == s.index.Keys
  {
    var g := d.memberOf;
    var u := t.(groups := t.groups[g := o.group]);
    InvParts(s);
    hide GroupChanged, G.Elected, G.FaithfulEvent, AlmostInv, EventFits, Inv, GroupsOk, StoreOk, ObjectsOk;
    hide IndexOk, StoreSane, Touched, FlagsShrunk;
    GroupIn(s, g);
    GroupFacts(s, g);
    hide GroupOk;
    assert t.groups == s.groups && t.objs.Keys == s.objs.Keys by {
      TouchedMeans(s, t, id, d);
    }
    TouchAlmost(s, t, u, id, d, o);
    TouchFits(s, t, id, d, o);
    AlmostInvGives(t, u, g);
    GroupChangedKeeps(env, t, g, o, None);
  }

  lemma TouchedMeans(s: State, t: State, id: Id, d: ServiceData)
    requires Touched(s, t, id, d)
    ensures t.groups == s.groups && t.objs.Keys == s.objs.Keys && t.index == s.index && d.id == id
    ensures id in s.index && id in s.objs && t.objs == s.objs[id := d]
  {
  }

  // ---------- An update that changes the group ----------

  /** The service has its new configuration, and its record lies in its new group. */
  ghost predicate Relabelled(s: State, t: State, id: Id, g: string, d: ServiceData) {
    && Touched(s, t, id, d) && d.memberOf != g && d.isHealthy == s.objs[id].isHealthy
    && StoreSane(t)
    && (forall h, x :: Stored(t, h, x) <==>
                         (Stored(s, h, x) && !(h == g && x == id)) || (h == d.memberOf && x == id))
    && (forall h, x :: Flagged(t, h, x) <==> Flagged(s, h, x) && !(h == g && x == id))
  }

  lemma RelabelMeans(s: State, t: State, id: Id, g: string, d: ServiceData)
    requires StoreSane(s) && Touched(s, t, id, d) && d.memberOf != g && d.isHealthy == s.objs[id].isHealthy
    requires !Stored(s, d.memberOf, id)
    requires t.store == R.Create(R.Delete(s.store, g, id), GSLBService(d))
    ensures Relabelled(s, t, id, g, d)
  {
    var m := s.(store := R.Delete(s.store, g, id));
    hide StoreSane, R.Delete, R.Create, Stored, Flagged;
    DeleteMeans(s, g, id, m);
    CreateMeans(m, GSLBService(d), t);
    hide SaneService;
  }

  lemma NotStored(s: State, id: Id, h: string)
    requires GroupsOk(s) && StoreOk(s) && id in s.objs && s.objs[id].memberOf != h
    ensures !Stored(s, h, id) && !IsMember(s, h, id)
  {
    if h in s.groups {
      GroupIn(s, h);
    }
    hide GroupsOk;
  }

  /** How the new group takes the service in. */
  lemma MoveInOutcome(s: State, w: G.World, id: Id, d: ServiceData, sort: G.Sorter, o: G.Outcome)
    requires GroupsOk(s) && id in s.objs && w == s.objs[id := d] && !IsMember(s, d.memberOf, id)
    requires o == G.RegisterMember(sort, w, GroupOrNew(s, d.memberOf), id)
    ensures !o.crashed && G.Elected(w, o.group) && o.group.name == d.memberOf
    ensures forall m :: m in o.group.members <==> IsMember(s, d.memberOf, m) || m == id
    ensures o.group.lastActive.Some? ==> o.group.lastActive.value in w
    ensures G.FaithfulEvent(w, GroupOrNew(s, d.memberOf), o)
    ensures if d.memberOf in s.groups then o.event.None? ==> o.group.active == s.groups[d.memberOf].active
            else o.event.None?
  {
    var g, before := d.memberOf, GroupOrNew(s, d.memberOf);
    if g in s.groups {
      assert GroupOk(s, g);
      GroupFacts(s, g);
      G.ElectedDependsOnMembersOnly(s.objs, w, before);
    }
    hide G.RegisterMember, G.Elected, G.FaithfulEvent;
    JoinElects(sort, w, before, id);
  }

  lemma MoveInFits(s: State, t: State, id: Id, g: string, d: ServiceData, o: G.Outcome)
    requires Inv(s) && Relabelled(s, t, id, g, d) && !IsMember(s, d.memberOf, id)
    requires G.FaithfulEvent(t.objs, GroupOrNew(s, d.memberOf), o)
    requires forall m :: m in o.group.members ==> IsMember(s, d.memberOf, m) || m == id
    requires if d.memberOf in s.groups then o.event.None? ==> o.group.active == s.groups[d.memberOf].active
             else o.event.None?
    ensures EventFits(t, d.memberOf, o, None)
    ensures o.event.None? ==> FlagsAtMost(t, d.memberOf, o.group.active)
  {
    hide GroupsOk, StoreOk, ObjectsOk, IndexOk, Stored, Flagged, G.FaithfulEvent, G.Elected, GroupOk;
    hide StoreSane, SaneService;
    InvParts(s);
    FlagsFollowActive(s, d.memberOf);
    hide Inv;
    if d.memberOf in s.groups {
      GroupIn(s, d.memberOf);
      GroupFacts(s, d.memberOf);
      EventIsOfGroup(t, d.memberOf, s.groups[d.memberOf], o);
    }
  }

  /** The objects, the schedule and the groups between joining the new group and leaving the old one. */
  ghost predicate InBoth(s: State, p: State, id: Id, d: ServiceData, o: G.Outcome) {
    && id in s.index && id in s.objs
    && !p.crashed && ObjectsOk(p) && IndexOk(p, None)
    && p.objs.Keys == s.objs.Keys && p.index.Keys == s.index.Keys
    && (forall x :: x in s.objs && x != id ==>
                      p.objs[x] == s.objs[x].(scheduledInterval := p.objs[x].scheduledInterval))
    && p.objs[id] == d.(scheduledInterval := p.objs[id].scheduledInterval)
    && p.groups == s.groups[d.memberOf := o.group]
  }

  /** The records and flags at that moment. */
  ghost predicate Recorded(s: State, p: State, id: Id, g: string, d: ServiceData, o: G.Outcome) {
    && StoreSane(p)
    && (forall h, x :: Stored(p, h, x) <==>
                         (Stored(s, h, x) && !(h == g && x == id)) || (h == d.memberOf && x == id))
    && (forall h, x :: h != d.memberOf && Flagged(p, h, x) ==>
                         Flagged(s, h, x) && !(h == g && x == id))
    && FlagsAtMost(p, d.memberOf, o.group.active)
  }

  lemma MovedIn(env: Env, s: State, t: State, id: Id, g: string, d: ServiceData, o: G.Outcome)
    requires Inv(s) && Relabelled(s, t, id, g, d) && !o.crashed
    requires EventFits(t, d.memberOf, o, None)
    requires o.event.None? ==> FlagsAtMost(t, d.memberOf, o.group.active)
    ensures var p := GroupChanged(env, t, d.memberOf, o); InBoth(s, p, id, d, o) && Recorded(s, p, id, g, d, o)
  {
    var p := GroupChanged(env, t, d.memberOf, o);
    hide GroupsOk, StoreOk, EventFits, StoreSane, GroupChanged, Stored, Flagged, ObjectsOk, IndexOk, SaneService;
    InvParts(s);
    StoredFromInv(s);
    hide Inv;
    TouchedSchedule(s, t, id, d);
    assert StoredAreIndexed(t);
    hide StoredAreIndexed;
    GroupChangedKeeps(env, t, d.memberOf, o, None);
    MovedInObjects(s, t, p, id, d, o);
    hide InBoth;
    MovedInRecords(s, t, p, id, g, d, o);
  }

  lemma MovedInObjects(s: State, t: State, p: State, id: Id, d: ServiceData, o: G.Outcome)
    requires Touched(s, t, id, d) && Changed(t, p, d.memberOf, o) && ObjectsOk(p) && IndexOk(p, None)
    ensures InBoth(s, p, id, d, o)
  {
    hide ObjectsOk, IndexOk, StoreSane, SameStored, FlagsShrinkElsewhere, FlagsAtMost, FlagsSame, SaneService;
  }

  lemma MovedInRecords(s: State, t: State, p: State, id: Id, g: string, d: ServiceData, o: G.Outcome)
    requires Relabelled(s, t, id, g, d) && Changed(t, p, d.memberOf, o)
    requires o.event.None? ==> FlagsAtMost(t, d.memberOf, o.group.active)
    ensures Recorded(s, p, id, g, d, o)
  {
    hide StoreSane, Stored, Flagged, SaneService, SameServices;
  }

  lemma InBothLeavable(s: State, p: State, id: Id, g: string, d: ServiceData, o: G.Outcome)
    requires GroupsOk(s) && InBoth(s, p, id, d, o) && d.memberOf != g && IsMember(s, g, id)
    ensures g in p.groups && Leavable(p, g, id)
  {
    hide ObjectsOk, IndexOk, GroupsOk;
    GroupIn(s, g);
    GroupFacts(s, g);
    hide GroupOk, G.Elected;
  }

  lemma InBothFlagged(s: State, p: State, id: Id, g: string, d: ServiceData, o: G.Outcome)
    requires Inv(s) && InBoth(s, p, id, d, o) && Recorded(s, p, id, g, d, o) && d.memberOf != g
    ensures ActiveFlagged(p, g) && StoredAreIndexed(p)
  {
    hide ObjectsOk, IndexOk, Stored, Flagged, StoreSane, FlagsAtMost, Inv;
    FlagsFollowActive(s, g);
    StoredFromInv(s);
  }

  lemma InBothGroups(s: State, p: State, id: Id, g: string, d: ServiceData, o: G.Outcome)
    requires Inv(s) && InBoth(s, p, id, d, o) && s.objs[id].memberOf == g != d.memberOf
    requires G.Elected(s.objs[id := d], o.group) && o.group.name == d.memberOf
    requires forall m :: m in o.group.members <==> IsMember(s, d.memberOf, m) || m == id
    requires o.group.lastActive.Some? ==> o.group.lastActive.value in s.objs
    ensures forall h :: h in p.groups && h != g ==> GroupOk(p, h)
  {
    hide StoreOk, ObjectsOk, IndexOk, G.Elected, GroupsOk;
    InvParts(s);
    hide Inv;
    forall h | h in p.groups && h != g ensures GroupOk(p, h) {
      if h == d.memberOf {
        MoveInMembers(s, id, d, o);
        MoveInGroupOk(s, p, id, d, o);
      } else {
        GroupIn(s, h);
        GroupFacts(s, h);
        GroupOkFrame(s, p, h);
      }
    }
  }

  lemma MoveInMembers(s: State, id: Id, d: ServiceData, o: G.Outcome)
    requires GroupsOk(s) && id in s.index && id in s.objs
    requires forall m :: m in o.group.members <==> IsMember(s, d.memberOf, m) || m == id
    ensures forall m :: m in o.group.members ==>
               m in s.index && m in s.objs && (m == id || s.objs[m].memberOf == d.memberOf)
  {
    if d.memberOf in s.groups {
      GroupIn(s, d.memberOf);
      GroupFacts(s, d.memberOf);
    }
    hide GroupsOk, GroupOk, G.Elected;
  }

  lemma MoveInGroupOk(s: State, p: State, id: Id, d: ServiceData, o: G.Outcome)
    requires InBoth(s, p, id, d, o)
    requires G.Elected(s.objs[id := d], o.group) && o.group.name == d.memberOf
    requires forall m :: m in o.group.members ==>
               m in s.index && m in s.objs && (m == id || s.objs[m].memberOf == d.memberOf)
    requires o.group.lastActive.Some? ==> o.group.lastActive.value in s.objs
    ensures GroupOk(p, d.memberOf)
  {
    hide G.Elected, ObjectsOk, IndexOk;
    var w := s.objs[id := d];
    forall m | m in o.group.members
      ensures G.Healthy(p.objs, m) == G.Healthy(w, m) && G.Priority(p.objs, m) == G.Priority(w, m)
    {
    }
    G.ElectedDependsOnMembersOnly(w, p.objs, o.group);
  }

  ghost predicate MovedMembership(s: State, q: State, id: Id, g: string, d: ServiceData) {
    forall h, x :: IsMember(q, h, x) <==>
                     (IsMember(s, h, x) && !(h == g && x == id)) || (h == d.memberOf && x == id)
  }

  lemma MovedGroups(s: State, p: State, q: State, id: Id, g: string)
    requires forall h :: h in p.groups && h != g ==> GroupOk(p, h)
    requires g in p.groups && SameServices(p, q) && Left(p, q, g, id)
    ensures forall h :: h in q.groups ==> GroupOk(q, h)
  {
    forall h | h in q.groups ensures GroupOk(q, h) {
      if h != g {
        GroupFacts(p, h);
        hide G.Elected;
        GroupOkFrame(p, q, h);
      }
    }
  }

  lemma MovedMembers(s: State, p: State, q: State, id: Id, g: string, d: ServiceData, o: G.Outcome)
    requires p.groups == s.groups[d.memberOf := o.group] && d.memberOf != g && IsMember(s, g, id)
    requires forall m :: m in o.group.members <==> IsMember(s, d.memberOf, m) || m == id
    requires Left(p, q, g, id)
    ensures MovedMembership(s, q, id, g, d)
  {
    assert p.groups[g] == s.groups[g] && p.groups[d.memberOf] == o.group && d.memberOf in q.groups;
    assert forall h :: h != g && h != d.memberOf ==> (h in q.groups <==> h in s.groups);
    assert forall h :: h != g && h != d.memberOf && h in s.groups ==> q.groups[h] == s.groups[h];
    assert |p.groups[g].members| != 1 ==> g in q.groups;
    hide GroupOk;
    if |s.groups[g].members| == 1 {
      assert forall x :: x in s.groups[g].members ==> x == s.groups[g].members[0];
    }
  }

  lemma MovedHomes(s: State, p: State, q: State, id: Id, g: string, d: ServiceData, o: G.Outcome)
    requires Homed(s) && InBoth(s, p, id, d, o) && s.objs[id].memberOf == g && SameServices(p, q)
             && MovedMembership(s, q, id, g, d)
    ensures Homed(q)
  {
    hide IsMember, ObjectsOk, IndexOk;
    forall x | x in q.index ensures x in q.objs && IsMember(q, q.objs[x].memberOf, x) {
      assert x in s.index && IsMember(s, s.objs[x].memberOf, x);
      assert x != id ==> q.objs[x].memberOf == s.objs[x].memberOf;
    }
  }

  lemma MovedRecords(s: State, p: State, q: State, id: Id, g: string, d: ServiceData, o: G.Outcome)
    requires StoreOk(s) && Recorded(s, p, id, g, d, o) && MovedMembership(s, q, id, g, d) && SameStored(p, q)
    ensures forall h, x :: Stored(q, h, x) <==> IsMember(q, h, x)
  {
    hide StoreSane, Stored, Flagged, IsMember, FlagsOk, FlagsAtMost;
  }

  lemma NoRecordLeft(s: State, p: State, q: State, id: Id, g: string, d: ServiceData, o: G.Outcome)
    requires Recorded(s, p, id, g, d, o) && d.memberOf != g && SameStored(p, q)
    ensures !Flagged(q, g, id)
  {
    hide StoreSane;
    assert !Stored(p, g, id) && !Stored(q, g, id);
  }

  lemma MovedFlags(s: State, p: State, q: State, id: Id, g: string, d: ServiceData, o: G.Outcome)
    requires StoreOk(s) && Recorded(s, p, id, g, d, o) && d.memberOf != g
    requires p.groups == s.groups[d.memberOf := o.group]
    requires g in p.groups && Left(p, q, g, id) && FlagsLeft(q, g, id)
    requires SameStored(p, q) && FlagsShrinkElsewhere(p, q, g)
    ensures forall h :: FlagsOk(q, h)
  {
    hide StoreSane, Stored, Flagged, GroupOk, SameStored;
    NoRecordLeft(s, p, q, id, g, d, o);
    forall h, x | Flagged(q, h, x)
      ensures h in q.groups && q.groups[h].active == Some(x)
    {
      if h == g {
        assert x != id;
      } else if h == d.memberOf {
        assert Flagged(p, h, x);
      } else {
        assert FlagsOk(s, h) && Flagged(p, h, x) && Flagged(s, h, x);
      }
    }
  }

  lemma ChangeGroupKeeps(env: Env, s: State, id: Id, g: string, n: ServiceData)
    requires Inv(s) && id in s.index && id == n.id && Assignable(n)
    requires id in s.objs && s.objs[id].memberOf == g != n.memberOf
    ensures var t := s.(objs := s.objs[id := Assign(s.objs[id], n)]); var q := ChangeGroup(env, t, g, id);
            Inv(q) && q.index.Keys == s.index.Keys
  {
    var d := Assign(s.objs[id], n);
    var t0 := s.(objs := s.objs[id := d]);
    var t := t0.(store := R.Create(R.Delete(s.store, g, id), GSLBService(d)));
    var o := G.RegisterMember(env.sort, t.objs, GroupOrNew(s, d.memberOf), id);
    var p := GroupChanged(env, t, d.memberOf, o);
    assert ChangeGroup(env, t0, g, id) == LeaveGroup(env, p, g, id);
    hide ObjectsOk, IndexOk, GroupsOk, StoreOk, StoreSane, R.Create, R.Delete, ChangeGroup, LeaveGroup, GroupChanged;
    hide G.RegisterMember, G.Elected, G.FaithfulEvent, EventFits, FlagsAtMost;
    InvParts(s);
    hide Inv;
    AssignTouches(s, t, id, n);
    NotStored(s, id, d.memberOf);
    RelabelMeans(s, t, id, g, d);
    hide Touched, Relabelled, SaneService;
    MoveInOutcome(s, t.objs, id, d, env.sort, o);
    MoveInFits(s, t, id, g, d, o);
    MovedIn(env, s, t, id, g, d, o);
    assert p.groups == s.groups[d.memberOf := o.group];
    hide InBoth, Recorded;
    LeaveOld(env, s, p, id, g, d, o);
  }

  lemma LeaveOld(env: Env, s: State, p: State, id: Id, g: string, d: ServiceData, o: G.Outcome)
    requires Inv(s) && InBoth(s, p, id, d, o) && Recorded(s, p, id, g, d, o)
    requires id in s.objs && s.objs[id].memberOf == g != d.memberOf
    requires G.Elected(s.objs[id := d], o.group) && o.group.name == d.memberOf
    requires forall m :: m in o.group.members <==> IsMember(s, d.memberOf, m) || m == id
    requires o.group.lastActive.Some? ==> o.group.lastActive.value in s.objs
    ensures var q := LeaveGroup(env, p, g, id); Inv(q) && q.index.Keys == s.index.Keys
  {
    var q := LeaveGroup(env, p, g, id);
    hide InBoth, LeaveGroup, G.Elected, StoreSane, ObjectsOk, IndexOk, GroupsOk, StoreOk, GroupOk, IsMember;
    hide Stored, Flagged, Recorded;
    InvParts(s);
    InBothMeans(s, p, id, d, o);
    RecordedSane(s, p, id, g, d, o);
    HomedIn(s, id);
    InBothLeavable(s, p, id, g, d, o);
    InBothFlagged(s, p, id, g, d, o);
    InBothGroups(s, p, id, g, d, o);
    hide Inv, Leavable, ActiveFlagged, StoredAreIndexed, Left, FlagsLeft, SameStored, FlagsShrinkElsewhere;
    LeaveKeeps(env, p, g, id, None);
    MovedRestores(s, p, q, id, g, d, o);
  }

  lemma InBothMeans(s: State, p: State, id: Id, d: ServiceData, o: G.Outcome)
    requires InBoth(s, p, id, d, o)
    ensures p.groups == s.groups[d.memberOf := o.group] && id in s.index
    ensures !p.crashed && ObjectsOk(p) && IndexOk(p, None) && p.index.Keys == s.index.Keys
  {
    hide ObjectsOk, IndexOk;
  }

  lemma RecordedSane(s: State, p: State, id: Id, g: string, d: ServiceData, o: G.Outcome)
    requires Recorded(s, p, id, g, d, o)
    ensures StoreSane(p)
  {
    hide StoreSane, Stored, Flagged;
  }

  lemma MovedRestores(s: State, p: State, q: State, id: Id, g: string, d: ServiceData, o: G.Outcome)
    requires GroupsOk(s) && StoreOk(s) && InBoth(s, p, id, d, o) && Recorded(s, p, id, g, d, o)
    requires id in s.objs && s.objs[id].memberOf == g != d.memberOf
    requires forall m :: m in o.group.members <==> IsMember(s, d.memberOf, m) || m == id
    requires forall h :: h in p.groups && h != g ==> GroupOk(p, h)
    requires !q.crashed && ObjectsOk(q) && IndexOk(q, None) && StoreSane(q) && SameServices(p, q)
    requires g in p.groups && Left(p, q, g, id) && FlagsLeft(q, g, id)
    requires SameStored(p, q) && FlagsShrinkElsewhere(p, q, g)
    ensures Inv(q)
  {
    hide StoreSane, ObjectsOk, IndexOk, GroupsOk, StoreOk, GroupOk, IsMember, Stored, Flagged;
    hide Recorded, Left, FlagsLeft, SameStored, FlagsShrinkElsewhere, FlagsOk, InBoth, Inv;
    HomedIn(s, id);
    InBothMeans(s, p, id, d, o);
    hide Homed;
    MovedGroups(s, p, q, id, g);
    MovedMembers(s, p, q, id, g, d, o);
    hide MovedMembership, SameServices;
    MovedHomes(s, p, q, id, g, d, o);
    MovedRecords(s, p, q, id, g, d, o);
    MovedFlags(s, p, q, id, g, d, o);
    InvOf(q);
  }

  lemma HomedIn(s: State, id: Id)
    requires GroupsOk(s)
    ensures Homed(s)
    ensures id in s.index ==> id in s.objs && IsMember(s, s.objs[id].memberOf, id)
  {
  }

  lemma InvOf(q: State)
    requires !q.crashed && ObjectsOk(q) && IndexOk(q, None) && StoreSane(q)
    requires (forall h, x :: Stored(q, h, x) <==> IsMember(q, h, x)) && forall h :: FlagsOk(q, h)
    requires Homed(q) && forall h :: h in q.groups ==> GroupOk(q, h)
    ensures Inv(q)
  {
    hide ObjectsOk, IndexOk, StoreSane, Stored, IsMember, FlagsOk, GroupOk, Homed;
  }

  // ---------- Updates ----------

  lemma RegroupedKeeps(env: Env, s: State, n: ServiceData)
    requires Inv(s) && n.id in s.index && Assignable(n)
    ensures Inv(Regrouped(env, s, n)) && Regrouped(env, s, n).index.Keys == s.index.Keys
  {
    InvMeans(s, n.id);
    var id := n.id;
    var old' := s.objs[id];
    var s1 := s.(objs := s.objs[id := Assign(old', n)]);
    hide Inv, Assign, Assignable, ChangeGroup, RefreshGroup, SaveRecord;
    var s2;
    if old'.memberOf != n.memberOf {
      s2 := ChangeGroup(env, s1, old'.memberOf, id);
      ChangeGroupKeeps(env, s, id, old'.memberOf, n);
    } else {
      s2 := RefreshGroup(env, s1, old'.memberOf);
      RefreshKeeps(env, s, id, n);
    }
    assert id in s2.index.Keys;
    SaveRecordKeeps(s2, id);
  }

  /** An update that takes effect, and in which the service follows its default to an interval at which
      it cannot be scheduled. */
  predicate UpdatePanics(env: Env, s: State, n: ServiceData) {
    && ConfigChanged(Obj(s, n.id), n)
    && var u := Regrouped(env, s, n);
       Follows(u, n.id, Obj(s, n.id).defaultInterval) && !S.Schedulable(Obj(u, n.id).defaultInterval)
  }

  lemma UpdateServiceKeeps(env: Env, s: State, n: ServiceData)
    requires Inv(s) && n.id in s.index && Assignable(n)
    ensures var t := UpdateService(env, s, n);
            && t.index.Keys == s.index.Keys
            && (t.crashed <==> UpdatePanics(env, s, n))
            && (!t.crashed ==> Inv(t))
  {
    hide Inv, Regrouped, FollowDefault, Follows, ConfigChanged, S.Schedulable, Assignable;
    RegroupedKeeps(env, s, n);
    InvIsAlive(s);
    assert n.id in Regrouped(env, s, n).index.Keys;
    FollowDefaultKeeps(env, Regrouped(env, s, n), n.id, Obj(s, n.id).defaultInterval);
  }

  lemma NewServiceMeans(cfg: Config, st: R.Store)
    ensures var made := NewService(cfg, st);
            && (made.Some? <==> cfg.addressOk && cfg.serviceId != "")
            && (made.Some? ==> made.value.id == cfg.serviceId && made.value.scheduledInterval == cfg.interval
                               && (cfg.priority < MAX_INT ==> Assignable(made.value)))
  {
  }

  lemma SaneIfSchedulable(n: ServiceData)
    requires Assignable(n) && S.Schedulable(n.scheduledInterval)
    ensures SaneService(n)
  {
  }

  lemma RegisterNewPanics(env: Env, s: State, n: ServiceData)
    requires Inv(s) && !S.Schedulable(n.scheduledInterval)
    ensures RegisterNew(env, s, n).crashed && RegisterNew(env, s, n).index.Keys == s.index.Keys + {n.id}
  {
    assert SchedulersOk(s) && n.scheduledInterval !in s.schedulers;
    hide Inv, SchedulersOk, G.RegisterMember, HandlePromotion;
  }

  /** The registrations that panic: a first one at an interval at which nothing can be scheduled, and an
      update to such an interval that the service follows. */
  predicate RegistrationPanics(env: Env, s: State, cfg: Config) {
    match NewService(cfg, s.store)
    case None => false
    case Some(n) => if n.id in s.index then UpdatePanics(env, s, n) else !S.Schedulable(n.scheduledInterval)
  }

  lemma RegisterServiceMeans(env: Env, s: State, cfg: Config)
    ensures match NewService(cfg, s.store)
            case None => RegisterService(env, s, cfg) == s && !RegistrationPanics(env, s, cfg)
            case Some(n) =>
              if n.id in s.index then
                && RegisterService(env, s, cfg) == UpdateService(env, s, n)
                && (RegistrationPanics(env, s, cfg) <==> UpdatePanics(env, s, n))
              else
                && RegisterService(env, s, cfg) == RegisterNew(env, s, n)
                && (RegistrationPanics(env, s, cfg) <==> !S.Schedulable(n.scheduledInterval))
    ensures Allowed(s, Register(cfg)) ==> cfg.priority < MAX_INT
  {
    hide NewService, UpdateService, RegisterNew, UpdatePanics, S.Schedulable;
  }

  /** Every registration, whatever its interval, registers exactly the configured id, panics in exactly
      those cases, and otherwise keeps the invariant. */
  lemma RegisterServiceKeeps(env: Env, s: State, cfg: Config)
    requires Inv(s) && Allowed(s, Register(cfg))
    ensures var t := RegisterService(env, s, cfg);
            && t.index.Keys == s.index.Keys + (if cfg.addressOk && cfg.serviceId != "" then {cfg.serviceId} else {})
            && (t.crashed <==> RegistrationPanics(env, s, cfg))
            && (!t.crashed ==> Inv(t))
  {
    RegisterServiceMeans(env, s, cfg);
    hide *;
    NewServiceMeans(cfg, s.store);
    InvIsAlive(s);
    match NewService(cfg, s.store)
    case None =>
    case Some(n) =>
      if n.id in s.index {
        UpdateServiceKeeps(env, s, n);
      } else if S.Schedulable(n.scheduledInterval) {
        SaneIfSchedulable(n);
        RegisterNewKeeps(env, s, n);
        InvIsAlive(RegisterNew(env, s, n));
      } else {
        RegisterNewPanics(env, s, n);
      }
  }

  // ---------- Turns of a loop ----------

  lemma TickSchedulers(s: State, t: State, d: Duration, now: int, gap: Duration)
    requires SchedulersOk(s) && d in s.schedulers
    requires t.schedulers == s.schedulers[d := S.Iterate(s.schedulers[d], now, gap)]
    ensures SchedulersOk(t)
    ensures forall e, x :: Scheduled(s, e, x) ==> Scheduled(t, e, x)
  {
    S.IterateReschedules(s.schedulers[d], now, gap);
    assert !S.Iterate(s.schedulers[d], now, gap).stopped;
    forall x ensures S.HasLive(s.schedulers[d].heap, x) ==> S.HasLive(t.schedulers[d].heap, x) {
      S.IterateKeepsLive(s.schedulers[d], now, gap, x);
    }
    hide S.WellFormed, S.HasLive, S.Iterate;
  }

  lemma TickIndex(s: State, t: State)
    requires IndexOk(s, None) && SchedulersOk(t) && t.index == s.index && t.objs == s.objs
    requires forall e, x :: Scheduled(s, e, x) ==> Scheduled(t, e, x)
    ensures IndexOk(t, None)
  {
    hide Scheduled, SchedulersOk;
  }

  lemma TickKeeps(s: State, d: Duration, now: int, gap: Duration)
    requires Inv(s)
    ensures Inv(Tick(s, d, now, gap))
  {
    hide S.Iterate;
    var t := Tick(s, d, now, gap);
    if d in s.schedulers {
      InvParts(s);
      assert SchedulersOk(s);
      assert t == s.(schedulers := s.schedulers[d := S.Iterate(s.schedulers[d], now, gap)]);
      hide Tick, Inv, ObjectsOk, GroupsOk, StoreOk, IndexOk, SchedulersOk, Scheduled;
      TickSchedulers(s, t, d, now, gap);
      TickIndex(s, t);
      TickFrame(s, t);
      InvOf(t);
    }
  }

  lemma TickFrame(s: State, t: State)
    requires ObjectsOk(s) && GroupsOk(s) && StoreOk(s) && t == s.(schedulers := t.schedulers)
    ensures ObjectsOk(t) && GroupsOk(t) && StoreOk(t)
  {
    HarmlessGroups(s, t);
    HarmlessStore(s, t);
  }

  // ---------- Which ids are registered ----------

  lemma ScheduleOnFrame(env: Env, s: State, d: Duration, id: Id)
    ensures var t := ScheduleOn(env, s, d, id);
            t == s.(schedulers := t.schedulers, pushes := t.pushes, log := t.log, crashed := t.crashed)
  {
    hide S.Schedule, S.Schedulable;
  }

  lemma MoveKeepsKeys(env: Env, s: State, id: Id, d: Duration)
    ensures MoveServiceToInterval(env, s, id, d).index.Keys == s.index.Keys
  {
    hide S.Remove, ScheduleOn;
    var old' := Obj(s, id).scheduledInterval;
    var s1 := if id in s.index
              then s.(index := s.index[id := d], objs := s.objs[id := Obj(s, id).(scheduledInterval := d)])
              else s;
    if old' in s.schedulers {
      var (sc, last) := S.Remove(s.schedulers[old'], id);
      var s2 := s1.(schedulers := if last then s.schedulers - {old'} else s.schedulers[old' := sc]);
      ScheduleOnFrame(env, s2, d, id);
    }
  }

  lemma DemoteKeepsKeys(env: Env, s: State, id: Id, d: Duration)
    ensures Demote(env, s, id, d).index.Keys == s.index.Keys && Promote(env, s, id, d).index.Keys == s.index.Keys
  {
    MoveKeepsKeys(env, s, id, d);
    hide MoveServiceToInterval;
  }

  lemma RescheduleKeepsKeys(env: Env, s: State, e: G.PromotionEvent)
    ensures Reschedule(env, s, e).index.Keys == s.index.Keys
  {
    hide Demote, Promote;
    if e.newActive.Some? {
      var n := e.newActive.value;
      if e.oldActive.Some? {
        var o := e.oldActive.value;
        var t := Demote(env, s, o, Obj(s, n).scheduledInterval);
        DemoteKeepsKeys(env, s, o, Obj(s, n).scheduledInterval);
        DemoteKeepsKeys(env, t, n,
                        if Obj(s, o).baseInterval == 0 then Obj(s, n).baseInterval else Obj(s, o).baseInterval);
      } else {
        DemoteKeepsKeys(env, s, n, Obj(s, n).baseInterval);
      }
    }
  }

  lemma GroupChangedKeepsKeys(env: Env, s: State, g: string, o: G.Outcome)
    ensures GroupChanged(env, s, g, o).index.Keys == s.index.Keys
  {
    hide MoveFlag, Reschedule;
    if o.event.Some? {
      var s1 := s.(groups := s.groups[g := o.group], crashed := s.crashed || o.crashed);
      RescheduleKeepsKeys(env, s1.(store := MoveFlag(s1, o.event.value).0), o.event.value);
    }
  }

  /** A check result registers and removes nothing. */
  lemma CheckKeepsKeys(env: Env, s: State, id: Id, success: bool, roundtrip: Duration)
    ensures CheckResult(env, s, id, success, roundtrip).index.Keys == s.index.Keys
  {
    var c := OnResult(Obj(s, id).(roundtrip := roundtrip), success);
    var s1 := s.(objs := s.objs[id := c.service]);
    hide GroupChanged, OnResult, SaveRecord, G.OnServiceHealthChange;
    if c.callback.Some? {
      var s2, g := SaveRecord(s1, id), Obj(s1, id).memberOf;
      assert s2.index == s1.index by {
        SavedIndex(s1, id);
      }
      if g in s2.groups {
        GroupChangedKeepsKeys(env, s2, g, G.OnServiceHealthChange(s2.objs, s2.groups[g], id, c.callback.value));
      }
    }
  }

  lemma SavedIndex(s: State, id: Id)
    ensures SaveRecord(s, id).index == s.index
  {
  }

  // ---------- Runs ----------

  predicate Panics(env: Env, s: State, e: Event) {
    e.Register? && RegistrationPanics(env, s, e.cfg)
  }

  /** Every step either panics, which only those registrations do, or keeps the invariant. */
  lemma StepKeeps(env: Env, s: State, e: Event)
    requires Inv(s) && Allowed(s, e)
    ensures Step(env, s, e).crashed <==> Panics(env, s, e)
    ensures !Panics(env, s, e) ==> Inv(Step(env, s, e))
  {
    InvIsAlive(s);
    hide Inv, RegisterService, RemoveService, CheckResult, Tick, RegistrationPanics;
    match e
    case Register(cfg) => RegisterServiceKeeps(env, s, cfg);
    case Remove(id) =>
      RemoveServiceKeeps(env, s, id);
      InvIsAlive(RemoveService(env, s, id));
    case Check(id, success, roundtrip) =>
      CheckKeeps(env, s, id, success, roundtrip);
      InvIsAlive(CheckResult(env, s, id, success, roundtrip));
    case Turn(d, now, gap) =>
      TickKeeps(s, d, now, gap);
      InvIsAlive(Tick(s, d, now, gap));
  }

  lemma DeadStaysDead(env: Env, s: State, e: Event)
    ensures s.crashed ==> Step(env, s, e).crashed
  {
  }

  function Final(env: Env, s: State, run: seq<Event>): State {
    if run == [] then s
    else Step(env, Final(env, s, run[..|run| - 1]), run[|run| - 1])
  }

  ghost predicate Admissible(env: Env, s: State, run: seq<Event>) {
    run != [] ==>
      && Admissible(env, s, run[..|run| - 1])
      && Allowed(Final(env, s, run[..|run| - 1]), run[|run| - 1])
  }

  /** No step of the run panics. */
  predicate NeverPanics(env: Env, s: State, run: seq<Event>) {
    run != [] ==>
      && NeverPanics(env, s, run[..|run| - 1])
      && !Panics(env, Final(env, s, run[..|run| - 1]), run[|run| - 1])
  }

  /** From an empty manager, a run ends in a panic exactly when one of its registrations panics, and
      otherwise in a sound state. */
  lemma {:induction false} RunKeeps(env: Env, run: seq<Event>)
    requires Admissible(env, NewManager(), run)
    ensures Final(env, NewManager(), run).crashed <==> !NeverPanics(env, NewManager(), run)
    ensures !Final(env, NewManager(), run).crashed ==> Inv(Final(env, NewManager(), run))
  {
    if run == [] {
      NewManagerInv();
    } else {
      hide Inv, Panics, RegisterService, RemoveService, CheckResult, Tick;
      RunKeeps(env, run[..|run| - 1]);
      var before := Final(env, NewManager(), run[..|run| - 1]);
      if !before.crashed {
        StepKeeps(env, before, run[|run| - 1]);
      }
    }
  }

  /** The state is where an admissible run from an empty manager ends. */
  ghost predicate EndsIn(env: Env, run: seq<Event>, s: State) {
    Admissible(env, NewManager(), run) && Final(env, NewManager(), run) == s
  }

  lemma EndsSound(env: Env, run: seq<Event>, s: State)
    requires EndsIn(env, run, s)
    ensures !s.crashed ==> Inv(s)
  {
    RunKeeps(env, run);
    hide Inv, Final, Admissible;
  }

  lemma GoesOn(env: Env, run: seq<Event>, s: State, e: Event)
    requires EndsIn(env, run, s) && Allowed(s, e)
    ensures EndsIn(env, run + [e], Step(env, s, e))
  {
    hide Step, Allowed;
    assert (run + [e])[..|run|] == run;
  }

  // ---------- What a reader gets from the invariant ----------

  ghost predicate WellElected(s: State, g: string)
    requires g in s.groups
  {
    && s.groups[g].members != []
    && match s.groups[g].active
       case None => forall m :: m in s.groups[g].members ==> !Obj(s, m).isHealthy
       case Some(a) =>
         && a in s.groups[g].members && Obj(s, a).isHealthy
         && forall m :: m in s.groups[g].members && Obj(s, m).isHealthy ==> Obj(s, a).priority <= Obj(s, m).priority
  }

  lemma SoundGroupIsWellElected(s: State, g: string)
    requires GroupOk(s, g)
    ensures WellElected(s, g)
  {
    assert G.RightActive(s.objs, s.groups[g].members, s.groups[g].active);
  }

  /** In every reachable state, every group has a healthy active of the best priority, or no healthy
      member at all. */
  lemma ReachableGroupsElect(env: Env, run: seq<Event>, g: string)
    requires Admissible(env, NewManager(), run) && !Final(env, NewManager(), run).crashed
    requires g in Final(env, NewManager(), run).groups
    ensures WellElected(Final(env, NewManager(), run), g)
  {
    hide Final, Inv, GroupsOk, GroupOk, WellElected;
    var s := Final(env, NewManager(), run);
    RunKeeps(env, run);
    InvParts(s);
    GroupIn(s, g);
    SoundGroupIsWellElected(s, g);
  }

  /** In every reachable state, membership is a partition: a registered service is in exactly one group,
      the one it names. */
  lemma ReachableMembership(env: Env, run: seq<Event>, g: string, id: Id)
    requires Admissible(env, NewManager(), run) && !Final(env, NewManager(), run).crashed
    ensures var s := Final(env, NewManager(), run);
            IsMember(s, g, id) <==> id in s.index && Obj(s, id).memberOf == g
  {
    RunKeeps(env, run);
    var s := Final(env, NewManager(), run);
    hide Final;
    assert g in s.groups ==> GroupOk(s, g);
    if id in s.index {
      InvMeans(s, id);
    }
  }

  /** In every reachable state, the store lists exactly the members of a group, and flags at most one
      record in it, which is then the active's. */
  lemma ReachableStore(env: Env, run: seq<Event>, g: string, id: Id)
    requires Admissible(env, NewManager(), run) && !Final(env, NewManager(), run).crashed
    ensures var s := Final(env, NewManager(), run);
            && R.DistinctIds(R.Read(s.store, g))
            && (R.Lookup(s.store, g, id).Some? <==> id in s.index && Obj(s, id).memberOf == g)
            && (R.Lookup(s.store, g, id).Some? && R.Lookup(s.store, g, id).value.isActive ==>
                  g in s.groups && s.groups[g].active == Some(id))
  {
    ReachableMembership(env, run, g, id);
    RunKeeps(env, run);
    var s := Final(env, NewManager(), run);
    hide Final, GroupsOk, ObjectsOk, IndexOk;
    assert Stored(s, g, id) <==> IsMember(s, g, id);
    assert FlagsOk(s, g);
  }

  /** In every reachable state, a registered service is being checked: the scheduler at its interval
      exists, has its loop running, and holds a live entry for it. */
  lemma ReachableChecks(env: Env, run: seq<Event>, id: Id)
    requires Admissible(env, NewManager(), run) && !Final(env, NewManager(), run).crashed
    requires id in Final(env, NewManager(), run).index
    ensures var s := Final(env, NewManager(), run); var d := s.index[id];
            && Obj(s, id).scheduledInterval == d
            && d in s.schedulers && s.schedulers[d].isRunning && !s.schedulers[d].stopped
            && exists e: H.Entry :: e in s.schedulers[d].heap && e.id == id && e.live
  {
    RunKeeps(env, run);
    hide Final, Inv, Admissible;
    SoundChecks(Final(env, NewManager(), run), id);
  }

  lemma SoundChecks(s: State, id: Id)
    requires Inv(s) && id in s.index
    ensures var d := s.index[id];
            && Obj(s, id).scheduledInterval == d
            && d in s.schedulers && s.schedulers[d].isRunning && !s.schedulers[d].stopped
            && exists e: H.Entry :: e in s.schedulers[d].heap && e.id == id && e.live
  {
    hide GroupsOk, StoreOk;
    assert Scheduled(s, s.index[id], id) && SchedulersOk(s);
    var h := s.schedulers[s.index[id]].heap;
    var e: H.Entry :| e in multiset(h) && e.id == id && e.live;
    assert e in h;
  }
}
