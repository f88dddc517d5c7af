/** Every step of the manager keeps the invariant. */
module ManagerSteps {
  import opened Basics
  import opened Services
  import opened Managers
  import opened ManagerInvariants
  import opened ManagerPromotions
  import G = ServiceGroups
  import R = ServiceRepos
  import S = Schedulers

  // ---------- A group change in context ----------

  ghost predicate FlagsSame(s: State, s': State, g: string) {
    forall x :: Flagged(s', g, x) <==> Flagged(s, g, x)
  }

  /** What a group change leaves behind, whatever the rest of the step still has to do. */
  ghost predicate Changed(s: State, s': State, g: string, o: G.Outcome) {
    && !s'.crashed && SameServices(s, s') && s'.groups == s.groups[g := o.group]
    && StoreSane(s') && SameStored(s, s')
    && FlagsShrinkElsewhere(s, s', g)
    && (if o.event.Some? then FlagsAtMost(s', g, o.group.active) else FlagsSame(s, s', g))
  }

  ghost predicate EventFits(s: State, g: string, o: G.Outcome, except: Option<Id>) {
    o.event.Some? ==>
      var e := o.event.value;
      && e.newActive == o.group.active
      && EventOf(s, g, e)
      && (e.newActive.Some? ==> e.newActive != except)
      && (e.oldActive == except && except.Some? && except.value in s.index ==> s.index[except.value] in s.schedulers)
  }

  lemma GroupChangedKeeps(env: Env, s: State, g: string, o: G.Outcome, except: Option<Id>)
    requires !s.crashed && ObjectsOk(s) && IndexOk(s, except) && StoreSane(s) && StoredAreIndexed(s)
    requires !o.crashed && EventFits(s, g, o, except)
    ensures var s' := GroupChanged(env, s, g, o);
            Changed(s, s', g, o) && ObjectsOk(s') && IndexOk(s', except)
  {
    hide ObjectsOk, IndexOk, HandlePromotion;
    var s1 := s.(groups := s.groups[g := o.group]);
    ScheduleFrame(s, s1, except);
    assert forall h, x :: Stored(s1, h, x) == Stored(s, h, x) && Flagged(s1, h, x) == Flagged(s, h, x);
    if o.event.Some? {
      var e := o.event.value;
      HandlePromotionKeeps(env, s1, g, e, except);
      SameServicesCompose(s, s1, HandlePromotion(env, s1, e));
    }
  }

  /** A sound group stays sound as long as its members stay what they are. */
  lemma GroupOkFrame(s: State, s': State, g: string)
    requires GroupOk(s, g) && g in s'.groups && s'.groups[g] == s.groups[g]
    requires s.objs.Keys <= s'.objs.Keys
    requires forall id :: id in s.groups[g].members ==>
                            && id in s'.index
                            && s'.objs[id].isHealthy == s.objs[id].isHealthy
                            && s'.objs[id].priority == s.objs[id].priority
                            && s'.objs[id].memberOf == s.objs[id].memberOf
    ensures GroupOk(s', g)
  {
    G.ElectedDependsOnMembersOnly(s.objs, s'.objs, s.groups[g]);
  }

  /** The invariant, but for the flags of one group. */
  ghost predicate AlmostInv(s: State, g: string) {
    && !s.crashed && ObjectsOk(s) && IndexOk(s, None) && GroupsOk(s) && StoreSane(s)
    && (forall h, x :: Stored(s, h, x) <==> IsMember(s, h, x))
    && FlagsElsewhere(s, g)
  }

  ghost predicate FlagsElsewhere(s: State, g: string) {
    forall h :: h != g ==> FlagsOk(s, h)
  }

  lemma GroupsOkFrame(s: State, s': State)
    requires GroupsOk(s) && SameServices(s, s') && s'.groups == s.groups
    ensures GroupsOk(s')
  {
    forall h | h in s'.groups ensures GroupOk(s', h) {
      GroupOkFrame(s, s', h);
    }
    forall id | id in s'.index ensures id in s'.objs && IsMember(s', s'.objs[id].memberOf, id) {
      assert IsMember(s, s.objs[id].memberOf, id);
    }
  }

  /** If everything is in place around group `g` once its new state is written, then the change, with
      the promotion it raises, restores the invariant. */
  lemma GroupChangeRestores(env: Env, s: State, g: string, o: G.Outcome)
    requires !o.crashed && EventFits(s, g, o, None)
    requires AlmostInv(s.(groups := s.groups[g := o.group]), g)
    requires o.event.None? ==> FlagsAtMost(s, g, o.group.active)
    ensures Inv(GroupChanged(env, s, g, o)) && GroupChanged(env, s, g, o).index.Keys == s.index.Keys
  {
    var u := s.(groups := s.groups[g := o.group]);
    var s' := GroupChanged(env, s, g, o);
    AlmostInvGives(s, u, g);
    hide ObjectsOk, IndexOk, GroupsOk, StoreSane, GroupChanged, EventFits;
    GroupChangedKeeps(env, s, g, o, None);
    FlagsRestored(s, u, s', g, o);
    hide FlagsOk, FlagsAtMost, FlagsSame, FlagsShrinkElsewhere, Flagged;
    SameServicesVia(s, u, s');
    GroupsOkFrame(u, s');
    assert forall h, x :: IsMember(s', h, x) <==> IsMember(u, h, x);
  }

  lemma FlagsRestored(s: State, u: State, s': State, g: string, o: G.Outcome)
    requires u == s.(groups := s.groups[g := o.group]) && Changed(s, s', g, o)
    requires FlagsElsewhere(u, g)
    requires o.event.None? ==> FlagsAtMost(s, g, o.group.active)
    ensures forall h :: FlagsOk(s', h)
  {
    hide StoreSane, SameServices, SameStored;
    forall h, x | Flagged(s', h, x)
      ensures h in s'.groups && s'.groups[h].active == Some(x)
    {
      if h != g {
        assert FlagsOk(u, h) && Flagged(s, h, x) && Flagged(u, h, x);
      }
    }
  }

  lemma SameServicesVia(s: State, u: State, s': State)
    requires SameServices(s, s') && u == s.(groups := u.groups)
    ensures SameServices(u, s')
  {
  }

  lemma AlmostInvGives(s: State, u: State, g: string)
    requires AlmostInv(u, g) && u == s.(groups := u.groups)
    ensures ObjectsOk(s) && IndexOk(s, None) && StoreSane(s) && StoredAreIndexed(s) && !s.crashed
    ensures forall h, x :: Stored(s, h, x) == Stored(u, h, x)
  {
    ScheduleFrame(s, u, None);
    forall h, x | Stored(s, h, x) ensures x in s.index {
      assert Stored(u, h, x);
      assert IsMember(u, h, x) && GroupOk(u, h);
    }
  }

  // ---------- Registering a new service ----------

  /** What an update may assign. */
  ghost predicate Assignable(n: ServiceData) {
    n.baseInterval >= S.OFFSET && n.priority < MAX_INT
  }

  ghost predicate SaneService(n: ServiceData) {
    && S.Schedulable(n.scheduledInterval) && n.baseInterval >= S.OFFSET
    && n.priority < MAX_INT
  }

  /** Everything `RegisterNew` does before the group hears of the service. */
  function Announced(env: Env, s: State, n: ServiceData): State {
    var s1 := s.(objs := s.objs[n.id := n], store := R.Create(s.store, GSLBService(n)));
    var s2 := ScheduleOn(env, s1, n.scheduledInterval, n.id);
    s2.(index := s2.index[n.id := n.scheduledInterval])
  }

  lemma SchedulersFrame(s: State, t: State)
    requires t.schedulers == s.schedulers
    ensures SchedulersOk(t) == SchedulersOk(s)
    ensures forall d, x :: Scheduled(t, d, x) == Scheduled(s, d, x)
  {
  }

  lemma AddedObjectsOk(s: State, t: State, n: ServiceData)
    requires ObjectsOk(s) && SaneService(n) && t.objs == s.objs[n.id := n]
    ensures ObjectsOk(t)
  {
  }

  lemma AddedIndexOk(s: State, t: State, n: ServiceData)
    requires IndexOk(s, None) && n.id !in s.index
    requires t.objs == s.objs[n.id := n] && t.index == s.index[n.id := n.scheduledInterval]
    requires SchedulersOk(t) && Scheduled(t, n.scheduledInterval, n.id)
    requires forall d, x :: Scheduled(s, d, x) ==> Scheduled(t, d, x)
    ensures IndexOk(t, None)
  {
    hide SchedulersOk, Scheduled;
  }

  lemma AnnouncedSchedule(env: Env, s: State, n: ServiceData)
    requires ObjectsOk(s) && IndexOk(s, None) && !s.crashed && n.id !in s.index && SaneService(n)
    ensures var t := Announced(env, s, n);
            && !t.crashed && ObjectsOk(t) && IndexOk(t, None)
            && t.objs == s.objs[n.id := n] && t.index == s.index[n.id := n.scheduledInterval]
            && t.groups == s.groups && t.rules == s.rules
            && t.store == R.Create(s.store, GSLBService(n))
  {
    var s1 := s.(objs := s.objs[n.id := n], store := R.Create(s.store, GSLBService(n)));
    var s2 := ScheduleOn(env, s1, n.scheduledInterval, n.id);
    var t := Announced(env, s, n);
    assert SchedulersOk(s);
    hide ScheduleOn, SchedulersOk, Scheduled, IndexOk, ObjectsOk, R.Create;
    SchedulersFrame(s, s1);
    ScheduleOnKeeps(env, s1, n.scheduledInterval, n.id);
    SchedulersFrame(s2, t);
    AddedObjectsOk(s, t, n);
    AddedIndexOk(s, t, n);
  }

  lemma CreateMeans(s: State, n: Record, t: State)
    requires StoreSane(s) && !n.hasOverride && !n.isActive && t.store == R.Create(s.store, n)
    ensures StoreSane(t)
    ensures forall h, x :: Stored(t, h, x) <==> Stored(s, h, x) || (h == n.memberOf && x == n.id)
    ensures !Stored(s, n.memberOf, n.id) ==> forall h, x :: Flagged(t, h, x) <==> Flagged(s, h, x)
  {
    R.CreateRefines(s.store, n);
    hide R.Create, R.Lookup, R.WellStored, R.NoOverrides;
  }

  /** Only services of group `g` were touched between `s` and `u`. */
  ghost predicate OnlyTouched(s: State, u: State, g: string) {
    && s.objs.Keys <= u.objs.Keys
    && forall x :: x in s.index && x in s.objs && s.objs[x].memberOf != g ==>
                     && x in u.index
                     && u.objs[x].isHealthy == s.objs[x].isHealthy
                     && u.objs[x].priority == s.objs[x].priority
                     && u.objs[x].memberOf == s.objs[x].memberOf
  }

  ghost predicate SameElsewhere(s: State, u: State, g: string) {
    && g in u.groups && u.groups.Keys == s.groups.Keys + {g}
    && forall h :: h in s.groups && h != g ==> u.groups[h] == s.groups[h]
  }

  lemma OtherGroupOk(s: State, u: State, g: string, h: string)
    requires GroupOk(s, h) && h != g && h in u.groups && u.groups[h] == s.groups[h]
    requires OnlyTouched(s, u, g)
    ensures GroupOk(u, h)
  {
    hide G.Elected;
    GroupOkFrame(s, u, h);
  }

  lemma OtherGroupsOk(s: State, u: State, g: string)
    requires GroupsOk(s) && SameElsewhere(s, u, g) && OnlyTouched(s, u, g)
    ensures forall h :: h in u.groups && h != g ==> GroupOk(u, h)
  {
    hide GroupOk, OnlyTouched;
    forall h | h in u.groups && h != g ensures GroupOk(u, h) {
      OtherGroupOk(s, u, g, h);
    }
  }

  lemma HomesElsewhere(s: State, u: State, g: string)
    requires GroupsOk(s) && SameElsewhere(s, u, g)
    requires forall x :: x in u.index ==>
                           && x in u.objs
                           && if u.objs[x].memberOf == g then x in u.groups[g].members
                              else x in s.index && s.objs[x].memberOf == u.objs[x].memberOf
    ensures Homed(u)
    ensures forall h, x :: h != g ==> (IsMember(u, h, x) <==> IsMember(s, h, x))
  {
    hide GroupOk;
    forall x | x in u.index ensures IsMember(u, u.objs[x].memberOf, x) {
      assert x in s.index ==> IsMember(s, s.objs[x].memberOf, x);
    }
  }

  lemma Outsider(s: State, g: string, id: Id)
    requires GroupsOk(s) && id !in s.index
    ensures !IsMember(s, g, id)
  {
    assert g in s.groups ==> GroupOk(s, g);
  }

  lemma JoinOutcome(s: State, w: G.World, n: ServiceData, sort: G.Sorter, o: G.Outcome)
    requires GroupsOk(s) && n.id !in s.index && w == s.objs[n.id := n]
    requires o == G.RegisterMember(sort, w, GroupOrNew(s, n.memberOf), n.id)
    ensures !o.crashed && G.Elected(w, o.group) && o.group.name == n.memberOf
    ensures forall m :: m in o.group.members <==> IsMember(s, n.memberOf, m) || m == n.id
    ensures o.group.lastActive.Some? ==> o.group.lastActive.value in w
    ensures G.FaithfulEvent(w, GroupOrNew(s, n.memberOf), o)
    ensures if n.memberOf in s.groups then o.event.None? ==> o.group.active == s.groups[n.memberOf].active
            else o.event.None?
  {
    var g, before := n.memberOf, GroupOrNew(s, n.memberOf);
    Outsider(s, g, n.id);
    if g in s.groups {
      assert GroupOk(s, g);
      GroupFacts(s, g);
      G.ElectedDependsOnMembersOnly(s.objs, w, before);
    }
    hide G.RegisterMember, G.Elected, G.FaithfulEvent;
    JoinElects(sort, w, before, n.id);
  }

  lemma JoinedGroupOk(s: State, u: State, n: ServiceData)
    requires GroupsOk(s) && n.memberOf in u.groups && u.objs == s.objs[n.id := n]
             && u.index.Keys == s.index.Keys + {n.id}
    requires var o := u.groups[n.memberOf];
             && G.Elected(u.objs, o) && o.name == n.memberOf
             && (o.lastActive.Some? ==> o.lastActive.value in u.objs)
             && forall m :: m in o.members ==> IsMember(s, n.memberOf, m) || m == n.id
    requires n.id !in s.index
    ensures GroupOk(u, n.memberOf)
  {
    hide G.Elected;
    forall m | m in u.groups[n.memberOf].members
      ensures m in u.index && m in u.objs && u.objs[m].memberOf == n.memberOf
    {
      assert m != n.id ==> GroupOk(s, n.memberOf);
    }
  }

  /** The group of a new service, with the service in it, among untouched groups. */
  lemma JoinedGroups(s: State, u: State, n: ServiceData, sort: G.Sorter, o: G.Outcome)
    requires GroupsOk(s) && n.id !in s.index && SameElsewhere(s, u, n.memberOf) && u.groups[n.memberOf] == o.group
    requires u.objs == s.objs[n.id := n] && u.index.Keys == s.index.Keys + {n.id}
    requires o == G.RegisterMember(sort, u.objs, GroupOrNew(s, n.memberOf), n.id)
    ensures GroupsOk(u) && forall h, x :: IsMember(u, h, x) <==> IsMember(s, h, x) || (h == n.memberOf && x == n.id)
  {
    JoinOutcome(s, u.objs, n, sort, o);
    hide G.RegisterMember, G.Elected, G.FaithfulEvent, GroupOk, OnlyTouched;
    JoinedGroupOk(s, u, n);
    OnlyNewTouched(s, u, n);
    OtherGroupsOk(s, u, n.memberOf);
    JoinedHomes(s, u, n);
  }

  lemma OnlyNewTouched(s: State, u: State, n: ServiceData)
    requires n.id !in s.index && u.objs == s.objs[n.id := n] && u.index.Keys == s.index.Keys + {n.id}
    ensures OnlyTouched(s, u, n.memberOf)
  {
  }

  lemma JoinedHomes(s: State, u: State, n: ServiceData)
    requires GroupsOk(s) && n.id !in s.index && SameElsewhere(s, u, n.memberOf)
    requires u.objs == s.objs[n.id := n] && u.index.Keys == s.index.Keys + {n.id}
    requires forall m :: m in u.groups[n.memberOf].members <==> IsMember(s, n.memberOf, m) || m == n.id
    ensures Homed(u)
    ensures forall h, x :: IsMember(u, h, x) <==> IsMember(s, h, x) || (h == n.memberOf && x == n.id)
  {
    hide GroupOk;
    forall x | x in u.index
      ensures x in u.objs
      ensures if u.objs[x].memberOf == n.memberOf then x in u.groups[n.memberOf].members
              else x in s.index && s.objs[x].memberOf == u.objs[x].memberOf
    {
      assert x in s.index ==> IsMember(s, s.objs[x].memberOf, x);
    }
    HomesElsewhere(s, u, n.memberOf);
    hide Homed;
    Outsider(s, n.memberOf, n.id);
  }

  /** What a sound group is, spelled out. */
  lemma GroupFacts(s: State, g: string)
    requires GroupOk(s, g)
    ensures G.Elected(s.objs, s.groups[g]) && s.groups[g].mode != G.ActiveActiveRoundTrip && s.groups[g].members != []
    ensures NoDup(s.groups[g].members) && s.groups[g].name == g
    ensures forall m :: m in s.groups[g].members ==> m in s.index && m in s.objs && s.objs[m].memberOf == g
    ensures s.groups[g].active.Some? ==>
              && s.groups[g].active.value in s.groups[g].members
              && s.groups[g].active.value in s.objs && G.Healthy(s.objs, s.groups[g].active.value)
    ensures s.groups[g].lastActive.Some? ==> s.groups[g].lastActive.value in s.objs
  {
  }

  /** Joining in the terms the manager needs. */
  lemma JoinElects(sort: G.Sorter, w: G.World, g: G.Group, id: Id)
    requires g.members == [] || G.Elected(w, g)
    requires g.mode != G.ActiveActiveRoundTrip && id !in g.members
    ensures var o := G.RegisterMember(sort, w, g, id);
            && !o.crashed && G.Elected(w, o.group) && o.group.name == g.name
            && (forall m :: m in o.group.members <==> m in g.members || m == id)
            && G.FaithfulEvent(w, g, o)
            && (g.members != [] && o.event.None? ==> o.group.active == g.active)
            && (g.members == [] ==> o.event.None?)
            && (o.group.lastActive == g.lastActive || o.group.lastActive == g.active)
  {
    G.RegisterElects(sort, w, g, id);
    hide G.RegisterMember, G.Elected, G.FaithfulEvent;
    Rearranged(g.members + [id], G.RegisterMember(sort, w, g, id).group.members);
  }

  /** An event raised by a sound group demotes whatever is flagged in it. */
  lemma EventIsOfGroup(t: State, g: string, before: G.Group, o: G.Outcome)
    requires G.FaithfulEvent(t.objs, before, o)
    requires before.active.Some? ==> before.active.value in t.objs
    requires before.lastActive.Some? ==> before.lastActive.value in t.objs
    requires forall m :: m in o.group.members ==> m in t.objs && t.objs[m].memberOf == g
    requires forall x :: Flagged(t, g, x) ==> before.active == Some(x) && x in t.objs && t.objs[x].memberOf == g
    ensures EventFits(t, g, o, None)
  {
    hide Flagged;
  }

  /** The store agrees with the groups, and the flags with the actives, around a new member. */
  lemma JoinStore(s: State, t: State, u: State, n: ServiceData)
    requires Inv(s) && n.id !in s.index && t.store == R.Create(s.store, GSLBService(n)) && u.store == t.store
    requires SameElsewhere(s, u, n.memberOf)
    requires forall h, x :: IsMember(u, h, x) <==> IsMember(s, h, x) || (h == n.memberOf && x == n.id)
    ensures StoreSane(t) && StoreSane(u) && (forall h, x :: Stored(u, h, x) <==> IsMember(u, h, x))
    ensures FlagsElsewhere(u, n.memberOf) && FlagsSame(s, t, n.memberOf)
  {
    assert StoreSane(s);
    Outsider(s, n.memberOf, n.id);
    hide ObjectsOk, IndexOk, GroupsOk, StoreSane, R.Create, SameElsewhere;
    assert !Stored(s, n.memberOf, n.id);
    CreateMeans(s, GSLBService(n), t);
    SameStoreFrame(t, u);
    FlagsElsewhereFrame(s, u, n.memberOf);
  }

  /** A new service's group is about to hear of it, and everything else is in place. */
  lemma JoinReady(env: Env, s: State, t: State, n: ServiceData, o: G.Outcome)
    requires Inv(s) && n.id !in s.index && SaneService(n) && t == Announced(env, s, n)
    requires o == G.RegisterMember(env.sort, t.objs, GroupOrNew(s, n.memberOf), n.id)
    ensures !o.crashed && EventFits(t, n.memberOf, o, None)
    ensures AlmostInv(t.(groups := t.groups[n.memberOf := o.group]), n.memberOf)
    ensures o.event.None? ==> FlagsAtMost(t, n.memberOf, o.group.active)
  {
    var g := n.memberOf;
    var u := t.(groups := t.groups[g := o.group]);
    hide ObjectsOk, IndexOk, GroupsOk, StoreSane, Announced, G.RegisterMember, EventFits, FlagsAtMost;
    hide FlagsElsewhere, FlagsSame, Stored, IsMember;
    AnnouncedSchedule(env, s, n);
    ScheduleFrame(t, u, None);
    JoinedGroups(s, u, n, env.sort, o);
    JoinStore(s, t, u, n);
    JoinOutcome(s, t.objs, n, env.sort, o);
    JoinEventFits(s, t, n, o);
    assert AlmostInv(u, g);
  }

  lemma RegisterNewKeeps(env: Env, s: State, n: ServiceData)
    requires Inv(s) && n.id !in s.index && SaneService(n)
    ensures Inv(RegisterNew(env, s, n)) && RegisterNew(env, s, n).index.Keys == s.index.Keys + {n.id}
  {
    var g, t := n.memberOf, Announced(env, s, n);
    var o := G.RegisterMember(env.sort, t.objs, GroupOrNew(s, g), n.id);
    hide ObjectsOk, IndexOk, GroupsOk, StoreOk, Announced, G.RegisterMember, EventFits, FlagsAtMost, AlmostInv;
    JoinReady(env, s, t, n, o);
    AnnouncedFirst(env, s, n);
    AnnouncedSchedule(env, s, n);
    hide GroupChanged, RegisterNew;
    GroupChangeRestores(env, t, g, o);
  }

  lemma SameStoreFrame(s: State, t: State)
    requires t.store == s.store
    ensures StoreSane(t) == StoreSane(s)
    ensures forall h, x :: Stored(t, h, x) == Stored(s, h, x)
    ensures forall h, x :: Flagged(t, h, x) == Flagged(s, h, x)
  {
  }

  lemma AnnouncedFirst(env: Env, s: State, n: ServiceData)
    requires n.id !in s.index && !s.crashed && ObjectsOk(s) && IndexOk(s, None) && SaneService(n)
    ensures var t := Announced(env, s, n);
            RegisterNew(env, s, n) ==
            GroupChanged(env, t, n.memberOf, G.RegisterMember(env.sort, t.objs, GroupOrNew(s, n.memberOf), n.id))
  {
    AnnouncedSchedule(env, s, n);
    hide GroupChanged, ScheduleOn, G.RegisterMember, ObjectsOk, IndexOk;
  }

  /** The flags just before a new service's group hears of it. */
  lemma JoinEventFits(s: State, t: State, n: ServiceData, o: G.Outcome)
    requires Inv(s) && n.id !in s.index && t.groups == s.groups && t.objs == s.objs[n.id := n]
    requires FlagsSame(s, t, n.memberOf)
    requires G.FaithfulEvent(t.objs, GroupOrNew(s, n.memberOf), o)
    requires forall m :: m in o.group.members ==> IsMember(s, n.memberOf, m) || m == n.id
    requires if n.memberOf in s.groups then o.event.None? ==> o.group.active == s.groups[n.memberOf].active
             else o.event.None?
    ensures EventFits(t, n.memberOf, o, None)
    ensures o.event.None? ==> FlagsAtMost(t, n.memberOf, o.group.active)
  {
    var g := n.memberOf;
    assert g in s.groups ==> GroupOk(s, g);
    Outsider(s, g, n.id);
    hide Inv, GroupsOk, Flagged, G.FaithfulEvent, G.Elected, GroupOk, EventFits;
    FlagsFollowActive(s, g);
    if g in s.groups {
      GroupFacts(s, g);
      EventIsOfGroup(t, g, s.groups[g], o);
    } else {
      NoEventFits(t, g, o);
    }
  }

  lemma NoEventFits(t: State, g: string, o: G.Outcome)
    requires o.event.None?
    ensures EventFits(t, g, o, None)
  {
  }

  lemma FlagsElsewhereFrame(s: State, u: State, g: string)
    requires StoreOk(s) && forall h :: h != g ==> FlagsSame(s, u, h)
    requires SameElsewhere(s, u, g)
    ensures FlagsElsewhere(u, g)
  {
    hide Flagged;
    forall h | h != g ensures FlagsOk(u, h) {
      assert FlagsOk(s, h) && FlagsSame(s, u, h);
    }
  }

  /** In a sound state only the active of a group can be flagged in it, and it belongs to the group. */
  lemma FlagsFollowActive(s: State, g: string)
    requires Inv(s)
    ensures forall x :: Flagged(s, g, x) ==>
                          && g in s.groups && s.groups[g].active == Some(x)
                          && x in s.groups[g].members && x in s.objs && s.objs[x].memberOf == g
  {
    assert FlagsOk(s, g);
    if g in s.groups {
      assert GroupOk(s, g);
      GroupFacts(s, g);
    }
  }

  // ---------- Touching one registered service ----------

  /** `d` may differ from the stored object in anything but its identity, its group and its schedule. */
  ghost predicate Touched(s: State, t: State, id: Id, d: ServiceData) {
    && id in s.index && id in s.objs
    && t.objs == s.objs[id := d] && d.id == id
    && d.scheduledInterval == s.objs[id].scheduledInterval
    && SaneService(d)
    && t.index == s.index && t.schedulers == s.schedulers && t.groups == s.groups && t.crashed == s.crashed
  }

  lemma TouchedSchedule(s: State, t: State, id: Id, d: ServiceData)
    requires Touched(s, t, id, d) && ObjectsOk(s) && IndexOk(s, None)
    ensures ObjectsOk(t) && IndexOk(t, None)
  {
    assert SchedulersOk(s);
    hide SchedulersOk, Scheduled;
    SchedulersFrame(s, t);
  }

  lemma TouchedGroups(s: State, u: State, g: string, id: Id)
    requires GroupsOk(s) && id in s.index && id in s.objs && s.objs[id].memberOf == g && g in s.groups
    requires SameElsewhere(s, u, g) && u.index == s.index && u.objs.Keys == s.objs.Keys
    requires forall x :: x in s.objs && x != id ==> u.objs[x] == s.objs[x]
    requires u.objs[id].memberOf == g && G.Elected(u.objs, u.groups[g]) && u.groups[g].name == g
    requires forall m :: m in u.groups[g].members <==> m in s.groups[g].members
    requires u.groups[g].lastActive.Some? ==> u.groups[g].lastActive.value in u.objs
    ensures GroupsOk(u) && forall h, x :: IsMember(u, h, x) <==> IsMember(s, h, x)
  {
    assert GroupOk(s, g);
    TouchedGroupOk(s, u, g);
    hide G.Elected, GroupOk;
    OnlyOneTouched(s, u, g, id);
    OtherGroupsOk(s, u, g);
    hide OnlyTouched;
    assert forall x :: x in s.index ==> IsMember(s, s.objs[x].memberOf, x);
    HomesElsewhere(s, u, g);
  }

  lemma OnlyOneTouched(s: State, u: State, g: string, id: Id)
    requires id in s.objs && s.objs[id].memberOf == g && u.index == s.index && u.objs.Keys == s.objs.Keys
    requires forall x :: x in s.objs && x != id ==> u.objs[x] == s.objs[x]
    ensures OnlyTouched(s, u, g)
  {
  }

  lemma TouchedGroupOk(s: State, u: State, g: string)
    requires GroupOk(s, g) && g in u.groups && u.index == s.index && u.objs.Keys == s.objs.Keys
    requires forall x :: x in s.objs ==> u.objs[x].memberOf == s.objs[x].memberOf
    requires G.Elected(u.objs, u.groups[g]) && u.groups[g].name == g
    requires forall m :: m in u.groups[g].members <==> m in s.groups[g].members
    requires u.groups[g].lastActive.Some? ==> u.groups[g].lastActive.value in u.objs
    ensures GroupOk(u, g)
  {
    hide G.Elected;
    GroupFacts(s, g);
  }

  /** The flags may only have shrunk. */
  ghost predicate FlagsShrunk(s: State, t: State) {
    StoreSane(t) && SameStored(s, t) && forall h, x :: Flagged(t, h, x) ==> Flagged(s, h, x)
  }

  lemma TouchedFlags(s: State, t: State, u: State, g: string)
    requires Inv(s) && FlagsShrunk(s, t) && u.store == t.store && SameElsewhere(s, u, g)
    requires forall h, x :: IsMember(u, h, x) <==> IsMember(s, h, x)
    ensures StoreSane(u) && FlagsElsewhere(u, g) && forall h, x :: Stored(u, h, x) <==> IsMember(u, h, x)
  {
    hide GroupsOk, ObjectsOk, IndexOk;
    SameStoreFrame(t, u);
    hide Flagged, Stored, StoreSane, IsMember;
    forall h | h != g ensures FlagsOk(u, h) {
      assert FlagsOk(s, h);
    }
  }

  /** A group operation after one of its members was touched restores the invariant. */
  lemma TouchThenChange(env: Env, s: State, t: State, id: Id, d: ServiceData, o: G.Outcome)
    requires Inv(s) && Touched(s, t, id, d) && d.memberOf == s.objs[id].memberOf && FlagsShrunk(s, t)
    requires !o.crashed && d.memberOf in s.groups && G.Elected(t.objs, o.group) && o.group.name == d.memberOf
    requires forall m :: m in o.group.members <==> m in s.groups[d.memberOf].members
    requires G.FaithfulEvent(t.objs, s.groups[d.memberOf], o)
    requires o.group.lastActive == s.groups[d.memberOf].lastActive || o.group.lastActive == s.groups[d.memberOf].active
    requires o.event.None? ==> o.group.active == s.groups[d.memberOf].active
    ensures Inv(GroupChanged(env, t, d.memberOf, o))
  {
    var g := d.memberOf;
    var u := t.(groups := t.groups[g := o.group]);
    hide GroupChanged, G.Elected, G.FaithfulEvent, AlmostInv;
    assert GroupOk(s, g);
    GroupFacts(s, g);
    TouchAlmost(s, t, u, id, d, o);
    TouchFits(s, t, id, d, o);
    GroupChangeRestores(env, t, g, o);
  }

  lemma TouchAlmost(s: State, t: State, u: State, id: Id, d: ServiceData, o: G.Outcome)
    requires Inv(s) && Touched(s, t, id, d) && d.memberOf == s.objs[id].memberOf && FlagsShrunk(s, t)
    requires d.memberOf in s.groups && G.Elected(t.objs, o.group) && o.group.name == d.memberOf
    requires forall m :: m in o.group.members <==> m in s.groups[d.memberOf].members
    requires o.group.lastActive.Some? ==> o.group.lastActive.value in t.objs
    requires u == t.(groups := t.groups[d.memberOf := o.group])
    ensures AlmostInv(u, d.memberOf)
  {
    var g := d.memberOf;
    hide ObjectsOk, IndexOk, GroupsOk, StoreOk, StoreSane, FlagsShrunk, G.Elected, SaneService;
    TouchedSchedule(s, t, id, d);
    ScheduleFrame(t, u, None);
    TouchedGroups(s, u, g, id);
    TouchedFlags(s, t, u, g);
  }

  lemma TouchFits(s: State, t: State, id: Id, d: ServiceData, o: G.Outcome)
    requires Inv(s) && Touched(s, t, id, d) && d.memberOf == s.objs[id].memberOf && FlagsShrunk(s, t)
    requires d.memberOf in s.groups && GroupOk(s, d.memberOf)
    requires forall m :: m in o.group.members <==> m in s.groups[d.memberOf].members
    requires G.FaithfulEvent(t.objs, s.groups[d.memberOf], o)
    requires o.event.None? ==> o.group.active == s.groups[d.memberOf].active
    ensures EventFits(t, d.memberOf, o, None)
    ensures o.event.None? ==> FlagsAtMost(t, d.memberOf, o.group.active)
  {
    var g, before := d.memberOf, s.groups[d.memberOf];
    FlagsFollowActive(s, g) by {
      hide *;
    }
    TouchedMember(s, t, id, d, o);
    hide *;
    GroupFacts(s, g);
    EventIsOfGroup(t, g, before, o);
    ActiveFlagAtMost(t, g, before.active);
  }

  /** What is known of the members and the flags of the group of a touched service. */
  lemma TouchedMember(s: State, t: State, id: Id, d: ServiceData, o: G.Outcome)
    requires Touched(s, t, id, d) && d.memberOf == s.objs[id].memberOf && FlagsShrunk(s, t)
    requires d.memberOf in s.groups && GroupOk(s, d.memberOf)
    requires forall m :: m in o.group.members <==> m in s.groups[d.memberOf].members
    requires forall x :: Flagged(s, d.memberOf, x) ==>
                           s.groups[d.memberOf].active == Some(x) && x in s.objs && s.objs[x].memberOf == d.memberOf
    ensures s.objs.Keys == t.objs.Keys
    ensures forall m :: m in o.group.members ==> m in t.objs && t.objs[m].memberOf == d.memberOf
    ensures forall x :: Flagged(t, d.memberOf, x) ==>
                          s.groups[d.memberOf].active == Some(x) && x in t.objs && t.objs[x].memberOf == d.memberOf
  {
    GroupFacts(s, d.memberOf);
    hide GroupOk, G.Elected, SaneService, StoreSane, SameStored, Flagged;
  }

  lemma ActiveFlagAtMost(t: State, g: string, active: Option<Id>)
    requires forall x :: Flagged(t, g, x) ==> active == Some(x)
    ensures FlagsAtMost(t, g, active)
  {
  }

  // ---------- Check results ----------

  lemma CheckedMeans(d: ServiceData, success: bool)
    ensures var c := OnResult(d, success);
            && c.service == d.(failureCount := c.service.failureCount, isHealthy := c.service.isHealthy)
            && (c.callback.None? ==> c.service.isHealthy == d.isHealthy)
            && (c.callback.Some? ==> c.service.isHealthy == c.callback.value != d.isHealthy)
  {
  }

  /** Counters and averages are no concern of the manager. */
  lemma TouchHarmless(s: State, t: State, id: Id, d: ServiceData)
    requires Inv(s) && Touched(s, t, id, d) && t.store == s.store
    requires d.memberOf == s.objs[id].memberOf && d.isHealthy == s.objs[id].isHealthy
             && d.priority == s.objs[id].priority
    ensures Inv(t)
  {
    hide ObjectsOk, IndexOk, GroupsOk, StoreOk, SaneService;
    TouchedSchedule(s, t, id, d);
    HarmlessGroups(s, t);
    HarmlessStore(s, t);
  }

  lemma HarmlessGroups(s: State, t: State)
    requires GroupsOk(s) && t.index == s.index && t.groups == s.groups && t.objs.Keys == s.objs.Keys
    requires forall x :: x in s.objs ==> && t.objs[x].memberOf == s.objs[x].memberOf
                                         && t.objs[x].isHealthy == s.objs[x].isHealthy
                                         && t.objs[x].priority == s.objs[x].priority
    ensures GroupsOk(t)
  {
    hide G.Elected;
    forall h | h in t.groups ensures GroupOk(t, h) {
      assert GroupOk(s, h);
      GroupOkFrame(s, t, h);
    }
    hide GroupOk;
    forall x | x in t.index ensures x in t.objs && IsMember(t, t.objs[x].memberOf, x) {
      assert IsMember(s, s.objs[x].memberOf, x);
    }
  }

  lemma HarmlessStore(s: State, t: State)
    requires StoreOk(s) && t.store == s.store && t.groups == s.groups
    ensures StoreOk(t)
  {
    SameStoreFrame(s, t);
    assert forall h, x :: IsMember(t, h, x) <==> IsMember(s, h, x);
    hide Flagged, Stored, IsMember, StoreSane;
    forall h ensures FlagsOk(t, h) {
      assert FlagsOk(s, h);
    }
  }

  lemma CheckKeeps(env: Env, s: State, id: Id, success: bool, roundtrip: Duration)
    requires Inv(s) && id in s.index
    ensures Inv(CheckResult(env, s, id, success, roundtrip))
  {
    hide ObjectsOk, IndexOk, GroupsOk, StoreOk;
    IndexedAt(s, id, None);
    var c := OnResult(s.objs[id].(roundtrip := roundtrip), success);
    var s1 := s.(objs := s.objs[id := c.service]);
    CheckedTouches(s, s1, id, success, roundtrip);
    hide OnResult;
    if c.callback.None? {
      TouchHarmless(s, s1, id, c.service);
    } else {
      FlipKeeps(env, s, s1, id, c.service);
    }
  }

  lemma CheckedTouches(s: State, s1: State, id: Id, success: bool, roundtrip: Duration)
    requires ObjectsOk(s) && id in s.index && id in s.objs
    requires s1 == s.(objs := s.objs[id := OnResult(s.objs[id].(roundtrip := roundtrip), success).service])
    ensures var c := OnResult(s.objs[id].(roundtrip := roundtrip), success);
            && Touched(s, s1, id, c.service)
            && c.service.memberOf == s.objs[id].memberOf && c.service.priority == s.objs[id].priority
            && (c.callback.None? ==> c.service.isHealthy == s.objs[id].isHealthy)
            && (c.callback.Some? ==> c.callback.value == c.service.isHealthy != s.objs[id].isHealthy)
  {
    IntervalsOk(s, id);
    assert s.objs[id].id == id && s.objs[id].priority < MAX_INT;
    hide ObjectsOk;
    CheckedMeans(s.objs[id].(roundtrip := roundtrip), success);
    hide OnResult;
  }

  lemma FlipKeeps(env: Env, s: State, s1: State, id: Id, d: ServiceData)
    requires Inv(s) && Touched(s, s1, id, d) && s1.store == s.store
    requires d.memberOf == s.objs[id].memberOf && d.isHealthy != s.objs[id].isHealthy
             && d.priority == s.objs[id].priority
    ensures Inv(HealthChanged(env, s1, id, d.isHealthy))
  {
    var g, t := d.memberOf, SaveRecord(s1, id);
    assert GroupOk(s, g) && IsMember(s, g, id) && StoreSane(s);
    GroupFacts(s, g);
    hide ObjectsOk, IndexOk, GroupsOk, StoreOk, StoreSane, GroupChanged;
    SaveRecordShrinks(s, s1, id, d);
    var o := G.OnServiceHealthChange(t.objs, t.groups[g], id, d.isHealthy);
    FlipOutcome(s, t, id, d, o);
    hide G.OnServiceHealthChange, SaveRecord;
    TouchThenChange(env, s, t, id, d, o);
  }

  lemma SaveRecordShrinks(s: State, s1: State, id: Id, d: ServiceData)
    requires StoreSane(s) && s1.store == s.store && id in s1.objs && s1.objs[id] == d && d.id == id
    ensures var t := SaveRecord(s1, id); FlagsShrunk(s, t) && t == s1.(store := t.store)
  {
    hide StoreSane, Stored, Flagged, R.Update;
    SameStoreFrame(s, s1);
    SaveMeans(s1, GSLBService(d), SaveRecord(s1, id));
  }

  lemma FlipOutcome(s: State, t: State, id: Id, d: ServiceData, o: G.Outcome)
    requires ObjectsOk(s) && GroupOk(s, d.memberOf) && IsMember(s, d.memberOf, id)
    requires t.objs == s.objs[id := d] && id in s.objs
    requires d.isHealthy != s.objs[id].isHealthy && d.priority == s.objs[id].priority
    requires o == G.OnServiceHealthChange(t.objs, s.groups[d.memberOf], id, d.isHealthy)
    ensures var g := s.groups[d.memberOf];
            && !o.crashed && G.Elected(t.objs, o.group) && o.group.name == d.memberOf
            && o.group.members == g.members && G.FaithfulEvent(t.objs, g, o)
            && (o.event.None? ==> o.group.active == g.active)
            && (o.group.lastActive == g.lastActive || o.group.lastActive == g.active)
  {
    GroupFacts(s, d.memberOf);
    assert G.Flipped(s.objs, t.objs, id);
    hide G.OnServiceHealthChange, G.Elected, G.FaithfulEvent;
    forall m | m in s.groups[d.memberOf].members ensures G.Priority(t.objs, m) < MAX_INT {
    }
    G.FlipElectsBelowMaxInt(s.objs, t.objs, s.groups[d.memberOf], id);
  }
}
