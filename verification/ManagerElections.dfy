/** Whom the steps of the manager elect, told by priorities and recorded round trips. */
module ManagerElections {
  import opened Basics
  import opened Services
  import opened Managers
  import opened ManagerInvariants
  import opened ManagerPromotions
  import opened ManagerSteps
  import opened ManagerLeaving
  import opened ManagerRuns
  import opened ManagerEffects
  import opened ManagerRules
  import opened ManagerRecoveries
  import opened ManagerRuleChanges
  import opened ManagerUpdates
  import opened GroupChoices
  import G = ServiceGroups
  import R = ServiceRepos
  import S = Schedulers

  /** The members of the group are listed in order, no healthy one is to be preferred to its active, and its mode
      tells whether priorities differ. */
  ghost predicate PlacedIn(w: G.World, g: G.Group) {
    && ListedInOrder(w, g.members) && Preferred(w, g.members, g.active)
    && g.mode == if SomeDiffer(w, g.members) then G.ActivePassive else G.ActiveActive
  }

  ghost predicate WellPlaced(s: State, h: string)
    requires h in s.groups
  {
    PlacedIn(s.objs, s.groups[h])
  }

  /** It says nothing about intervals. */
  lemma PlacedAlike(v: G.World, w: G.World, g: G.Group)
    requires G.Alike(v, w, g.members)
    ensures PlacedIn(v, g) <==> PlacedIn(w, g)
  {
    var ms := g.members;
    assert forall m :: m in ms ==> G.Priority(v, m) == G.Priority(w, m) && G.Healthy(v, m) == G.Healthy(w, m);
    assert forall k :: 0 <= k < |ms| ==> ms[k] in ms;
    assert forall a, b :: a in ms && b in ms ==> InOrder(G.Get(v, a), G.Get(v, b)) == InOrder(G.Get(w, a), G.Get(w, b));
    hide InOrder;
  }

  lemma SettledIsPlaced(w: G.World, g: G.Group, o: G.Outcome)
    requires Settled(w, g, o)
    ensures PlacedIn(w, o.group)
  {
    hide ListedInOrder, Preferred, FirstUpIs;
  }

  lemma ShownPlaced(w: G.World, e: Option<G.PromotionEvent>, g: G.Group)
    requires PlacedIn(w, g)
    ensures PlacedIn(EventWorld(w, e), g)
  {
    EventAlike(w, e, g.members);
    PlacedAlike(EventWorld(w, e), w, g);
    hide PlacedIn, EventWorld;
  }

  /** A first registration places the active of its group well. */
  lemma RegistrationPlaces(env: Env, s: State, n: ServiceData)
    requires Inv(s) && n.id !in s.index && SaneService(n)
    ensures var q := RegisterNew(env, s, n); n.memberOf in q.groups && WellPlaced(q, n.memberOf)
  {
    var g, w, q := n.memberOf, s.objs[n.id := n], RegisterNew(env, s, n);
    var o := G.RegisterMember(env.sort, w, GroupOrNew(s, g), n.id);
    InvParts(s);
    SoundGroup(s, g);
    Outsider(s, g, n.id);
    hide Inv, GroupsOk, ObjectsOk, IndexOk, StoreOk, EventRules, EventWorld, RegisterNew, G.RegisterMember, Settled;
    hide GroupOrNew, PlacedIn;
    RegisterNewEffect(env, s, n);
    RegistrationSettles(env.sort, w, GroupOrNew(s, g), n.id);
    SettledIsPlaced(w, GroupOrNew(s, g).(members := GroupOrNew(s, g).members + [n.id]), o);
    assert q.objs == Show(q).objs && q.groups == Show(q).groups;
    ShownPlaced(w, o.event, o.group);
  }

  /** A removal places the active of what is left of the group well. */
  lemma RemovalPlaces(env: Env, s: State, id: Id)
    requires Inv(s) && id in s.index
    ensures var q, h := RemoveService(env, s, id), Obj(s, id).memberOf; h in q.groups ==> WellPlaced(q, h)
  {
    var h, q := Obj(s, id).memberOf, RemoveService(env, s, id);
    RegisteredIn(s, id);
    var o := G.RemoveMember(env.sort, s.objs, s.groups[h], id);
    hide Inv, EventRules, EventWorld, RemoveService, G.RemoveMember, PlacedIn;
    RemoveEffect(env, s, id);
    assert q.objs == Show(q).objs && q.groups == Show(q).groups;
    LeftMembers(env.sort, s.objs, s.groups[h], id, o);
    if h in q.groups {
      LeftPlaced(env.sort, s.objs, s.groups[h], id, o);
      ShownPlaced(s.objs, o.event, o.group);
    }
  }

  lemma LeftMembers(sort: G.Sorter, w: G.World, g: G.Group, id: Id, o: G.Outcome)
    requires NoDup(g.members) && id in g.members && g.mode != G.ActiveActiveRoundTrip
    requires o == G.RemoveMember(sort, w, g, id)
    ensures o.group.members == [] <==> |g.members| == 1
  {
    hide G.RemoveMember;
    G.RemoveElects(sort, w, g, id);
  }

  lemma LeftPlaced(sort: G.Sorter, w: G.World, g: G.Group, id: Id, o: G.Outcome)
    requires NoDup(g.members) && id in g.members && g.mode != G.ActiveActiveRoundTrip && |g.members| > 1
    requires o == G.RemoveMember(sort, w, g, id)
    ensures PlacedIn(w, o.group)
  {
    hide Settled, PlacedIn, G.RemoveMember;
    RemovalSettles(sort, w, g, id);
    var rest :| Settled(w, g.(members := rest), o);
    SettledIsPlaced(w, g.(members := rest), o);
  }

  // ---------- Updates ----------

  lemma MoveAlike(env: Env, s: State, id: Id, d: Duration, ms: seq<Id>)
    ensures G.Alike(MoveServiceToInterval(env, s, id, d).objs, s.objs, ms)
  {
    hide S.Remove, ScheduleOn;
    var oldInterval := Obj(s, id).scheduledInterval;
    if oldInterval != d && oldInterval in s.schedulers {
      var s1 := if id in s.index
                then s.(index := s.index[id := d], objs := s.objs[id := Obj(s, id).(scheduledInterval := d)])
                else s;
      var (sc, last) := S.Remove(s.schedulers[oldInterval], id);
      var s2 := s1.(schedulers := if last then s.schedulers - {oldInterval} else s.schedulers[oldInterval := sc]);
      ScheduleShows(env, s2, d, id);
    }
  }

  lemma FollowPlaced(env: Env, s: State, n: ServiceData, g: G.Group)
    requires ConfigChanged(Obj(s, n.id), n) && PlacedIn(Regrouped(env, s, n).objs, g)
    ensures PlacedIn(UpdateService(env, s, n).objs, g)
  {
    var u := Regrouped(env, s, n);
    hide Regrouped, ConfigChanged, MoveServiceToInterval, PlacedIn;
    MoveAlike(env, u, n.id, Obj(u, n.id).defaultInterval, g.members);
    PlacedAlike(UpdateService(env, s, n).objs, u.objs, g);
  }

  lemma RefreshPlaced(env: Env, s: State, n: ServiceData)
    requires Inv(s) && n.id in s.index && n.memberOf == Obj(s, n.id).memberOf
    ensures n.memberOf in s.groups
    ensures var u := RefreshShown(env, s, n); n.memberOf in u.groups && PlacedIn(u.objs, u.groups[n.memberOf])
  {
    var g, w := n.memberOf, Assigned(s, n);
    InvMeans(s, n.id);
    InvParts(s);
    GroupIn(s, g);
    GroupFacts(s, g);
    hide Inv, GroupsOk, GroupOk, ObjectsOk, IndexOk, StoreOk, Assign, G.Update, EventRules, EventWorld;
    hide PlacedIn, Settled;
    var o := G.Update(env.sort, w, s.groups[g]);
    UpdateSettles(env.sort, w, s.groups[g]);
    SettledIsPlaced(w, s.groups[g], o);
    ShownPlaced(w, o.event, o.group);
  }

  lemma JoinPlaced(env: Env, s: State, n: ServiceData)
    requires Inv(s) && n.id in s.index && n.memberOf != Obj(s, n.id).memberOf
    ensures PlacedIn(Assigned(s, n), JoinOutcomeOf(env, s, n).group)
  {
    var h, w := n.memberOf, Assigned(s, n);
    var before := GroupOrNew(s, h);
    InvParts(s);
    InvMeans(s, n.id);
    NotStored(s, n.id, h);
    SoundGroup(s, h);
    hide Inv, GroupsOk, ObjectsOk, IndexOk, StoreOk, Assign, G.RegisterMember, PlacedIn, Settled, GroupOrNew;
    RegistrationSettles(env.sort, w, before, n.id);
    SettledIsPlaced(w, before.(members := before.members + [n.id]), JoinOutcomeOf(env, s, n));
  }

  lemma TwoShownPlaced(v: Shown, h: string, o1: G.Outcome, g: string, o2: G.Outcome)
    requires g != h && PlacedIn(v.objs, o1.group) && (o2.group.members != [] ==> PlacedIn(v.objs, o2.group))
    ensures var u := AfterLeave(AfterGroup(v, h, o1), g, o2);
            && h in u.groups && PlacedIn(u.objs, u.groups[h])
            && (g in u.groups ==> PlacedIn(u.objs, u.groups[g]))
  {
    var p := AfterGroup(v, h, o1);
    assert p.objs == EventWorld(v.objs, o1.event) && p.groups == v.groups[h := o1.group];
    assert AfterLeave(p, g, o2).objs == EventWorld(p.objs, o2.event);
    hide EventWorld, EventRules, PlacedIn;
    ShownPlaced(v.objs, o1.event, o1.group);
    ShownPlaced(p.objs, o2.event, o1.group);
    if o2.group.members != [] {
      ShownPlaced(v.objs, o1.event, o2.group);
      ShownPlaced(p.objs, o2.event, o2.group);
    }
  }

  lemma MovePlaced(env: Env, s: State, n: ServiceData)
    requires Inv(s) && n.id in s.index && n.memberOf != Obj(s, n.id).memberOf
    ensures Obj(s, n.id).memberOf in s.groups
    ensures var u, g, h := MoveShown(env, s, n), Obj(s, n.id).memberOf, n.memberOf;
            && h in u.groups && PlacedIn(u.objs, u.groups[h])
            && (g in u.groups ==> PlacedIn(u.objs, u.groups[g]))
  {
    var g, h, w := Obj(s, n.id).memberOf, n.memberOf, Assigned(s, n);
    RegisteredIn(s, n.id);
    hide *;
    HeirOfMove(env, s, n);
    MoveIsTwo(env, s, n);
    var o1, o2 := JoinOutcomeOf(env, s, n), LeaveOutcomeOf(env, s, n);
    JoinPlaced(env, s, n);
    LeftMembers(env.sort, w, s.groups[g], n.id, o2);
    SomeMembers(s.groups[g].members, n.id);
    if o2.group.members != [] {
      LeftPlaced(env.sort, w, s.groups[g], n.id, o2);
    }
    TwoShownPlaced(Shown(w, s.groups, s.rules), h, o1, g, o2);
  }

  lemma SomeMembers(ms: seq<Id>, id: Id)
    requires id in ms
    ensures |ms| >= 1
  {
  }

  /** An update that changes a setting places the active of its group well, or those of the group that the service
      joins and of what is left of the one it leaves. */
  lemma UpdatePlaces(env: Env, s: State, n: ServiceData)
    requires Inv(s) && n.id in s.index && Assignable(n) && ConfigChanged(Obj(s, n.id), n)
    ensures var q, g, h := UpdateService(env, s, n), Obj(s, n.id).memberOf, n.memberOf;
            && h in q.groups && WellPlaced(q, h) && (g in q.groups ==> WellPlaced(q, g))
  {
    var q, u, g, h := UpdateService(env, s, n), Regrouped(env, s, n), Obj(s, n.id).memberOf, n.memberOf;
    hide Inv, Regrouped, UpdateService, ConfigChanged, Assignable, RefreshShown, MoveShown, PlacedIn;
    UpdateShows(env, s, n);
    RegroupedEffect(env, s, n);
    if g == h {
      RefreshPlaced(env, s, n);
    } else {
      MovePlaced(env, s, n);
    }
    assert u.objs == Show(u).objs && u.groups == Show(u).groups;
    FollowPlaced(env, s, n, q.groups[h]);
    if g in q.groups {
      FollowPlaced(env, s, n, q.groups[g]);
    }
  }

  // ---------- Every election of the manager ----------

  /** The groups that a step holds an election in. */
  predicate Elects(s: State, e: Event, h: string) {
    match e
    case Register(cfg) =>
      && NewService(cfg, s.store).Some?
      && if cfg.serviceId in s.index
         then !HasSettings(Obj(s, cfg.serviceId), cfg) && (h == cfg.memberOf || h == Obj(s, cfg.serviceId).memberOf)
         else h == cfg.memberOf
    case Remove(id) => id in s.index && h == Obj(s, id).memberOf
    case _ => false
  }

  /** Whatever the sorting algorithm: after a registration, a removal, or an update that changes a setting, the members
      of every group concerned are listed in order, and no healthy one is to be preferred to its active. */
  lemma StepPlaces(env: Env, s: State, e: Event, h: string)
    requires Inv(s) && Allowed(s, e) && !Panics(env, s, e) && Elects(s, e, h)
    ensures var q := Step(env, s, e); h in q.groups ==> WellPlaced(q, h)
  {
    InvIsAlive(s);
    hide Inv, RegisterService, RemoveService, CheckResult, RegistrationPanics, WellPlaced, NewService, HasSettings;
    match e
    case Register(cfg) => RegisterPlaces(env, s, cfg, h);
    case Remove(id) => RemovalPlaces(env, s, id);
  }

  lemma RegisterPlaces(env: Env, s: State, cfg: Config, h: string)
    requires Inv(s) && Allowed(s, Register(cfg)) && !RegistrationPanics(env, s, cfg) && Elects(s, Register(cfg), h)
    ensures var q := RegisterService(env, s, cfg); h in q.groups ==> WellPlaced(q, h)
  {
    var n := NewService(cfg, s.store).value;
    RegisterServiceMeans(env, s, cfg);
    NewServiceMeans(cfg, s.store);
    NewServiceInterval(cfg, s.store);
    ElectsMeans(s, cfg, h);
    hide Inv, RegisterService, RegistrationPanics, NewService, Assignable, S.Schedulable, WellPlaced;
    hide Elects, ElectsWith, UpdateService, RegisterNew;
    if n.id in s.index {
      UpdateElected(env, s, n, h);
    } else {
      SaneIfSchedulable(n);
      RegistrationPlaces(env, s, n);
      ElectsNew(s, n, h);
    }
  }

  predicate ElectsWith(s: State, n: ServiceData, h: string) {
    if n.id in s.index then ConfigChanged(Obj(s, n.id), n) && (h == Obj(s, n.id).memberOf || h == n.memberOf)
    else h == n.memberOf
  }

  lemma ElectsMeans(s: State, cfg: Config, h: string)
    requires Elects(s, Register(cfg), h)
    ensures ElectsWith(s, NewService(cfg, s.store).value, h)
  {
    var n := NewService(cfg, s.store).value;
    ChangedIffSettingsDiffer(cfg, s.store, Obj(s, n.id));
    NewServiceInterval(cfg, s.store);
    hide NewService, ConfigChanged, HasSettings;
  }

  lemma UpdateElected(env: Env, s: State, n: ServiceData, h: string)
    requires Inv(s) && n.id in s.index && Assignable(n) && ElectsWith(s, n, h)
    ensures var q := UpdateService(env, s, n); h in q.groups ==> WellPlaced(q, h)
  {
    hide Inv, Assignable, ConfigChanged, UpdateService, WellPlaced;
    UpdatePlaces(env, s, n);
  }

  lemma ElectsNew(s: State, n: ServiceData, h: string)
    requires ElectsWith(s, n, h) && n.id !in s.index
    ensures h == n.memberOf
  {
  }
}
