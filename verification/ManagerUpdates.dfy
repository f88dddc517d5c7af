/** Which registrations take effect, and which of them panic, decided before the call. */
module ManagerUpdates {
  import opened Basics
  import opened Services
  import opened Managers
  import opened ManagerInvariants
  import opened ManagerPromotions
  import opened ManagerSteps
  import opened ManagerRuns
  import opened ManagerEffects
  import opened ManagerRules
  import G = ServiceGroups
  import R = ServiceRepos
  import S = Schedulers

  // ---------- The service after an update ----------

  /** Events change nothing of a service but the interval it is scheduled at. */
  lemma OnlyRescheduled(w: G.World, e: Option<G.PromotionEvent>, id: Id)
    requires id in w
    ensures id in EventWorld(w, e)
    ensures EventWorld(w, e)[id] == w[id].(scheduledInterval := EventWorld(w, e)[id].scheduledInterval)
  {
  }

  lemma RegroupedService(env: Env, s: State, n: ServiceData)
    requires Obj(s, n.id).memberOf in s.groups
    ensures var w := RegroupedShown(env, s, n).objs;
            n.id in w && w[n.id] == Assign(Obj(s, n.id), n).(scheduledInterval := w[n.id].scheduledInterval)
  {
    var w := Assigned(s, n);
    hide Assign, G.RegisterMember, G.RemoveMember, G.Update;
    if n.memberOf == Obj(s, n.id).memberOf {
      OnlyRescheduled(w, G.Update(env.sort, w, s.groups[n.memberOf]).event, n.id);
    } else {
      var o1, o2 := JoinOutcomeOf(env, s, n), LeaveOutcomeOf(env, s, n);
      OnlyRescheduled(w, o1.event, n.id);
      OnlyRescheduled(EventWorld(w, o1.event), o2.event, n.id);
      hide EventWorld, EventRules;
    }
  }

  // ---------- When a registration panics ----------

  /** The interval of service `id` after `new'` has taken over from `old'`: a service that takes over gets the
      base interval of the one before it, or its own, and the one before gets that of its successor. */
  function Exchanged(w: G.World, old': Option<Id>, new': Option<Id>, id: Id): Duration {
    if new' == Some(id) then G.Get(w, if old'.Some? then old'.value else id).baseInterval
    else if old' == Some(id) && new'.Some? then G.Get(w, new'.value).scheduledInterval
    else G.Get(w, id).scheduledInterval
  }

  /** The interval at which an updated service stands once its groups have had their elections, from the members
      and the actives before the update. A group of one, and a group of two that the service leaves, change their
      active without exchanging intervals. */
  function SettledInterval(env: Env, s: State, n: ServiceData): Duration
    requires Obj(s, n.id).memberOf in s.groups
  {
    var g, w, heir := s.groups[Obj(s, n.id).memberOf], Assigned(s, n), Heir(env, s, n);
    if n.memberOf == Obj(s, n.id).memberOf then
      if |g.members| > 1 && heir != g.active then Exchanged(w, g.active, heir, n.id)
      else G.Get(w, n.id).scheduledInterval
    else if |g.members| > 2 && g.active == Some(n.id) && heir.Some? then G.Get(w, heir.value).scheduledInterval
    else if Ousts(env, s, n) then Exchanged(w, s.groups[n.memberOf].active, NewActive(env, s, n), n.id)
    else G.Get(w, n.id).scheduledInterval
  }

  lemma EventExchanges(w: G.World, name: string, old': Option<Id>, new': Option<Id>, id: Id)
    requires old' != new'
    ensures G.Get(EventWorld(w, Some(G.PromotionEvent(name, new', old'))), id).scheduledInterval
         == Exchanged(w, old', new', id)
  {
  }

  /** Whom an event does not name, it leaves alone. */
  lemma EventSpares(w: G.World, e: Option<G.PromotionEvent>, x: Id)
    requires e.Some? ==> e.value.oldActive != Some(x) && e.value.newActive != Some(x)
    ensures G.Get(EventWorld(w, e), x) == G.Get(w, x)
  {
  }

  lemma RefreshSettles(env: Env, s: State, n: ServiceData)
    requires Inv(s) && n.id in s.index && n.memberOf == Obj(s, n.id).memberOf
    ensures n.memberOf in s.groups
    ensures G.Get(RefreshShown(env, s, n).objs, n.id).scheduledInterval == SettledInterval(env, s, n)
  {
    var g, w := n.memberOf, Assigned(s, n);
    InvMeans(s, n.id);
    InvParts(s);
    GroupIn(s, g);
    GroupFacts(s, g);
    hide Inv, GroupsOk, GroupOk, ObjectsOk, IndexOk, StoreOk, Assign, G.Chosen, G.Update;
    G.UpdateChooses(env.sort, w, s.groups[g]);
    hide EventWorld, Exchanged, EventRules;
    if |s.groups[g].members| > 1 && Heir(env, s, n) != s.groups[g].active {
      EventExchanges(w, s.groups[g].name, s.groups[g].active, Heir(env, s, n), n.id);
    } else {
      EventSpares(w, None, n.id);
    }
  }

  lemma MoveSettles(env: Env, s: State, n: ServiceData)
    requires Inv(s) && n.id in s.index && n.memberOf != Obj(s, n.id).memberOf
    ensures Obj(s, n.id).memberOf in s.groups
    ensures G.Get(MoveShown(env, s, n).objs, n.id).scheduledInterval == SettledInterval(env, s, n)
  {
    hide *;
    LeaveOps(env, s, n);
    JoinChooses(env, s, n);
    JoinNames(env, s, n);
    MoveEvents(env, s, n);
    var g, h, w, heir := Obj(s, n.id).memberOf, n.memberOf, Assigned(s, n), Heir(env, s, n);
    var o1, o2 := JoinOutcomeOf(env, s, n), LeaveOutcomeOf(env, s, n);
    NamesApart(w, s.groups[g], n.id, o2, heir);
    var before := if h in s.groups then s.groups[h].active else None;
    TwoEvents(w, h, before, NewActive(env, s, n), Ousts(env, s, n), o1.event, g, s.groups[g], o2.event, heir, n.id);
    SettledByMove(env, s, n, before);
  }

  lemma MoveEvents(env: Env, s: State, n: ServiceData)
    requires Obj(s, n.id).memberOf in s.groups
    ensures var o1, o2, w := JoinOutcomeOf(env, s, n), LeaveOutcomeOf(env, s, n), Assigned(s, n);
            && MoveShown(env, s, n).objs == EventWorld(EventWorld(w, o1.event), o2.event)
            && G.Get(w, n.id).memberOf == n.memberOf
    ensures Ousts(env, s, n) ==> n.memberOf in s.groups && NewActive(env, s, n) != s.groups[n.memberOf].active
  {
    hide EventWorld, EventRules, JoinOutcomeOf, LeaveOutcomeOf, NewActive;
    AssignMeans(Obj(s, n.id), n);
  }

  lemma SettledByMove(env: Env, s: State, n: ServiceData, before: Option<Id>)
    requires n.memberOf != Obj(s, n.id).memberOf && Obj(s, n.id).memberOf in s.groups
    requires n.memberOf in s.groups ==> before == s.groups[n.memberOf].active
    ensures SettledInterval(env, s, n) ==
            MovedInterval(Assigned(s, n), before, NewActive(env, s, n), Ousts(env, s, n),
                          s.groups[Obj(s, n.id).memberOf], Heir(env, s, n), n.id)
  {
    hide Exchanged, Assign, Heir, NewActive;
  }

  /** The interval of a service that joins one group and leaves group `g`. */
  function MovedInterval(w: G.World, before: Option<Id>, a: Option<Id>, ousts: bool, g: G.Group, heir: Option<Id>,
                         id: Id): Duration
  {
    if |g.members| > 2 && g.active == Some(id) && heir.Some? then G.Get(w, heir.value).scheduledInterval
    else if ousts then Exchanged(w, before, a, id)
    else G.Get(w, id).scheduledInterval
  }

  lemma NamesApart(w: G.World, g: G.Group, id: Id, o: G.Outcome, heir: Option<Id>)
    requires LeaveDecides(w, g, id, o, heir) && G.Get(w, id).memberOf != g.name
    ensures heir.Some? ==> G.Get(w, heir.value).memberOf == g.name
    ensures var e := o.event;
            && (e.Some? ==> e.value == G.PromotionEvent(g.name, heir, g.active)
                            && heir != g.active && |g.members| > 2)
            && (g.active == Some(id) && |g.members| > 2 ==> e.Some?)
  {
  }

  lemma TwoEvents(w: G.World, h: string, before: Option<Id>, a: Option<Id>, ousts: bool,
                  e1: Option<G.PromotionEvent>, name: string, g: G.Group, e2: Option<G.PromotionEvent>,
                  heir: Option<Id>, id: Id)
    requires e1 == if ousts then Some(G.PromotionEvent(h, a, before)) else None
    requires ousts ==> a != before
    requires (a.Some? ==> G.Get(w, a.value).memberOf == h) && (before.Some? ==> G.Get(w, before.value).memberOf == h)
    requires (heir.Some? ==> G.Get(w, heir.value).memberOf == name) && name != h && G.Get(w, id).memberOf == h
    requires e2.Some? ==> e2.value == G.PromotionEvent(g.name, heir, g.active) && heir != g.active && |g.members| > 2
    requires g.active == Some(id) && |g.members| > 2 ==> e2.Some?
    ensures G.Get(EventWorld(EventWorld(w, e1), e2), id).scheduledInterval ==
            MovedInterval(w, before, a, ousts, g, heir, id)
  {
    hide EventWorld, Exchanged;
    if heir.Some? {
      EventSpares(w, e1, heir.value);
    }
    if ousts {
      EventExchanges(w, h, before, a, id);
    } else {
      EventSpares(w, e1, id);
    }
    LeaveSettles(EventWorld(w, e1), g, e2, heir, id);
  }

  /** Whom the service meets in its new group. */
  lemma JoinNames(env: Env, s: State, n: ServiceData)
    requires Inv(s) && n.id in s.index && n.memberOf != Obj(s, n.id).memberOf
    ensures var a, w, h := NewActive(env, s, n), Assigned(s, n), n.memberOf;
            && (a.Some? ==> G.Get(w, a.value).memberOf == h)
            && (h in s.groups && s.groups[h].active.Some? ==> G.Get(w, s.groups[h].active.value).memberOf == h)
  {
    var h := n.memberOf;
    JoinOps(env, s, n);
    JoinChooses(env, s, n);
    InvParts(s);
    InvMeans(s, n.id);
    NotStored(s, n.id, h);
    if h in s.groups {
      GroupIn(s, h);
      GroupFacts(s, h);
    }
    hide Inv, GroupsOk, GroupOk, ObjectsOk, IndexOk, StoreOk, Assign, NewActive, JoinOutcomeOf, Elects, Ousts;
  }

  lemma LeaveSettles(w: G.World, g: G.Group, e: Option<G.PromotionEvent>, heir: Option<Id>, id: Id)
    requires e.Some? ==> e.value == G.PromotionEvent(g.name, heir, g.active) && heir != g.active && |g.members| > 2
    requires heir != Some(id) && (g.active == Some(id) && |g.members| > 2 ==> e.Some?)
    ensures G.Get(EventWorld(w, e), id).scheduledInterval ==
            if |g.members| > 2 && g.active == Some(id) && heir.Some? then G.Get(w, heir.value).scheduledInterval
            else G.Get(w, id).scheduledInterval
  {
    hide EventWorld;
    if e.Some? {
      EventExchanges(w, g.name, g.active, heir, id);
    } else {
      EventSpares(w, e, id);
    }
  }

  /** That is where the two elections leave it. */
  lemma SettledIsReached(env: Env, s: State, n: ServiceData)
    requires Inv(s) && n.id in s.index && Assignable(n)
    ensures Obj(s, n.id).memberOf in s.groups
    ensures Obj(Regrouped(env, s, n), n.id).scheduledInterval == SettledInterval(env, s, n)
  {
    hide Inv, RefreshShown, MoveShown, SettledInterval, Regrouped, Assignable;
    RegroupedEffect(env, s, n);
    if n.memberOf == Obj(s, n.id).memberOf {
      RefreshSettles(env, s, n);
    } else {
      MoveSettles(env, s, n);
    }
    assert Obj(Regrouped(env, s, n), n.id) == G.Get(Show(Regrouped(env, s, n)).objs, n.id);
  }

  /** The configured interval cannot be scheduled, and the registration would schedule the service at it:
      the service is new, or it is updated and stands at its old default interval once its groups have had
      their elections. */
  predicate WouldPanic(env: Env, s: State, cfg: Config) {
    match NewService(cfg, s.store)
    case None => false
    case Some(n) =>
      && !S.Schedulable(cfg.interval)
      && (n.id in s.index ==>
            var d := Obj(s, n.id);
            && ConfigChanged(d, n) && d.defaultInterval != cfg.interval && d.memberOf in s.groups
            && SettledInterval(env, s, n) == d.defaultInterval)
  }

  lemma NewServiceInterval(cfg: Config, st: R.Store)
    requires NewService(cfg, st).Some?
    ensures NewService(cfg, st).value.defaultInterval == NewService(cfg, st).value.scheduledInterval == cfg.interval
    ensures NewService(cfg, st).value.memberOf == cfg.memberOf && NewService(cfg, st).value.id == cfg.serviceId
  {
  }

  lemma UpdatePanicsIff(env: Env, s: State, n: ServiceData)
    requires Inv(s) && n.id in s.index && Assignable(n)
    ensures Obj(s, n.id).memberOf in s.groups
    ensures UpdatePanics(env, s, n) <==>
            && ConfigChanged(Obj(s, n.id), n) && Obj(s, n.id).defaultInterval != n.defaultInterval
            && SettledInterval(env, s, n) == Obj(s, n.id).defaultInterval
            && !S.Schedulable(n.defaultInterval)
  {
    RegroupedEffect(env, s, n);
    RegroupedService(env, s, n);
    SettledIsReached(env, s, n);
    assert Obj(Regrouped(env, s, n), n.id) == G.Get(Show(Regrouped(env, s, n)).objs, n.id);
    assert Assign(Obj(s, n.id), n).defaultInterval == n.defaultInterval;
    hide Inv, Regrouped, RegroupedShown, Assign, ConfigChanged, S.Schedulable, SettledInterval;
  }

  /** A registration panics exactly when it would schedule its service at an interval of less than half a
      second. */
  lemma RegistrationPanicsIff(env: Env, s: State, cfg: Config)
    requires Inv(s) && Allowed(s, Register(cfg))
    ensures RegisterService(env, s, cfg).crashed <==> WouldPanic(env, s, cfg)
  {
    RegisterServiceKeeps(env, s, cfg);
    RegisterServiceMeans(env, s, cfg);
    NewServiceMeans(cfg, s.store);
    hide Inv, RegisterService, RegistrationPanics, NewService, UpdatePanics, ConfigChanged, SettledInterval;
    hide S.Schedulable, Assignable;
    match NewService(cfg, s.store)
    case None =>
    case Some(n) =>
      NewServiceInterval(cfg, s.store);
      if n.id in s.index {
        UpdatePanicsIff(env, s, n);
      }
  }

  /** Some step of the run would panic. */
  predicate RunWouldPanic(env: Env, s: State, run: seq<Event>) {
    && run != []
    && var before := Final(env, s, run[..|run| - 1]);
       || RunWouldPanic(env, s, run[..|run| - 1])
       || (run[|run| - 1].Register? && WouldPanic(env, before, run[|run| - 1].cfg))
  }

  /** A run of the manager panics exactly when one of its registrations meets that guard; nothing else in it
      can panic. */
  lemma {:induction false} RunPanicsIff(env: Env, run: seq<Event>)
    requires Admissible(env, NewManager(), run)
    ensures Final(env, NewManager(), run).crashed <==> RunWouldPanic(env, NewManager(), run)
  {
    hide Inv, RegisterService, RemoveService, CheckResult, Tick, WouldPanic, Panics;
    if run != [] {
      var before, e := Final(env, NewManager(), run[..|run| - 1]), run[|run| - 1];
      RunPanicsIff(env, run[..|run| - 1]);
      if !before.crashed {
        RunKeeps(env, run[..|run| - 1]);
        StepKeeps(env, before, e);
        InvIsAlive(before);
        if e.Register? {
          RegistrationPanicsIff(env, before, e.cfg);
        } else {
          OnlyRegistrationsPanic(env, before, e);
        }
      }
    }
  }

  lemma OnlyRegistrationsPanic(env: Env, s: State, e: Event)
    ensures Panics(env, s, e) ==> e.Register?
  {
  }

  // ---------- What a registration of a known service reaches ----------

  /** The settings that a registration of a known service looks at. */
  predicate HasSettings(d: ServiceData, cfg: Config) {
    && d.ip == cfg.ip && d.port == cfg.port && d.fqdn == cfg.fqdn && d.datacenter == cfg.datacenter
    && d.checkType == cfg.checkType && d.priority == cfg.priority && d.failureThreshold == cfg.failureThreshold
  }

  /** A configuration is taken for changed exactly when one of these seven differs. */
  lemma ChangedIffSettingsDiffer(cfg: Config, st: R.Store, d: ServiceData)
    requires NewService(cfg, st).Some?
    ensures ConfigChanged(d, NewService(cfg, st).value) <==> !HasSettings(d, cfg)
  {
    hide R.Lookup;
  }

  /** A registration of a known service moves it to the configured group, and gives it the configured
      interval, exactly when one of those settings differs, or nothing was to change. It has all of them
      afterwards, and its health and its counter as before. */
  lemma UpdateReachesIff(env: Env, s: State, cfg: Config)
    requires Inv(s) && Allowed(s, Register(cfg)) && NewService(cfg, s.store).Some? && cfg.serviceId in s.index
    requires !RegisterService(env, s, cfg).crashed
    ensures var q, d := RegisterService(env, s, cfg), Obj(s, cfg.serviceId);
            && (IsMember(q, cfg.memberOf, cfg.serviceId) <==> !HasSettings(d, cfg) || d.memberOf == cfg.memberOf)
            && (Obj(q, cfg.serviceId).defaultInterval == cfg.interval <==>
                !HasSettings(d, cfg) || d.defaultInterval == cfg.interval)
            && (HasSettings(d, cfg) ==> q == s)
    ensures var e, d := Obj(RegisterService(env, s, cfg), cfg.serviceId), Obj(s, cfg.serviceId);
            && HasSettings(e, cfg) && e.isHealthy == d.isHealthy && e.failureCount == d.failureCount
            && (!HasSettings(d, cfg) ==>
                  e.memberOf == cfg.memberOf && e.baseInterval == cfg.baseInterval && e.roundtrip == 0)
  {
    var n, q := NewService(cfg, s.store).value, RegisterService(env, s, cfg);
    RegisterServiceKeeps(env, s, cfg);
    RegisterServiceMeans(env, s, cfg);
    NewServiceMeans(cfg, s.store);
    NewServiceInterval(cfg, s.store);
    ChangedIffSettingsDiffer(cfg, s.store, Obj(s, cfg.serviceId));
    hide Inv, RegisterService, RegistrationPanics, ConfigChanged, Assignable, UpdateService;
    AssignedSettings(cfg, s.store, Obj(s, n.id));
    hide NewService, HasSettings;
    MemberIff(q, cfg.memberOf, n.id);
    if ConfigChanged(Obj(s, n.id), n) {
      UpdatedService(env, s, n);
      SettingsAside(Obj(q, n.id), Assign(Obj(s, n.id), n), cfg);
    } else {
      Skipped(env, s, n);
    }
  }

  /** An update leaves a service at the interval where its groups' elections put it. Only if that is its old default,
      and the default changes, it follows to the new one. */
  lemma FollowsIff(env: Env, s: State, cfg: Config)
    requires Inv(s) && Allowed(s, Register(cfg)) && NewService(cfg, s.store).Some? && cfg.serviceId in s.index
    requires !RegisterService(env, s, cfg).crashed
    ensures Obj(s, cfg.serviceId).memberOf in s.groups
    ensures var q, d, n := RegisterService(env, s, cfg), Obj(s, cfg.serviceId), NewService(cfg, s.store).value;
            && n.id == cfg.serviceId && n.id in q.index
            && q.index[n.id] == (if HasSettings(d, cfg) then d.scheduledInterval
                                 else if SettledInterval(env, s, n) == d.defaultInterval then cfg.interval
                                 else SettledInterval(env, s, n))
  {
    var n, q, d := NewService(cfg, s.store).value, RegisterService(env, s, cfg), Obj(s, cfg.serviceId);
    RegisterServiceKeeps(env, s, cfg);
    RegisterServiceMeans(env, s, cfg);
    NewServiceMeans(cfg, s.store);
    NewServiceInterval(cfg, s.store);
    ChangedIffSettingsDiffer(cfg, s.store, d);
    assert n.id in q.index.Keys;
    hide NewService, RegisterService, RegistrationPanics, HasSettings, Assignable, UpdateService, ConfigChanged, Inv;
    hide SettledInterval;
    SettledIsReached(env, s, n);
    IndexedAt(q, n.id, None) by {
      InvParts(q);
    }
    if ConfigChanged(d, n) {
      FollowedTo(env, s, n);
    } else {
      Skipped(env, s, n);
      IndexedAt(s, n.id, None) by {
        InvParts(s);
      }
    }
  }

  lemma FollowedTo(env: Env, s: State, n: ServiceData)
    requires Inv(s) && n.id in s.index && Assignable(n) && ConfigChanged(Obj(s, n.id), n)
    ensures var at, d := Obj(Regrouped(env, s, n), n.id).scheduledInterval, Obj(s, n.id);
            Obj(UpdateService(env, s, n), n.id).scheduledInterval
              == if at == d.defaultInterval then n.defaultInterval else at
  {
    var u, d := Regrouped(env, s, n), Obj(s, n.id);
    RegroupedKeeps(env, s, n);
    RegroupedService(env, s, n);
    RegroupedEffect(env, s, n);
    assert Obj(u, n.id) == G.Get(Show(u).objs, n.id);
    assert Assign(d, n).defaultInterval == n.defaultInterval;
    assert n.id in u.index.Keys;
    hide Inv, Regrouped, RegroupedShown, Assign, ConfigChanged, Assignable, MoveServiceToInterval;
    MovedTo(env, u, n.id, n.defaultInterval);
  }

  lemma MovedTo(env: Env, s: State, id: Id, d: Duration)
    requires id in s.index
    ensures Obj(MoveServiceToInterval(env, s, id, d), id).scheduledInterval == d
  {
    hide S.Remove, S.Schedule, S.Schedulable;
  }

  lemma AssignedSettings(cfg: Config, st: R.Store, d: ServiceData)
    requires NewService(cfg, st).Some?
    ensures var e := Assign(d, NewService(cfg, st).value);
            && HasSettings(e, cfg) && e.isHealthy == d.isHealthy && e.failureCount == d.failureCount
            && e.memberOf == cfg.memberOf && e.baseInterval == cfg.baseInterval && e.roundtrip == 0
            && e.defaultInterval == cfg.interval
  {
    hide R.Lookup;
  }

  lemma SettingsAside(d: ServiceData, e: ServiceData, cfg: Config)
    requires d == e.(scheduledInterval := d.scheduledInterval)
    ensures HasSettings(d, cfg) == HasSettings(e, cfg)
    ensures d.isHealthy == e.isHealthy && d.failureCount == e.failureCount && d.memberOf == e.memberOf
    ensures d.baseInterval == e.baseInterval && d.roundtrip == e.roundtrip && d.defaultInterval == e.defaultInterval
  {
  }

  /** A service that is registered for the first time has all that is configured; its health, and its counter unless
      it was negative, are those of its stored record, if there is one. */
  lemma FirstHasSettings(env: Env, s: State, cfg: Config)
    requires Inv(s) && Allowed(s, Register(cfg)) && NewService(cfg, s.store).Some? && cfg.serviceId !in s.index
    requires !RegisterService(env, s, cfg).crashed
    ensures var d, stored := Obj(RegisterService(env, s, cfg), cfg.serviceId),
                             R.Lookup(s.store, cfg.memberOf, cfg.serviceId);
            && HasSettings(d, cfg) && d.id == cfg.serviceId && d.memberOf == cfg.memberOf
            && d.defaultInterval == cfg.interval && d.baseInterval == cfg.baseInterval && d.roundtrip == 0
            && d.isHealthy == (stored.Some? && stored.value.isHealthy)
            && d.failureCount == if stored.Some? && stored.value.failureCount >= 0 then stored.value.failureCount
                                 else cfg.failureThreshold
  {
    var n, q := NewService(cfg, s.store).value, RegisterService(env, s, cfg);
    RegisterServiceMeans(env, s, cfg);
    NewServiceMeans(cfg, s.store);
    RegisterServiceKeeps(env, s, cfg);
    MadeSettings(cfg, s.store);
    hide Inv, RegisterService, RegistrationPanics, Assignable, RegisterNew, NewService, HasSettings, R.Lookup;
    hide S.Schedulable, SaneService;
    SaneIfSchedulable(n);
    FirstObject(env, s, n);
    SettingsAside(Obj(q, n.id), n, cfg);
  }

  lemma FirstObject(env: Env, s: State, n: ServiceData)
    requires Inv(s) && n.id !in s.index && SaneService(n)
    ensures n.id in RegisterNew(env, s, n).objs
    ensures var d := Obj(RegisterNew(env, s, n), n.id); d == n.(scheduledInterval := d.scheduledInterval)
  {
    var w, q := s.objs[n.id := n], RegisterNew(env, s, n);
    var o := G.RegisterMember(env.sort, w, GroupOrNew(s, n.memberOf), n.id);
    hide Inv, SaneService, RegisterNew, EventRules, EventWorld, G.RegisterMember;
    RegisterNewEffect(env, s, n);
    assert q.objs == Show(q).objs;
    OnlyRescheduled(w, o.event, n.id);
  }

  lemma MadeSettings(cfg: Config, st: R.Store)
    requires NewService(cfg, st).Some?
    ensures var d, stored := NewService(cfg, st).value, R.Lookup(st, cfg.memberOf, cfg.serviceId);
            && HasSettings(d, cfg) && d.id == cfg.serviceId && d.memberOf == cfg.memberOf
            && d.defaultInterval == cfg.interval && d.baseInterval == cfg.baseInterval && d.roundtrip == 0
            && d.isHealthy == (stored.Some? && stored.value.isHealthy)
            && d.failureCount == if stored.Some? && stored.value.failureCount >= 0 then stored.value.failureCount
                                 else cfg.failureThreshold
  {
    hide R.Lookup;
  }

  lemma Skipped(env: Env, s: State, n: ServiceData)
    requires !ConfigChanged(Obj(s, n.id), n)
    ensures UpdateService(env, s, n) == s
  {
  }

  lemma MemberIff(q: State, g: string, id: Id)
    requires Inv(q) && id in q.index
    ensures IsMember(q, g, id) <==> Obj(q, id).memberOf == g
  {
    InvMeans(q, id);
    assert g in q.groups ==> GroupOk(q, g);
  }

  lemma UpdatedService(env: Env, s: State, n: ServiceData)
    requires Inv(s) && n.id in s.index && Assignable(n) && ConfigChanged(Obj(s, n.id), n)
    ensures var d := Obj(UpdateService(env, s, n), n.id);
            d == Assign(Obj(s, n.id), n).(scheduledInterval := d.scheduledInterval)
  {
    var u := Regrouped(env, s, n);
    RegroupedEffect(env, s, n);
    RegroupedService(env, s, n);
    assert Obj(u, n.id) == G.Get(Show(u).objs, n.id);
    assert UpdateService(env, s, n) == FollowDefault(env, u, n.id, Obj(s, n.id).defaultInterval);
    hide Inv, Regrouped, RegroupedShown, ConfigChanged, MoveServiceToInterval, UpdateService, Show;
    FollowShows(env, u, n.id, Obj(s, n.id).defaultInterval);
  }

  lemma FollowShows(env: Env, s: State, id: Id, oldDefault: Duration)
    ensures var d, t := Obj(s, id), FollowDefault(env, s, id, oldDefault);
            Obj(t, id) == d.(scheduledInterval := Obj(t, id).scheduledInterval)
  {
    hide S.Remove, ScheduleOn;
    var interval := Obj(s, id).defaultInterval;
    if interval != Obj(s, id).scheduledInterval && Obj(s, id).scheduledInterval in s.schedulers {
      var s1 := if id in s.index
                then s.(index := s.index[id := interval],
                        objs := s.objs[id := Obj(s, id).(scheduledInterval := interval)])
                else s;
      var (sc, last) := S.Remove(s.schedulers[Obj(s, id).scheduledInterval], id);
      var s2 := s1.(schedulers := if last then s.schedulers - {Obj(s, id).scheduledInterval}
                                  else s.schedulers[Obj(s, id).scheduledInterval := sc]);
      ScheduleShows(env, s2, interval, id);
    }
  }
}
