/** Reachable inputs at which the services manager does not do what it is for. In all of them any services
    may be configured, as long as the first check result decides. */
module ManagerScenarios {
  import opened Basics
  import opened Services
  import opened Managers
  import opened ManagerInvariants
  import opened ManagerPromotions
  import opened ManagerSteps
  import opened ManagerLeaving
  import opened ManagerRuns
  import opened ManagerEffects
  import opened ManagerRules
  import opened ManagerRecoveries
  import opened ManagerUpdates
  import G = ServiceGroups
  import R = ServiceRepos
  import S = Schedulers

  // ---------- Single steps ----------

  /** A configuration that can be registered, and whose service flips at every new result. */
  predicate Plain(cfg: Config) {
    && cfg.addressOk && cfg.serviceId != "" && S.Schedulable(cfg.interval)
    && cfg.priority < MAX_INT && cfg.failureThreshold == 1
  }

  /** The service as it is first registered. */
  function Made(cfg: Config): ServiceData {
    ServiceData(cfg.serviceId, cfg.ip, cfg.port, cfg.fqdn, cfg.memberOf, cfg.datacenter, cfg.checkType,
                cfg.interval, cfg.interval, cfg.baseInterval, cfg.priority, cfg.failureThreshold,
                cfg.failureThreshold, false, 0)
  }

  lemma MadeFirst(s: State, cfg: Config)
    requires Inv(s) && Plain(cfg) && cfg.serviceId !in s.index
    ensures NewService(cfg, s.store) == Some(Made(cfg)) && SaneService(Made(cfg))
  {
    InvParts(s);
    Outsider(s, cfg.memberOf, cfg.serviceId);
    assert !Stored(s, cfg.memberOf, cfg.serviceId) by {
      hide GroupsOk, ObjectsOk, IndexOk, IsMember, Stored;
    }
    hide Inv, R.Lookup;
  }

  /** Nobody in the group is up, and nobody has ever been. */
  ghost predicate AllDown(s: State, g: string) {
    && (forall m :: IsMember(s, g, m) ==> !Obj(s, m).isHealthy)
    && (g in s.groups ==> s.groups[g].lastActive.None?)
  }

  lemma DownGroup(s: State, g: string)
    requires GroupsOk(s) && AllDown(s, g)
    ensures GroupOrNew(s, g).active.None? && GroupOrNew(s, g).lastActive.None?
  {
    if g in s.groups {
      GroupIn(s, g);
      GroupFacts(s, g);
      if s.groups[g].active.Some? {
        assert IsMember(s, g, s.groups[g].active.value);
      }
    }
  }

  /** The step changed nothing but group `g`, its rules aside. */
  ghost predicate OnlyGroup(s: State, q: State, g: string) {
    Inv(q) && SameGroupsBut(s.groups, q.groups, g)
  }

  lemma JoinDown(sort: G.Sorter, w: G.World, g: G.Group, id: Id)
    requires g.members == [] || G.Elected(w, g)
    requires g.mode != G.ActiveActiveRoundTrip && id !in g.members && g.active.None? && g.lastActive.None?
    requires !G.Healthy(w, id) && forall m :: m in g.members ==> !G.Healthy(w, m)
    ensures var o := G.RegisterMember(sort, w, g, id);
            && o.event.None? && o.group.active.None? && o.group.lastActive.None?
            && forall m :: m in o.group.members ==> !G.Healthy(w, m)
  {
    var o := G.RegisterMember(sort, w, g, id);
    JoinElects(sort, w, g, id);
    hide G.RegisterMember, G.FittingMode;
    assert o.group.active.None?;
  }

  /** A service that is down joins a group that is down. */
  lemma JoinsDown(env: Env, s: State, n: ServiceData)
    requires GroupsOk(s) && AllDown(s, n.memberOf) && n.id !in s.index && !n.isHealthy
    ensures var w := s.objs[n.id := n];
            var o := G.RegisterMember(env.sort, w, GroupOrNew(s, n.memberOf), n.id);
            && RegisterShown(env, s, n) == Shown(w, s.groups[n.memberOf := o.group], s.rules)
            && o.event.None? && o.group.lastActive.None?
            && forall m :: m in o.group.members ==> !G.Get(w, m).isHealthy
  {
    var g, w := n.memberOf, s.objs[n.id := n];
    var before := GroupOrNew(s, g);
    SoundGroup(s, g);
    DownGroup(s, g);
    Outsider(s, g, n.id);
    if g in s.groups {
      GroupIn(s, g);
      GroupFacts(s, g);
      G.ElectedDependsOnMembersOnly(s.objs, w, before);
    }
    assert forall m :: m in before.members ==> IsMember(s, g, m) && !G.Healthy(w, m);
    NoEvent(Shown(w, s.groups, s.rules), s.groups[g := G.RegisterMember(env.sort, w, before, n.id).group]);
    hide G.RegisterMember, G.Elected, GroupsOk, AfterEvent;
    JoinDown(env.sort, w, before, n.id);
  }

  lemma DownAfter(s: State, q: State, g: string, grp: G.Group)
    requires q.groups == s.groups[g := grp] && grp.lastActive.None?
    requires forall m :: m in grp.members ==> !Obj(q, m).isHealthy
    ensures SameGroupsBut(s.groups, q.groups, g) && AllDown(q, g)
  {
  }

  lemma RegisterDown(env: Env, s: State, cfg: Config)
    requires Inv(s) && Plain(cfg) && cfg.serviceId !in s.index && AllDown(s, cfg.memberOf)
    ensures var q := Step(env, s, Register(cfg));
            && OnlyGroup(s, q, cfg.memberOf) && AllDown(q, cfg.memberOf)
            && q.objs == s.objs[cfg.serviceId := Made(cfg)] && q.rules == s.rules
            && q.index.Keys == s.index.Keys + {cfg.serviceId}
  {
    var n, g := Made(cfg), cfg.memberOf;
    var q := RegisterNew(env, s, n);
    InvParts(s);
    MadeFirst(s, cfg);
    RegisterServiceMeans(env, s, cfg);
    hide RegisterNew, Inv, SaneService, RegisterShown, RegisterService, GroupsOk, ObjectsOk, IndexOk, StoreOk, AllDown;
    hide SameGroupsBut, NewService, GroupOrNew, G.RegisterMember;
    RegisterNewKeeps(env, s, n);
    RegisterNewEffect(env, s, n);
    JoinsDown(env, s, n);
    var o := G.RegisterMember(env.sort, s.objs[n.id := n], GroupOrNew(s, g), n.id);
    DownAfter(s, q, g, o.group);
  }

  /** The only difference is in service `id`, whose schedule may be any. */
  ghost predicate OnlyService(s: State, q: State, id: Id, d: ServiceData) {
    && (forall x :: x != id ==> Obj(q, x) == Obj(s, x))
    && Obj(q, id) == d.(scheduledInterval := Obj(q, id).scheduledInterval)
  }

  function Up(d: ServiceData): ServiceData {
    d.(isHealthy := true, failureCount := 0, roundtrip := 0)
  }

  function Down(d: ServiceData): ServiceData {
    d.(isHealthy := false, failureCount := d.failureThreshold, roundtrip := 0)
  }

  /** A service that is down and comes up at its first success, in a group where nobody is up. */
  ghost predicate ComesUp(s: State, id: Id) {
    && id in s.index && !Obj(s, id).isHealthy && Obj(s, id).failureCount == 1
    && Obj(s, id).memberOf in s.groups && s.groups[Obj(s, id).memberOf].active.None?
  }

  /** What a check result leads to when it flips the service. */
  lemma Flips(env: Env, s: State, id: Id, success: bool, d: ServiceData)
    requires Inv(s) && id in s.index && OnResult(Obj(s, id).(roundtrip := 0), success) == Checked(d, Some(success))
    requires d.isHealthy == success != Obj(s, id).isHealthy
    ensures var q, g, w := Step(env, s, Check(id, success, 0)), Obj(s, id).memberOf, s.objs[id := d];
            && id in s.objs && g in s.groups && id in s.groups[g].members
            && Inv(q) && q.index.Keys == s.index.Keys
            && var o := G.OnServiceHealthChange(w, s.groups[g], id, success);
               && Show(q) == AfterEvent(Shown(w, s.groups, s.rules), s.groups[g := o.group], Heeded(s, o.event))
               && FlipDecides(w, s.groups[g], id, o)
  {
    var g, w := Obj(s, id).memberOf, s.objs[id := d];
    InvParts(s);
    InvMeans(s, id);
    CheckedMeans(s.objs[id].(roundtrip := 0), success);
    CheckShownFlip(s, id, success, d);
    InvIsAlive(s);
    hide *;
    CheckKeeps(env, s, id, success, 0);
    CheckKeepsKeys(env, s, id, success, 0);
    CheckEffect(env, s, id, success, 0);
    HomeMember(s, id);
    SoundFlip(s, id, d, G.OnServiceHealthChange(w, s.groups[g], id, success));
    CheckIsStep(env, s, id, success);
  }

  lemma CheckIsStep(env: Env, s: State, id: Id, success: bool)
    requires !s.crashed
    ensures Step(env, s, Check(id, success, 0)) == CheckResult(env, s, id, success, 0)
  {
    hide CheckResult;
  }

  lemma CheckShownFlip(s: State, id: Id, success: bool, d: ServiceData)
    requires Obj(s, id).memberOf in s.groups
    requires OnResult(Obj(s, id).(roundtrip := 0), success) == Checked(d, Some(success))
    ensures var g, w := Obj(s, id).memberOf, s.objs[id := d];
            var o := G.OnServiceHealthChange(w, s.groups[g], id, success);
            CheckShown(s, id, success, 0) ==
            AfterEvent(Shown(w, s.groups, s.rules), s.groups[g := o.group], Heeded(s, o.event))
  {
    hide AfterEvent, G.OnServiceHealthChange, OnResult;
  }

  /** The group of a service after it has flipped: the others in it are down throughout. */
  ghost predicate Alone(s: State, id: Id) {
    forall m :: IsMember(s, Obj(s, id).memberOf, m) && m != id ==> !Obj(s, m).isHealthy
  }

  /** The state after an operation on group `g` whose event names nobody but service `id`. */
  lemma FlippedOnly(s: State, q: State, id: Id, d: ServiceData, g: string, grp: G.Group, e: Option<G.PromotionEvent>)
    requires Show(q) == AfterEvent(Shown(s.objs[id := d], s.groups, s.rules), s.groups[g := grp], e)
    requires e.Some? ==> (e.value.oldActive.Some? ==> e.value.oldActive.value == id)
                         && (e.value.newActive.Some? ==> e.value.newActive.value == id)
    ensures SameGroupsBut(s.groups, q.groups, g) && g in q.groups && q.groups[g] == grp
    ensures OnlyService(s, q, id, d) && q.rules == EventRules(s.objs[id := d], s.rules, e)
  {
  }

  lemma FirstUpEvent(s: State, g: G.Group, id: Id, w: G.World, o: G.Outcome)
    requires FlipDecides(w, g, id, o) && g.active.None? && g.lastActive.None?
    ensures o.group.active == Some(id) && o.group.members == g.members
    ensures Heeded(s, o.event) == o.event && o.event.Some?
    ensures o.event.value.newActive == Some(id) && o.event.value.oldActive.None?
  {
    hide G.Elected;
  }

  /** The first to come up in its group is announced. */
  lemma ServiceUp(env: Env, s: State, id: Id)
    requires Inv(s) && ComesUp(s, id) && AllDown(s, Obj(s, id).memberOf)
    ensures var q, g := Step(env, s, Check(id, true, 0)), Obj(s, id).memberOf;
            && OnlyGroup(s, q, g) && q.index.Keys == s.index.Keys
            && OnlyService(s, q, id, Up(Obj(s, id)))
            && g in s.groups && g in q.groups && q.groups[g].members == s.groups[g].members
            && q.groups[g].active == Some(id) && q.rules == s.rules + {RuleOf(Obj(s, id))}
  {
    var d, g, q := Up(Obj(s, id)), Obj(s, id).memberOf, Step(env, s, Check(id, true, 0));
    var w := s.objs[id := d];
    Flips(env, s, id, true, d) by {
      hide Inv, AllDown;
    }
    var o := G.OnServiceHealthChange(w, s.groups[g], id, true);
    hide Inv, G.OnServiceHealthChange, Step, AfterEvent, Show, IsMember, FlipDecides, OnlyService, SameGroupsBut;
    hide Heeded;
    FirstUpEvent(s, s.groups[g], id, w, o);
    FlippedOnly(s, q, id, d, g, o.group, o.event);
  }

  /** And it is checked at its base interval from then on. */
  lemma UpAtBase(env: Env, s: State, id: Id)
    requires Inv(s) && ComesUp(s, id) && AllDown(s, Obj(s, id).memberOf)
    ensures Obj(Step(env, s, Check(id, true, 0)), id).scheduledInterval == Obj(s, id).baseInterval
  {
    var d, g, q := Up(Obj(s, id)), Obj(s, id).memberOf, Step(env, s, Check(id, true, 0));
    var w := s.objs[id := d];
    Flips(env, s, id, true, d) by {
      hide Inv, AllDown;
    }
    var o := G.OnServiceHealthChange(w, s.groups[g], id, true);
    hide Inv, G.OnServiceHealthChange, Step, IsMember, FlipDecides, EventRules, Heeded, Show, AfterEvent;
    FirstUpEvent(s, s.groups[g], id, w, o);
    PromotedToBase(s, q, w, s.groups[g := o.group], o.event, id);
  }

  lemma PromotedToBase(s: State, q: State, w: G.World, groups: Groups, e: Option<G.PromotionEvent>, id: Id)
    requires Show(q) == AfterEvent(Shown(w, s.groups, s.rules), groups, e)
    requires e.Some? && e.value.newActive == Some(id) && e.value.oldActive.None? && id in w
    ensures Obj(q, id).scheduledInterval == w[id].baseInterval
  {
    hide EventRules;
    assert Obj(q, id) == G.Get(Show(q).objs, id);
  }

  lemma LastDownEvent(s: State, g: G.Group, id: Id, w: G.World, o: G.Outcome)
    requires FlipDecides(w, g, id, o) && g.active == Some(id) && id in s.index
    requires forall m :: m in g.members ==> !G.Healthy(w, m)
    ensures o.group.active.None? && o.group.lastActive == Some(id) && o.group.members == g.members
    ensures Heeded(s, o.event) == o.event && o.event.Some?
    ensures o.event.value.newActive.None? && o.event.value.oldActive == Some(id)
  {
    hide G.FittingMode;
  }

  lemma DownTogether(s: State, id: Id, d: ServiceData)
    requires Alone(s, id) && !d.isHealthy && Obj(s, id).memberOf in s.groups
    ensures forall m :: m in s.groups[Obj(s, id).memberOf].members ==> !G.Healthy(s.objs[id := d], m)
  {
    forall m | m in s.groups[Obj(s, id).memberOf].members ensures !G.Healthy(s.objs[id := d], m) {
      assert IsMember(s, Obj(s, id).memberOf, m);
    }
  }

  lemma Withdrawn(s: State, id: Id, d: ServiceData, e: Option<G.PromotionEvent>)
    requires RuleOf(d) == RuleOf(Obj(s, id))
    requires e.Some? && e.value.newActive.None? && e.value.oldActive == Some(id)
    ensures EventRules(s.objs[id := d], s.rules, e) == s.rules - {RuleOf(Obj(s, id))}
  {
  }

  /** When the active goes down and the others are down, nobody is active, and nobody is announced. */
  lemma ServiceDown(env: Env, s: State, id: Id)
    requires Inv(s) && id in s.index && Obj(s, id).isHealthy && Obj(s, id).failureCount == 0
    requires Obj(s, id).failureThreshold == 1 && Alone(s, id)
    requires Obj(s, id).memberOf in s.groups && s.groups[Obj(s, id).memberOf].active == Some(id)
    ensures var q, g := Step(env, s, Check(id, false, 0)), Obj(s, id).memberOf;
            && OnlyGroup(s, q, g) && q.index.Keys == s.index.Keys
            && OnlyService(s, q, id, Down(Obj(s, id)))
            && g in q.groups && q.groups[g].members == s.groups[g].members
            && q.groups[g].active.None? && q.groups[g].lastActive == Some(id)
            && q.rules == s.rules - {RuleOf(Obj(s, id))}
  {
    var d, g, q := Down(Obj(s, id)), Obj(s, id).memberOf, Step(env, s, Check(id, false, 0));
    var w := s.objs[id := d];
    Flips(env, s, id, false, d) by {
      hide Inv, Alone;
    }
    var o := G.OnServiceHealthChange(w, s.groups[g], id, false);
    DownTogether(s, id, d);
    hide Inv, G.OnServiceHealthChange, Step, AfterEvent, Show, IsMember, FlipDecides, OnlyService, SameGroupsBut;
    hide Heeded, G.Healthy, EventRules;
    LastDownEvent(s, s.groups[g], id, w, o);
    FlippedOnly(s, q, id, d, g, o.group, o.event);
    Withdrawn(s, id, d, o.event);
  }

  // ---------- Runs ----------

  /** The run is admissible, and leads from an empty manager to the sound state `s`. */
  ghost predicate Reaches(env: Env, run: seq<Event>, s: State) {
    EndsIn(env, run, s) && Inv(s)
  }

  lemma Then(env: Env, run: seq<Event>, s: State, e: Event)
    requires Reaches(env, run, s) && Allowed(s, e) && Inv(Step(env, s, e))
    ensures Reaches(env, run + [e], Step(env, s, e))
  {
    hide Inv, Step, Allowed, EndsIn;
    GoesOn(env, run, s, e);
  }

  ghost predicate DistinctIds(cfgs: seq<Config>) {
    forall i, j :: 0 <= i < j < |cfgs| ==> cfgs[i].serviceId != cfgs[j].serviceId
  }

  function IdsIn(cfgs: seq<Config>): set<Id> {
    set k | 0 <= k < |cfgs| :: cfgs[k].serviceId
  }

  lemma IdsInMore(cfgs: seq<Config>)
    requires cfgs != []
    ensures var n := |cfgs| - 1;
            && IdsIn(cfgs) == IdsIn(cfgs[..n]) + {cfgs[n].serviceId}
            && (DistinctIds(cfgs) ==> cfgs[n].serviceId !in IdsIn(cfgs[..n]))
  {
    var n := |cfgs| - 1;
    forall id ensures id in IdsIn(cfgs) <==> id in IdsIn(cfgs[..n]) + {cfgs[n].serviceId} {
      if id in IdsIn(cfgs) {
        var k :| 0 <= k < |cfgs| && cfgs[k].serviceId == id;
        assert k < n ==> cfgs[..n][k] == cfgs[k];
      }
    }
  }

  /** These services are registered, all of them as new. */
  ghost predicate Registered(s: State, cfgs: seq<Config>) {
    && s.rules == {} && s.index.Keys == IdsIn(cfgs)
    && (forall g :: AllDown(s, g))
    && (forall k :: 0 <= k < |cfgs| ==> Obj(s, cfgs[k].serviceId) == Made(cfgs[k]))
  }

  lemma {:induction false} RegisterAll(env: Env, cfgs: seq<Config>) returns (run: seq<Event>, s: State)
    requires DistinctIds(cfgs) && forall k :: 0 <= k < |cfgs| ==> Plain(cfgs[k])
    ensures Reaches(env, run, s) && Registered(s, cfgs)
  {
    hide Inv, Plain, Step, AllDown, Reaches, Made, IdsIn;
    if cfgs == [] {
      run, s := [], NewManager();
      NoneRegistered(env);
    } else {
      var n := |cfgs| - 1;
      var before;
      run, before := RegisterAll(env, cfgs[..n]);
      s := Step(env, before, Register(cfgs[n]));
      IdsInMore(cfgs);
      assert cfgs[n].serviceId !in before.index.Keys;
      assert Inv(before) by {
        ReachesInv(env, run, before);
      }
      RegisterDown(env, before, cfgs[n]);
      MadeNames(cfgs[n]);
      RegisterMore(before, s, cfgs, Made(cfgs[n]));
      AllowedPlain(before, cfgs[n]);
      Then(env, run, before, Register(cfgs[n]));
      run := run + [Register(cfgs[n])];
    }
  }

  lemma NoneRegistered(env: Env)
    ensures Reaches(env, [], NewManager()) && Registered(NewManager(), [])
  {
    NewManagerInv();
    hide Inv;
  }

  lemma MadeNames(cfg: Config)
    ensures Made(cfg).id == cfg.serviceId && Made(cfg).memberOf == cfg.memberOf
  {
  }

  lemma ReachesInv(env: Env, run: seq<Event>, s: State)
    requires Reaches(env, run, s)
    ensures Inv(s)
  {
  }

  lemma AllowedPlain(s: State, cfg: Config)
    requires Plain(cfg)
    ensures Allowed(s, Register(cfg))
  {
  }

  lemma RegisterMore(s: State, q: State, cfgs: seq<Config>, d: ServiceData)
    requires cfgs != [] && DistinctIds(cfgs) && Inv(s) && Registered(s, cfgs[..|cfgs| - 1])
    requires OnlyGroup(s, q, d.memberOf) && AllDown(q, d.memberOf)
    requires d == Made(cfgs[|cfgs| - 1]) && q.objs == s.objs[d.id := d] && q.rules == s.rules
    requires q.index.Keys == s.index.Keys + {d.id}
    ensures Registered(q, cfgs)
  {
    IdsInMore(cfgs);
    InvParts(s);
    assert d.id == cfgs[|cfgs| - 1].serviceId;
    hide Inv, GroupsOk, AllDown, Made, IdsIn, OnlyGroup;
    MoreDown(s, q, d);
    MoreMade(s, q, cfgs[..|cfgs| - 1], cfgs, d);
  }

  lemma MoreDown(s: State, q: State, d: ServiceData)
    requires GroupsOk(s) && d.id !in s.index.Keys && OnlyGroup(s, q, d.memberOf) && AllDown(q, d.memberOf)
    requires (forall g :: AllDown(s, g)) && q.objs == s.objs[d.id := d]
    ensures forall g :: AllDown(q, g)
  {
    hide Inv, GroupsOk, AllDown;
    forall g ensures AllDown(q, g) {
      if g != d.memberOf {
        assert AllDown(s, g);
        Outsider(s, g, d.id);
        DownElsewhere(s, q, g, d.id);
      }
    }
  }

  lemma MoreMade(s: State, q: State, before: seq<Config>, cfgs: seq<Config>, d: ServiceData)
    requires cfgs != [] && DistinctIds(cfgs) && d == Made(cfgs[|cfgs| - 1]) && q.objs == s.objs[d.id := d]
    requires before == cfgs[..|cfgs| - 1]
    requires forall k :: 0 <= k < |before| ==> Obj(s, before[k].serviceId) == Made(before[k])
    ensures forall k :: 0 <= k < |cfgs| ==> Obj(q, cfgs[k].serviceId) == Made(cfgs[k])
  {
    assert d.id == cfgs[|cfgs| - 1].serviceId;
    hide Made;
    forall k | 0 <= k < |cfgs| ensures Obj(q, cfgs[k].serviceId) == Made(cfgs[k]) {
      if k < |cfgs| - 1 {
        assert before[k] == cfgs[k];
      }
    }
  }

  lemma DownElsewhere(s: State, q: State, g: string, id: Id)
    requires AllDown(s, g) && !IsMember(s, g, id) && (g in q.groups <==> g in s.groups)
    requires g in s.groups ==> q.groups[g] == s.groups[g]
    requires forall x :: x != id ==> Obj(q, x) == Obj(s, x)
    ensures AllDown(q, g)
  {
    assert forall m :: IsMember(q, g, m) <==> IsMember(s, g, m);
  }

  /** Of the services `cfgs`, the first is up, announced, and the only one that is. */
  ghost predicate OnlyFirstUp(s: State, cfgs: seq<Config>) {
    && cfgs != [] && Inv(s) && s.index.Keys == IdsIn(cfgs)
    && s.rules == {Rule(cfgs[0].memberOf, cfgs[0].datacenter)}
    && cfgs[0].memberOf in s.groups && s.groups[cfgs[0].memberOf].active == Some(cfgs[0].serviceId)
    && Obj(s, cfgs[0].serviceId) == Up(Made(cfgs[0])).(scheduledInterval := Obj(s, cfgs[0].serviceId).scheduledInterval)
    && forall k :: 1 <= k < |cfgs| ==> Obj(s, cfgs[k].serviceId) == Made(cfgs[k])
  }

  /** Any services can be registered, and the first of them come up. */
  lemma FirstComesUp(env: Env, cfgs: seq<Config>) returns (run: seq<Event>, s: State)
    requires cfgs != [] && DistinctIds(cfgs) && forall k :: 0 <= k < |cfgs| ==> Plain(cfgs[k])
    ensures Reaches(env, run, s) && OnlyFirstUp(s, cfgs)
    ensures Obj(s, cfgs[0].serviceId).scheduledInterval == cfgs[0].baseInterval
  {
    var before;
    run, before := RegisterAll(env, cfgs);
    var id, e := cfgs[0].serviceId, Check(cfgs[0].serviceId, true, 0);
    s := Step(env, before, e);
    ReachesInv(env, run, before);
    assert Plain(cfgs[0]);
    CanComeUp(before, cfgs);
    assert Allowed(before, e);
    hide *;
    ServiceUp(env, before, id);
    UpAtBase(env, before, id);
    MadeBase(cfgs[0]);
    NowUp(before, s, cfgs);
    OnlyFirstUpInv(s, cfgs);
    Then(env, run, before, e);
    run := run + [e];
  }

  lemma MadeBase(cfg: Config)
    ensures Made(cfg).baseInterval == cfg.baseInterval
  {
  }

  lemma OnlyFirstUpInv(s: State, cfgs: seq<Config>)
    requires OnlyFirstUp(s, cfgs)
    ensures Inv(s)
  {
  }

  lemma CanComeUp(s: State, cfgs: seq<Config>)
    requires cfgs != [] && Inv(s) && Registered(s, cfgs) && Plain(cfgs[0])
    ensures var id := cfgs[0].serviceId;
            ComesUp(s, id) && AllDown(s, Obj(s, id).memberOf) && Obj(s, id) == Made(cfgs[0])
  {
    assert cfgs[0].serviceId in IdsIn(cfgs);
    assert cfgs[0].serviceId in s.index.Keys;
    assert AllDown(s, cfgs[0].memberOf);
    hide Inv, AllDown, IdsIn;
    GroupIsDown(s, cfgs[0].serviceId);
  }

  lemma NowUp(s: State, q: State, cfgs: seq<Config>)
    requires cfgs != [] && DistinctIds(cfgs) && Registered(s, cfgs)
    requires Obj(s, cfgs[0].serviceId) == Made(cfgs[0])
    requires var id, g := cfgs[0].serviceId, Obj(s, cfgs[0].serviceId).memberOf;
             && OnlyGroup(s, q, g) && q.index.Keys == s.index.Keys
             && OnlyService(s, q, id, Up(Obj(s, id)))
             && g in q.groups && q.groups[g].active == Some(id) && q.rules == s.rules + {RuleOf(Obj(s, id))}
    ensures OnlyFirstUp(q, cfgs)
  {
    hide Inv, AllDown, IdsIn;
    forall k | 1 <= k < |cfgs| ensures Obj(q, cfgs[k].serviceId) == Made(cfgs[k]) {
      assert Obj(s, cfgs[k].serviceId) == Made(cfgs[k]);
    }
  }

  lemma GroupIsDown(s: State, id: Id)
    requires Inv(s) && id in s.index && AllDown(s, Obj(s, id).memberOf)
    ensures Obj(s, id).memberOf in s.groups && s.groups[Obj(s, id).memberOf].active.None?
  {
    InvMeans(s, id);
    InvParts(s);
    hide Inv, GroupsOk;
    DownGroup(s, Obj(s, id).memberOf);
  }
}
