/** A manager that starts on what an earlier one stored, with the rules that the servers hold. It runs in step with a
    manager whose store holds nothing but the records of the services registered since, and so keeps whatever the
    invariant says of that one. */
module ManagerRestarts {
  import opened Basics
  import opened Services
  import opened Managers
  import opened ManagerInvariants
  import opened ManagerPromotions
  import opened ManagerSteps
  import opened ManagerLeaving
  import opened ManagerRuns
  import opened ManagerEffects
  import opened ManagerRecoveries
  import opened ManagerUpdates
  import opened ManagerShadows
  import G = ServiceGroups
  import R = ServiceRepos
  import S = Schedulers

  /** The servers outlive the manager, and so do the rules `left` that they hold. */
  function Restarted(st: R.Store, left: set<Rule>): State {
    NewManager().(store := st, rules := left)
  }

  // ---------- Runs after a restart ----------

  /** A sound manager with the same rules, but without any leftovers in its store, runs in step. */
  ghost predicate Shadowed(past: Past, s: State) {
    exists t :: InStep(past, s, t) && Inv(t)
  }

  /** Services are in none but these places. */
  ghost predicate Placed(w: G.World, places: (string, Id) -> bool) {
    forall x :: x in w ==> places(w[x].memberOf, x)
  }

  lemma RestartFollows(past: Past, left: set<Rule>)
    requires Startable(past.store) && !past.sameStore
    ensures InStep(past, Restarted(past.store, left), NewManager().(rules := left))
    ensures Inv(NewManager().(rules := left))
    ensures Shadowed(past, Restarted(past.store, left))
  {
    NewManagerInv();
    hide Inv;
    RulesAside(NewManager(), left);
  }

  /** The invariant says nothing about rules. */
  lemma RulesAside(s: State, rules: set<Rule>)
    requires Inv(s)
    ensures Inv(s.(rules := rules))
  {
    var t := s.(rules := rules);
    InvParts(s);
    hide Inv, ObjectsOk, IndexOk, GroupsOk, StoreOk;
    ScheduleFrame(s, t, None);
    HarmlessGroups(s, t);
    HarmlessStore(s, t);
    InvOf(t);
  }

  /** The same, with services that may be anywhere. */
  function Anywhere(past: Past): Past {
    past.(places := (g, y) => true)
  }

  lemma StaysInStep(past: Past, s: State, t: State)
    requires InStep(past, s, t)
    ensures InStep(Anywhere(past), s, t)
  {
    hide Startable, R.Lookup;
  }

  lemma RegisteredObject(env: Env, s: State, n: ServiceData)
    requires Inv(s) && n.id !in s.index && SaneService(n)
    ensures var q := RegisterNew(env, s, n);
            n.id in q.objs && q.objs[n.id].isHealthy == n.isHealthy && q.objs[n.id].memberOf == n.memberOf
  {
    hide Inv, SaneService, RegisterNew;
    FirstObject(env, s, n);
  }

  lemma UpdatePlaces(env: Env, past: Past, s: State, t: State, n: ServiceData)
    requires InStep(past, s, t) && Inv(t) && n.id in s.index && Assignable(n)
    requires Placed(UpdateService(env, s, n).objs, past.places)
    ensures ConfigChanged(Obj(s, n.id), n) ==> past.places(n.memberOf, n.id)
  {
    hide *;
    if ConfigChanged(Obj(s, n.id), n) {
      InStepMeans(past, s, t);
      StaysInStep(past, s, t);
      Everywhere(past, n.memberOf, n.id);
      assert n.id in s.index.Keys;
      UpdateInStep(env, Anywhere(past), s, t, n);
      InStepMeans(Anywhere(past), UpdateService(env, s, n), UpdateService(env, t, n));
      UpdateServiceKeeps(env, t, n);
      assert n.id in UpdateService(env, t, n).index.Keys;
      UpdatedService(env, t, n);
      AssignNames(Obj(t, n.id), n);
      PlacedMeans(UpdateService(env, s, n), past.places, n.id);
      SamePlace(UpdateService(env, t, n), t, n);
    }
  }

  lemma SamePlace(q: State, t: State, n: ServiceData)
    requires Obj(q, n.id) == Assign(Obj(t, n.id), n).(scheduledInterval := Obj(q, n.id).scheduledInterval)
    ensures Obj(q, n.id).memberOf == Assign(Obj(t, n.id), n).memberOf
  {
    hide Assign;
  }

  lemma PlacedMeans(q: State, places: (string, Id) -> bool, id: Id)
    requires Placed(q.objs, places) && id in q.objs
    ensures places(Obj(q, id).memberOf, id) && Obj(q, id) == q.objs[id]
  {
  }

  lemma Everywhere(past: Past, h: string, x: Id)
    ensures Anywhere(past).places(h, x)
  {
  }

  lemma NewPlaces(env: Env, past: Past, s: State, t: State, n: ServiceData)
    requires InStep(past, s, t) && Inv(t) && n.id !in s.index && n.id != "" && Assignable(n)
    requires !RegisterNew(env, s, n).crashed && Placed(RegisterNew(env, s, n).objs, past.places)
    ensures S.Schedulable(n.scheduledInterval) && past.places(n.memberOf, n.id)
  {
    hide *;
    InStepMeans(past, s, t);
    StaysInStep(past, s, t);
    Everywhere(past, n.memberOf, n.id);
    NewFollows(env, Anywhere(past), s, t, n);
    SaneIfSchedulable(n);
    RegisteredObject(env, t, n);
    InStepMeans(Anywhere(past), RegisterNew(env, s, n), RegisterNew(env, t, n));
    PlacedMeans(RegisterNew(env, s, n), past.places, n.id);
  }

  lemma UpdateFollows(env: Env, past: Past, s: State, t: State, n: ServiceData)
    requires InStep(past, s, t) && Inv(t) && n.id in s.index && Assignable(n) && !UpdateService(env, s, n).crashed
    requires ConfigChanged(Obj(s, n.id), n) ==> past.places(n.memberOf, n.id)
    ensures Shadowed(past, UpdateService(env, s, n))
  {
    hide *;
    InStepMeans(past, s, t);
    assert n.id in s.index.Keys;
    UpdateInStep(env, past, s, t, n);
    InStepMeans(past, UpdateService(env, s, n), UpdateService(env, t, n));
    UpdateServiceKeeps(env, t, n);
    FollowsOf(past, UpdateService(env, s, n), UpdateService(env, t, n));
  }

  lemma NewFollows(env: Env, past: Past, s: State, t: State, n: ServiceData)
    requires InStep(past, s, t) && Inv(t) && n.id !in s.index && n.id != "" && Assignable(n)
    requires !RegisterNew(env, s, n).crashed && past.places(n.memberOf, n.id)
    ensures S.Schedulable(n.scheduledInterval)
    ensures InStep(past, RegisterNew(env, s, n), RegisterNew(env, t, n)) && Inv(RegisterNew(env, t, n))
  {
    hide *;
    InStepMeans(past, s, t);
    RegisterNewInStep(env, past, s, t, n);
    InStepMeans(past, RegisterNew(env, s, n), RegisterNew(env, t, n));
    if S.Schedulable(n.scheduledInterval) {
      SaneIfSchedulable(n);
      RegisterNewKeeps(env, t, n);
    } else {
      RegisterNewPanics(env, t, n);
      assert false;
    }
  }

  lemma RegisterFollows(env: Env, past: Past, s: State, cfg: Config)
    requires Shadowed(past, s) && Allowed(s, Register(cfg)) && !RegisterService(env, s, cfg).crashed
    requires Placed(RegisterService(env, s, cfg).objs, past.places)
    ensures Shadowed(past, RegisterService(env, s, cfg))
  {
    var t :| InStep(past, s, t) && Inv(t);
    hide InStep, Inv, UpdateService, RegisterNew, NewService, RegisterService, Shadowed, Assignable, Placed;
    RegisterServiceMeans(env, s, cfg);
    NewServiceMeans(cfg, s.store);
    match NewService(cfg, s.store)
    case None =>
    case Some(n) =>
      if n.id in s.index {
        UpdatePlaces(env, past, s, t, n);
        UpdateFollows(env, past, s, t, n);
      } else {
        NewPlaces(env, past, s, t, n);
        NewFollows(env, past, s, t, n);
        FollowsOf(past, RegisterNew(env, s, n), RegisterNew(env, t, n));
      }
  }

  lemma FollowsOf(past: Past, s: State, t: State)
    requires InStep(past, s, t) && Inv(t)
    ensures Shadowed(past, s)
  {
    hide InStep, Inv;
  }

  lemma RemoveFollows(env: Env, past: Past, s: State, t: State, id: Id)
    requires InStep(past, s, t) && Inv(t)
    ensures Shadowed(past, RemoveService(env, s, id))
  {
    hide *;
    RemoveInStep(env, past, s, t, id);
    RemoveServiceKeeps(env, t, id);
    FollowsOf(past, RemoveService(env, s, id), RemoveService(env, t, id));
  }

  lemma CheckFollows(env: Env, past: Past, s: State, t: State, id: Id, success: bool, roundtrip: Duration)
    requires InStep(past, s, t) && Inv(t) && id in s.index
    ensures Shadowed(past, CheckResult(env, s, id, success, roundtrip))
  {
    hide *;
    InStepMeans(past, s, t);
    assert id in s.index.Keys;
    CheckInStep(env, past, s, t, id, success, roundtrip);
    CheckKeeps(env, t, id, success, roundtrip);
    FollowsOf(past, CheckResult(env, s, id, success, roundtrip), CheckResult(env, t, id, success, roundtrip));
  }

  lemma TurnFollows(past: Past, s: State, t: State, d: Duration, now: int, gap: Duration)
    requires InStep(past, s, t) && Inv(t)
    ensures Shadowed(past, Tick(s, d, now, gap))
  {
    hide *;
    TickInStep(past, s, t, d, now, gap);
    TickKeeps(t, d, now, gap);
    FollowsOf(past, Tick(s, d, now, gap), Tick(t, d, now, gap));
  }

  lemma StepFollows(env: Env, past: Past, s: State, e: Event)
    requires Shadowed(past, s) && Allowed(s, e) && !Step(env, s, e).crashed
    requires Placed(Step(env, s, e).objs, past.places)
    ensures Shadowed(past, Step(env, s, e))
  {
    hide InStep, Inv, RegisterService, RemoveService, CheckResult, Tick;
    var t :| InStep(past, s, t) && Inv(t);
    hide Shadowed, Placed;
    match e
    case Register(cfg) => RegisterFollows(env, past, s, cfg);
    case Remove(id) => RemoveFollows(env, past, s, t, id);
    case Check(id, success, roundtrip) => CheckFollows(env, past, s, t, id, success, roundtrip);
    case Turn(d, now, gap) => TurnFollows(past, s, t, d, now, gap);
  }

  /** At every moment of the run, services are in none but these places. */
  ghost predicate StaysIn(env: Env, s: State, run: seq<Event>, places: (string, Id) -> bool) {
    Placed(Final(env, s, run).objs, places) && (run != [] ==> StaysIn(env, s, run[..|run| - 1], places))
  }

  /** Every run after a restart does so, up to a panic. */
  lemma {:induction false} RestartKeeps(env: Env, past: Past, left: set<Rule>, run: seq<Event>)
    requires Startable(past.store) && !past.sameStore && Admissible(env, Restarted(past.store, left), run)
    requires !Final(env, Restarted(past.store, left), run).crashed
    requires StaysIn(env, Restarted(past.store, left), run, past.places)
    ensures Shadowed(past, Final(env, Restarted(past.store, left), run))
  {
    hide Shadowed, Step, Startable, Restarted, Allowed, Placed;
    if run == [] {
      RestartFollows(past, left);
    } else {
      var before, e := Final(env, Restarted(past.store, left), run[..|run| - 1]), run[|run| - 1];
      DeadStaysDead(env, before, e);
      RestartKeeps(env, past, left, run[..|run| - 1]);
      StepFollows(env, past, before, e);
    }
  }

  lemma {:induction false} StaysAnywhere(env: Env, s: State, run: seq<Event>, past: Past)
    ensures StaysIn(env, s, run, Anywhere(past).places)
  {
    hide Final;
    if run != [] {
      StaysAnywhere(env, s, run[..|run| - 1], past);
    }
  }

  // ---------- What holds after a restart ----------

  ghost predicate Running(env: Env, st: R.Store, left: set<Rule>, run: seq<Event>, s: State) {
    && Startable(st) && Admissible(env, Restarted(st, left), run)
    && Final(env, Restarted(st, left), run) == s && !s.crashed
  }

  lemma RunningShadowed(env: Env, st: R.Store, left: set<Rule>, run: seq<Event>, s: State)
    returns (past: Past, t: State)
    requires Running(env, st, left, run, s)
    ensures InStep(past, s, t) && Inv(t) && !past.sameStore && past == Anywhere(past)
  {
    past := Past(st, (g, y) => true, false);
    StaysAnywhere(env, Restarted(st, left), run, past);
    past := Anywhere(past);
    RestartKeeps(env, past, left, run);
    hide InStep, Inv;
    t :| InStep(past, s, t) && Inv(t);
  }

  /** Elections and membership are as without any leftovers. */
  lemma RestartElects(env: Env, st: R.Store, left: set<Rule>, run: seq<Event>, s: State, g: string, id: Id)
    requires Running(env, st, left, run, s)
    ensures g in s.groups ==> WellElected(s, g)
    ensures IsMember(s, g, id) <==> id in s.index && Obj(s, id).memberOf == g
  {
    var past, t := RunningShadowed(env, st, left, run, s);
    InStepMeans(past, s, t);
    assert forall x :: x in s.index <==> x in t.index.Keys;
    SoundElects(t, g, id);
    hide *;
    SameElections(s, t, g, id);
  }

  lemma SoundElects(t: State, g: string, id: Id)
    requires Inv(t)
    ensures g in t.groups ==> WellElected(t, g)
    ensures IsMember(t, g, id) <==> id in t.index && Obj(t, id).memberOf == g
  {
    InvParts(t);
    hide Inv, GroupsOk, GroupOk, ObjectsOk, IndexOk, StoreOk, WellElected;
    if g in t.groups {
      GroupIn(t, g);
      GroupFacts(t, g);
      SoundGroupIsWellElected(t, g);
    }
    if id in t.index {
      InvMeans(t, id);
    }
  }

  lemma SameElections(s: State, t: State, g: string, id: Id)
    requires t == s.(store := t.store, rules := t.rules)
    ensures g in s.groups ==> WellElected(s, g) == WellElected(t, g)
    ensures IsMember(s, g, id) == IsMember(t, g, id) && Obj(s, id) == Obj(t, id)
  {
  }

  /** At no moment of the run is there an object of the service that names this group. */
  ghost predicate NeverNames(env: Env, s: State, run: seq<Event>, h: string, x: Id) {
    && !(x in Final(env, s, run).objs && Final(env, s, run).objs[x].memberOf == h)
    && (run != [] ==> NeverNames(env, s, run[..|run| - 1], h, x))
  }

  lemma {:induction false} NeverThere(env: Env, s: State, run: seq<Event>, h: string, x: Id)
    requires NeverNames(env, s, run, h, x)
    ensures StaysIn(env, s, run, (g, y) => g != h || y != x)
  {
    hide Final;
    if run != [] {
      NeverThere(env, s, run[..|run| - 1], h, x);
    }
  }

  /** A record under a group that no object of its service has named since keeps what was stored, its flag
      included. */
  lemma LeftoversStay(env: Env, st: R.Store, left: set<Rule>, run: seq<Event>, s: State, h: string, x: Id)
    requires Running(env, st, left, run, s) && NeverNames(env, Restarted(st, left), run, h, x)
    ensures R.Lookup(s.store, h, x) == R.Lookup(st, h, x)
  {
    var past := Past(st, (g, y) => g != h || y != x, false);
    NeverThere(env, Restarted(st, left), run, h, x);
    assert !past.places(h, x);
    RestartKeeps(env, past, left, run);
    hide InStep, Inv;
    var t :| InStep(past, s, t) && Inv(t);
    InStepMeans(past, s, t);
    hide *;
    AgreeMeans(past, s.objs, s.store, t.store, x);
  }

  // ---------- A first registration that makes its service the active ----------

  lemma JoinEvent(env: Env, s: State, n: ServiceData, o: G.Outcome)
    requires Inv(s) && n.id !in s.index && o.group.active == Some(n.id)
    requires o == G.RegisterMember(env.sort, s.objs[n.id := n], GroupOrNew(s, n.memberOf), n.id)
    ensures o.event.Some? <==> n.memberOf in s.groups
    ensures o.event.Some? ==>
              && o.event.value.newActive == Some(n.id) != o.event.value.oldActive
              && o.event.value.oldActive == s.groups[n.memberOf].active
              && (o.event.value.oldActive.Some? ==> IsMember(s, n.memberOf, o.event.value.oldActive.value))
  {
    var g, before := n.memberOf, GroupOrNew(s, n.memberOf);
    InvParts(s);
    SoundGroup(s, g);
    Outsider(s, g, n.id);
    if g in s.groups {
      GroupIn(s, g);
      GroupFacts(s, g);
    }
    hide Inv, GroupsOk, GroupOk, ObjectsOk, IndexOk, StoreOk, G.Chosen, G.Update;
    G.UpdateChooses(env.sort, s.objs[n.id := n], before.(members := before.members + [n.id]));
  }

  lemma EventNames(w: G.World, rules: set<Rule>, e: Option<G.PromotionEvent>, id: Id)
    requires e.Some? ==> e.value.newActive == Some(id) != e.value.oldActive
    ensures RuleOf(G.Get(w, id)) in EventRules(w, rules, e) <==> e.Some? || RuleOf(G.Get(w, id)) in rules
  {
  }

  /** It is flagged exactly when its group had members before, and announced exactly then or when its rule was
      there already. */
  lemma RegistrationHeardIff(env: Env, s: State, n: ServiceData)
    requires Inv(s) && n.id !in s.index && SaneService(n)
    requires n.memberOf in RegisterNew(env, s, n).groups
    requires RegisterNew(env, s, n).groups[n.memberOf].active == Some(n.id)
    ensures var q, g := RegisterNew(env, s, n), n.memberOf;
            && (Flagged(q, g, n.id) <==> g in s.groups)
            && (RuleOf(n) in q.rules <==> g in s.groups || RuleOf(n) in s.rules)
    ensures n.isHealthy
  {
    var g, w := n.memberOf, s.objs[n.id := n];
    var o := G.RegisterMember(env.sort, w, GroupOrNew(s, g), n.id);
    RegisteredShows(env, s, n, o);
    hide *;
    JoinEvent(env, s, n, o);
    EventNames(w, s.rules, o.event, n.id);
    RegistrationFlag(env, s, n, o);
    ActiveIsUp(env, s, n, o);
  }

  lemma ActiveIsUp(env: Env, s: State, n: ServiceData, o: G.Outcome)
    requires Inv(s) && n.id !in s.index && o.group.active == Some(n.id)
    requires o == G.RegisterMember(env.sort, s.objs[n.id := n], GroupOrNew(s, n.memberOf), n.id)
    ensures n.isHealthy
  {
    InvParts(s);
    hide Inv, GroupsOk, ObjectsOk, IndexOk, StoreOk, G.RegisterMember, GroupOrNew, G.FittingMode;
    JoinOutcome(s, s.objs[n.id := n], n, env.sort, o);
  }

  lemma RegisteredShows(env: Env, s: State, n: ServiceData, o: G.Outcome)
    requires Inv(s) && n.id !in s.index && SaneService(n)
    requires o == G.RegisterMember(env.sort, s.objs[n.id := n], GroupOrNew(s, n.memberOf), n.id)
    ensures var q, w := RegisterNew(env, s, n), s.objs[n.id := n];
            && q.groups == s.groups[n.memberOf := o.group] && q.rules == EventRules(w, s.rules, o.event)
            && RuleOf(G.Get(w, n.id)) == RuleOf(n)
  {
    hide Inv, SaneService, RegisterNew, EventRules, EventWorld, G.RegisterMember;
    RegisterNewEffect(env, s, n);
  }

  lemma RegistrationFlag(env: Env, s: State, n: ServiceData, o: G.Outcome)
    requires Inv(s) && n.id !in s.index && SaneService(n)
    requires o == G.RegisterMember(env.sort, s.objs[n.id := n], GroupOrNew(s, n.memberOf), n.id)
    requires o.group.active == Some(n.id)
    ensures Flagged(RegisterNew(env, s, n), n.memberOf, n.id) <==> o.event.Some?
  {
    var g, t := n.memberOf, Announced(env, s, n);
    var u := t.(groups := t.groups[g := o.group]);
    InvParts(s);
    hide *;
    AnnouncedSchedule(env, s, n);
    AnnouncedFirst(env, s, n);
    JoinReady(env, s, t, n, o);
    AlmostInvGives(t, u, g);
    JoinOutcome(s, t.objs, n, env.sort, o);
    JoinEvent(env, s, n, o);
    if o.event.Some? {
      StoredMember(t, u, g, n.id);
      if o.event.value.oldActive.Some? {
        StoredMember(t, u, g, o.event.value.oldActive.value);
      }
      StoredNone(t);
      GroupFlags(env, t, g, o, n.id);
    } else {
      SilentStore(env, t, g, o);
      SameStoreFrame(t, RegisterNew(env, s, n));
      NewUnflagged(s, t, n);
    }
  }

  lemma SilentStore(env: Env, t: State, g: string, o: G.Outcome)
    requires o.event.None?
    ensures GroupChanged(env, t, g, o).store == t.store
  {
    hide HandlePromotion;
  }

  lemma NewUnflagged(s: State, t: State, n: ServiceData)
    requires Inv(s) && n.id !in s.index && t.store == R.Create(s.store, GSLBService(n))
    ensures !Flagged(t, n.memberOf, n.id)
  {
    InvParts(s);
    Outsider(s, n.memberOf, n.id);
    assert !Stored(s, n.memberOf, n.id);
    hide Inv, GroupsOk, ObjectsOk, IndexOk, StoreOk, StoreSane, R.Create;
    CreateMeans(s, GSLBService(n), t);
  }

  lemma RecordOfActive(q: State, t: State, past: Past, g: string, id: Id)
    requires InStep(past, q, t) && Inv(t) && g in q.groups && q.groups[g].active == Some(id)
    ensures Flagged(q, g, id) <==> Flagged(t, g, id)
  {
    InvParts(t);
    GroupIn(t, g);
    GroupFacts(t, g);
    hide Inv, GroupsOk, GroupOk, ObjectsOk, IndexOk, StoreOk, R.Lookup, Startable;
    assert id in q.objs && q.objs[id].memberOf == g && q.objs[id].id == id;
    assert Own(q.store, q.objs[id]) == Own(t.store, q.objs[id]);
  }

  /** After a restart a service may be registered as healthy, from its stored record, and become active at once.
      It is then flagged exactly when its group already had members, and announced exactly then or when its
      rule was there already. */
  lemma RestartHeardIff(env: Env, st: R.Store, left: set<Rule>, run: seq<Event>, s: State, cfg: Config)
    requires Running(env, st, left, run, s) && Allowed(s, Register(cfg))
    requires NewService(cfg, s.store).Some? && cfg.serviceId !in s.index
    requires !RegisterService(env, s, cfg).crashed
    requires cfg.memberOf in RegisterService(env, s, cfg).groups
    requires RegisterService(env, s, cfg).groups[cfg.memberOf].active == Some(cfg.serviceId)
    ensures var q, g, rule := RegisterService(env, s, cfg), cfg.memberOf, Rule(cfg.memberOf, cfg.datacenter);
            && (Flagged(q, g, cfg.serviceId) <==> g in s.groups)
            && (rule in q.rules <==> g in s.groups || rule in s.rules)
            && (exists r :: R.Lookup(s.store, g, cfg.serviceId) == Some(r) && r.isHealthy)
  {
    var n := NewService(cfg, s.store).value;
    hide *;
    RegisteredNew(env, s, cfg);
    var past, t := RunningShadowed(env, st, left, run, s);
    InStepMeans(past, s, t);
    Everywhere(past, n.memberOf, n.id);
    NewFollows(env, past, s, t, n);
    SaneIfSchedulable(n);
    var q, u := RegisterNew(env, s, n), RegisterNew(env, t, n);
    InStepMeans(past, q, u);
    RegistrationHeardIff(env, t, n);
    RecordOfActive(q, u, past, n.memberOf, n.id);
  }

  lemma RegisteredNew(env: Env, s: State, cfg: Config)
    requires Allowed(s, Register(cfg)) && NewService(cfg, s.store).Some? && cfg.serviceId !in s.index
    ensures var n := NewService(cfg, s.store).value;
            && RegisterService(env, s, cfg) == RegisterNew(env, s, n) && Assignable(n) && n.id != ""
            && n.memberOf == cfg.memberOf && RuleOf(n) == Rule(cfg.memberOf, cfg.datacenter) && n.id == cfg.serviceId
            && (n.isHealthy ==> exists r :: R.Lookup(s.store, cfg.memberOf, cfg.serviceId) == Some(r) && r.isHealthy)
  {
    RegisterServiceMeans(env, s, cfg);
    NewServiceMeans(cfg, s.store);
    NewServiceNames(cfg, s.store);
    hide RegisterNew, RegisterService, NewService, R.Lookup;
    var r := R.Lookup(s.store, cfg.memberOf, cfg.serviceId);
    assert r.Some? ==> r == Some(r.value);
  }

  lemma NewServiceNames(cfg: Config, st: R.Store)
    requires NewService(cfg, st).Some?
    ensures var n := NewService(cfg, st).value;
            && n.memberOf == cfg.memberOf && RuleOf(n) == Rule(cfg.memberOf, cfg.datacenter) && n.id == cfg.serviceId
            && (n.isHealthy ==> R.Lookup(st, cfg.memberOf, cfg.serviceId).Some?
                                && R.Lookup(st, cfg.memberOf, cfg.serviceId).value.isHealthy)
  {
    hide R.Lookup;
  }
}
