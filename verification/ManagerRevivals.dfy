/** From one life of the manager to the next: what shutting down leaves can be started on, but the rules and the flags
    of the two lives may not fit together. */
module ManagerRevivals {
  import opened Basics
  import opened Services
  import opened Managers
  import opened ManagerInvariants
  import opened ManagerSteps
  import opened ManagerLeaving
  import opened ManagerRuns
  import opened ManagerEffects
  import opened ManagerShadows
  import opened ManagerRestarts
  import opened ManagerRuleChanges
  import opened ManagerRestartRules
  import opened Synchronising
  import opened ManagerScenarios
  import opened ManagerUpdates
  import opened ManagerFailures
  import opened ManagerStrays
  import Shutdown = ManagerShutdown
  import G = ServiceGroups
  import R = ServiceRepos
  import S = Schedulers

  // ---------- Every life leaves a store for the next ----------

  lemma OwnRecord(past: Past, s: State, t: State, g: string, x: Id)
    requires InStep(past, s, t) && x in t.objs && t.objs[x].memberOf == g && Stored(t, g, x)
    ensures Obj(s, x).id == x && Obj(s, x).memberOf == g && R.Lookup(s.store, g, x).Some? && x != ""
  {
    StoredIs(t, g, x);
    hide *;
    InStepMeans(past, s, t);
    NamedMeans(s, x);
    AgreeMeans(past, s.objs, s.store, t.store, x);
  }

  lemma StoredIs(t: State, g: string, x: Id)
    ensures Stored(t, g, x) <==> R.Lookup(t.store, g, x).Some?
  {
  }

  lemma OwnRecords(past: Past, s: State, t: State, g: string)
    requires InStep(past, s, t) && Inv(t) && g in s.groups
    ensures Shutdown.Ready(s, s.store, g, s.groups[g].members)
    ensures "" !in s.groups[g].members
  {
    hide Inv, InStep, R.Lookup;
    InStepMeans(past, s, t);
    GroupRecords(t, g);
    hide Stored, Agree, Named;
    forall x | x in s.groups[g].members
      ensures Obj(s, x).id == x && Obj(s, x).memberOf == g && R.Lookup(s.store, g, x).Some? && x != ""
    {
      OwnRecord(past, s, t, g, x);
    }
  }

  lemma GroupRecords(t: State, g: string)
    requires Inv(t) && g in t.groups
    ensures forall x :: x in t.groups[g].members ==> x in t.objs && t.objs[x].memberOf == g && Stored(t, g, x)
  {
    InvParts(t);
    GroupIn(t, g);
    GroupFacts(t, g);
    hide Inv, ObjectsOk, IndexOk, GroupsOk, StoreSane, Stored, GroupOk;
    forall x | x in t.groups[g].members ensures Stored(t, g, x) {
      assert IsMember(t, g, x);
    }
  }

  /** Whether it is killed or shut down, in whatever order the groups are visited then, the manager leaves a store
      that another one can be started on; so all of this holds for any number of lives. */
  lemma CanRestart(env: Env, st: R.Store, left: set<Rule>, run: seq<Event>, s: State, gs: seq<string>)
    requires Running(env, st, left, run, s) && NoDup(gs) && forall g :: g in gs ==> g in s.groups
    ensures Startable(s.store)
    ensures Shutdown.PersistAll(s, s.store, gs).Saved? && Startable(Shutdown.PersistAll(s, s.store, gs).store)
  {
    hide *;
    var past, t := RunningShadowed(env, st, left, run, s);
    InStepMeans(past, s, t);
    AgreeMeans(past, s.objs, s.store, t.store, "");
    forall g | g in gs ensures Shutdown.Ready(s, s.store, g, s.groups[g].members) && "" !in s.groups[g].members {
      OwnRecords(past, s, t, g);
    }
    StartableMeans(s.store);
    Shutdown.AllWritten(s, s.store, gs);
    StartableMeans(Shutdown.PersistAll(s, s.store, gs).store);
  }

  lemma StartableMeans(st: R.Store)
    ensures Startable(st) <==> Shutdown.Sane(st) && R.Lookup(st, "", "").None?
  {
  }

  // ---------- The end of a life ----------

  /** Services of one group, of which the first is up and announced, as the manager is shut down. */
  lemma LastLife(env: Env, run: seq<Event>, s: State, cfgs: seq<Config>, g: string)
    requires cfgs != [] && EndsIn(env, run, s) && OnlyFirstUp(s, cfgs) && DistinctIds(cfgs)
    requires forall k :: 0 <= k < |cfgs| ==> cfgs[k].memberOf == g
    ensures !s.crashed && s.groups.Keys == {g} && Shutdown.PersistAll(s, s.store, [g]).Saved?
    ensures var st, a := Shutdown.PersistAll(s, s.store, [g]).store, cfgs[0].serviceId;
            forall h, x ::
              && (R.Lookup(st, h, x).Some? <==> h == g && x in IdsIn(cfgs))
              && (h == g && x in IdsIn(cfgs) ==>
                    R.Lookup(st, h, x).value == GSLBService(Obj(s, x)).(isActive := x == a))
  {
    hide *;
    OnlyFirstUpInv(s, cfgs);
    InvIsAlive(s);
    AllInGroup(s, cfgs, g);
    ActiveOfFirst(s, cfgs, g);
    FinalEntry(env, run, s, cfgs, g, g, "");
    forall h, x
      ensures var record := R.Lookup(Shutdown.PersistAll(s, s.store, [g]).store, h, x);
              && (record.Some? <==> h == g && x in IdsIn(cfgs))
              && (h == g && x in IdsIn(cfgs) ==>
                    record.value == GSLBService(Obj(s, x)).(isActive := x == cfgs[0].serviceId))
    {
      FinalEntry(env, run, s, cfgs, g, h, x);
    }
  }

  lemma FinalEntry(env: Env, run: seq<Event>, s: State, cfgs: seq<Config>, g: string, h: string, x: Id)
    requires EndsIn(env, run, s) && !s.crashed && s.groups.Keys == {g} && cfgs != []
    requires (forall y :: y in IdsIn(cfgs) <==> y in s.index) && forall y :: y in s.index ==> Obj(s, y).memberOf == g
    requires Shutdown.ActiveOf(s, g) == Some(cfgs[0].serviceId)
    ensures Shutdown.PersistAll(s, s.store, [g]).Saved?
    ensures var record := R.Lookup(Shutdown.PersistAll(s, s.store, [g]).store, h, x);
            && (record.Some? <==> h == g && x in IdsIn(cfgs))
            && (h == g && x in IdsIn(cfgs) ==>
                  record.value == GSLBService(Obj(s, x)).(isActive := x == cfgs[0].serviceId))
  {
    hide *;
    OneByOne(g);
    assert forall k :: k in [g] <==> k in s.groups.Keys;
    EndMeans(env, run, s);
    Shutdown.ShutdownFlagsExactlyTheActive(env, run, [g], h, x);
  }

  lemma OneByOne(g: string)
    ensures NoDup([g])
  {
  }

  lemma AllInGroup(s: State, cfgs: seq<Config>, g: string)
    requires OnlyFirstUp(s, cfgs) && forall k :: 0 <= k < |cfgs| ==> cfgs[k].memberOf == g
    ensures s.index.Keys == IdsIn(cfgs) && s.groups.Keys == {g}
    ensures forall x :: x in s.index ==> Obj(s, x).memberOf == g
    ensures forall x :: x in IdsIn(cfgs) <==> x in s.index
  {
    hide Inv;
    assert s.index.Keys == IdsIn(cfgs);
    forall x | x in s.index.Keys ensures Obj(s, x).memberOf == g {
      var k :| 0 <= k < |cfgs| && cfgs[k].serviceId == x;
      ConfiguredAs(s, cfgs, k);
    }
    forall h | h in s.groups ensures h == g {
      var m := MemberOf(s, h);
    }
  }

  lemma ActiveOfFirst(s: State, cfgs: seq<Config>, g: string)
    requires OnlyFirstUp(s, cfgs) && DistinctIds(cfgs) && forall k :: 0 <= k < |cfgs| ==> cfgs[k].memberOf == g
    ensures g in s.groups && Shutdown.ActiveOf(s, g) == Some(cfgs[0].serviceId)
  {
    var a := cfgs[0].serviceId;
    OnlyFirstUpInv(s, cfgs);
    ConfiguredMembers(s, cfgs, 0);
    FirstInterval(s, cfgs);
    forall x | x in s.index && x != a ensures !Obj(s, x).isHealthy {
      OthersDown(s, cfgs, x);
    }
    hide *;
    MembersRegistered(s, g);
    InvParts(s);
    Shutdown.SoundGetActive(s, g);
    HealthIs(s);
    OnlyUpIsRight(s, g, a);
  }

  lemma HealthIs(s: State)
    ensures forall x :: G.Healthy(s.objs, x) == Obj(s, x).isHealthy
  {
  }

  lemma OnlyUpIsRight(s: State, g: string, a: Id)
    requires g in s.groups && G.RightActive(s.objs, s.groups[g].members, Shutdown.ActiveOf(s, g))
    requires a in s.groups[g].members && G.Healthy(s.objs, a)
    requires forall m :: IsMember(s, g, m) && m != a ==> !G.Healthy(s.objs, m)
    ensures Shutdown.ActiveOf(s, g) == Some(a)
  {
    hide G.GetActive;
    assert forall m :: m in s.groups[g].members ==> IsMember(s, g, m);
  }

  /** What the servers hold after the synchronisation at the next start: the rule of the first service. */
  lemma OneFlagged(st: R.Store, s: State, cfgs: seq<Config>, g: string)
    requires R.WellStored(st) && cfgs != [] && cfgs[0].memberOf == g
    requires Obj(s, cfgs[0].serviceId).memberOf == g
    requires Obj(s, cfgs[0].serviceId).datacenter == cfgs[0].datacenter
    requires forall h, x ::
               && (R.Lookup(st, h, x).Some? <==> h == g && x in IdsIn(cfgs))
               && (h == g && x in IdsIn(cfgs) ==>
                     R.Lookup(st, h, x).value == GSLBService(Obj(s, x)).(isActive := x == cfgs[0].serviceId))
    ensures FlaggedRules(st) == {Rule(g, cfgs[0].datacenter)}
    ensures R.Lookup(st, g, cfgs[0].serviceId).Some? && R.Lookup(st, g, cfgs[0].serviceId).value.isActive
  {
    hide R.Lookup, FlaggedRules;
    assert cfgs[0].serviceId in IdsIn(cfgs);
    var rule := Rule(g, cfgs[0].datacenter);
    FlaggedMeans(st, rule);
    assert RuleOfRecord(R.Lookup(st, g, cfgs[0].serviceId).value) == rule;
    forall r | r in FlaggedRules(st) ensures r == rule {
      FlaggedMeans(st, r);
    }
  }

  /** A whole life of such services: they are registered, the first comes up, and the manager is shut down. */
  lemma FirstLife(env: Env, cfgs: seq<Config>, g: string) returns (run: seq<Event>, s: State, st: R.Store)
    requires cfgs != [] && DistinctIds(cfgs) && forall k :: 0 <= k < |cfgs| ==> Plain(cfgs[k]) && cfgs[k].memberOf == g
    ensures Reaches(env, run, s) && OnlyFirstUp(s, cfgs) && s.rules == {Rule(g, cfgs[0].datacenter)}
    ensures s.groups.Keys == {g} && R.Saved(st) == Shutdown.PersistAll(s, s.store, [g])
    ensures Startable(st) && FlaggedRules(st) == s.rules
    ensures forall h, x ::
              && (R.Lookup(st, h, x).Some? <==> h == g && x in IdsIn(cfgs))
              && (h == g && x in IdsIn(cfgs) ==>
                    R.Lookup(st, h, x).value == GSLBService(Obj(s, x)).(isActive := x == cfgs[0].serviceId))
  {
    run, s := FirstComesUp(env, cfgs);
    FirstRules(s, cfgs);
    FirstInterval(s, cfgs);
    ConfiguredAs(s, cfgs, 0);
    hide *;
    ReachesEnd(env, run, s);
    LastLife(env, run, s, cfgs, g);
    st := Shutdown.PersistAll(s, s.store, [g]).store;
    LeavesStartable(env, run, s, g);
    StartableMeans(st);
    SaneMeans(st);
    OneFlagged(st, s, cfgs, g);
  }

  lemma FirstRules(s: State, cfgs: seq<Config>)
    requires OnlyFirstUp(s, cfgs)
    ensures s.rules == {Rule(cfgs[0].memberOf, cfgs[0].datacenter)}
  {
    hide Inv, IdsIn;
  }

  lemma SaneMeans(st: R.Store)
    ensures Shutdown.Sane(st) ==> R.WellStored(st)
  {
  }

  // ---------- A silent revival ----------

  lemma PlainHealthy(st: R.Store, cfg: Config)
    requires Plain(cfg)
    ensures var n := NewService(cfg, st);
            && n.Some? && S.Schedulable(n.value.scheduledInterval)
            && var record := R.Lookup(st, cfg.memberOf, cfg.serviceId);
               record.Some? && record.value.isHealthy ==> n.value.isHealthy
  {
    hide R.Lookup, S.Schedulable;
  }

  lemma AloneAndUp(s: State, id: Id)
    requires Inv(s) && s.index.Keys == {id} && Obj(s, id).isHealthy
    ensures var g := Obj(s, id).memberOf; g in s.groups && s.groups[g].active == Some(id)
  {
    var g := Obj(s, id).memberOf;
    LoneMember(s, id);
    InvParts(s);
    hide *;
    GroupIn(s, g);
    GroupFacts(s, g);
    HealthIs(s);
    ElectedMeans(s.objs, s.groups[g]);
    AloneIsRight(s.objs, id, s.groups[g].active);
  }

  lemma ElectedMeans(w: G.World, g: G.Group)
    requires G.Elected(w, g)
    ensures G.RightActive(w, g.members, g.active)
  {
  }

  /** Nothing but checks of a healthy service, all of them successful, and turns of loops. */
  predicate OnlySuccesses(run: seq<Event>, id: Id) {
    forall k :: 0 <= k < |run| ==> run[k].Turn? || (run[k].Check? && run[k].id == id && run[k].success)
  }

  /** They change no rule and nothing that is stored. */
  lemma {:induction false} SuccessesAreSilent(env: Env, s: State, id: Id, run: seq<Event>)
    requires Obj(s, id).isHealthy && OnlySuccesses(run, id)
    ensures var q := Final(env, s, run); Obj(q, id).isHealthy && q.rules == s.rules && q.store == s.store
  {
    hide HealthChanged, S.Iterate, RegisterService, RemoveService;
    if run != [] {
      SuccessesAreSilent(env, s, id, run[..|run| - 1]);
    }
  }

  lemma LeavesStartable(env: Env, run: seq<Event>, s: State, g: string)
    requires EndsIn(env, run, s) && !s.crashed && s.groups.Keys == {g}
    ensures Shutdown.PersistAll(s, s.store, [g]).Saved? && Startable(Shutdown.PersistAll(s, s.store, [g]).store)
  {
    assert NoDup([g]) && forall h :: h in [g] ==> h in s.groups.Keys;
    hide *;
    EmptyStart(env, run, s);
    CanRestart(env, map[], {}, run, s, [g]);
  }

  /** A manager with an empty store is one that was started on an empty store. */
  lemma EmptyStart(env: Env, run: seq<Event>, s: State)
    requires EndsIn(env, run, s) && !s.crashed
    ensures Running(env, map[], {}, run, s)
  {
    hide Final, Admissible;
    assert Restarted(map[], {}) == NewManager();
  }

  lemma AloneIsRight(w: G.World, id: Id, active: Option<Id>)
    requires G.RightActive(w, [id], active) && G.Healthy(w, id)
    ensures active == Some(id)
  {
    assert id in [id];
  }

  /** A first registration of a service that is stored as healthy, in a new manager. */
  lemma FirstOfHealthy(env: Env, n: ServiceData, left: set<Rule>)
    requires SaneService(n) && n.isHealthy
    ensures var u := RegisterNew(env, NewManager().(rules := left), n);
            && Inv(u) && n.memberOf in u.groups && u.groups[n.memberOf].active == Some(n.id)
            && u.objs == map[n.id := n] && u.rules == left
  {
    var t, u := NewManager().(rules := left), RegisterNew(env, NewManager().(rules := left), n);
    EmptyWith(left);
    hide *;
    RegisterNewKeeps(env, t, n);
    FirstShows(env, t, n);
    AloneAndUp(u, n.id);
  }

  lemma EmptyWith(left: set<Rule>)
    ensures var t := NewManager().(rules := left);
            Inv(t) && t.index.Keys == {} && t.objs == map[] && t.groups == map[] && t.rules == left && t.store == map[]
  {
    NewManagerInv();
    hide Inv;
    RulesAside(NewManager(), left);
  }

  lemma FirstShows(env: Env, t: State, n: ServiceData)
    requires Inv(t) && t.groups == map[] && t.objs == map[] && t.index.Keys == {} && SaneService(n) && n.isHealthy
    ensures var u := RegisterNew(env, t, n);
            u.objs == map[n.id := n] && u.rules == t.rules && Obj(u, n.id) == n
  {
    var o := G.RegisterMember(env.sort, t.objs[n.id := n], GroupOrNew(t, n.memberOf), n.id);
    hide Inv, SaneService, RegisterNew, G.RegisterMember;
    RegisterNewEffect(env, t, n);
    NewGroupSilent(env, t, n, o);
    NoEvent(Shown(t.objs[n.id := n], t.groups, t.rules), t.groups[n.memberOf := o.group]);
    assert Show(RegisterNew(env, t, n)) == Shown(t.objs[n.id := n], t.groups[n.memberOf := o.group], t.rules);
  }

  lemma NewGroupSilent(env: Env, t: State, n: ServiceData, o: G.Outcome)
    requires n.memberOf !in t.groups
    requires o == G.RegisterMember(env.sort, t.objs[n.id := n], GroupOrNew(t, n.memberOf), n.id)
    ensures o.event.None?
  {
    hide G.RegisterMember, G.Chosen;
    AddedEvent(env.sort, t.objs[n.id := n], GroupOrNew(t, n.memberOf), n.id);
  }

  lemma FreshStart(env: Env, st: R.Store, left: set<Rule>, cfg: Config)
    requires Startable(st) && Plain(cfg)
    ensures var s := Restarted(st, left);
            && Running(env, st, left, [], s) && Allowed(s, Register(cfg))
            && s.store == st && s.index.Keys == {} && s.rules == left && !s.crashed && s.groups == map[]
            && s.objs == map[]
  {
    hide Startable, S.Schedulable;
  }

  lemma OneStep(env: Env, st: R.Store, left: set<Rule>, cfg: Config, q: State)
    requires Running(env, st, left, [], Restarted(st, left)) && Allowed(Restarted(st, left), Register(cfg))
    requires q == RegisterService(env, Restarted(st, left), cfg) && !q.crashed
    ensures q == Step(env, Restarted(st, left), Register(cfg)) && Running(env, st, left, [Register(cfg)], q)
  {
    hide RegisterService, Startable;
    assert [Register(cfg)][..0] == [];
  }

  /** The manager whose store has no leftovers, and the one that is really started. */
  lemma NewInStep(env: Env, st: R.Store, left: set<Rule>, n: ServiceData)
    requires Startable(st) && n.id != ""
    ensures var past := Past(st, (h, x) => true, false);
            var q, u := RegisterNew(env, Restarted(st, left), n), RegisterNew(env, NewManager().(rules := left), n);
            InStep(past, q, u) && u == q.(store := u.store) && q.objs == u.objs
  {
    var past := Past(st, (h, x) => true, false);
    hide *;
    RestartFollows(past, left);
    RegisterNewInStep(env, past, Restarted(st, left), NewManager().(rules := left), n);
    InStepMeans(past, RegisterNew(env, Restarted(st, left), n), RegisterNew(env, NewManager().(rules := left), n));
  }

  /** The first registration after the restart, of a service that is stored as healthy. */
  lemma Revives(env: Env, st: R.Store, left: set<Rule>, cfg: Config)
    requires Plain(cfg) && Startable(st)
    requires var record := R.Lookup(st, cfg.memberOf, cfg.serviceId); record.Some? && record.value.isHealthy
    ensures var q, g, id := Step(env, Restarted(st, left), Register(cfg)), cfg.memberOf, cfg.serviceId;
            && Running(env, st, left, [Register(cfg)], q)
            && g in q.groups && q.groups[g].active == Some(id) && Obj(q, id).isHealthy
            && q.rules == left && !Flagged(q, g, id)
            && q.objs.Keys == {id} && Obj(q, id).memberOf == g
  {
    var s, n := Restarted(st, left), NewService(cfg, st).value;
    var q, u := RegisterNew(env, s, n), RegisterNew(env, NewManager().(rules := left), n);
    PlainHealthy(st, cfg);
    FreshStart(env, st, left, cfg);
    hide *;
    RegisteredNew(env, s, cfg);
    SaneIfSchedulable(n);
    FirstOfHealthy(env, n, left);
    InvIsAlive(u);
    NewInStep(env, st, left, n);
    OneStep(env, st, left, cfg, q);
    RestartHeardIff(env, st, left, [], s, cfg);
    OnlyObject(q, n);
  }

  lemma OnlyObject(q: State, n: ServiceData)
    requires q.objs == map[n.id := n]
    ensures q.objs.Keys == {n.id} && Obj(q, n.id) == n
  {
  }

  /** With nothing but the record of the service in the store, nothing is flagged any more. */
  lemma NothingFlagged(env: Env, st: R.Store, left: set<Rule>, cfg: Config, q: State)
    requires Running(env, st, left, [Register(cfg)], q) && q.objs.Keys == {cfg.serviceId}
    requires Obj(q, cfg.serviceId).memberOf == cfg.memberOf && !Flagged(q, cfg.memberOf, cfg.serviceId)
    requires forall h, x :: R.Lookup(st, h, x).Some? ==> h == cfg.memberOf && x == cfg.serviceId
    ensures Synchronised(q).rules == {}
  {
    forall h, x ensures !(R.Lookup(q.store, h, x).Some? && R.Lookup(q.store, h, x).value.isActive) {
      if h == cfg.memberOf && x == cfg.serviceId {
        assert !Flagged(q, h, x);
      } else {
        NamesOnly(env, st, left, cfg, q, h, x);
        LeftoversStay(env, st, left, [Register(cfg)], q, h, x);
      }
    }
    hide *;
    StillStartable(env, st, left, [Register(cfg)], q);
    StartableMeans(q.store);
    SaneMeans(q.store);
    NoneFlagged(q);
  }

  lemma NoneFlagged(q: State)
    requires R.WellStored(q.store)
    requires forall h, x :: !(R.Lookup(q.store, h, x).Some? && R.Lookup(q.store, h, x).value.isActive)
    ensures Synchronised(q).rules == {}
  {
    hide R.Lookup, FlaggedRules, R.WellStored;
    forall r ensures r !in FlaggedRules(q.store) {
      FlaggedMeans(q.store, r);
    }
  }

  lemma StillStartable(env: Env, st: R.Store, left: set<Rule>, run: seq<Event>, s: State)
    requires Running(env, st, left, run, s)
    ensures Startable(s.store)
  {
    hide *;
    NoneVisited(s);
    CanRestart(env, st, left, run, s, []);
  }

  lemma NoneVisited(s: State)
    ensures NoDup<string>([]) && forall g: string :: g in [] ==> g in s.groups
  {
  }

  lemma NamesOnly(env: Env, st: R.Store, left: set<Rule>, cfg: Config, q: State, h: string, x: Id)
    requires Running(env, st, left, [Register(cfg)], q) && q.objs.Keys == {cfg.serviceId}
    requires Obj(q, cfg.serviceId).memberOf == cfg.memberOf
    requires h != cfg.memberOf || x != cfg.serviceId
    ensures NeverNames(env, Restarted(st, left), [Register(cfg)], h, x)
  {
    hide RegisterService, Startable;
    var run := [Register(cfg)];
    assert run[..|run| - 1] == [];
    assert NeverNames(env, Restarted(st, left), [], h, x);
    assert x in q.objs ==> x in q.objs.Keys;
  }

  /** A service is the only one, up, announced and flagged, when the manager is shut down. After a restart it is
      registered again, is healthy and active at once, and its rule is still on the servers; but it is no longer
      flagged. So the next synchronisation withdraws the rule, and however many further checks succeed, neither
      they nor any further synchronisation bring it back. */
  lemma RevivesSilently(env: Env, cfg: Config) returns (run: seq<Event>, s: State, st: R.Store, q: State)
    requires Plain(cfg)
    ensures Reaches(env, run, s) && s.rules == {Rule(cfg.memberOf, cfg.datacenter)}
    ensures s.groups.Keys == {cfg.memberOf} && R.Saved(st) == Shutdown.PersistAll(s, s.store, [cfg.memberOf])
    ensures Startable(st) && FlaggedRules(st) == s.rules && Running(env, st, s.rules, [Register(cfg)], q)
    ensures var g, id := cfg.memberOf, cfg.serviceId;
            && g in q.groups && q.groups[g].active == Some(id) && Obj(q, id).isHealthy
            && q.rules == s.rules && !Flagged(q, g, id) && Synchronised(q).rules == {}
            && forall checks :: OnlySuccesses(checks, id) ==>
                 var later := Final(env, Synchronised(q), checks);
                 later.rules == {} && Synchronised(later).rules == {}
  {
    var g, id := cfg.memberOf, cfg.serviceId;
    SingleConfig(cfg);
    run, s, st := FirstLife(env, [cfg], g);
    FirstIsUp(s, cfg);
    hide *;
    var left := s.rules;
    q := Step(env, Restarted(st, left), Register(cfg));
    Revives(env, st, left, cfg);
    NothingFlagged(env, st, left, cfg, q);
    SyncMeans(q);
    forall checks | OnlySuccesses(checks, id)
      ensures var later := Final(env, Synchronised(q), checks); later.rules == {} && Synchronised(later).rules == {}
    {
      SuccessesAreSilent(env, Synchronised(q), id, checks);
      SyncMeans(Final(env, Synchronised(q), checks));
    }
  }

  lemma SyncMeans(q: State)
    ensures Synchronised(q).rules == FlaggedRules(q.store) && Synchronised(q).store == q.store
    ensures forall x :: Obj(Synchronised(q), x) == Obj(q, x)
  {
    hide FlaggedRules;
  }

  lemma SingleConfig(cfg: Config)
    requires Plain(cfg)
    ensures DistinctIds([cfg]) && IdsIn([cfg]) == {cfg.serviceId} && [cfg][0] == cfg
    ensures forall k :: 0 <= k < |[cfg]| ==> Plain([cfg][k]) && [cfg][k].memberOf == cfg.memberOf
  {
    hide Plain;
    IdsInMore([cfg]);
    assert [cfg][..0] == [] && IdsIn([]) == {};
  }

  lemma FirstIsUp(s: State, cfg: Config)
    requires OnlyFirstUp(s, [cfg])
    ensures forall active :: GSLBService(Obj(s, cfg.serviceId)).(isActive := active).isHealthy
  {
    FirstInterval(s, [cfg]);
    assert [cfg][0] == cfg;
  }

  // ---------- Two rules for one group ----------

  /** The second service alone is registered after the restart, as if new. */
  lemma SecondRegisters(env: Env, st: R.Store, left: set<Rule>, cfg: Config)
    requires Startable(st) && Plain(cfg) && NewService(cfg, st) == Some(Made(cfg))
    ensures var t := NewManager().(rules := left);
            var q, u := Step(env, Restarted(st, left), Register(cfg)), Step(env, t, Register(cfg));
            && InStep(Past(st, (h, x) => true, false), q, u) && Running(env, st, left, [Register(cfg)], q)
            && OnlyGroup(t, u, cfg.memberOf) && AllDown(u, cfg.memberOf)
            && u.objs == map[cfg.serviceId := Made(cfg)] && u.rules == left && cfg.serviceId in u.index
  {
    var past := Past(st, (h, x) => true, false);
    var s, t, n := Restarted(st, left), NewManager().(rules := left), Made(cfg);
    var q, u := RegisterNew(env, s, n), RegisterNew(env, t, n);
    EmptyWith(left);
    FreshStart(env, st, left, cfg);
    NobodyDown(t, cfg.memberOf);
    PlainMeans(cfg);
    MadeNames(cfg);
    hide *;
    InvIsAlive(t);
    MadeFirst(t, cfg);
    RegisteredNew(env, s, cfg);
    AllowedPlain(t, cfg);
    RegisteredNew(env, t, cfg);
    RegisterDown(env, t, cfg);
    NewInStep(env, st, left, n);
    StepRegisters(env, t, cfg);
    RegisterNewKeeps(env, t, n);
    InvIsAlive(u);
    OneStep(env, st, left, cfg, q);
    assert cfg.serviceId in u.index.Keys;
    OneMore(t, u, cfg.serviceId, n);
  }

  lemma OneMore(t: State, u: State, id: Id, n: ServiceData)
    requires t.objs == map[] && u.objs == t.objs[id := n]
    ensures u.objs == map[id := n]
  {
  }

  lemma StepRegisters(env: Env, t: State, cfg: Config)
    requires !t.crashed
    ensures Step(env, t, Register(cfg)) == RegisterService(env, t, cfg)
  {
    hide RegisterService;
  }

  lemma NobodyDown(t: State, g: string)
    requires t.groups == map[]
    ensures AllDown(t, g)
  {
  }

  /** It comes up, and is announced beside what was left over. */
  lemma SecondComesUpAlone(env: Env, st: R.Store, left: set<Rule>, cfg: Config)
    requires Startable(st) && Plain(cfg) && NewService(cfg, st) == Some(Made(cfg))
    ensures var b, g, run := cfg.serviceId, cfg.memberOf, [Register(cfg)] + [Check(cfg.serviceId, true, 0)];
            var q := Final(env, Restarted(st, left), run);
            && Running(env, st, left, run, q)
            && q.rules == left + {Rule(g, cfg.datacenter)} && g in q.groups && q.groups[g].active == Some(b)
            && (forall h, x :: x != b ==> NeverNames(env, Restarted(st, left), run, h, x))
            && UndisturbedBut(env, Restarted(st, left), run, {})
  {
    var past := Past(st, (h, x) => true, false);
    var b := cfg.serviceId;
    var t := NewManager().(rules := left);
    var q1, t1 := Step(env, Restarted(st, left), Register(cfg)), Step(env, t, Register(cfg));
    var q2, t2 := Step(env, q1, Check(b, true, 0)), Step(env, t1, Check(b, true, 0));
    hide *;
    SecondRegisters(env, st, left, cfg);
    CanComeUpAlone(t, t1, cfg);
    InStepMeans(past, q1, t1);
    ServiceUp(env, t1, b);
    OnlyGroupInv(t1, t2, cfg.memberOf);
    UpAlone(t1, t2, cfg);
    CheckTwice(env, past, q1, t1, b);
    InStepMeans(past, q2, t2);
    TwoStepRun(env, st, left, cfg, q1, q2);
  }

  lemma CanComeUpAlone(t: State, u: State, cfg: Config)
    requires Plain(cfg) && OnlyGroup(t, u, cfg.memberOf) && AllDown(u, cfg.memberOf)
    requires u.objs == map[cfg.serviceId := Made(cfg)] && cfg.serviceId in u.index
    ensures var b := cfg.serviceId;
            && Inv(u) && !u.crashed && ComesUp(u, b) && AllDown(u, Obj(u, b).memberOf) && b in u.objs
            && Obj(u, b) == Made(cfg) && Obj(u, b).memberOf == cfg.memberOf
            && RuleOf(Obj(u, b)) == Rule(cfg.memberOf, cfg.datacenter)
  {
    InvIsAlive(u);
    hide Inv, AllDown;
    GroupIsDown(u, cfg.serviceId);
  }

  lemma OnlyGroupInv(s: State, q: State, g: string)
    requires OnlyGroup(s, q, g)
    ensures Inv(q) && !q.crashed
  {
    InvIsAlive(q);
    hide Inv;
  }

  lemma UpAlone(t: State, q: State, cfg: Config)
    requires t.objs == map[cfg.serviceId := Made(cfg)] && Inv(q)
    requires OnlyService(t, q, cfg.serviceId, Up(Made(cfg)))
    ensures q.objs.Keys <= {cfg.serviceId}
  {
    assert ObjectsOk(q);
    hide Inv;
    forall x | x != cfg.serviceId ensures x !in q.objs {
      assert Obj(q, x) == G.NO_SERVICE;
    }
  }

  lemma CheckTwice(env: Env, past: Past, s: State, t: State, id: Id)
    requires InStep(past, s, t) && id in s.objs && !s.crashed
    ensures InStep(past, Step(env, s, Check(id, true, 0)), Step(env, t, Check(id, true, 0)))
  {
    InStepMeans(past, s, t);
    hide InStep, CheckResult, Agree, Named;
    CheckInStep(env, past, s, t, id, true, 0);
  }

  lemma TwoStepRun(env: Env, st: R.Store, left: set<Rule>, cfg: Config, q1: State, q2: State)
    requires Running(env, st, left, [Register(cfg)], q1)
    requires q2 == Step(env, q1, Check(cfg.serviceId, true, 0)) && !q2.crashed && cfg.serviceId in q1.index
    requires q1.objs.Keys <= {cfg.serviceId} && q2.objs.Keys <= {cfg.serviceId}
    ensures var run := [Register(cfg)] + [Check(cfg.serviceId, true, 0)];
            && Final(env, Restarted(st, left), run) == q2 && Running(env, st, left, run, q2)
            && (forall h, x :: x != cfg.serviceId ==> NeverNames(env, Restarted(st, left), run, h, x))
            && UndisturbedBut(env, Restarted(st, left), run, {})
  {
    hide *;
    var run, e := [Register(cfg)], Check(cfg.serviceId, true, 0);
    CheckAllowed(q1, cfg.serviceId);
    RunningEnds(env, st, left, run, q1);
    OneMoreStep(env, st, left, run, q1, e, q2);
    NotDisturbing(env, st, left, cfg);
    forall h, x | x != cfg.serviceId ensures NeverNames(env, Restarted(st, left), run + [e], h, x) {
      assert x !in q1.objs.Keys && x !in q2.objs.Keys;
      NeverNamed(env, st, left, cfg, q1, e, q2, h, x);
    }
  }

  lemma RunningEnds(env: Env, st: R.Store, left: set<Rule>, run: seq<Event>, s: State)
    requires Running(env, st, left, run, s)
    ensures Final(env, Restarted(st, left), run) == s
  {
    hide Startable, Final, Admissible, Restarted;
  }

  lemma CheckAllowed(s: State, id: Id)
    requires id in s.index
    ensures Allowed(s, Check(id, true, 0))
  {
  }

  lemma OneMoreStep(env: Env, st: R.Store, left: set<Rule>, run: seq<Event>, s: State, e: Event, q: State)
    requires Running(env, st, left, run, s) && Allowed(s, e) && q == Step(env, s, e) && !q.crashed
    ensures Running(env, st, left, run + [e], q) && Final(env, Restarted(st, left), run + [e]) == q
  {
    hide Startable, Step, Allowed, Restarted;
    assert (run + [e])[..|run|] == run;
  }

  lemma NeverNamed(env: Env, st: R.Store, left: set<Rule>, cfg: Config, q1: State, e: Event, q2: State,
                   h: string, x: Id)
    requires Final(env, Restarted(st, left), [Register(cfg)]) == q1 && x !in q1.objs
    requires Final(env, Restarted(st, left), [Register(cfg)] + [e]) == q2 && x !in q2.objs
    ensures NeverNames(env, Restarted(st, left), [Register(cfg)] + [e], h, x)
  {
    var first, s := [Register(cfg)], Restarted(st, left);
    assert first[..0] == [] && (first + [e])[..1] == first;
    hide Step;
    assert Final(env, s, []) == s && s.objs == map[];
    hide Final, Restarted;
    assert NeverNames(env, s, [], h, x);
    assert NeverNames(env, s, first, h, x);
  }

  lemma NotDisturbing(env: Env, st: R.Store, left: set<Rule>, cfg: Config)
    ensures UndisturbedBut(env, Restarted(st, left), [Register(cfg)] + [Check(cfg.serviceId, true, 0)], {})
  {
    var first, s, e := [Register(cfg)], Restarted(st, left), Check(cfg.serviceId, true, 0);
    assert first[..0] == [] && (first + [e])[..1] == first;
    hide Step, NewService;
    assert Final(env, s, []) == s && s.index == map[];
    QuietRegistration(env, s, cfg);
    hide Final, Restarted;
    assert UndisturbedBut(env, s, [], {});
    assert UndisturbedBut(env, s, first, {});
  }

  lemma QuietRegistration(env: Env, s: State, cfg: Config)
    requires s.index == map[]
    ensures !DisturbsBut(env, s, Register(cfg), {})
  {
    hide NewService;
  }

  /** Two services of a group are stored; the first was up and is announced. After the restart only the second is
      registered, because the first has left the zone meanwhile. When it comes up the servers have a rule of each,
      and since the first is still flagged no synchronisation withdraws its rule. Nothing panics, and no step leaves
      a rule behind. */
  lemma TwoRulesAfterRestart(env: Env, cfgs: seq<Config>)
    returns (run: seq<Event>, s: State, st: R.Store, run2: seq<Event>, q: State)
    requires |cfgs| == 2 && DistinctIds(cfgs) && Plain(cfgs[0]) && Plain(cfgs[1])
    requires cfgs[0].memberOf == cfgs[1].memberOf && cfgs[0].datacenter != cfgs[1].datacenter
    ensures Reaches(env, run, s) && s.groups.Keys == {cfgs[0].memberOf}
    ensures R.Saved(st) == Shutdown.PersistAll(s, s.store, [cfgs[0].memberOf])
    ensures run2 == [Register(cfgs[1])] + [Check(cfgs[1].serviceId, true, 0)]
    ensures FlaggedRules(st) == s.rules && Running(env, st, s.rules, run2, q)
    ensures UndisturbedBut(env, Restarted(st, s.rules), run2, {})
    ensures var g := cfgs[0].memberOf; var a, b := Rule(g, cfgs[0].datacenter), Rule(g, cfgs[1].datacenter);
            && g in q.groups && q.groups[g].active == Some(cfgs[1].serviceId)
            && a != b && q.rules == {a, b} && a in Synchronised(q).rules
  {
    var g, b := cfgs[0].memberOf, cfgs[1].serviceId;
    hide *;
    TwoConfigs(cfgs);
    run, s, st := FirstLife(env, cfgs, g);
    run2 := [Register(cfgs[1])] + [Check(b, true, 0)];
    q := Final(env, Restarted(st, s.rules), run2);
    SecondStored(st, s, cfgs, g);
    SecondLife(env, st, s.rules, cfgs, run2, q);
    TwoRules(cfgs[0], cfgs[1]);
  }

  lemma TwoRules(a: Config, b: Config)
    requires a.memberOf == b.memberOf && a.datacenter != b.datacenter
    ensures var r, q := Rule(a.memberOf, a.datacenter), Rule(a.memberOf, b.datacenter); r != q && {r} + {q} == {r, q}
  {
  }

  lemma SecondLife(env: Env, st: R.Store, left: set<Rule>, cfgs: seq<Config>, run: seq<Event>, q: State)
    requires |cfgs| == 2 && cfgs[0].serviceId != cfgs[1].serviceId && Plain(cfgs[1]) && Startable(st)
    requires run == [Register(cfgs[1])] + [Check(cfgs[1].serviceId, true, 0)]
    requires q == Final(env, Restarted(st, left), run) && NewService(cfgs[1], st) == Some(Made(cfgs[1]))
    requires var record := R.Lookup(st, cfgs[0].memberOf, cfgs[0].serviceId);
             && record.Some? && record.value.isActive
             && RuleOfRecord(record.value) == Rule(cfgs[0].memberOf, cfgs[0].datacenter)
    ensures Running(env, st, left, run, q) && UndisturbedBut(env, Restarted(st, left), run, {})
    ensures cfgs[1].memberOf in q.groups && q.groups[cfgs[1].memberOf].active == Some(cfgs[1].serviceId)
    ensures q.rules == left + {Rule(cfgs[1].memberOf, cfgs[1].datacenter)}
    ensures Rule(cfgs[0].memberOf, cfgs[0].datacenter) in Synchronised(q).rules
  {
    hide *;
    var g, a := cfgs[0].memberOf, cfgs[0].serviceId;
    SecondComesUpAlone(env, st, left, cfgs[1]);
    LeftoversStay(env, st, left, run, q, g, a);
    StillStartable(env, st, left, run, q);
    StartableMeans(q.store);
    SaneMeans(q.store);
    StillAsked(q, g, a, cfgs[0]);
  }

  lemma TwoConfigs(cfgs: seq<Config>)
    requires |cfgs| == 2 && DistinctIds(cfgs) && Plain(cfgs[0]) && Plain(cfgs[1])
    requires cfgs[0].memberOf == cfgs[1].memberOf
    ensures cfgs[0].serviceId != cfgs[1].serviceId
    ensures forall k :: 0 <= k < |cfgs| ==> Plain(cfgs[k]) && cfgs[k].memberOf == cfgs[0].memberOf
  {
    hide Plain;
  }

  lemma SecondStored(st: R.Store, s: State, cfgs: seq<Config>, g: string)
    requires |cfgs| == 2 && DistinctIds(cfgs) && OnlyFirstUp(s, cfgs) && Plain(cfgs[1])
    requires cfgs[0].memberOf == g == cfgs[1].memberOf
    requires forall h, x ::
               && (R.Lookup(st, h, x).Some? <==> h == g && x in IdsIn(cfgs))
               && (h == g && x in IdsIn(cfgs) ==>
                     R.Lookup(st, h, x).value == GSLBService(Obj(s, x)).(isActive := x == cfgs[0].serviceId))
    ensures NewService(cfgs[1], st) == Some(Made(cfgs[1]))
    ensures var record := R.Lookup(st, g, cfgs[0].serviceId);
            record.Some? && record.value.isActive && RuleOfRecord(record.value) == Rule(g, cfgs[0].datacenter)
  {
    FirstInterval(s, cfgs);
    ConfiguredAs(s, cfgs, 0);
    hide R.Lookup, Inv;
    assert cfgs[0].serviceId in IdsIn(cfgs) && cfgs[1].serviceId in IdsIn(cfgs);
    assert Obj(s, cfgs[1].serviceId) == Made(cfgs[1]);
    assert R.Lookup(st, g, cfgs[1].serviceId).Some?;
  }

  lemma StillAsked(q: State, g: string, a: Id, cfg: Config)
    requires R.WellStored(q.store) && R.Lookup(q.store, g, a).Some? && R.Lookup(q.store, g, a).value.isActive
    requires RuleOfRecord(R.Lookup(q.store, g, a).value) == Rule(g, cfg.datacenter)
    ensures Rule(g, cfg.datacenter) in Synchronised(q).rules
  {
    hide R.Lookup, FlaggedRules, R.WellStored;
    FlaggedMeans(q.store, Rule(g, cfg.datacenter));
  }

  /** The rule of a record that is left over flagged is asked for, and so put back or kept by every synchronisation, as
      long as no object of its service names its group. */
  lemma LeftoverIsAskedFor(env: Env, st: R.Store, left: set<Rule>, run: seq<Event>, s: State, h: string, x: Id)
    requires Running(env, st, left, run, s) && NeverNames(env, Restarted(st, left), run, h, x)
    requires R.Lookup(st, h, x).Some? && R.Lookup(st, h, x).value.isActive
    ensures RuleOfRecord(R.Lookup(st, h, x).value) in Synchronised(s).rules
  {
    hide *;
    LeftoversStay(env, st, left, run, s, h, x);
    StillStartable(env, st, left, run, s);
    StartableMeans(s.store);
    SaneMeans(s.store);
    FlaggedMeans(s.store, RuleOfRecord(R.Lookup(st, h, x).value));
    SyncMeans(s);
  }
}
