/** What else holds for a manager that was started on any store, with any rules on the servers. */
module ManagerRestartRuns {
  import opened Basics
  import opened Services
  import opened Managers
  import opened ManagerInvariants
  import opened ManagerSteps
  import opened ManagerLeaving
  import opened ManagerRuns
  import opened ManagerEffects
  import opened ManagerRules
  import opened ManagerUpdates
  import opened ManagerShadows
  import opened ManagerRestarts
  import opened ManagerRestartRules
  import G = ServiceGroups
  import H = Heaps
  import R = ServiceRepos
  import S = Schedulers

  /** A registered service is being checked. */
  lemma RestartChecks(env: Env, st: R.Store, left: set<Rule>, run: seq<Event>, s: State, id: Id)
    requires Running(env, st, left, run, s) && id in s.index
    ensures var d := s.index[id];
            && Obj(s, id).scheduledInterval == d
            && d in s.schedulers && s.schedulers[d].isRunning && !s.schedulers[d].stopped
            && exists e: H.Entry :: e in s.schedulers[d].heap && e.id == id && e.live
  {
    hide *;
    var past, t := RunningShadowed(env, st, left, run, s);
    InStepMeans(past, s, t);
    SoundChecks(t, id);
  }

  lemma SoundRecord(t: State, id: Id)
    requires Inv(t) && id in t.index
    ensures var g := Obj(t, id).memberOf;
            && R.Lookup(t.store, g, id).Some?
            && (R.Lookup(t.store, g, id).value.isActive ==> g in t.groups && t.groups[g].active == Some(id))
  {
    InvMeans(t, id);
    var g := Obj(t, id).memberOf;
    hide GroupsOk, ObjectsOk, IndexOk, StoreSane, R.Lookup, IsMember;
    assert Stored(t, g, id);
    assert FlagsOk(t, g);
  }

  /** A registered service has a record, and is the active of its group if that is flagged. */
  lemma RestartRecord(env: Env, st: R.Store, left: set<Rule>, run: seq<Event>, s: State, id: Id)
    requires Running(env, st, left, run, s) && id in s.index
    ensures var g := Obj(s, id).memberOf;
            && R.Lookup(s.store, g, id).Some?
            && (R.Lookup(s.store, g, id).value.isActive ==> g in s.groups && s.groups[g].active == Some(id))
  {
    hide *;
    var past, t := RunningShadowed(env, st, left, run, s);
    InStepMeans(past, s, t);
    assert id in s.index.Keys;
    NamedMeans(s, id);
    AgreeMeans(past, s.objs, s.store, t.store, id);
    SoundRecord(t, id);
  }

  // ---------- Panics ----------

  /** Groups, objects and configuration tell which updates panic. */
  lemma SamePanics(env: Env, s: State, t: State, n: ServiceData)
    requires t == s.(store := t.store) && Obj(s, n.id).memberOf in s.groups
    ensures SettledInterval(env, t, n) == SettledInterval(env, s, n) && Obj(t, n.id) == Obj(s, n.id)
  {
    hide G.Chosen, Exchanged;
  }

  lemma UpdatePanicsToo(env: Env, past: Past, s: State, t: State, n: ServiceData)
    requires Shadows(past, s, t) && n.id in s.index && Assignable(n)
    ensures Obj(s, n.id).memberOf in s.groups
    ensures UpdateService(env, s, n).crashed <==>
            && ConfigChanged(Obj(s, n.id), n) && Obj(s, n.id).defaultInterval != n.defaultInterval
            && SettledInterval(env, s, n) == Obj(s, n.id).defaultInterval && !S.Schedulable(n.defaultInterval)
  {
    hide *;
    ShadowsMeans(past, s, t);
    InStepMeans(past, s, t);
    assert n.id in s.index.Keys && n.id in t.index;
    UpdateInStep(env, past, s, t, n);
    InStepMeans(past, UpdateService(env, s, n), UpdateService(env, t, n));
    UpdateServiceKeeps(env, t, n);
    UpdatePanicsIff(env, t, n);
    SamePanics(env, s, t, n);
  }

  lemma NewPanicsToo(env: Env, past: Past, s: State, t: State, n: ServiceData)
    requires Shadows(past, s, t) && n.id !in s.index && n.id != "" && Assignable(n)
    ensures RegisterNew(env, s, n).crashed <==> !S.Schedulable(n.scheduledInterval)
  {
    hide *;
    ShadowsMeans(past, s, t);
    RegisterNewInStep(env, past, s, t, n);
    InStepMeans(past, RegisterNew(env, s, n), RegisterNew(env, t, n));
    if S.Schedulable(n.scheduledInterval) {
      SaneIfSchedulable(n);
      RegisterNewKeeps(env, t, n);
      InvIsAlive(RegisterNew(env, t, n));
    } else {
      RegisterNewPanics(env, t, n);
    }
  }

  lemma RegistrationPanicsToo(env: Env, past: Past, s: State, t: State, cfg: Config)
    requires Shadows(past, s, t) && Allowed(s, Register(cfg))
    ensures RegisterService(env, s, cfg).crashed <==> WouldPanic(env, s, cfg)
  {
    hide InStep, Inv, UpdateService, RegisterNew, NewService, RegisterService, Assignable, SettledInterval;
    hide S.Schedulable, ConfigChanged;
    ShadowsMeans(past, s, t);
    hide Shadows;
    InvIsAlive(t);
    RegisterServiceMeans(env, s, cfg);
    NewServiceMeans(cfg, s.store);
    match NewService(cfg, s.store)
    case None =>
    case Some(n) =>
      NewServiceInterval(cfg, s.store);
      if n.id in s.index {
        UpdatePanicsToo(env, past, s, t, n);
      } else {
        NewPanicsToo(env, past, s, t, n);
      }
  }

  lemma OthersDoNotPanic(env: Env, past: Past, s: State, t: State, e: Event)
    requires Shadows(past, s, t) && Allowed(s, e) && !e.Register? && !s.crashed
    ensures !Step(env, s, e).crashed
  {
    hide InStep, Inv, RegisterService, RemoveService, CheckResult, Tick, Agree, Named;
    ShadowsMeans(past, s, t);
    InStepMeans(past, s, t);
    hide Shadows;
    match e
    case Remove(id) =>
      RemoveInStep(env, past, s, t, id);
      InStepMeans(past, RemoveService(env, s, id), RemoveService(env, t, id));
      RemoveServiceKeeps(env, t, id);
      InvIsAlive(RemoveService(env, t, id));
    case Check(id, success, roundtrip) =>
      assert id in s.index.Keys && id in t.index;
      CheckInStep(env, past, s, t, id, success, roundtrip);
      InStepMeans(past, CheckResult(env, s, id, success, roundtrip), CheckResult(env, t, id, success, roundtrip));
      CheckKeeps(env, t, id, success, roundtrip);
      InvIsAlive(CheckResult(env, t, id, success, roundtrip));
    case Turn(d, now, gap) =>
      TickInStep(past, s, t, d, now, gap);
      InStepMeans(past, Tick(s, d, now, gap), Tick(t, d, now, gap));
      TickKeeps(t, d, now, gap);
      InvIsAlive(Tick(t, d, now, gap));
  }

  /** Whatever was stored, and whatever rules the servers held when the manager was started, a run panics exactly when
      one of its registrations meets the guard. */
  lemma {:induction false} RestartPanicsIff(env: Env, st: R.Store, left: set<Rule>, run: seq<Event>)
    requires Startable(st) && Admissible(env, Restarted(st, left), run)
    ensures Final(env, Restarted(st, left), run).crashed <==> RunWouldPanic(env, Restarted(st, left), run)
  {
    hide Startable, RegisterService, RemoveService, CheckResult, Tick, WouldPanic, Allowed;
    if run != [] {
      var before, e := Final(env, Restarted(st, left), run[..|run| - 1]), run[|run| - 1];
      RestartPanicsIff(env, st, left, run[..|run| - 1]);
      if !before.crashed {
        var past, t := RunFollows(env, st, left, run[..|run| - 1], before);
        hide Shadows;
        if e.Register? {
          RegistrationPanicsToo(env, past, before, t, e.cfg);
        } else {
          OthersDoNotPanic(env, past, before, t, e);
        }
      }
    }
  }
}
