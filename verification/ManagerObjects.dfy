/** The services manager as the mutable object it is: each method changes the fields step by step, and
    is tied to the function that specifies it. */
module ManagerObjects {
  import opened Basics
  import opened Services
  import opened Managers
  import opened ManagerInvariants
  import opened ManagerLeaving
  import opened ManagerRules
  import opened ManagerRuns
  import opened ManagerSteps
  import opened ManagerUpdates
  import G = ServiceGroups
  import R = ServiceRepos
  import S = Schedulers

  class ServicesManager {
    const env: Env
    var objs: map<Id, ServiceData>
    var scheduledServices: map<Id, Duration>
    var schedulers: map<Duration, S.Scheduler>
    var pushes: nat
    ghost var log: seq<Push>
    var serviceGroups: map<string, G.Group>
    var svcRepo: R.Store
    var rules: set<Rule>
    var crashed: bool

    ghost function State(): Managers.State
      reads this
    {
      Managers.State.State(objs, scheduledServices, schedulers, pushes, log, serviceGroups, svcRepo, rules, crashed)
    }

    constructor (env: Env)
      ensures State() == NewManager() && this.env == env
      ensures Inv(State())
    {
      this.env := env;
      objs, scheduledServices, schedulers, pushes, log := map[], map[], map[], 0, [];
      serviceGroups, svcRepo, rules, crashed := map[], map[], {}, false;
      new;
      NewManagerInv();
    }

    /** Finds or makes the scheduler of an interval, and puts the service on it. */
    method ScheduleService(interval: Duration, id: Id)
      modifies this`schedulers, this`pushes, this`log, this`crashed
      ensures State() == ScheduleOn(env, old(State()), interval, id)
    {
      var sc := S.NewScheduler(interval);
      if interval in schedulers {
        sc := schedulers[interval];
      }
      if !S.Schedulable(sc.interval) {
        crashed := true;
        return;
      }
      ghost var before := sc.heap;
      sc := S.Schedule(sc, id, pushes, env.now(pushes), env.gap(pushes));
      log := log + [Push(id, before, sc.heap)];
      schedulers := schedulers[interval := sc];
      pushes := pushes + 1;
    }

    method CleanupInterval(interval: Duration)
      modifies this`schedulers
      ensures schedulers == old(schedulers) - {interval}
    {
      schedulers := schedulers - {interval};
    }

    method MoveToInterval(id: Id, newInterval: Duration)
      modifies this`objs, this`scheduledServices, this`schedulers, this`pushes, this`log, this`crashed
      ensures State() == MoveServiceToInterval(env, old(State()), id, newInterval)
    {
      var svc := G.Get(objs, id);
      var oldInterval := svc.scheduledInterval;
      if oldInterval == newInterval {
        return;
      }
      if id in scheduledServices {
        scheduledServices := scheduledServices[id := newInterval];
        objs := objs[id := svc.(scheduledInterval := newInterval)];
      }
      if oldInterval !in schedulers {
        crashed := true;
        return;
      }
      var (oldScheduler, last) := S.Remove(schedulers[oldInterval], id);
      if last {
        CleanupInterval(oldInterval);
      } else {
        schedulers := schedulers[oldInterval := oldScheduler];
      }
      ScheduleService(newInterval, id);
    }

    method DNSUpdate(id: Id, healthy: bool)
      modifies this`rules
      ensures var rule := RuleOf(G.Get(objs, id));
              rules == if healthy then old(rules) + {rule} else old(rules) - {rule}
    {
      if healthy {
        rules := rules + {RuleOf(G.Get(objs, id))};
      } else {
        rules := rules - {RuleOf(G.Get(objs, id))};
      }
    }

    method PromotionHandler(event: G.PromotionEvent)
      modifies this
      ensures State() == HandlePromotion(env, old(State()), event)
    {
      hide MoveServiceToInterval;
      if event.newActive == event.oldActive {
        return;
      }
      if event.oldActive.Some? {
        var record := GSLBService(G.Get(objs, event.oldActive.value)).(isActive := false);
        var saved := R.Update(svcRepo, record);
        if saved.Refused? {
          return;
        }
        svcRepo := saved.store;
      }
      if event.newActive.Some? {
        var record := GSLBService(G.Get(objs, event.newActive.value)).(isActive := true);
        var saved := R.Update(svcRepo, record);
        if saved.Refused? {
          return;
        }
        svcRepo := saved.store;
      }
      ghost var flagged := State();
      Exchange(event);
      assert flagged == old(State()).(store := MoveFlag(old(State()), event).0);
    }

    /** The intervals and the announcements that go with a promotion. */
    method Exchange(event: G.PromotionEvent)
      modifies this
      ensures State() == Reschedule(env, old(State()), event)
    {
      hide MoveServiceToInterval;
      if event.oldActive.Some? && event.newActive.Some? {
        var o, n := event.oldActive.value, event.newActive.value;
        var baseInterval := G.Get(objs, o).baseInterval;
        if baseInterval == 0 {
          baseInterval := G.Get(objs, n).baseInterval;
        }
        var demotedInterval := G.Get(objs, n).scheduledInterval;
        ghost var was := State();
        MoveToInterval(o, demotedInterval);
        MoveShows(env, was, o, demotedInterval);
        DNSUpdate(o, false);
        ghost var mid := State();
        MoveToInterval(n, baseInterval);
        MoveShows(env, mid, n, baseInterval);
        DNSUpdate(n, true);
      } else if event.newActive.Some? {
        var n := event.newActive.value;
        ghost var was := State();
        var baseInterval := G.Get(objs, n).baseInterval;
        MoveToInterval(n, baseInterval);
        MoveShows(env, was, n, baseInterval);
        DNSUpdate(n, true);
      } else if event.oldActive.Some? {
        DNSUpdate(event.oldActive.value, false);
      }
    }

    /** A group method has returned: its state is written back and its event is handled. */
    method GroupReturned(g: string, o: G.Outcome)
      modifies this
      ensures State() == GroupChanged(env, old(State()), g, o)
    {
      hide HandlePromotion;
      serviceGroups := serviceGroups[g := o.group];
      crashed := crashed || o.crashed;
      if o.event.Some? && !crashed {
        PromotionHandler(o.event.value);
      }
    }

    method JoinGroup(g: string, id: Id)
      modifies this
      ensures State() == GroupChanged(env, old(State()), g,
                           G.RegisterMember(env.sort, old(objs), GroupOrNew(old(State()), g), id))
    {
      hide GroupChanged, G.RegisterMember;
      var group := G.EmptyGroup(g);
      if g in serviceGroups {
        group := serviceGroups[g];
      }
      GroupReturned(g, G.RegisterMember(env.sort, objs, group, id));
    }

    method QuitGroup(g: string, id: Id)
      modifies this
      ensures State() == LeaveGroup(env, old(State()), g, id)
    {
      hide GroupChanged, G.RemoveMember;
      if g in serviceGroups {
        GroupReturned(g, G.RemoveMember(env.sort, objs, serviceGroups[g], id));
        if g in serviceGroups && serviceGroups[g].members == [] {
          serviceGroups := serviceGroups - {g};
        }
      }
    }

    method MemberOfChanged(oldMemberOf: string, id: Id)
      modifies this
      ensures State() == ChangeGroup(env, old(State()), oldMemberOf, id)
    {
      hide GroupChanged, LeaveGroup, R.Create, R.Delete, G.RegisterMember;
      var svc := G.Get(objs, id);
      svcRepo := R.Delete(svcRepo, oldMemberOf, id);
      svcRepo := R.Create(svcRepo, GSLBService(svc));
      JoinGroup(svc.memberOf, id);
      QuitGroup(oldMemberOf, id);
    }

    method Save(id: Id)
      modifies this`svcRepo
      ensures State() == SaveRecord(old(State()), id)
    {
      hide R.Update;
      var saved := R.Update(svcRepo, GSLBService(G.Get(objs, id)));
      if saved.Saved? {
        svcRepo := saved.store;
      }
    }

    method UpdateExisting(n: ServiceData)
      modifies this
      ensures State() == UpdateService(env, old(State()), n)
    {
      hide ChangeGroup, GroupChanged, SaveRecord, MoveServiceToInterval, ConfigChanged, Assign, G.Update;
      var svc := G.Get(objs, n.id);
      if !ConfigChanged(svc, n) {
        return;
      }
      var oldDefault, oldMemberOf := svc.defaultInterval, svc.memberOf;
      objs := objs[n.id := Assign(svc, n)];
      if oldMemberOf != n.memberOf {
        MemberOfChanged(oldMemberOf, n.id);
      } else if oldMemberOf in serviceGroups {
        GroupReturned(oldMemberOf, G.Update(env.sort, objs, serviceGroups[oldMemberOf]));
      }
      Save(n.id);
      svc := G.Get(objs, n.id);
      if oldDefault != svc.defaultInterval && oldDefault == svc.scheduledInterval {
        MoveToInterval(n.id, svc.defaultInterval);
      }
    }

    method RegisterNewService(n: ServiceData)
      modifies this
      ensures State() == RegisterNew(env, old(State()), n)
    {
      hide ScheduleOn, GroupChanged, R.Create, G.RegisterMember;
      objs := objs[n.id := n];
      svcRepo := R.Create(svcRepo, GSLBService(n));
      ScheduleService(n.scheduledInterval, n.id);
      scheduledServices := scheduledServices[n.id := n.scheduledInterval];
      JoinGroup(n.memberOf, n.id);
    }

    /** The id of the service built from the configuration, if one could be built. */
    method RegisterService(cfg: Config) returns (registered: Option<Id>)
      requires Inv(State()) && Allowed(State(), Register(cfg))
      modifies this
      ensures State() == Managers.RegisterService(env, old(State()), cfg)
      ensures crashed <==> WouldPanic(env, old(State()), cfg)
      ensures !crashed ==> Inv(State())
      ensures scheduledServices.Keys
               == old(scheduledServices.Keys) + (if registered.Some? then {registered.value} else {})
      ensures registered == if cfg.addressOk && cfg.serviceId != "" then Some(cfg.serviceId) else None
    {
      RegisterServiceKeeps(env, State(), cfg);
      RegistrationPanicsIff(env, State(), cfg);
      InvIsAlive(State());
      hide Inv, UpdateService, RegisterNew, WouldPanic, RegistrationPanics;
      var n := NewService(cfg, svcRepo);
      if n.None? {
        return None;
      }
      if n.value.id in scheduledServices {
        UpdateExisting(n.value);
      } else {
        RegisterNewService(n.value);
      }
      registered := Some(n.value.id);
    }

    method Unregister(id: Id) returns (found: bool)
      modifies this
      ensures State() == Managers.RemoveService(env, old(State()), id)
      ensures found <==> id in old(scheduledServices)
    {
      hide LeaveGroup, R.Delete, S.Remove;
      if id !in scheduledServices {
        return false;
      }
      found := true;
      var interval, g := scheduledServices[id], G.Get(objs, id).memberOf;
      if interval !in schedulers || g !in serviceGroups {
        crashed := true;
        return;
      }
      schedulers := schedulers[interval := S.Remove(schedulers[interval], id).0];
      QuitGroup(g, id);
      scheduledServices := scheduledServices - {id};
      svcRepo := R.Delete(svcRepo, g, id);
    }

    /** Whether there was such a service. */
    method RemoveService(id: Id) returns (found: bool)
      requires Inv(State())
      modifies this
      ensures State() == Managers.RemoveService(env, old(State()), id)
      ensures Inv(State())
      ensures scheduledServices.Keys == old(scheduledServices.Keys) - {id}
      ensures found <==> id in old(scheduledServices)
    {
      hide Inv, Managers.RemoveService;
      RemoveServiceKeeps(env, State(), id);
      found := Unregister(id);
    }

    /** The callback a service raises when its health flips. */
    method OnHealthChange(id: Id, healthy: bool)
      modifies this
      ensures State() == HealthChanged(env, old(State()), id, healthy)
    {
      hide SaveRecord, GroupChanged, G.OnServiceHealthChange;
      Save(id);
      var g := G.Get(objs, id).memberOf;
      if g !in serviceGroups {
        crashed := true;
        return;
      }
      GroupReturned(g, G.OnServiceHealthChange(objs, serviceGroups[g], id, healthy));
    }

    method Checked(id: Id, success: bool, roundtrip: Duration)
      modifies this
      ensures State() == CheckResult(env, old(State()), id, success, roundtrip)
    {
      hide HealthChanged, OnResult;
      var c := OnResult(G.Get(objs, id).(roundtrip := roundtrip), success);
      objs := objs[id := c.service];
      if c.callback.Some? {
        OnHealthChange(id, c.callback.value);
      }
    }

    method CheckCompleted(id: Id, success: bool, roundtrip: Duration)
      requires Inv(State()) && id in scheduledServices
      modifies this
      ensures State() == CheckResult(env, old(State()), id, success, roundtrip)
      ensures Inv(State()) && scheduledServices.Keys == old(scheduledServices.Keys)
    {
      hide Inv, CheckResult;
      CheckKeeps(env, State(), id, success, roundtrip);
      CheckKeepsKeys(env, State(), id, success, roundtrip);
      Checked(id, success, roundtrip);
    }

    /** One turn of the loop of the scheduler at an interval, if there is one. */
    method SchedulerTurn(interval: Duration, now: int, gap: Duration)
      requires Inv(State())
      modifies this`schedulers
      ensures State() == Tick(old(State()), interval, now, gap)
      ensures Inv(State())
    {
      hide Inv, S.Iterate;
      TickKeeps(State(), interval, now, gap);
      if interval in schedulers {
        schedulers := schedulers[interval := S.Iterate(schedulers[interval], now, gap)];
      }
    }
  }
}
