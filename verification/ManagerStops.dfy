/** Whether the manager checks nothing but what is registered, and when a removal does not stop the checks. */
module ManagerStops {
  import opened Basics
  import opened Services
  import opened Managers
  import opened ManagerInvariants
  import opened ManagerPromotions
  import opened ManagerSteps
  import opened ManagerLeaving
  import opened ManagerRuns
  import opened ManagerEntries
  import G = ServiceGroups
  import H = Heaps
  import R = ServiceRepos
  import S = Schedulers

  /** Nothing is being checked but registered services, and they only at the interval they are indexed at. */
  ghost predicate OnlyRegistered(s: State) {
    forall d, x :: Scheduled(s, d, x) ==> x in s.index && s.index[x] == d
  }

  /** Objects are kept under their ids, and the index agrees with them. */
  ghost predicate Agreed(s: State) {
    && (forall x :: x in s.objs ==> s.objs[x].id == x && x != "")
    && forall x :: x in s.index ==> x in s.objs && s.objs[x].scheduledInterval == s.index[x]
  }

  ghost predicate Backed(s: State) {
    StoreSane(s) && StoredAreIndexed(s)
  }

  ghost predicate Tidy(s: State) {
    Agreed(s) && Backed(s) && OnlyRegistered(s)
  }

  /** What every operation keeps as long as no service returns early. */
  ghost predicate KeepsTidy(s: State, t: State) {
    KeepsNeat(s, t) && (Neat(s) && NoEarlyReturns(t.log) && Tidy(s) ==> Tidy(t))
  }

  lemma BothTidy(s: State, t: State, u: State)
    requires KeepsTidy(s, t) && KeepsTidy(t, u)
    ensures KeepsTidy(s, u)
  {
    KeepsBoth(s, t, u);
    if NoEarlyReturns(u.log) {
      assert NoEarlyReturns(t.log);
    }
    hide Neat, Tidy;
  }

  // ---------- Schedulers ----------

  /** A service with one entry is no longer checked once that has been removed. */
  lemma RemovedIsDead(sc: S.Scheduler, id: Id)
    requires S.WellFormed(sc) && S.OneEntryEach(sc.heap)
    ensures !S.HasLive(S.Remove(sc, id).0.heap, id)
  {
    S.RemoveTakesOut(sc, id);
    S.OneEntryByCount(sc.heap);
    hide S.WellFormed, S.OneEntryEach, S.Remove;
    var i, r := H.IndexOfService(sc.heap, id), S.Remove(sc, id).0.heap;
    forall e: H.Entry | e in multiset(r) && e.id == id ensures !e.live {
      assert e in multiset(sc.heap) ==> e in sc.heap;
      assert i != -1 ==> sc.heap[i] in multiset(sc.heap);
    }
  }

  ghost predicate AllWellFormed(s: State) {
    forall d :: d in s.schedulers ==> S.WellFormed(s.schedulers[d])
  }

  /** Scheduling, and taking off the schedule, is no concern of other services. */
  lemma ScheduleOnLive(env: Env, s: State, d: Duration, id: Id)
    requires AllWellFormed(s)
    ensures var t := ScheduleOn(env, s, d, id);
            && AllWellFormed(t)
            && (forall e, x :: x != id || e != d ==> (Scheduled(t, e, x) <==> Scheduled(s, e, x)))
            && (!t.crashed ==> Scheduled(t, d, id))
            && t == s.(schedulers := t.schedulers, pushes := t.pushes, log := t.log, crashed := t.crashed)
  {
    var sc := if d in s.schedulers then s.schedulers[d] else S.NewScheduler(d);
    var t := ScheduleOn(env, s, d, id);
    if S.Schedulable(sc.interval) {
      var sc' := S.Schedule(sc, id, s.pushes, env.now(s.pushes), env.gap(s.pushes));
      S.NewIsWellFormed(sc.interval);
      S.ScheduleMakesLive(sc, id, s.pushes, env.now(s.pushes), env.gap(s.pushes));
      NothingIn(d);
      assert t.schedulers == s.schedulers[d := sc'];
      hide *;
      ScheduledLive(s, t, d, sc, sc', id);
    }
  }

  lemma ScheduledLive(s: State, t: State, d: Duration, sc: S.Scheduler, sc': S.Scheduler, id: Id)
    requires AllWellFormed(s) && t.schedulers == s.schedulers[d := sc'] && S.WellFormed(sc')
    requires if d in s.schedulers then sc == s.schedulers[d] else forall x :: !S.HasLive(sc.heap, x)
    requires S.HasLive(sc'.heap, id) && forall x :: x != id ==> (S.HasLive(sc'.heap, x) <==> S.HasLive(sc.heap, x))
    ensures AllWellFormed(t) && Scheduled(t, d, id)
    ensures forall e, x :: x != id || e != d ==> (Scheduled(t, e, x) <==> Scheduled(s, e, x))
  {
    hide S.WellFormed, S.HasLive;
  }

  lemma NothingIn(d: Duration)
    ensures S.NewScheduler(d).interval == d && forall x :: !S.HasLive(S.NewScheduler(d).heap, x)
  {
  }

  lemma TakenOffLive(s: State, t: State, d: Duration, id: Id)
    requires AllWellFormed(s) && d in s.schedulers
    requires var (sc, last) := S.Remove(s.schedulers[d], id);
             || t.schedulers == s.schedulers[d := sc]
             || (last && t.schedulers == s.schedulers - {d})
    ensures AllWellFormed(t)
    ensures forall e, x :: x != id || e != d ==> (Scheduled(t, e, x) <==> Scheduled(s, e, x))
    ensures S.OneEntryEach(s.schedulers[d].heap) ==> !Scheduled(t, d, id)
  {
    S.RemoveSparesOthers(s.schedulers[d], id);
    if S.OneEntryEach(s.schedulers[d].heap) {
      RemovedIsDead(s.schedulers[d], id);
    }
    hide S.WellFormed, S.HasLive, S.Remove, S.OneEntryEach;
  }

  /** Moving one service leaves the others where they are. */
  lemma MoveLive(env: Env, s: State, id: Id, d: Duration)
    requires AllWellFormed(s)
    ensures var t, old' := MoveServiceToInterval(env, s, id, d), Obj(s, id).scheduledInterval;
            && AllWellFormed(t)
            && (forall e, x :: x != id ==> (Scheduled(t, e, x) <==> Scheduled(s, e, x)))
            && (old' == d ==> t == s)
            && (old' != d && !t.crashed ==> Scheduled(t, d, id))
  {
    hide AllWellFormed, Scheduled, S.Remove, ScheduleOn;
    var old' := Obj(s, id).scheduledInterval;
    if old' != d {
      var s1 := if id in s.index
                then s.(index := s.index[id := d], objs := s.objs[id := Obj(s, id).(scheduledInterval := d)])
                else s;
      SameSchedules(s, s1);
      SameSchedules(s, s1.(crashed := true));
      if old' in s.schedulers {
        var (sc, last) := S.Remove(s.schedulers[old'], id);
        var s2 := s1.(schedulers := if last then s.schedulers - {old'} else s.schedulers[old' := sc]);
        TakenOffLive(s, s2, old', id);
        ScheduleOnLive(env, s2, d, id);
      }
    }
  }

  lemma SameSchedules(s: State, t: State)
    requires t.schedulers == s.schedulers
    ensures forall e, x :: Scheduled(t, e, x) <==> Scheduled(s, e, x)
    ensures AllWellFormed(t) <==> AllWellFormed(s)
  {
  }

  lemma NeatParts(s: State)
    requires Neat(s)
    ensures AllWellFormed(s)
    ensures NoEarlyReturns(s.log) ==> forall d :: d in s.schedulers ==> S.OneEntryEach(s.schedulers[d].heap)
  {
  }

  // ---------- Promotions ----------

  lemma ScheduleOnTidy(env: Env, s: State, d: Duration, id: Id)
    requires id in s.index && s.index[id] == d
    ensures KeepsTidy(s, ScheduleOn(env, s, d, id))
  {
    var t := ScheduleOn(env, s, d, id);
    ScheduleOnNeat(env, s, d, id);
    if Neat(s) && Tidy(s) {
      NeatParts(s);
      ScheduleOnLive(env, s, d, id);
      hide ScheduleOn, Neat, Scheduled, OnlyRegistered, Agreed, Backed, AllWellFormed, KeepsNeat, NoEarlyReturns;
      AgreedBacked(s, t);
      OneMoreChecked(s, t, id, d);
    }
  }

  lemma AgreedBacked(s: State, t: State)
    requires t.objs == s.objs && t.index == s.index && t.store == s.store
    ensures Agreed(t) <==> Agreed(s)
    ensures Backed(t) <==> Backed(s)
  {
    SameStoreFrame(s, t);
    hide Stored;
  }

  lemma SameTidy(s: State, t: State)
    requires t.objs == s.objs && t.index == s.index && t.store == s.store
    requires t.schedulers == s.schedulers && t.log == s.log
    ensures KeepsTidy(s, t)
  {
    Untouched(s, t);
    SameSchedules(s, t);
    AgreedBacked(s, t);
    hide Agreed, Backed, Scheduled, KeepsNeat;
  }

  lemma MoveTidy(env: Env, s: State, id: Id, d: Duration)
    requires id in s.index
    ensures KeepsTidy(s, MoveServiceToInterval(env, s, id, d))
  {
    var t, old' := MoveServiceToInterval(env, s, id, d), Obj(s, id).scheduledInterval;
    MoveNeat(env, s, id, d);
    if Neat(s) && NoEarlyReturns(t.log) && Tidy(s) && old' != d {
      assert NoEarlyReturns(s.log);
      NeatParts(s);
      var s1 := s.(index := s.index[id := d], objs := s.objs[id := Obj(s, id).(scheduledInterval := d)]);
      Reindexed(s, s1, id, d);
      if old' !in s.schedulers {
        hide Scheduled, Neat, Backed, Agreed, NoEarlyReturns, S.OneEntryEach;
        SameSchedules(s, t);
        AgreedBacked(s1, t);
        NotThere(s, old');
        OnlyRegisteredThen(s, t, id, d, old');
      } else {
        var (sc, last) := S.Remove(s.schedulers[old'], id);
        var s2 := s1.(schedulers := if last then s.schedulers - {old'} else s.schedulers[old' := sc]);
        assert t == ScheduleOn(env, s2, d, id) by {
          hide S.Remove, ScheduleOn;
        }
        TakenOffLive(s, s2, old', id);
        hide *;
        MovedTidy(env, s, s1, s2, id, d);
      }
    }
  }

  lemma OneMoreChecked(s: State, t: State, id: Id, d: Duration)
    requires OnlyRegistered(s) && id in s.index && s.index[id] == d && t.index == s.index
    requires forall e, x :: x != id || e != d ==> (Scheduled(t, e, x) <==> Scheduled(s, e, x))
    ensures OnlyRegistered(t)
  {
    hide Scheduled;
  }

  lemma MovedTidy(env: Env, s: State, s1: State, s2: State, id: Id, d: Duration)
    requires OnlyRegistered(s) && id in s.index && Agreed(s1) && Backed(s1) && AllWellFormed(s2)
    requires s1.index == s.index[id := d] && s2 == s1.(schedulers := s2.schedulers) && !Scheduled(s2, s.index[id], id)
    requires forall e, x :: x != id || e != s.index[id] ==> (Scheduled(s2, e, x) <==> Scheduled(s, e, x))
    ensures Tidy(ScheduleOn(env, s2, d, id))
  {
    hide Scheduled, ScheduleOn, Backed, Agreed, OnlyRegistered, AllWellFormed;
    OnlyRegisteredThen(s, s2, id, d, s.index[id]);
    AgreedBacked(s1, s2);
    ScheduleOnLive(env, s2, d, id);
    var t := ScheduleOn(env, s2, d, id);
    AgreedBacked(s2, t);
    OneMoreChecked(s2, t, id, d);
  }

  lemma NotThere(s: State, d: Duration)
    requires d !in s.schedulers
    ensures forall x :: !Scheduled(s, d, x)
  {
  }

  lemma Reindexed(s: State, t: State, id: Id, d: Duration)
    requires Agreed(s) && Backed(s) && id in s.index
    requires t == s.(index := s.index[id := d], objs := s.objs[id := Obj(s, id).(scheduledInterval := d)])
    ensures Agreed(t) && Backed(t) && Obj(s, id).scheduledInterval == s.index[id]
  {
    SameStoreFrame(s, t);
    hide Stored;
  }

  lemma OnlyRegisteredThen(s: State, t: State, id: Id, d: Duration, was: Duration)
    requires OnlyRegistered(s) && id in s.index && s.index[id] == was && t.index == s.index[id := d]
    requires forall e, x :: x != id || e != was ==> (Scheduled(t, e, x) <==> Scheduled(s, e, x))
    requires !Scheduled(t, was, id)
    ensures OnlyRegistered(t)
  {
    hide Scheduled;
  }

  lemma ExchangeTidy(env: Env, s: State, id: Id, d: Duration)
    requires id in s.index
    ensures KeepsTidy(s, Demote(env, s, id, d)) && KeepsTidy(s, Promote(env, s, id, d))
    ensures Demote(env, s, id, d).index.Keys == s.index.Keys
  {
    var t := MoveServiceToInterval(env, s, id, d);
    MoveTidy(env, s, id, d);
    MovedKeys(env, s, id, d);
    hide MoveServiceToInterval, KeepsTidy;
    SameTidy(t, Demote(env, s, id, d));
    SameTidy(t, Promote(env, s, id, d));
    BothTidy(s, t, Demote(env, s, id, d));
    BothTidy(s, t, Promote(env, s, id, d));
  }

  lemma MovedKeys(env: Env, s: State, id: Id, d: Duration)
    requires id in s.index
    ensures MoveServiceToInterval(env, s, id, d).index.Keys == s.index.Keys
  {
    hide S.Remove, S.Schedule;
  }

  lemma RescheduleTidy(env: Env, s: State, e: G.PromotionEvent)
    requires e.oldActive.Some? ==> e.oldActive.value in s.index
    requires e.newActive.Some? ==> e.newActive.value in s.index
    ensures KeepsTidy(s, Reschedule(env, s, e))
  {
    hide Demote, Promote, KeepsTidy;
    if e.newActive.Some? {
      var n := e.newActive.value;
      if e.oldActive.Some? {
        var o := e.oldActive.value;
        var base := if Obj(s, o).baseInterval == 0 then Obj(s, n).baseInterval else Obj(s, o).baseInterval;
        var t := Demote(env, s, o, Obj(s, n).scheduledInterval);
        ExchangeTidy(env, s, o, Obj(s, n).scheduledInterval);
        assert n in t.index.Keys;
        ExchangeTidy(env, t, n, base);
        BothTidy(s, t, Promote(env, t, n, base));
      } else {
        ExchangeTidy(env, s, n, Obj(s, n).baseInterval);
      }
    } else {
      SameTidy(s, Reschedule(env, s, e));
    }
  }

  /** A record that can be rewritten is that of a registered service. */
  lemma SavedIsRegistered(s: State, id: Id, active: bool)
    requires Agreed(s) && Backed(s) && SaveActive(s.store, Obj(s, id), active).Saved?
    ensures id in s.index
    ensures Backed(s.(store := SaveActive(s.store, Obj(s, id), active).store))
  {
    var n := GSLBService(Obj(s, id)).(isActive := active);
    R.UpdateRefines(s.store, n);
    var t := s.(store := SaveActive(s.store, Obj(s, id), active).store);
    hide R.Update, R.Lookup, R.WellStored, R.NoOverrides;
    assert Stored(s, n.memberOf, n.id);
    forall h, x | Stored(t, h, x) ensures x in t.index {
      assert Stored(s, h, x) || (h == n.memberOf && x == n.id);
    }
  }

  lemma MoveFlagTidy(s: State, e: G.PromotionEvent)
    requires Agreed(s) && Backed(s)
    ensures var (st, goesOn) := MoveFlag(s, e);
            && Backed(s.(store := st))
            && (goesOn ==> (e.oldActive.Some? ==> e.oldActive.value in s.index)
                           && (e.newActive.Some? ==> e.newActive.value in s.index))
  {
    hide SaveActive, Backed;
    var st1 := if e.oldActive.Some? then SaveActive(s.store, Obj(s, e.oldActive.value), false) else R.Saved(s.store);
    assert s.(store := s.store) == s;
    if st1.Saved? {
      var s1 := s.(store := st1.store);
      if e.oldActive.Some? {
        SavedIsRegistered(s, e.oldActive.value, false);
      }
      if e.newActive.Some? && SaveActive(st1.store, Obj(s, e.newActive.value), true).Saved? {
        SavedIsRegistered(s1, e.newActive.value, true);
        assert s1.(store := SaveActive(st1.store, Obj(s, e.newActive.value), true).store)
            == s.(store := SaveActive(st1.store, Obj(s, e.newActive.value), true).store);
      }
    }
  }

  lemma RestoredTidy(s: State, t: State)
    requires t == s.(store := t.store) && (Agreed(s) && Backed(s) ==> Backed(t))
    ensures KeepsTidy(s, t)
  {
    Untouched(s, t);
    SameSchedules(s, t);
    hide Backed, Scheduled, KeepsNeat;
  }

  lemma GroupChangedTidy(env: Env, s: State, g: string, o: G.Outcome)
    ensures KeepsTidy(s, GroupChanged(env, s, g, o))
  {
    var s1 := s.(groups := s.groups[g := o.group], crashed := s.crashed || o.crashed);
    SameTidy(s, s1);
    GroupChangedNeat(env, s, g, o);
    if o.event.Some? && !s1.crashed && o.event.value.newActive != o.event.value.oldActive {
      var e := o.event.value;
      if Neat(s) && Tidy(s) {
        Untouched(s, s1);
        AgreedBacked(s, s1);
        MoveFlagTidy(s1, e);
        var (st, goesOn) := MoveFlag(s1, e);
        var s2 := s1.(store := st);
        hide Neat, Tidy, KeepsNeat, MoveFlag, Reschedule, Backed, Agreed;
        RestoredTidy(s1, s2);
        BothTidy(s, s1, s2);
        if goesOn {
          RescheduleTidy(env, s2, e);
          BothTidy(s, s2, Reschedule(env, s2, e));
        }
      }
    }
  }

  lemma LeaveGroupTidy(env: Env, s: State, g: string, id: Id)
    ensures KeepsTidy(s, LeaveGroup(env, s, g, id))
  {
    hide GroupChanged, KeepsTidy, G.RemoveMember;
    if g in s.groups {
      var o := G.RemoveMember(env.sort, s.objs, s.groups[g], id);
      var t := GroupChanged(env, s, g, o);
      GroupChangedTidy(env, s, g, o);
      SameTidy(t, LeaveGroup(env, s, g, id));
      BothTidy(s, t, LeaveGroup(env, s, g, id));
    } else {
      SameTidy(s, s);
    }
  }

  // ---------- Steps ----------

  lemma SaveRecordTidy(s: State, id: Id)
    ensures KeepsTidy(s, SaveRecord(s, id))
  {
    var t := SaveRecord(s, id);
    assert GSLBService(Obj(s, id)).(isActive := false) == GSLBService(Obj(s, id));
    if Agreed(s) && Backed(s) && SaveActive(s.store, Obj(s, id), false).Saved? {
      SavedIsRegistered(s, id, false);
    }
    hide R.Update, Backed;
    RestoredTidy(s, t);
  }

  /** One object changes, but neither its id nor its schedule. */
  lemma ObjectTidy(s: State, t: State, id: Id)
    requires t == s.(objs := t.objs) && id in t.objs && t.objs == s.objs[id := t.objs[id]]
    requires id in s.index
    requires id in s.objs ==> t.objs[id].id == s.objs[id].id
                              && t.objs[id].scheduledInterval == s.objs[id].scheduledInterval
    ensures KeepsTidy(s, t)
  {
    Untouched(s, t);
    SameSchedules(s, t);
    SameStoreFrame(s, t);
    hide Scheduled, KeepsNeat, Stored;
  }

  lemma RestoreMember(s: State, g: string, id: Id)
    requires Agreed(s) && Backed(s) && id in s.index
    ensures Backed(s.(store := R.Create(R.Delete(s.store, g, id), GSLBService(Obj(s, id)))))
  {
    var n := GSLBService(Obj(s, id));
    R.DeleteRefines(s.store, g, id);
    var s1 := s.(store := R.Delete(s.store, g, id));
    R.CreateRefines(s1.store, n);
    var t := s.(store := R.Create(s1.store, n));
    hide R.Create, R.Delete, R.Lookup, R.WellStored, R.NoOverrides;
    forall h, x | Stored(t, h, x) ensures x in t.index {
      assert x == id || Stored(s1, h, x);
      assert x == id || Stored(s, h, x);
    }
  }

  lemma ChangeGroupTidy(env: Env, s: State, g: string, id: Id)
    requires id in s.index
    ensures KeepsTidy(s, ChangeGroup(env, s, g, id))
  {
    var d := Obj(s, id);
    var s1 := s.(store := R.Create(R.Delete(s.store, g, id), GSLBService(d)));
    if Agreed(s) && Backed(s) {
      RestoreMember(s, g, id);
    }
    hide GroupChanged, LeaveGroup, KeepsTidy, G.RegisterMember, R.Create, R.Delete, Agreed, Backed;
    var o := G.RegisterMember(env.sort, s1.objs, GroupOrNew(s1, d.memberOf), id);
    var s2 := GroupChanged(env, s1, d.memberOf, o);
    RestoredTidy(s, s1);
    GroupChangedTidy(env, s1, d.memberOf, o);
    LeaveGroupTidy(env, s2, g, id);
    BothTidy(s, s1, s2);
    BothTidy(s, s2, LeaveGroup(env, s2, g, id));
  }

  lemma RegroupedTidy(env: Env, s: State, n: ServiceData)
    requires n.id in s.index
    ensures KeepsTidy(s, Regrouped(env, s, n))
  {
    var old' := Obj(s, n.id);
    var s1 := s.(objs := s.objs[n.id := Assign(old', n)]);
    ObjectTidy(s, s1, n.id);
    hide ChangeGroup, GroupChanged, KeepsTidy, G.Update, SaveRecord, Assign;
    var s2 := if old'.memberOf != n.memberOf then ChangeGroup(env, s1, old'.memberOf, n.id)
              else RefreshGroup(env, s1, old'.memberOf);
    if old'.memberOf != n.memberOf {
      ChangeGroupTidy(env, s1, old'.memberOf, n.id);
    } else if old'.memberOf in s1.groups {
      GroupChangedTidy(env, s1, old'.memberOf, G.Update(env.sort, s1.objs, s1.groups[old'.memberOf]));
    } else {
      SameTidy(s1, s1);
    }
    SaveRecordTidy(s2, n.id);
    BothTidy(s, s1, s2);
    BothTidy(s, s2, SaveRecord(s2, n.id));
  }

  lemma UpdateTidy(env: Env, s: State, n: ServiceData)
    requires Inv(s) && n.id in s.index && Assignable(n)
    ensures KeepsTidy(s, UpdateService(env, s, n))
  {
    var u := Regrouped(env, s, n);
    assert n.id in u.index.Keys by {
      hide Regrouped;
      RegroupedKeeps(env, s, n);
    }
    var f := MoveServiceToInterval(env, u, n.id, Obj(u, n.id).defaultInterval);
    var t := UpdateService(env, s, n);
    assert t == s || t == u || t == f by {
      hide Regrouped, MoveServiceToInterval, ConfigChanged, Inv, Assignable;
    }
    hide *;
    SameTidy(s, s);
    RegroupedTidy(env, s, n);
    MoveTidy(env, u, n.id, Obj(u, n.id).defaultInterval);
    BothTidy(s, u, f);
  }

  /** A first registration, as if the service were indexed before it is scheduled. */
  lemma RegisterNewTidy(env: Env, s: State, n: ServiceData)
    requires n.id !in s.index && n.id != ""
    ensures KeepsTidy(s, RegisterNew(env, s, n))
  {
    var s1 := s.(objs := s.objs[n.id := n], store := R.Create(s.store, GSLBService(n)),
                 index := s.index[n.id := n.scheduledInterval]);
    var s3 := ScheduleOn(env, s1, n.scheduledInterval, n.id);
    var o := G.RegisterMember(env.sort, s3.objs, GroupOrNew(s3, n.memberOf), n.id);
    assert RegisterNew(env, s, n) == GroupChanged(env, s3, n.memberOf, o) by {
      var s0 := s.(objs := s.objs[n.id := n], store := R.Create(s.store, GSLBService(n)));
      IndexedBefore(env, s0, n.scheduledInterval, n.id);
      hide GroupChanged, G.RegisterMember, ScheduleOn, R.Create;
    }
    hide *;
    FirstTidy(s, s1, n);
    ScheduleOnTidy(env, s1, n.scheduledInterval, n.id);
    GroupChangedTidy(env, s3, n.memberOf, o);
    BothTidy(s, s1, s3);
    BothTidy(s, s3, GroupChanged(env, s3, n.memberOf, o));
  }

  lemma IndexedBefore(env: Env, s: State, d: Duration, id: Id)
    ensures var t := ScheduleOn(env, s, d, id);
            && ScheduleOn(env, s.(index := s.index[id := d]), d, id) == t.(index := s.index[id := d])
            && t.objs == s.objs && t.index == s.index
  {
    var r := s.(index := s.index[id := d]);
    assert r.schedulers == s.schedulers && r.pushes == s.pushes && r.log == s.log;
    var t, u := ScheduleOn(env, s, d, id), ScheduleOn(env, r, d, id);
    hide S.Schedule, S.NewScheduler, S.Schedulable;
    assert t == s.(schedulers := t.schedulers, pushes := t.pushes, log := t.log, crashed := t.crashed);
    assert u == r.(schedulers := u.schedulers, pushes := u.pushes, log := u.log, crashed := u.crashed);
    assert u.schedulers == t.schedulers && u.pushes == t.pushes && u.log == t.log && u.crashed == t.crashed;
  }

  lemma FirstTidy(s: State, t: State, n: ServiceData)
    requires n.id !in s.index && n.id != ""
    requires t == s.(objs := s.objs[n.id := n], store := R.Create(s.store, GSLBService(n)),
                     index := s.index[n.id := n.scheduledInterval])
    ensures KeepsTidy(s, t)
  {
    Untouched(s, t);
    SameSchedules(s, t);
    hide KeepsNeat, Scheduled;
    if Tidy(s) {
      R.CreateRefines(s.store, GSLBService(n));
      hide R.Create, R.Lookup, R.WellStored, R.NoOverrides;
      forall h, x | Stored(t, h, x) ensures x in t.index {
        assert x == n.id || Stored(s, h, x);
      }
    }
  }

  lemma RegisterTidy(env: Env, s: State, cfg: Config)
    requires Inv(s) && Allowed(s, Register(cfg))
    ensures KeepsTidy(s, RegisterService(env, s, cfg))
  {
    NewServiceMeans(cfg, s.store);
    SameTidy(s, s);
    hide Inv, NewService, RegisterNew, UpdateService, KeepsTidy, Assignable;
    match NewService(cfg, s.store)
    case None =>
    case Some(n) =>
      if n.id in s.index {
        UpdateTidy(env, s, n);
      } else {
        RegisterNewTidy(env, s, n);
      }
  }

  lemma CheckTidy(env: Env, s: State, id: Id, success: bool, roundtrip: Duration)
    requires id in s.index
    ensures KeepsTidy(s, CheckResult(env, s, id, success, roundtrip))
  {
    var d := Obj(s, id).(roundtrip := roundtrip);
    var c := OnResult(d, success);
    var s1 := s.(objs := s.objs[id := c.service]);
    CheckedMeans(d, success);
    ObjectTidy(s, s1, id);
    hide GroupChanged, SaveRecord, OnResult, KeepsTidy, G.OnServiceHealthChange;
    if c.callback.Some? {
      var s2, g := SaveRecord(s1, id), Obj(s1, id).memberOf;
      SaveRecordTidy(s1, id);
      BothTidy(s, s1, s2);
      if g in s2.groups {
        var o := G.OnServiceHealthChange(s2.objs, s2.groups[g], id, c.callback.value);
        GroupChangedTidy(env, s2, g, o);
        BothTidy(s, s2, GroupChanged(env, s2, g, o));
      } else {
        SameTidy(s2, s2.(crashed := true));
        BothTidy(s, s2, s2.(crashed := true));
      }
    }
  }

  lemma TickTidy(s: State, d: Duration, now: int, gap: Duration)
    ensures KeepsTidy(s, Tick(s, d, now, gap))
  {
    var t := Tick(s, d, now, gap);
    TickNeat(s, d, now, gap);
    assert t.objs == s.objs && t.index == s.index && t.store == s.store by {
      hide S.Iterate;
    }
    AgreedBacked(s, t);
    if Neat(s) {
      NeatParts(s);
      TickChecks(s, d, now, gap);
      hide Tick, Scheduled, Neat, KeepsNeat, Agreed, Backed, NoEarlyReturns;
    }
  }

  lemma TickChecks(s: State, d: Duration, now: int, gap: Duration)
    requires AllWellFormed(s)
    ensures forall e, x :: Scheduled(Tick(s, d, now, gap), e, x) <==> Scheduled(s, e, x)
  {
    hide S.Iterate, S.HasLive, S.WellFormed;
    forall e, x ensures Scheduled(Tick(s, d, now, gap), e, x) <==> Scheduled(s, e, x) {
      if d in s.schedulers {
        S.IterateKeepsLive(s.schedulers[d], now, gap, x);
      }
    }
  }

  // ---------- Removals ----------

  /** Some scheduler holds a live entry of the service. */
  ghost predicate IsChecked(s: State, id: Id) {
    exists d :: Scheduled(s, d, id)
  }

  /** The service is the active of a group of three or more that has an heir, and the heir is scheduled at another
      interval. */
  predicate StaysScheduled(env: Env, s: State, id: Id) {
    && id in s.index && Obj(s, id).memberOf in s.groups
    && var grp := s.groups[Obj(s, id).memberOf];
       && |grp.members| > 2 && grp.active == Some(id) && id in grp.members
       && var heir := G.Chosen(env.sort, s.objs, G.Without(grp.members, id));
          heir.Some? && Obj(s, heir.value).scheduledInterval != Obj(s, id).scheduledInterval
  }

  lemma MoveChecks(env: Env, s: State, id: Id, d: Duration, x: Id)
    requires AllWellFormed(s)
    ensures var t := MoveServiceToInterval(env, s, id, d);
            && AllWellFormed(t) && (s.crashed ==> t.crashed)
            && (x != id ==> (IsChecked(t, x) <==> IsChecked(s, x)))
            && (!t.crashed ==> (IsChecked(t, id) <==> IsChecked(s, id) || Obj(s, id).scheduledInterval != d))
            && (x != id ==> Obj(t, x) == Obj(s, x))
  {
    MoveLive(env, s, id, d);
    MoveOthers(env, s, id, d, x);
    hide AllWellFormed, Scheduled, MoveServiceToInterval;
  }

  lemma MoveOthers(env: Env, s: State, id: Id, d: Duration, x: Id)
    ensures var t := MoveServiceToInterval(env, s, id, d);
            (s.crashed ==> t.crashed) && (x != id ==> Obj(t, x) == Obj(s, x))
  {
    hide S.Remove, S.Schedule, S.Schedulable;
  }

  lemma ExchangeChecks(env: Env, s: State, id: Id, d: Duration, x: Id)
    requires AllWellFormed(s)
    ensures forall t :: t == Demote(env, s, id, d) || t == Promote(env, s, id, d) ==>
              && AllWellFormed(t) && (s.crashed ==> t.crashed)
              && (x != id ==> (IsChecked(t, x) <==> IsChecked(s, x)))
              && (!t.crashed ==> (IsChecked(t, id) <==> IsChecked(s, id) || Obj(s, id).scheduledInterval != d))
  {
    MoveChecks(env, s, id, d, x);
    var t := MoveServiceToInterval(env, s, id, d);
    hide MoveServiceToInterval;
    SameSchedules(t, Demote(env, s, id, d));
    SameSchedules(t, Promote(env, s, id, d));
    hide AllWellFormed, Scheduled;
  }

  /** A promotion puts the service that it demotes back on a schedule, unless it keeps its interval. */
  lemma RescheduleChecks(env: Env, s: State, e: G.PromotionEvent, id: Id)
    requires AllWellFormed(s) && !Reschedule(env, s, e).crashed && e.newActive != Some(id)
    ensures IsChecked(Reschedule(env, s, e), id) <==>
            || IsChecked(s, id)
            || (e.oldActive == Some(id) && e.newActive.Some?
                && Obj(s, e.newActive.value).scheduledInterval != Obj(s, id).scheduledInterval)
  {
    hide Demote, Promote, AllWellFormed, IsChecked;
    if e.newActive.Some? {
      var n := e.newActive.value;
      if e.oldActive.Some? {
        var o := e.oldActive.value;
        var base := if Obj(s, o).baseInterval == 0 then Obj(s, n).baseInterval else Obj(s, o).baseInterval;
        var t := Demote(env, s, o, Obj(s, n).scheduledInterval);
        ExchangeChecks(env, s, o, Obj(s, n).scheduledInterval, id);
        ExchangeChecks(env, t, n, base, id);
      } else {
        ExchangeChecks(env, s, n, Obj(s, n).baseInterval, id);
      }
    } else {
      SameChecks(s, Reschedule(env, s, e), id);
    }
  }

  lemma SameChecks(s: State, t: State, id: Id)
    requires t.schedulers == s.schedulers
    ensures IsChecked(t, id) <==> IsChecked(s, id)
  {
    SameSchedules(s, t);
    hide Scheduled;
  }

  /** The event that a departure raises. */
  lemma LeaveEvent(sort: G.Sorter, w: G.World, g: G.Group, id: Id)
    requires id in g.members && g.mode != G.ActiveActiveRoundTrip
    ensures var heir := G.Chosen(sort, w, G.Without(g.members, id));
            G.RemoveMember(sort, w, g, id).event
              == if |g.members| <= 2 || heir == g.active then None
                 else Some(G.PromotionEvent(g.name, heir, g.active))
    ensures var heir := G.Chosen(sort, w, G.Without(g.members, id));
            heir.Some? ==> heir.value in G.Without(g.members, id)
  {
    var rest := G.Without(g.members, id);
    assert |rest| == |g.members| - 1;
    if rest != [] {
      G.UpdateChooses(sort, w, g.(members := rest));
    }
    SortKeeps(sort, w, rest);
  }

  lemma SortKeeps(sort: G.Sorter, w: G.World, ms: seq<Id>)
    ensures forall m :: m in sort(w, ms) <==> m in ms
  {
    assert G.SortedMembers(w, ms, sort(w, ms));
    Rearranged(ms, sort(w, ms));
  }

  lemma GroupChecks(env: Env, s: State, g: string, o: G.Outcome, id: Id)
    requires AllWellFormed(s) && !s.crashed && !o.crashed && !GroupChanged(env, s, g, o).crashed
    requires StoreSane(s) && ObjectsOk(s)
    requires o.event.Some? ==>
               var e := o.event.value;
               && e.newActive != e.oldActive && e.newActive != Some(id) && EventOf(s, g, e)
               && StoredIfSome(s, e.oldActive) && StoredIfSome(s, e.newActive)
    ensures IsChecked(GroupChanged(env, s, g, o), id) <==>
            || IsChecked(s, id)
            || (o.event.Some? && o.event.value.oldActive == Some(id) && o.event.value.newActive.Some?
                && Obj(s, o.event.value.newActive.value).scheduledInterval != Obj(s, id).scheduledInterval)
  {
    var s1 := s.(groups := s.groups[g := o.group]);
    SameChecks(s, s1, id);
    SameStoreFrame(s, s1);
    SameSchedules(s, s1);
    if o.event.Some? {
      var e := o.event.value;
      var (st, goesOn) := MoveFlag(s1, e);
      var s2 := s1.(store := st);
      assert goesOn by {
        EventFrame(s, s1, g, e);
        hide MoveFlag;
        MoveFlagKeeps(s1, g, e, s2, goesOn);
      }
      SameChecks(s, s2, id);
      SameSchedules(s, s2);
      hide MoveFlag, Reschedule, AllWellFormed, IsChecked, StoreSane, ObjectsOk, EventOf, StoredIfSome;
      RescheduleChecks(env, s2, e, id);
    }
  }

  lemma EventFrame(s: State, t: State, g: string, e: G.PromotionEvent)
    requires t.store == s.store && t.objs == s.objs && EventOf(s, g, e)
    requires StoredIfSome(s, e.oldActive) && StoredIfSome(s, e.newActive) && StoreSane(s) && ObjectsOk(s)
    ensures EventOf(t, g, e) && StoredIfSome(t, e.oldActive) && StoredIfSome(t, e.newActive)
    ensures StoreSane(t) && ObjectsOk(t)
  {
    SameStoreFrame(s, t);
    hide Flagged;
  }

  lemma MembersBack(s: State, g: string)
    requires Inv(s) && g in s.groups
    ensures forall m :: m in s.groups[g].members ==> StoredIfSome(s, Some(m))
    ensures s.groups[g].active.Some? ==> s.groups[g].active.value in s.groups[g].members
    ensures s.groups[g].mode != G.ActiveActiveRoundTrip && NoDup(s.groups[g].members) && !s.crashed && ObjectsOk(s)
    ensures s.groups[g].active.None? ==> forall m :: m in s.groups[g].members ==> !G.Healthy(s.objs, m)
  {
    InvParts(s);
    GroupIn(s, g);
    GroupFacts(s, g);
    forall m | m in s.groups[g].members ensures StoredIfSome(s, Some(m)) {
      assert IsMember(s, g, m) && Stored(s, g, m);
    }
  }

  /** What the departure of a registered service raises. */
  lemma Departure(env: Env, s: State, p: State, g: string, id: Id)
    requires Inv(s) && id in s.index && Obj(s, id).memberOf == g && p == s.(schedulers := p.schedulers)
    ensures g in s.groups && id in s.groups[g].members
    ensures var grp, o := s.groups[g], G.RemoveMember(env.sort, s.objs, s.groups[g], id);
            var heir := G.Chosen(env.sort, s.objs, G.Without(grp.members, id));
            && !o.crashed
            && o.event == (if |grp.members| <= 2 || heir == grp.active then None
                           else Some(G.PromotionEvent(grp.name, heir, grp.active)))
            && (o.event.Some? ==> EventOf(p, g, o.event.value))
            && heir != Some(id) && StoredIfSome(p, heir) && StoredIfSome(p, grp.active)
            && StoreSane(p) && ObjectsOk(p) && !p.crashed
  {
    InvMeans(s, id);
    GroupLeavable(s, g, id);
    StoredFromInv(s);
    MembersBack(s, g);
    LeavableFrame(s, p, g, id);
    StoredFrame(s, p);
    var grp, o := s.groups[g], G.RemoveMember(env.sort, s.objs, s.groups[g], id);
    hide Inv, G.RemoveMember, G.FaithfulEvent, G.Elected, Flagged, StoreSane, StoredAreIndexed, ActiveFlagged;
    hide ObjectsOk, EventOf, StoredIfSome;
    DepartureFits(env, p, g, id, o);
    LeaveEvent(env.sort, p.objs, grp, id);
    G.WithoutMember(grp.members, id);
  }

  lemma DepartureFits(env: Env, p: State, g: string, id: Id, o: G.Outcome)
    requires Leavable(p, g, id) && ActiveFlagged(p, g) && o == G.RemoveMember(env.sort, p.objs, p.groups[g], id)
    ensures !o.crashed && (o.event.Some? ==> EventOf(p, g, o.event.value))
  {
    LeaveOutcome(p, g, id, env.sort, o);
    hide Leavable, ActiveFlagged, G.RemoveMember, G.FaithfulEvent, G.Elected, Flagged;
    LeaveFits(p, g, id, o, None);
  }

  /** What the departure of a service means for its checks. */
  lemma LeaveChecks(env: Env, s: State, p: State, g: string, id: Id)
    requires Inv(s) && id in s.index && Obj(s, id).memberOf == g && p == s.(schedulers := p.schedulers)
    requires AllWellFormed(p) && !LeaveGroup(env, p, g, id).crashed
    ensures IsChecked(LeaveGroup(env, p, g, id), id) <==> IsChecked(p, id) || StaysScheduled(env, s, id)
  {
    hide AllWellFormed, IsChecked, Inv, StoreSane, ObjectsOk, EventOf, StoredIfSome;
    hide G.RemoveMember, G.Without, G.Chosen;
    Departure(env, s, p, g, id);
    var o := G.RemoveMember(env.sort, p.objs, p.groups[g], id);
    hide GroupChanged;
    SameChecks(GroupChanged(env, p, g, o), LeaveGroup(env, p, g, id), id);
    GroupChecks(env, p, g, o, id);
  }

  lemma StoredFrame(s: State, p: State)
    requires p == s.(schedulers := p.schedulers)
    ensures forall x :: StoredIfSome(p, x) == StoredIfSome(s, x)
    ensures ObjectsOk(p) == ObjectsOk(s) && StoreSane(p) == StoreSane(s)
  {
  }

  lemma UnscheduledTidy(s: State, p: State, id: Id)
    requires id in s.index && s.index[id] in s.schedulers && Neat(s) && NoEarlyReturns(s.log) && Tidy(s)
    requires p == s.(schedulers := s.schedulers[s.index[id] := S.Remove(s.schedulers[s.index[id]], id).0])
    ensures Neat(p) && Tidy(p) && AllWellFormed(p) && !IsChecked(p, id)
  {
    var d := s.index[id];
    NeatParts(s);
    RemoveOne(s.schedulers[d], id);
    OneSchedulerNeat(s, p, d, S.Remove(s.schedulers[d], id).0);
    TakenOffLive(s, p, d, id);
    AgreedBacked(s, p);
    hide S.Remove, S.OneEntryEach, S.WellFormed, Scheduled, Agreed, Backed, Neat, NoEarlyReturns;
  }

  lemma ForgottenTidy(q: State, t: State, id: Id)
    requires OnlyRegistered(q) && Agreed(q)
    requires t == q.(index := q.index - {id}, store := t.store)
    ensures IsChecked(t, id) <==> IsChecked(q, id)
    ensures OnlyRegistered(t) <==> !IsChecked(t, id)
    ensures Agreed(t)
  {
    SameSchedules(q, t);
    hide Scheduled;
  }

  /** A removal stops the checks of its service if and only if the service does not stay scheduled. */
  lemma RemovalStopsIff(env: Env, s: State, id: Id)
    requires Inv(s) && Neat(s) && Tidy(s) && id in s.index && NoEarlyReturns(RemoveService(env, s, id).log)
    ensures var t := RemoveService(env, s, id);
            && (IsChecked(t, id) <==> StaysScheduled(env, s, id))
            && (OnlyRegistered(t) <==> !StaysScheduled(env, s, id))
            && (OnlyRegistered(t) ==> Tidy(t))
  {
    var d, g, t := s.index[id], Obj(s, id).memberOf, RemoveService(env, s, id);
    var p := s.(schedulers := s.schedulers[d := S.Remove(s.schedulers[d], id).0]);
    var q := LeaveGroup(env, p, g, id);
    RemovalParts(env, s, id);
    RemoveNeat(env, s, id);
    hide LeaveGroup, S.Remove, R.Delete, RemoveService, StaysScheduled, OnlyRegistered, IsChecked, Agreed, Inv;
    assert NoEarlyReturns(s.log);
    hide NoEarlyReturns;
    UnscheduledTidy(s, p, id);
    hide Neat, AllWellFormed;
    StoredFromInv(t);
    hide Backed;
    LeaveChecks(env, s, p, g, id);
    LeaveGroupTidy(env, p, g, id);
    ForgottenTidy(q, t, id);
  }

  lemma RemovalParts(env: Env, s: State, id: Id)
    requires Inv(s) && id in s.index
    ensures var d, g, t := s.index[id], Obj(s, id).memberOf, RemoveService(env, s, id);
            && d in s.schedulers && g in s.groups && Inv(t) && t.index.Keys == s.index.Keys - {id}
            && var p := s.(schedulers := s.schedulers[d := S.Remove(s.schedulers[d], id).0]);
               var q := LeaveGroup(env, p, g, id);
               && AllWellFormed(p) && !q.crashed
               && t == q.(index := q.index - {id}, store := R.Delete(q.store, g, id))
  {
    RegisteredParts(s, id);
    var d, g, t := s.index[id], Obj(s, id).memberOf, RemoveService(env, s, id);
    var p := s.(schedulers := s.schedulers[d := S.Remove(s.schedulers[d], id).0]);
    var q := LeaveGroup(env, p, g, id);
    RemoveServiceKeeps(env, s, id);
    InvIsAlive(t);
    TakenOffLive(s, p, d, id);
    assert t == q.(index := q.index - {id}, store := R.Delete(q.store, g, id)) by {
      hide LeaveGroup, S.Remove, R.Delete, Inv, AllWellFormed;
    }
    hide *;
  }

  lemma RegisteredParts(s: State, id: Id)
    requires Inv(s) && id in s.index
    ensures s.index[id] in s.schedulers && Obj(s, id).memberOf in s.groups && AllWellFormed(s)
  {
    IndexedAt(s, id, None);
    InvMeans(s, id);
  }

  predicate LiveAt(h: seq<H.Entry>, k: int, id: Id) {
    0 <= k < |h| && h[k].id == id && h[k].live
  }

  /** The live entry at index `k` has another one of its service before it. */
  predicate Spare(h: seq<H.Entry>, k: int, id: Id) {
    LiveAt(h, k, id) && exists j :: 0 <= j < k && h[j].id == id
  }

  /** A live entry of the service stands at another interval than it is indexed at, or not as the first. */
  ghost predicate HasSpare(s: State, id: Id) {
    exists d, k :: SpareIn(s, d, k, id)
  }

  predicate SpareIn(s: State, d: Duration, k: int, id: Id) {
    && d in s.schedulers
    && (if id in s.index && s.index[id] == d then Spare(s.schedulers[d].heap, k, id)
        else LiveAt(s.schedulers[d].heap, k, id))
  }

  lemma LiveSomewhere(h: seq<H.Entry>, id: Id)
    ensures S.HasLive(h, id) <==> exists k :: LiveAt(h, k, id)
  {
    if S.HasLive(h, id) {
      var e: H.Entry :| e in multiset(h) && e.id == id && e.live;
      assert e in h;
      var k :| 0 <= k < |h| && h[k] == e;
      assert LiveAt(h, k, id);
    }
    if k :| LiveAt(h, k, id) {
      assert h[k] in multiset(h);
    }
  }

  predicate ElsewhereIn(h: seq<H.Entry>, i: int, k: int, e: H.Entry) {
    0 <= k < |h| && k != i && h[k] == e
  }

  lemma AllBut(h: seq<H.Entry>, i: nat, e: H.Entry)
    requires i < |h|
    ensures e in multiset(h) - multiset{h[i]} <==> exists k :: ElsewhereIn(h, i, k, e)
  {
    OneTakenOut(h, i);
    var rest := h[..i] + h[i + 1..];
    assert e in multiset(h) - multiset{h[i]} <==> e in rest;
    if e in rest {
      var j :| 0 <= j < |rest| && rest[j] == e;
      assert ElsewhereIn(h, i, if j < i then j else j + 1, e);
    }
    if k :| ElsewhereIn(h, i, k, e) {
      assert rest[if k < i then k else k - 1] == e;
    }
  }

  lemma LiveBut(h: seq<H.Entry>, r: seq<H.Entry>, i: nat, back: multiset<H.Entry>, id: Id)
    requires i < |h| && multiset(r) == multiset(h) - multiset{h[i]} + back && forall e :: e in back ==> !e.live
    ensures S.HasLive(r, id) <==> exists k :: k != i && LiveAt(h, k, id)
  {
    if S.HasLive(r, id) {
      var e: H.Entry :| e in multiset(r) && e.id == id && e.live;
      AllBut(h, i, e);
      var k :| ElsewhereIn(h, i, k, e);
      assert LiveAt(h, k, id);
    }
    if k :| k != i && LiveAt(h, k, id) {
      AllBut(h, i, h[k]);
      assert ElsewhereIn(h, i, k, h[k]);
      assert h[k] in multiset(r);
    }
  }

  /** Removing takes out the first entry, or marks it dead, and no other. */
  lemma LiveAfterRemoval(sc: S.Scheduler, id: Id)
    requires S.WellFormed(sc)
    ensures S.HasLive(S.Remove(sc, id).0.heap, id) <==> exists k :: Spare(sc.heap, k, id)
  {
    S.RemoveTakesOut(sc, id);
    var h, i, r := sc.heap, H.IndexOfService(sc.heap, id), S.Remove(sc, id).0.heap;
    SpareIff(h, id);
    hide S.WellFormed, S.Remove, H.IndexOfService, S.HasLive, Spare, LiveAt;
    if i == -1 {
      LiveSomewhere(h, id);
    } else if i == 0 {
      LiveBut(h, r, 0, multiset{h[0].(live := false)}, id);
    } else {
      LiveBut(h, r, i, multiset{}, id);
    }
  }

  lemma SpareIff(h: seq<H.Entry>, id: Id)
    ensures forall k :: Spare(h, k, id) <==> k != H.IndexOfService(h, id) && LiveAt(h, k, id)
  {
    var i := H.IndexOfService(h, id);
    hide H.IndexOfService;
    assert i != -1 ==> h[i].id == id;
  }

  lemma WellFormedAt(s: State, d: Duration)
    requires AllWellFormed(s) && d in s.schedulers
    ensures S.WellFormed(s.schedulers[d])
  {
    hide S.WellFormed;
  }

  lemma SpareAfterRemoval(s: State, p: State, id: Id)
    requires AllWellFormed(s) && id in s.index && s.index[id] in s.schedulers
    requires p == s.(schedulers := s.schedulers[s.index[id] := S.Remove(s.schedulers[s.index[id]], id).0])
    ensures IsChecked(p, id) <==> HasSpare(s, id)
  {
    hide AllWellFormed, S.Remove, S.WellFormed, S.HasLive, Spare, LiveAt;
    WellFormedAt(s, s.index[id]);
    LiveAfterRemoval(s.schedulers[s.index[id]], id);
    hide Scheduled, SpareIn;
    if IsChecked(p, id) {
      var d :| Scheduled(p, d, id);
      SpareAtInterval(s, p, d, id);
      var k :| SpareIn(s, d, k, id);
    }
    if HasSpare(s, id) {
      var d, k :| SpareIn(s, d, k, id);
      SpareAtInterval(s, p, d, id);
    }
  }

  lemma SpareAtInterval(s: State, p: State, d: Duration, id: Id)
    requires id in s.index && s.index[id] in s.schedulers
    requires p == s.(schedulers := s.schedulers[s.index[id] := S.Remove(s.schedulers[s.index[id]], id).0])
    requires var sc := s.schedulers[s.index[id]];
             S.HasLive(S.Remove(sc, id).0.heap, id) <==> exists k :: Spare(sc.heap, k, id)
    ensures Scheduled(p, d, id) <==> exists k :: SpareIn(s, d, k, id)
  {
    hide S.Remove, S.HasLive, Spare, LiveAt;
    if d in s.schedulers {
      LiveSomewhere(s.schedulers[d].heap, id);
      if d == s.index[id] {
        assert forall k :: SpareIn(s, d, k, id) <==> Spare(s.schedulers[d].heap, k, id);
      } else {
        assert forall k :: SpareIn(s, d, k, id) <==> LiveAt(s.schedulers[d].heap, k, id);
      }
    }
  }

  /** In whatever state: a removed service is still being checked if and only if it stays scheduled, or had a live
      entry besides its first one. */
  lemma RemovedIsCheckedIff(env: Env, s: State, id: Id)
    requires Inv(s) && id in s.index
    ensures var t := RemoveService(env, s, id);
            && Inv(t) && id !in t.index
            && (IsChecked(t, id) <==> StaysScheduled(env, s, id) || HasSpare(s, id))
  {
    var d, g, t := s.index[id], Obj(s, id).memberOf, RemoveService(env, s, id);
    var p := s.(schedulers := s.schedulers[d := S.Remove(s.schedulers[d], id).0]);
    RemovalParts(env, s, id);
    RegisteredParts(s, id);
    assert id !in t.index.Keys;
    hide LeaveGroup, S.Remove, R.Delete, RemoveService, IsChecked, Inv, AllWellFormed, HasSpare, StaysScheduled;
    SpareAfterRemoval(s, p, id);
    LeaveChecks(env, s, p, g, id);
    SameChecks(LeaveGroup(env, p, g, id), t, id);
  }

  // ---------- Runs ----------

  /** At every moment between two steps of the run, nothing is checked but what is registered, where it is indexed. */
  ghost predicate AlwaysOnlyRegistered(env: Env, run: seq<Event>) {
    OnlyRegistered(Final(env, NewManager(), run)) && (run != [] ==> AlwaysOnlyRegistered(env, run[..|run| - 1]))
  }

  /** Some removal of the run leaves its service on a schedule. */
  predicate LeavesOne(env: Env, run: seq<Event>) {
    run != [] &&
    var before, e := Final(env, NewManager(), run[..|run| - 1]), run[|run| - 1];
    (e.Remove? && StaysScheduled(env, before, e.id)) || LeavesOne(env, run[..|run| - 1])
  }

  lemma StepTidy(env: Env, s: State, e: Event)
    requires Inv(s) && Neat(s) && Tidy(s) && Allowed(s, e)
    requires NoEarlyReturns(Step(env, s, e).log)
    ensures var t := Step(env, s, e);
            && (OnlyRegistered(t) <==> !(e.Remove? && StaysScheduled(env, s, e.id)))
            && (OnlyRegistered(t) ==> Tidy(t))
  {
    assert !s.crashed;
    hide Inv, Neat, NoEarlyReturns, Agreed, Backed, OnlyRegistered, StaysScheduled, KeepsNeat;
    hide RegisterService, RemoveService, CheckResult, Tick;
    match e
    case Register(cfg) => RegisterTidy(env, s, cfg);
    case Remove(id) =>
      if id in s.index {
        RemovalStopsIff(env, s, id);
      } else {
        NothingRemoved(env, s, id);
      }
    case Check(id, success, roundtrip) => CheckTidy(env, s, id, success, roundtrip);
    case Turn(interval, now, gap) => TickTidy(s, interval, now, gap);
  }

  lemma NothingRemoved(env: Env, s: State, id: Id)
    requires id !in s.index
    ensures RemoveService(env, s, id) == s && !StaysScheduled(env, s, id)
  {
  }

  lemma NothingYet()
    ensures Tidy(NewManager())
  {
  }

  /** Over every run without a panic in which no service returns early: nothing is ever checked but what is
      registered, if and only if no step removes a service that stays scheduled. */
  lemma {:induction false} OnlyRegisteredIffNoneLeft(env: Env, run: seq<Event>)
    requires Admissible(env, NewManager(), run) && !Final(env, NewManager(), run).crashed
    requires NoEarlyReturns(Final(env, NewManager(), run).log)
    ensures AlwaysOnlyRegistered(env, run) <==> !LeavesOne(env, run)
    ensures AlwaysOnlyRegistered(env, run) ==> Tidy(Final(env, NewManager(), run))
  {
    NothingYet();
    hide Inv, Step, Panics, Tidy, Neat, NoEarlyReturns, StaysScheduled;
    if run != [] {
      var before, e := Final(env, NewManager(), run[..|run| - 1]), run[|run| - 1];
      DeadStaysDead(env, before, e);
      RunKeeps(env, run[..|run| - 1]);
      SingleIffNoEarlyReturns(env, run[..|run| - 1]);
      StepNeat(env, before, e);
      EarlierReturns(before, Step(env, before, e));
      OnlyRegisteredIffNoneLeft(env, run[..|run| - 1]);
      if AlwaysOnlyRegistered(env, run[..|run| - 1]) {
        StepTidy(env, before, e);
      }
    } else {
      TidyMeans(NewManager());
    }
  }

  lemma EarlierReturns(s: State, t: State)
    requires KeepsNeat(s, t) && NoEarlyReturns(t.log)
    ensures NoEarlyReturns(s.log)
  {
  }

  lemma TidyMeans(s: State)
    requires Tidy(s)
    ensures OnlyRegistered(s)
  {
  }

  /** So in every state of such a run exactly the registered services are being checked, at exactly their intervals. */
  lemma ReachableCheckedIff(env: Env, run: seq<Event>, d: Duration, id: Id)
    requires Admissible(env, NewManager(), run) && !Final(env, NewManager(), run).crashed
    requires NoEarlyReturns(Final(env, NewManager(), run).log) && !LeavesOne(env, run)
    ensures var s := Final(env, NewManager(), run);
            (d in s.schedulers && S.HasLive(s.schedulers[d].heap, id)) <==> id in s.index && s.index[id] == d
  {
    OnlyRegisteredIffNoneLeft(env, run);
    var s := Final(env, NewManager(), run);
    assert OnlyRegistered(s);
    RunKeeps(env, run);
    hide Final, Admissible, LeavesOne, AlwaysOnlyRegistered, NoEarlyReturns;
    InvParts(s);
    assert Scheduled(s, d, id) ==> id in s.index && s.index[id] == d;
  }

  // ---------- Schedulers that go ----------

  /** A move drops the scheduler that it leaves exactly when no entry but one of this service is in it. */
  lemma SchedulerGoesIff(env: Env, s: State, id: Id, d: Duration)
    requires AllWellFormed(s) && Obj(s, id).scheduledInterval in s.schedulers && Obj(s, id).scheduledInterval != d
    ensures var t, old' := MoveServiceToInterval(env, s, id, d), Obj(s, id).scheduledInterval;
            var h := s.schedulers[old'].heap;
            old' in t.schedulers <==> |h| > 1 || exists k :: 0 <= k < |h| && h[k].id != id
  {
    S.RemoveTakesOut(s.schedulers[Obj(s, id).scheduledInterval], id);
    hide S.Remove, S.Schedule, AllWellFormed, S.WellFormed;
  }
}
