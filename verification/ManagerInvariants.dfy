/** What every step of the services manager keeps. */
module ManagerInvariants {
  import opened Basics
  import opened Services
  import opened Managers
  import G = ServiceGroups
  import R = ServiceRepos
  import S = Schedulers

  // ---------- The invariant, strand by strand ----------

  ghost predicate ObjectsOk(s: State) {
    forall id :: id in s.objs ==>
                   && s.objs[id].id == id
                   && S.Schedulable(s.objs[id].scheduledInterval)
                   && s.objs[id].baseInterval >= S.OFFSET
                   && s.objs[id].priority < MAX_INT
  }

  /** A scheduler at the interval `d` is running there and holds a live entry of the service. */
  ghost predicate Scheduled(s: State, d: Duration, id: Id) {
    d in s.schedulers && S.HasLive(s.schedulers[d].heap, id)
  }

  ghost predicate SchedulersOk(s: State) {
    forall d :: d in s.schedulers ==>
                  S.WellFormed(s.schedulers[d]) && s.schedulers[d].interval == d && !s.schedulers[d].stopped
  }

  /** Every registered service but perhaps `except` is being checked at the interval it is indexed at,
      which is its scheduled interval. */
  ghost predicate IndexOk(s: State, except: Option<Id>) {
    && SchedulersOk(s)
    && forall id :: id in s.index ==>
                      && id in s.objs && s.objs[id].scheduledInterval == s.index[id]
                      && (Some(id) != except ==> Scheduled(s, s.index[id], id))
  }

  ghost predicate IsMember(s: State, g: string, id: Id) {
    g in s.groups && id in s.groups[g].members
  }

  /** `s.groups[g]` is a sound group of registered services that name it. */
  ghost predicate GroupOk(s: State, g: string) {
    && g in s.groups
    && s.groups[g].name == g
    && G.Elected(s.objs, s.groups[g])
    && (s.groups[g].lastActive.Some? ==> s.groups[g].lastActive.value in s.objs)
    && forall id :: id in s.groups[g].members ==> id in s.index && id in s.objs && s.objs[id].memberOf == g
  }

  /** Every registered service is a member of the group it names. */
  ghost predicate Homed(s: State) {
    forall id :: id in s.index ==> id in s.objs && IsMember(s, s.objs[id].memberOf, id)
  }

  ghost predicate GroupsOk(s: State) {
    (forall g :: g in s.groups ==> GroupOk(s, g)) && Homed(s)
  }

  ghost predicate Stored(s: State, g: string, id: Id) {
    R.Lookup(s.store, g, id).Some?
  }

  ghost predicate Flagged(s: State, g: string, id: Id) {
    Stored(s, g, id) && R.Lookup(s.store, g, id).value.isActive
  }

  ghost predicate StoreSane(s: State) {
    R.WellStored(s.store) && R.NoOverrides(s.store)
  }

  ghost predicate FlagsOk(s: State, g: string) {
    forall id :: Flagged(s, g, id) ==> g in s.groups && s.groups[g].active == Some(id)
  }

  ghost predicate StoreOk(s: State) {
    && StoreSane(s)
    && (forall g, id :: Stored(s, g, id) <==> IsMember(s, g, id))
    && (forall g :: FlagsOk(s, g))
  }

  ghost predicate Inv(s: State) {
    && !s.crashed
    && ObjectsOk(s)
    && IndexOk(s, None)
    && GroupsOk(s)
    && StoreOk(s)
  }

  lemma NewManagerInv()
    ensures Inv(NewManager())
  {
  }

  /** The schedule strand reads nothing but the objects, the index and the schedulers. */
  lemma ScheduleFrame(s: State, t: State, except: Option<Id>)
    requires t.objs == s.objs && t.index == s.index && t.schedulers == s.schedulers
    ensures ObjectsOk(t) == ObjectsOk(s) && IndexOk(t, except) == IndexOk(s, except)
    ensures SameServices(s, t)
  {
    assert forall d, id :: Scheduled(t, d, id) <==> Scheduled(s, d, id);
  }

  // ---------- Moving between intervals ----------

  /** The same services, but for the interval they are scheduled at. */
  ghost predicate SameServices(s: State, s': State) {
    && s'.objs.Keys == s.objs.Keys && s'.index.Keys == s.index.Keys
    && forall id :: id in s.objs ==>
                      s'.objs[id] == s.objs[id].(scheduledInterval := s'.objs[id].scheduledInterval)
  }

  /** Only the schedule has changed. */
  ghost predicate OnlySchedule(s: State, s': State) {
    && SameServices(s, s')
    && s'.groups == s.groups && s'.store == s.store && s'.rules == s.rules
  }

  lemma ScheduleOnKeeps(env: Env, s: State, d: Duration, id: Id)
    requires SchedulersOk(s) && S.Schedulable(d) && !s.crashed
    ensures var s' := ScheduleOn(env, s, d, id);
            && !s'.crashed && SchedulersOk(s')
            && s' == s.(schedulers := s'.schedulers, pushes := s'.pushes, log := s'.log)
            && Scheduled(s', d, id)
            && forall e, x :: Scheduled(s, e, x) ==> Scheduled(s', e, x)
  {
    var sc := if d in s.schedulers then s.schedulers[d] else S.NewScheduler(d);
    S.NewIsWellFormed(d);
    S.ScheduleMakesLive(sc, id, s.pushes, env.now(s.pushes), env.gap(s.pushes));
    hide S.WellFormed, S.HasLive, S.Schedule;
    var s' := ScheduleOn(env, s, d, id);
    assert s'.schedulers[d] == S.Schedule(sc, id, s.pushes, env.now(s.pushes), env.gap(s.pushes));
    forall e, x | Scheduled(s, e, x) ensures Scheduled(s', e, x) {
    }
  }

  /** Taking a service out of its scheduler loses no other service, even if the scheduler goes. */
  lemma TakenOffSchedule(s: State, s': State, d: Duration, id: Id)
    requires SchedulersOk(s) && d in s.schedulers
    requires var (sc, last) := S.Remove(s.schedulers[d], id);
             s'.schedulers == if last then s.schedulers - {d} else s.schedulers[d := sc]
    ensures SchedulersOk(s')
    ensures forall e, x :: x != id && Scheduled(s, e, x) ==> Scheduled(s', e, x)
  {
    S.RemoveSparesOthers(s.schedulers[d], id);
    hide S.WellFormed, S.HasLive, S.Remove;
    forall e, x | x != id && Scheduled(s, e, x) ensures Scheduled(s', e, x) {
    }
  }

  function TakenOff(s: State, id: Id, d: Duration): State
    requires id in s.index && id in s.objs && s.index[id] in s.schedulers
  {
    var (sc, last) := S.Remove(s.schedulers[s.index[id]], id);
    s.(index := s.index[id := d], objs := s.objs[id := s.objs[id].(scheduledInterval := d)],
       schedulers := if last then s.schedulers - {s.index[id]} else s.schedulers[s.index[id] := sc])
  }

  lemma MoveMeans(env: Env, s: State, id: Id, d: Duration)
    requires id in s.index && id in s.objs && s.index[id] in s.schedulers
    requires s.index[id] == s.objs[id].scheduledInterval != d
    ensures MoveServiceToInterval(env, s, id, d) == ScheduleOn(env, TakenOff(s, id, d), d, id)
  {
  }

  ghost predicate Moved(s: State, s': State, id: Id, d: Duration) {
    && id in s.index && id in s.objs
    && s' == s.(index := s.index[id := d], objs := s.objs[id := s.objs[id].(scheduledInterval := d)],
                schedulers := s'.schedulers, pushes := s'.pushes, log := s'.log)
  }

  lemma MovedIndexOk(s: State, s': State, id: Id, d: Duration, except: Option<Id>)
    requires IndexOk(s, except) && Moved(s, s', id, d)
    requires SchedulersOk(s') && Scheduled(s', d, id)
    requires forall e, x :: x != id && Scheduled(s, e, x) ==> Scheduled(s', e, x)
    ensures IndexOk(s', except)
  {
    hide SchedulersOk, Scheduled;
    forall x | x in s'.index
      ensures x in s'.objs && s'.objs[x].scheduledInterval == s'.index[x]
      ensures Some(x) != except ==> Scheduled(s', s'.index[x], x)
    {
      if x != id {
        assert x in s.index;
      }
    }
  }

  lemma MovedObjectsOk(s: State, s': State, id: Id, d: Duration)
    requires ObjectsOk(s) && Moved(s, s', id, d) && S.Schedulable(d)
    ensures ObjectsOk(s') && OnlySchedule(s, s')
  {
  }

  /** The same objects, one of them scheduled at another interval. */
  function ScheduledAt(w: G.World, id: Id, d: Duration): G.World {
    w[id := G.Get(w, id).(scheduledInterval := d)]
  }

  /** A move loses no service from checking, and the moved one is checked at its new interval. */
  lemma MoveKeeps(env: Env, s: State, id: Id, d: Duration, except: Option<Id>)
    requires ObjectsOk(s) && IndexOk(s, except) && !s.crashed
    requires id in s.index && S.Schedulable(d) && s.index[id] in s.schedulers
    ensures var s' := MoveServiceToInterval(env, s, id, d);
            && !s'.crashed && ObjectsOk(s') && IndexOk(s', except)
            && OnlySchedule(s, s')
            && s'.objs == ScheduledAt(s.objs, id, d)
            && forall x :: x in s.index && x != id ==> s'.index[x] == s.index[x] && s'.objs[x] == s.objs[x]
  {
    hide S.Remove, ScheduleOn, MoveServiceToInterval, SchedulersOk, Scheduled, IndexOk, ObjectsOk, OnlySchedule;
    IndexedAt(s, id, except);
    if s.index[id] == d {
      NotMoved(env, s, id, d);
      assert s.objs == ScheduledAt(s.objs, id, d);
    } else {
      MoveMeans(env, s, id, d);
      var s2 := TakenOff(s, id, d);
      TakenOffSchedule(s, s2, s.index[id], id);
      ScheduleOnKeeps(env, s2, d, id);
      var s' := ScheduleOn(env, s2, d, id);
      assert Moved(s, s', id, d);
      MovedIndexOk(s, s', id, d, except);
      MovedObjectsOk(s, s', id, d);
    }
  }

  /** A move to an interval at which nothing can be scheduled is a division by zero. */
  lemma MoveCrashes(env: Env, s: State, id: Id, d: Duration)
    requires IndexOk(s, None) && id in s.index && s.index[id] != d && !S.Schedulable(d)
    ensures var s' := MoveServiceToInterval(env, s, id, d); s'.crashed && s'.index.Keys == s.index.Keys
  {
    IndexedAt(s, id, None);
    MoveMeans(env, s, id, d);
    assert d !in s.schedulers;
  }

  lemma IndexedAt(s: State, id: Id, except: Option<Id>)
    requires IndexOk(s, except) && id in s.index
    ensures SchedulersOk(s) && id in s.objs && s.objs[id].scheduledInterval == s.index[id]
    ensures Some(id) != except ==> s.index[id] in s.schedulers
  {
  }

  lemma NotMoved(env: Env, s: State, id: Id, d: Duration)
    requires id in s.objs && s.objs[id].scheduledInterval == d
    ensures MoveServiceToInterval(env, s, id, d) == s && OnlySchedule(s, s)
  {
  }
}
