/** What handling a promotion event keeps: the stored flags move, the two services change intervals,
    and nothing else happens. */
module ManagerPromotions {
  import opened Basics
  import opened Services
  import opened Managers
  import opened ManagerInvariants
  import G = ServiceGroups
  import R = ServiceRepos
  import S = Schedulers

  // ---------- The stored flags ----------

  ghost predicate SameStored(s: State, s': State) {
    forall h, x :: Stored(s', h, x) <==> Stored(s, h, x)
  }

  lemma SaveMeans(s: State, n: Record, s': State)
    requires StoreSane(s) && !n.hasOverride
    requires s' == (if R.Update(s.store, n).Saved? then s.(store := R.Update(s.store, n).store) else s)
    ensures R.Update(s.store, n).Refused? <==> !Stored(s, n.memberOf, n.id)
    ensures StoreSane(s') && SameStored(s, s')
    ensures forall h, x :: Flagged(s', h, x) <==>
                             if h == n.memberOf && x == n.id then Stored(s, h, x) && n.isActive else Flagged(s, h, x)
  {
    R.UpdateRefines(s.store, n);
    hide R.Update, R.Lookup, R.WellStored, R.NoOverrides;
  }

  /** In group `g`, nothing but the service `only` is flagged. */
  ghost predicate FlagsAtMost(s: State, g: string, only: Option<Id>) {
    forall x :: Flagged(s, g, x) ==> only == Some(x)
  }

  ghost predicate FlagsShrinkElsewhere(s: State, s': State, g: string) {
    forall h, x :: h != g && Flagged(s', h, x) ==> Flagged(s, h, x)
  }

  /** The event comes from group `g`: it names existing services, promotes a member of `g`, and
      demotes whatever is flagged there. */
  ghost predicate EventOf(s: State, g: string, e: G.PromotionEvent) {
    && (e.oldActive.Some? ==> e.oldActive.value in s.objs)
    && (e.newActive.Some? ==> e.newActive.value in s.objs && s.objs[e.newActive.value].memberOf == g)
    && FlagsAtMost(s, g, e.oldActive)
    && (e.oldActive.Some? && Flagged(s, g, e.oldActive.value) ==> s.objs[e.oldActive.value].memberOf == g)
  }

  ghost predicate StoredIfSome(s: State, id: Option<Id>) {
    id.Some? ==> id.value in s.objs && Stored(s, s.objs[id.value].memberOf, id.value)
  }

  lemma MoveFlagKeeps(s: State, g: string, e: G.PromotionEvent, s': State, goesOn: bool)
    requires StoreSane(s) && ObjectsOk(s) && EventOf(s, g, e) && e.newActive != e.oldActive
    requires (s'.store, goesOn) == MoveFlag(s, e) && s' == s.(store := s'.store)
    ensures StoreSane(s') && SameStored(s, s')
    ensures FlagsShrinkElsewhere(s, s', g) && FlagsAtMost(s', g, e.newActive)
    ensures goesOn <==> StoredIfSome(s, e.oldActive) && StoredIfSome(s, e.newActive)
    ensures goesOn && e.newActive.Some? ==> Flagged(s', g, e.newActive.value)
    ensures !StoredIfSome(s, e.oldActive) ==> s'.store == s.store
  {
    hide R.Update, R.Lookup, StoreSane;
    var s1 := s;
    if e.oldActive.Some? {
      var n := GSLBService(Obj(s, e.oldActive.value)).(isActive := false);
      s1 := if R.Update(s.store, n).Saved? then s.(store := R.Update(s.store, n).store) else s;
      SaveMeans(s, n, s1);
    }
    if StoredIfSome(s, e.oldActive) && e.newActive.Some? {
      var n := GSLBService(Obj(s, e.newActive.value)).(isActive := true);
      var s2 := if R.Update(s1.store, n).Saved? then s1.(store := R.Update(s1.store, n).store) else s1;
      SaveMeans(s1, n, s2);
    }
  }

  // ---------- The schedule ----------

  lemma SameServicesCompose(s: State, t: State, u: State)
    requires SameServices(s, t) && SameServices(t, u)
    ensures SameServices(s, u)
  {
  }

  lemma SameRule(s: State, t: State, id: Id)
    requires SameServices(s, t)
    ensures RuleOf(Obj(s, id)) == RuleOf(Obj(t, id))
  {
  }

  ghost predicate Reschedulable(s: State, e: G.PromotionEvent, except: Option<Id>) {
    && e.oldActive != e.newActive
    && (e.newActive.Some? ==>
          && e.newActive.value in s.index && e.newActive != except
          && (e.oldActive.Some? ==> e.oldActive.value in s.index && s.index[e.oldActive.value] in s.schedulers))
  }

  function RulesAfter(s: State, e: G.PromotionEvent): set<Rule> {
    (if e.oldActive.Some? then s.rules - {RuleOf(Obj(s, e.oldActive.value))} else s.rules)
    + (if e.newActive.Some? then {RuleOf(Obj(s, e.newActive.value))} else {})
  }

  lemma IntervalsOk(s: State, id: Id)
    requires ObjectsOk(s) && id in s.objs
    ensures S.Schedulable(s.objs[id].scheduledInterval) && s.objs[id].baseInterval >= S.OFFSET
    ensures Obj(s, id) == s.objs[id]
  {
  }

  lemma DemoteKeeps(env: Env, s: State, id: Id, d: Duration, except: Option<Id>)
    requires ObjectsOk(s) && IndexOk(s, except) && !s.crashed
    requires id in s.index && S.Schedulable(d) && s.index[id] in s.schedulers
    ensures var s' := Demote(env, s, id, d);
            && !s'.crashed && ObjectsOk(s') && IndexOk(s', except) && SameServices(s, s')
            && s'.groups == s.groups && s'.store == s.store
            && s'.rules == s.rules - {RuleOf(Obj(s, id))} && s'.objs == ScheduledAt(s.objs, id, d)
  {
    MoveKeeps(env, s, id, d, except);
    hide MoveServiceToInterval, ObjectsOk, IndexOk;
    ScheduleFrame(MoveServiceToInterval(env, s, id, d), Demote(env, s, id, d), except);
  }

  lemma PromoteKeeps(env: Env, s: State, id: Id, d: Duration, except: Option<Id>)
    requires ObjectsOk(s) && IndexOk(s, except) && !s.crashed
    requires id in s.index && S.Schedulable(d) && s.index[id] in s.schedulers
    ensures var s' := Promote(env, s, id, d);
            && !s'.crashed && ObjectsOk(s') && IndexOk(s', except) && SameServices(s, s')
            && s'.groups == s.groups && s'.store == s.store
            && s'.rules == s.rules + {RuleOf(Obj(s, id))} && s'.objs == ScheduledAt(s.objs, id, d)
  {
    MoveKeeps(env, s, id, d, except);
    hide MoveServiceToInterval, ObjectsOk, IndexOk;
    ScheduleFrame(MoveServiceToInterval(env, s, id, d), Promote(env, s, id, d), except);
  }

  /** The objects after a promotion: the services it names have exchanged their intervals, in that the
      demoted one takes that of the promoted one, which gets the base interval. */
  function PromotedWorld(w: G.World, e: G.PromotionEvent): G.World {
    match (e.oldActive, e.newActive)
    case (Some(o), Some(n)) =>
      ScheduledAt(ScheduledAt(w, o, G.Get(w, n).scheduledInterval), n, G.Get(w, o).baseInterval)
    case (None, Some(n)) => ScheduledAt(w, n, G.Get(w, n).baseInterval)
    case _ => w
  }

  lemma RescheduleKeeps(env: Env, s: State, e: G.PromotionEvent, except: Option<Id>)
    requires ObjectsOk(s) && IndexOk(s, except) && !s.crashed && Reschedulable(s, e, except)
    ensures var s' := Reschedule(env, s, e);
            && !s'.crashed && ObjectsOk(s') && IndexOk(s', except) && SameServices(s, s')
            && s'.groups == s.groups && s'.store == s.store
            && s'.rules == RulesAfter(s, e) && s'.objs == PromotedWorld(s.objs, e)
  {
    hide Demote, Promote, ObjectsOk, IndexOk;
    if e.newActive.Some? {
      var n := e.newActive.value;
      IndexedAt(s, n, except);
      IntervalsOk(s, n);
      if e.oldActive.Some? {
        var o := e.oldActive.value;
        IndexedAt(s, o, except);
        IntervalsOk(s, o);
        DemoteKeeps(env, s, o, Obj(s, n).scheduledInterval, except);
        var t := Demote(env, s, o, Obj(s, n).scheduledInterval);
        IndexedAt(t, n, except);
        PromoteKeeps(env, t, n, Obj(s, o).baseInterval, except);
        SameRule(s, t, n);
        SameServicesCompose(s, t, Promote(env, t, n, Obj(s, o).baseInterval));
      } else {
        PromoteKeeps(env, s, n, Obj(s, n).baseInterval, except);
      }
    } else {
      ScheduleFrame(s, Reschedule(env, s, e), except);
    }
  }

  // ---------- A whole group change ----------

  ghost predicate StoredAreIndexed(s: State) {
    forall h, x :: Stored(s, h, x) ==> x in s.index
  }

  /** What `handlePromotion`, called for group `g`, does to the rest of the state. */
  ghost predicate Promoted(s: State, s': State, g: string, e: G.PromotionEvent) {
    && !s'.crashed && SameServices(s, s') && s'.groups == s.groups
    && StoreSane(s') && SameStored(s, s')
    && FlagsShrinkElsewhere(s, s', g) && FlagsAtMost(s', g, e.newActive)
  }

  lemma HandlePromotionKeeps(env: Env, s: State, g: string, e: G.PromotionEvent, except: Option<Id>)
    requires !s.crashed && ObjectsOk(s) && IndexOk(s, except) && StoreSane(s) && StoredAreIndexed(s)
    requires EventOf(s, g, e)
    requires e.newActive.Some? ==> e.newActive != except
    requires e.oldActive == except && except.Some? && except.value in s.index ==> s.index[except.value] in s.schedulers
    ensures var s' := HandlePromotion(env, s, e);
            Promoted(s, s', g, e) && ObjectsOk(s') && IndexOk(s', except)
  {
    hide ObjectsOk, IndexOk, StoreSane, StoredIfSome, StoredAreIndexed, MoveFlag, Reschedule, Promoted, Reschedulable;
    if e.newActive != e.oldActive {
      var (st, goesOn) := MoveFlag(s, e);
      var s1 := s.(store := st);
      MoveFlagKeeps(s, g, e, s1, goesOn);
      ScheduleFrame(s, s1, except);
      PromotedVia(s, s1, s1, g, e);
      if goesOn {
        OldScheduled(s, e, except);
        SameReschedulable(s, s1, e, except);
        RescheduleKeeps(env, s1, e, except);
        PromotedVia(s, s1, Reschedule(env, s1, e), g, e);
      }
    } else {
      PromotedVia(s, s, s, g, e);
    }
  }

  lemma SameReschedulable(s: State, s1: State, e: G.PromotionEvent, except: Option<Id>)
    requires Reschedulable(s, e, except) && s1 == s.(store := s1.store)
    ensures Reschedulable(s1, e, except)
  {
  }

  lemma PromotedVia(s: State, s1: State, s': State, g: string, e: G.PromotionEvent)
    requires SameServices(s1, s') && s'.store == s1.store && s'.groups == s1.groups && !s'.crashed
    requires s1 == s.(store := s1.store)
    requires StoreSane(s1) && SameStored(s, s1)
    requires FlagsShrinkElsewhere(s, s1, g) && FlagsAtMost(s1, g, e.newActive)
    ensures Promoted(s, s', g, e)
  {
    assert SameServices(s, s');
    assert forall h, x :: Stored(s', h, x) == Stored(s1, h, x) && Flagged(s', h, x) == Flagged(s1, h, x);
  }

  lemma OldScheduled(s: State, e: G.PromotionEvent, except: Option<Id>)
    requires IndexOk(s, except) && StoredAreIndexed(s)
    requires StoredIfSome(s, e.oldActive) && StoredIfSome(s, e.newActive) && e.oldActive != e.newActive
    requires e.newActive.Some? ==> e.newActive != except
    requires e.oldActive == except && except.Some? && except.value in s.index ==> s.index[except.value] in s.schedulers
    ensures Reschedulable(s, e, except)
  {
    if e.oldActive.Some? && e.newActive.Some? {
      IndexedAt(s, e.oldActive.value, except);
    }
  }
}
