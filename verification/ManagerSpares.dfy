/** When a promotion that a health check brings about spares the other groups. */
module ManagerSpares {
  import opened Basics
  import opened Services
  import opened Managers
  import opened ManagerInvariants
  import opened ManagerPromotions
  import opened ManagerSteps
  import opened ManagerLeaving
  import opened ManagerRuns
  import opened ManagerEffects
  import opened ManagerRecoveries
  import opened ManagerRules
  import G = ServiceGroups
  import R = ServiceRepos

  /** Outside group `g` all rules, stored flags and services are as they were. */
  ghost predicate Spared(s: State, q: State, g: string) {
    && (forall r: Rule :: r.group != g ==> (r in q.rules <==> r in s.rules))
    && (forall h, y :: h != g ==> (Flagged(q, h, y) <==> Flagged(s, h, y)))
    && (forall y :: Obj(s, y).memberOf != g ==> Obj(q, y) == Obj(s, y))
  }

  /** The group of service `id` is down, and the service last active there belongs to another group by now. */
  predicate Strayed(s: State, id: Id, x: Id) {
    && Obj(s, id).memberOf in s.groups && x in s.index && Obj(s, x).memberOf != Obj(s, id).memberOf
    && var g := s.groups[Obj(s, id).memberOf];
       g.mode == G.ActivePassive && g.active.None? && g.lastActive == Some(x)
  }

  /** A demotion in favour of `id` would take something from it. */
  ghost predicate HasToLose(s: State, id: Id, x: Id) {
    || RuleOf(Obj(s, x)) in s.rules
    || Flagged(s, Obj(s, x).memberOf, x)
    || Obj(s, x).scheduledInterval != Obj(s, id).scheduledInterval
  }

  function Callback(s: State, id: Id, success: bool, roundtrip: Duration): Option<bool> {
    OnResult(Obj(s, id).(roundtrip := roundtrip), success).callback
  }

  /** The check brings the service up, in a group that demotes such a service. */
  ghost predicate HitsAnother(s: State, id: Id, success: bool, roundtrip: Duration) {
    && Callback(s, id, success, roundtrip) == Some(true)
    && exists x :: Strayed(s, id, x) && HasToLose(s, id, x)
  }

  // ---------- The stored flags of other groups ----------

  predicate Demotes(s: State, e: G.PromotionEvent, h: string, y: Id) {
    e.newActive != e.oldActive && e.oldActive == Some(y) && Obj(s, y).memberOf == h
  }

  /** A promotion in group `g` takes from the other groups the flag of the service that it demotes. */
  ghost predicate OtherFlags(s: State, s': State, g: string, e: G.PromotionEvent) {
    forall h, y :: h != g ==> (Flagged(s', h, y) <==> Flagged(s, h, y) && !Demotes(s, e, h, y))
  }

  lemma MoveFlagElsewhere(s: State, g: string, e: G.PromotionEvent, s': State)
    requires StoreSane(s) && ObjectsOk(s) && EventOf(s, g, e) && StoredIfSome(s, e.newActive)
    requires e.newActive != e.oldActive
    requires s' == s.(store := MoveFlag(s, e).0)
    ensures OtherFlags(s, s', g, e)
  {
    hide R.Update, R.Lookup, StoreSane;
    var s1 := s;
    if e.oldActive.Some? {
      var n := GSLBService(Obj(s, e.oldActive.value)).(isActive := false);
      s1 := if R.Update(s.store, n).Saved? then s.(store := R.Update(s.store, n).store) else s;
      SaveMeans(s, n, s1);
    }
    if StoredIfSome(s, e.oldActive) && e.newActive.Some? {
      var n := GSLBService(Obj(s, e.newActive.value)).(isActive := true);
      var s2 := if R.Update(s1.store, n).Saved? then s1.(store := R.Update(s1.store, n).store) else s1;
      SaveMeans(s1, n, s2);
    }
  }

  lemma PromotionElsewhere(env: Env, s: State, g: string, e: G.PromotionEvent)
    requires !s.crashed && ObjectsOk(s) && IndexOk(s, None) && StoreSane(s) && StoredAreIndexed(s)
    requires EventOf(s, g, e) && StoredIfSome(s, e.newActive)
    ensures OtherFlags(s, HandlePromotion(env, s, e), g, e)
  {
    hide ObjectsOk, IndexOk, StoreSane, StoredIfSome, StoredAreIndexed, MoveFlag, Reschedule, Reschedulable, Flagged;
    hide EventOf;
    if e.newActive != e.oldActive {
      var (st, goesOn) := MoveFlag(s, e);
      var s1 := s.(store := st);
      MoveFlagKeeps(s, g, e, s1, goesOn);
      MoveFlagElsewhere(s, g, e, s1);
      ScheduleFrame(s, s1, None);
      if goesOn {
        OldScheduled(s, e, None);
        SameReschedulable(s, s1, e, None);
        RescheduleKeeps(env, s1, e, None);
        SameStoreFrame(s1, HandlePromotion(env, s, e));
      }
    }
  }

  lemma GroupElsewhere(env: Env, t: State, g: string, o: G.Outcome)
    requires !t.crashed && ObjectsOk(t) && IndexOk(t, None) && StoreSane(t) && StoredAreIndexed(t)
    requires !o.crashed && EventFits(t, g, o, None) && o.event.Some? && StoredIfSome(t, o.event.value.newActive)
    ensures OtherFlags(t, GroupChanged(env, t, g, o), g, o.event.value)
  {
    hide ObjectsOk, IndexOk, StoreSane, StoredAreIndexed, StoredIfSome, Flagged, Stored;
    var u := t.(groups := t.groups[g := o.group]);
    ScheduleFrame(t, u, None);
    SameStoreFrame(t, u);
    StoredAreIndexedFrame(t, u);
    EventFrame(t, u, g, o.event.value);
    StoredIfSomeFrame(t, u);
    hide EventOf;
    PromotionElsewhere(env, u, g, o.event.value);
    hide HandlePromotion;
  }

  /** Saving the record of a service touches no other. */
  lemma SaveElsewhere(s: State, id: Id)
    requires StoreSane(s)
    ensures forall h, y :: h != Obj(s, id).memberOf ==> (Flagged(SaveRecord(s, id), h, y) <==> Flagged(s, h, y))
  {
    hide StoreSane, R.Update, Flagged, Stored;
    var n := GSLBService(Obj(s, id));
    SaveMeans(s, n, SaveRecord(s, id));
  }

  lemma SaneFrame(s: State, t: State)
    requires StoreSane(s) && t.store == s.store
    ensures StoreSane(t)
  {
  }

  lemma FlipElsewhere(env: Env, s: State, s1: State, id: Id, d: ServiceData)
    requires Inv(s) && Touched(s, s1, id, d) && s1 == s.(objs := s1.objs) && s1.objs == s.objs[id := d]
    requires d.memberOf == s.objs[id].memberOf && d.isHealthy != s.objs[id].isHealthy
             && d.priority == s.objs[id].priority
    requires d.memberOf in s.groups && d.memberOf in s1.groups
    ensures var o := G.OnServiceHealthChange(s1.objs, s.groups[d.memberOf], id, d.isHealthy);
            var q := HealthChanged(env, s1, id, d.isHealthy);
            forall h, y :: h != d.memberOf ==>
              (Flagged(q, h, y) <==> Flagged(s, h, y) && !(o.event.Some? && Demotes(s1, o.event.value, h, y)))
  {
    var g, t := d.memberOf, SaveRecord(s1, id);
    InvMeans(s, id);
    InvParts(s);
    GroupIn(s, g);
    var o := G.OnServiceHealthChange(t.objs, t.groups[g], id, d.isHealthy);
    HealthChangedMeans(env, s1, id, d, t, o);
    MembersStored(s, g);
    TouchedMeans(s, s1, id, d);
    SaveRecordShrinks(s, s1, id, d);
    SavedTouches(s, s1, t, id, d);
    SaneFrame(s, s1);
    hide *;
    SaveElsewhere(s1, id);
    SameStoreFrame(s, s1);
    FlipOutcome(s, t, id, d, o);
    TouchFits(s, t, id, d, o);
    TouchedSchedule(s, t, id, d);
    StoredFromInv(s);
    ShrunkIndexed(s, t);
    NamesHeeded(s, t, id, d, o);
    FlipsFlags(env, t, g, o);
    SameDemotes(s1, t);
  }

  lemma SameDemotes(s: State, t: State)
    requires t.objs == s.objs
    ensures forall e, h, y :: Demotes(t, e, h, y) <==> Demotes(s, e, h, y)
  {
  }

  lemma FlipsFlags(env: Env, t: State, g: string, o: G.Outcome)
    requires !t.crashed && ObjectsOk(t) && IndexOk(t, None) && StoreSane(t) && StoredAreIndexed(t)
    requires !o.crashed && EventFits(t, g, o, None)
    requires o.event.Some? ==> StoredIfSome(t, o.event.value.newActive)
    ensures forall h, y :: h != g ==>
              (Flagged(GroupChanged(env, t, g, o), h, y) <==>
               Flagged(t, h, y) && !(o.event.Some? && Demotes(t, o.event.value, h, y)))
  {
    hide *;
    if o.event.Some? {
      GroupElsewhere(env, t, g, o);
      OtherFlagsMeans(t, GroupChanged(env, t, g, o), g, o.event.value);
    } else {
      NoEventStore(env, t, g, o);
      SameStoreFrame(t, GroupChanged(env, t, g, o));
    }
  }

  lemma OtherFlagsMeans(s: State, s': State, g: string, e: G.PromotionEvent)
    requires OtherFlags(s, s', g, e)
    ensures forall h, y :: h != g ==> (Flagged(s', h, y) <==> Flagged(s, h, y) && !Demotes(s, e, h, y))
  {
    hide Flagged, Demotes;
  }

  lemma NoEventStore(env: Env, t: State, g: string, o: G.Outcome)
    requires o.event.None?
    ensures GroupChanged(env, t, g, o).store == t.store
  {
    hide HandlePromotion;
  }

  // ---------- Rules and schedules of other groups ----------

  lemma EventAtHome(v: Shown, groups: Groups, e: Option<G.PromotionEvent>, g: string)
    requires e.Some? && e.value.oldActive.Some? ==> G.Get(v.objs, e.value.oldActive.value).memberOf == g
    requires e.Some? && e.value.newActive.Some? ==> G.Get(v.objs, e.value.newActive.value).memberOf == g
    ensures var u := AfterEvent(v, groups, e);
            && (forall r: Rule :: r.group != g ==> (r in u.rules <==> r in v.rules))
            && (forall y :: G.Get(v.objs, y).memberOf != g ==> G.Get(u.objs, y) == G.Get(v.objs, y))
  {
  }

  lemma EventAway(v: Shown, groups: Groups, e: Option<G.PromotionEvent>, g: string, id: Id, x: Id)
    requires e.Some? && e.value.newActive == Some(id) && e.value.oldActive == Some(x)
    requires G.Get(v.objs, id).memberOf == g != G.Get(v.objs, x).memberOf
    ensures var u := AfterEvent(v, groups, e);
            && (forall r: Rule :: r.group != g ==> (r in u.rules <==> r in v.rules && r != RuleOf(G.Get(v.objs, x))))
            && (forall y :: y != x && y != id ==> G.Get(u.objs, y) == G.Get(v.objs, y))
            && G.Get(u.objs, x) == G.Get(v.objs, x).(scheduledInterval := G.Get(v.objs, id).scheduledInterval)
  {
  }

  /** Whom the event of a flip names: members of the group, but for a service that has strayed from it. */
  lemma FlipNames(s: State, id: Id, d: ServiceData, o: G.Outcome)
    requires GroupOk(s, d.memberOf) && id in s.objs && d.memberOf == s.objs[id].memberOf
    requires FlipDecides(s.objs[id := d], s.groups[d.memberOf], id, o)
    ensures var e, w := Heeded(s, o.event), s.objs[id := d];
            && (forall x :: Strayed(s, id, x) ==>
                  d.isHealthy && e.Some? && e.value.newActive == Some(id) && e.value.oldActive == Some(x))
            && ((forall x :: !Strayed(s, id, x)) ==>
                  && (e.Some? && e.value.oldActive.Some? ==> G.Get(w, e.value.oldActive.value).memberOf == d.memberOf)
                  && (e.Some? && e.value.newActive.Some? ==> G.Get(w, e.value.newActive.value).memberOf == d.memberOf))
  {
    GroupFacts(s, d.memberOf);
    var g, e, w := s.groups[d.memberOf], Heeded(s, o.event), s.objs[id := d];
    if o.group.active.Some? {
      ActiveUp(w, o.group);
    }
    assert forall m :: m in g.members ==> G.Get(w, m).memberOf == d.memberOf;
    hide G.Elected, GroupOk;
    if e.Some? && e.value.oldActive.Some? && g.mode == G.ActivePassive && g.active.None? {
      assert Strayed(s, id, e.value.oldActive.value) || Obj(s, e.value.oldActive.value).memberOf == d.memberOf;
    }
  }

  lemma ActiveUp(w: G.World, g: G.Group)
    requires G.Elected(w, g) && g.active.Some?
    ensures g.active.value in g.members && G.Healthy(w, g.active.value)
  {
  }

  // ---------- A whole check result ----------

  /** Exactly what the other groups lose when a service `x` has strayed: its rule, its flag, its interval. */
  ghost predicate LosesTo(s: State, q: State, id: Id, x: Id) {
    var g, h := Obj(s, id).memberOf, Obj(s, x).memberOf;
    && (forall r: Rule :: r.group != g ==> (r in q.rules <==> r in s.rules && r != RuleOf(Obj(s, x))))
    && (forall k, y :: k != g ==> (Flagged(q, k, y) <==> Flagged(s, k, y) && !(k == h && y == x)))
    && (forall y :: Obj(s, y).memberOf != g && y != x ==> Obj(q, y) == Obj(s, y))
    && Obj(q, x) == Obj(s, x).(scheduledInterval := Obj(s, id).scheduledInterval)
  }

  lemma LosingMeans(s: State, q: State, id: Id, x: Id)
    requires LosesTo(s, q, id, x) && Obj(s, x).memberOf != Obj(s, id).memberOf
    ensures Spared(s, q, Obj(s, id).memberOf) <==> !HasToLose(s, id, x)
  {
    hide Flagged;
    var g, h := Obj(s, id).memberOf, Obj(s, x).memberOf;
    if Spared(s, q, g) {
      assert RuleOf(Obj(s, x)).group == h;
    }
  }

  /** The flags of the other groups after the operation on group `g` that raised the event. */
  ghost predicate FlagsBut(s: State, q: State, g: string, w: G.World, e: Option<G.PromotionEvent>) {
    forall h, y :: h != g ==>
      (Flagged(q, h, y) <==>
       Flagged(s, h, y) && !(e.Some? && e.value.newActive != e.value.oldActive && e.value.oldActive == Some(y)
                             && G.Get(w, y).memberOf == h))
  }

  /** The service as a check may change it. */
  predicate CheckedOnly(old': ServiceData, d: ServiceData) {
    d == old'.(isHealthy := d.isHealthy, failureCount := d.failureCount, roundtrip := d.roundtrip)
  }

  lemma StrayLoses(s: State, q: State, id: Id, d: ServiceData, groups: Groups, e: Option<G.PromotionEvent>, x: Id)
    requires id in s.objs && CheckedOnly(s.objs[id], d) && x != id && Obj(s, x).memberOf != d.memberOf
    requires e.Some? && e.value.newActive == Some(id) && e.value.oldActive == Some(x)
    requires Show(q) == AfterEvent(Shown(s.objs[id := d], s.groups, s.rules), groups, e)
    requires FlagsBut(s, q, d.memberOf, s.objs[id := d], e)
    ensures LosesTo(s, q, id, x)
  {
    EventAway(Shown(s.objs[id := d], s.groups, s.rules), groups, e, d.memberOf, id, x);
    hide AfterEvent, Flagged;
    assert forall y :: y != id ==> G.Get(s.objs[id := d], y) == Obj(s, y);
  }

  lemma HomeSpares(s: State, q: State, id: Id, d: ServiceData, groups: Groups, e: Option<G.PromotionEvent>)
    requires id in s.objs && CheckedOnly(s.objs[id], d)
    requires var w := s.objs[id := d];
             && (e.Some? && e.value.oldActive.Some? ==> G.Get(w, e.value.oldActive.value).memberOf == d.memberOf)
             && (e.Some? && e.value.newActive.Some? ==> G.Get(w, e.value.newActive.value).memberOf == d.memberOf)
             && Show(q) == AfterEvent(Shown(w, s.groups, s.rules), groups, e)
             && FlagsBut(s, q, d.memberOf, w, e)
    ensures Spared(s, q, d.memberOf)
  {
    EventAtHome(Shown(s.objs[id := d], s.groups, s.rules), groups, e, d.memberOf);
    hide AfterEvent, Flagged;
    assert forall y :: y != id ==> G.Get(s.objs[id := d], y) == Obj(s, y);
  }

  /** What is not heeded would withdraw no flag either. */
  lemma HeededFlags(s: State, q: State, g: string, w: G.World, e: Option<G.PromotionEvent>)
    requires FlagsBut(s, q, g, w, e) && StoredAreIndexed(s)
    ensures FlagsBut(s, q, g, w, Heeded(s, e))
  {
    assert forall h, y :: Flagged(s, h, y) ==> Stored(s, h, y);
    hide Flagged, Stored;
  }

  lemma FlipSpares(s: State, q: State, id: Id, d: ServiceData, o: G.Outcome)
    requires id in s.objs && CheckedOnly(s.objs[id], d) && d.memberOf in s.groups && StoredAreIndexed(s)
    requires FlipDecides(s.objs[id := d], s.groups[d.memberOf], id, o) && GroupOk(s, d.memberOf)
    requires Show(q) == AfterEvent(Shown(s.objs[id := d], s.groups, s.rules), s.groups[d.memberOf := o.group],
                                   Heeded(s, o.event))
    requires FlagsBut(s, q, d.memberOf, s.objs[id := d], o.event)
    ensures forall x :: Strayed(s, id, x) ==> d.isHealthy && LosesTo(s, q, id, x)
    ensures (forall x :: !Strayed(s, id, x)) ==> Spared(s, q, d.memberOf)
  {
    var w, e := s.objs[id := d], Heeded(s, o.event);
    var groups := s.groups[d.memberOf := o.group];
    FlipNames(s, id, d, o);
    HeededFlags(s, q, d.memberOf, w, o.event);
    hide FlipDecides, GroupOk, AfterEvent, Strayed, LosesTo, Spared, FlagsBut, Heeded, Show;
    forall x | Strayed(s, id, x) ensures d.isHealthy && LosesTo(s, q, id, x) {
      StrayedMeans(s, id, x);
      StrayLoses(s, q, id, d, groups, e, x);
    }
    if forall x :: !Strayed(s, id, x) {
      HomeSpares(s, q, id, d, groups, e);
    }
  }

  lemma StrayedMeans(s: State, id: Id, x: Id)
    requires Strayed(s, id, x)
    ensures x in s.index && Obj(s, x).memberOf != Obj(s, id).memberOf && x != id
  {
  }

  /** Exactly what a flip does to other groups. */
  lemma CheckElsewhere(env: Env, s: State, id: Id, success: bool, roundtrip: Duration)
    requires Inv(s) && id in s.index && Callback(s, id, success, roundtrip).Some?
    ensures var q := CheckResult(env, s, id, success, roundtrip);
            && (forall x :: Strayed(s, id, x) ==>
                  Callback(s, id, success, roundtrip) == Some(true) && LosesTo(s, q, id, x))
            && ((forall x :: !Strayed(s, id, x)) ==> Spared(s, q, Obj(s, id).memberOf))
  {
    var g, q := Obj(s, id).memberOf, CheckResult(env, s, id, success, roundtrip);
    InvMeans(s, id);
    InvParts(s);
    var c := OnResult(s.objs[id].(roundtrip := roundtrip), success);
    var w := s.objs[id := c.service];
    var s1 := s.(objs := w);
    CheckedMeans(s.objs[id].(roundtrip := roundtrip), success);
    hide Inv, GroupsOk, ObjectsOk, IndexOk, StoreOk, OnResult, HealthChanged, AfterEvent, G.OnServiceHealthChange;
    hide Flagged, Strayed, LosesTo, Spared, FlagsBut, FlipDecides, GroupOk, Demotes;
    CheckEffect(env, s, id, success, roundtrip);
    CheckedTouches(s, s1, id, success, roundtrip);
    hide Touched;
    var o := G.OnServiceHealthChange(w, s.groups[g], id, c.callback.value);
    SoundFlip(s, id, c.service, o);
    FlipElsewhere(env, s, s1, id, c.service);
    assert FlagsBut(s, q, g, w, o.event) by {
      assert q == HealthChanged(env, s1, id, c.callback.value);
      FlagsButOf(s, q, g, s1, o.event);
    }
    StoredFromInv(s);
    GroupIn(s, g);
    FlipSpares(s, q, id, c.service, o);
  }

  lemma FlagsButOf(s: State, q: State, g: string, s1: State, e: Option<G.PromotionEvent>)
    requires forall h, y :: h != g ==>
               (Flagged(q, h, y) <==> Flagged(s, h, y) && !(e.Some? && Demotes(s1, e.value, h, y)))
    ensures FlagsBut(s, q, g, s1.objs, e)
  {
    hide Flagged;
  }

  /** A check result leaves the rules, the stored flags and the services of other groups as they are, unless it
      brings up a service in a group that is down, and the one last active there belongs to another group by
      now, where it has a rule, a flag or another interval to lose. */
  lemma CheckSparesIff(env: Env, s: State, id: Id, success: bool, roundtrip: Duration)
    requires Inv(s) && id in s.index
    ensures Spared(s, CheckResult(env, s, id, success, roundtrip), Obj(s, id).memberOf) <==>
            !HitsAnother(s, id, success, roundtrip)
  {
    var q, g := CheckResult(env, s, id, success, roundtrip), Obj(s, id).memberOf;
    if Callback(s, id, success, roundtrip).None? {
      InvMeans(s, id);
      SilentSpares(env, s, id, success, roundtrip);
    } else {
      hide Inv, CheckResult, Spared, LosesTo, HasToLose, Callback, Strayed;
      CheckElsewhere(env, s, id, success, roundtrip);
      forall x | Strayed(s, id, x) ensures Spared(s, q, g) <==> !HasToLose(s, id, x) {
        StrayedMeans(s, id, x);
        LosingMeans(s, q, id, x);
      }
      StrayedIsOne(s, id);
    }
  }

  lemma StrayedIsOne(s: State, id: Id)
    ensures forall x, y :: Strayed(s, id, x) && Strayed(s, id, y) ==> x == y
  {
  }

  lemma SilentSpares(env: Env, s: State, id: Id, success: bool, roundtrip: Duration)
    requires Callback(s, id, success, roundtrip).None? && id in s.objs
    ensures Spared(s, CheckResult(env, s, id, success, roundtrip), Obj(s, id).memberOf)
  {
    hide HealthChanged;
    CheckedMeans(s.objs[id].(roundtrip := roundtrip), success);
    hide OnResult;
    SameStoreFrame(s, CheckResult(env, s, id, success, roundtrip));
  }

  /** Who is in which other group, and active there, is never touched. */
  lemma CheckKeepsGroups(env: Env, s: State, id: Id, success: bool, roundtrip: Duration)
    requires Inv(s) && id in s.index
    ensures SameGroupsBut(s.groups, CheckResult(env, s, id, success, roundtrip).groups, Obj(s, id).memberOf)
  {
    hide Inv, CheckResult, CheckShown, SameGroupsBut;
    CheckEffect(env, s, id, success, roundtrip);
    CheckShowsGroups(s, id, success, roundtrip);
  }

  lemma CheckShowsGroups(s: State, id: Id, success: bool, roundtrip: Duration)
    requires Obj(s, id).memberOf in s.groups
    ensures SameGroupsBut(s.groups, CheckShown(s, id, success, roundtrip).groups, Obj(s, id).memberOf)
  {
    hide OnResult, G.OnServiceHealthChange, EventRules, EventWorld, Heeded;
  }
}
