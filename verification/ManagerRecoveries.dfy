/** When a promotion that a health check brings about reaches DNS and the store. */
module ManagerRecoveries {
  import opened Basics
  import opened Services
  import opened Managers
  import opened ManagerInvariants
  import opened ManagerPromotions
  import opened ManagerSteps
  import opened ManagerLeaving
  import opened ManagerRuns
  import opened ManagerEffects
  import opened ManagerRules
  import G = ServiceGroups

  /** The service recovers in an ActivePassive group that was down, and the service last active there is
      this one itself, or is no longer registered. */
  predicate Unheard(s: State, id: Id) {
    && Obj(s, id).memberOf in s.groups
    && var g := s.groups[Obj(s, id).memberOf];
       && g.mode == G.ActivePassive && g.active.None? && g.lastActive.Some?
       && (g.lastActive == Some(id) || g.lastActive.value !in s.index)
  }

  /** Who is active after a flip of service `id`, and whom the event demotes. */
  ghost predicate FlipDecides(w: G.World, g: G.Group, id: Id, o: G.Outcome) {
    && (o.event.None? <==> o.group.active == g.active)
    && (o.event.Some? ==>
          && o.event.value.newActive == o.group.active
          && o.event.value.oldActive == if g.mode == G.ActivePassive && g.active.None? then g.lastActive else g.active)
    && (g.active.None? ==> o.group.active == Some(id))
    && (g.active == Some(id) ==> o.event.Some? && o.group.lastActive == g.active)
    && o.group.members == g.members && G.Elected(w, o.group)
  }

  lemma FlipEvent(v: G.World, w: G.World, g: G.Group, id: Id)
    requires G.Elected(v, g) && id in g.members && G.Flipped(v, w, id)
    requires forall m :: m in g.members ==> G.Priority(w, m) < MAX_INT
    ensures FlipDecides(w, g, id, G.OnServiceHealthChange(w, g, id, G.Healthy(w, id)))
  {
    G.FlipElectsBelowMaxInt(v, w, g, id);
    G.FlipBasics(v, w, g, id);
  }

  /** The flags of group `g` after a promotion there. */
  lemma PromotionFlags(env: Env, s: State, g: string, e: G.PromotionEvent, a: Id)
    requires !s.crashed && ObjectsOk(s) && IndexOk(s, None) && StoreSane(s) && StoredAreIndexed(s)
    requires EventOf(s, g, e) && e.newActive == Some(a) != e.oldActive && StoredIfSome(s, e.newActive)
    ensures Flagged(HandlePromotion(env, s, e), g, a) <==> StoredIfSome(s, e.oldActive) || Flagged(s, g, a)
  {
    hide ObjectsOk, IndexOk, StoreSane, StoredIfSome, StoredAreIndexed, MoveFlag, Reschedule, Reschedulable, Flagged;
    hide EventOf;
    var (st, goesOn) := MoveFlag(s, e);
    var s1 := s.(store := st);
    MoveFlagKeeps(s, g, e, s1, goesOn);
    ScheduleFrame(s, s1, None);
    if goesOn {
      OldScheduled(s, e, None);
      SameReschedulable(s, s1, e, None);
      RescheduleKeeps(env, s1, e, None);
      SameStoreFrame(s1, HandlePromotion(env, s, e));
    } else {
      SameStoreFrame(s, HandlePromotion(env, s, e));
    }
  }

  /** The same for the group operation that raises the event. */
  lemma GroupFlags(env: Env, t: State, g: string, o: G.Outcome, a: Id)
    requires !t.crashed && ObjectsOk(t) && IndexOk(t, None) && StoreSane(t) && StoredAreIndexed(t)
    requires !o.crashed && EventFits(t, g, o, None) && o.event.Some?
    requires o.event.value.newActive == Some(a) && StoredIfSome(t, Some(a))
    ensures var old' := o.event.value.oldActive;
            Flagged(GroupChanged(env, t, g, o), g, a) <==>
            (old' != Some(a) && StoredIfSome(t, old')) || Flagged(t, g, a)
  {
    hide ObjectsOk, IndexOk, StoreSane, StoredAreIndexed, StoredIfSome, Flagged, Stored;
    var u := t.(groups := t.groups[g := o.group]);
    ScheduleFrame(t, u, None);
    SameStoreFrame(t, u);
    StoredAreIndexedFrame(t, u);
    EventFrame(t, u, g, o.event.value);
    StoredIfSomeFrame(t, u);
    hide EventOf;
    if o.event.value.oldActive != Some(a) {
      PromotionFlags(env, u, g, o.event.value, a);
      hide HandlePromotion;
    }
  }

  ghost predicate NewlyActive(s: State, q: State, g: string, a: Id) {
    g in s.groups && g in q.groups && q.groups[g].active == Some(a) != s.groups[g].active
  }

  lemma FlipFlags(env: Env, s: State, s1: State, id: Id, d: ServiceData, a: Id)
    requires Inv(s) && Touched(s, s1, id, d) && s1 == s.(objs := s1.objs) && s1.objs == s.objs[id := d]
    requires d.memberOf == s.objs[id].memberOf && d.isHealthy != s.objs[id].isHealthy
             && d.priority == s.objs[id].priority
    requires d.memberOf in s.groups && d.memberOf in s1.groups
    requires var o := G.OnServiceHealthChange(s1.objs, s.groups[d.memberOf], id, d.isHealthy);
             && o.event.Some? && o.event.value.newActive == Some(a)
    ensures var o := G.OnServiceHealthChange(s1.objs, s.groups[d.memberOf], id, d.isHealthy);
            var old' := o.event.value.oldActive;
            && (s.groups[d.memberOf].active != Some(a) ==>
                 (Flagged(HealthChanged(env, s1, id, d.isHealthy), d.memberOf, a) <==>
                  old' != Some(a) && (old'.Some? ==> old'.value in s.index)))
  {
    var g, t := d.memberOf, SaveRecord(s1, id);
    InvMeans(s, id);
    InvParts(s);
    GroupIn(s, g);
    var o := G.OnServiceHealthChange(t.objs, t.groups[g], id, d.isHealthy);
    HealthChangedMeans(env, s1, id, d, t, o);
    MembersStored(s, g);
    TouchedMeans(s, s1, id, d);
    SaveRecordShrinks(s, s1, id, d);
    SavedTouches(s, s1, t, id, d);
    FlagsFollowActive(s, g);
    ShrunkFlag(s, t, g, a);
    hide *;
    FlipOutcome(s, t, id, d, o);
    TouchFits(s, t, id, d, o);
    TouchedSchedule(s, t, id, d);
    StoredFromInv(s);
    ShrunkIndexed(s, t);
    NamesHeeded(s, t, id, d, o);
    GroupFlags(env, t, g, o, a);
  }

  lemma ShrunkFlag(s: State, t: State, g: string, a: Id)
    requires FlagsShrunk(s, t)
    ensures Flagged(t, g, a) ==> Flagged(s, g, a)
  {
    hide StoreSane, Stored, Flagged;
  }

  /** When a check result makes a member the active of its group, then that member is announced and flagged,
      unless it is one of those recoveries; then nothing is announced, and it is not flagged. */
  lemma RecoveryHeardIff(env: Env, s: State, id: Id, success: bool, roundtrip: Duration, a: Id)
    requires Inv(s) && id in s.index
    requires NewlyActive(s, CheckResult(env, s, id, success, roundtrip), Obj(s, id).memberOf, a)
    ensures var q, g := CheckResult(env, s, id, success, roundtrip), Obj(s, id).memberOf;
            if Unheard(s, id) then q.rules == s.rules && !Flagged(q, g, a)
            else RuleOf(Obj(q, a)) in q.rules && Flagged(q, g, a)
  {
    var g := Obj(s, id).memberOf;
    InvMeans(s, id);
    InvParts(s);
    var c := OnResult(s.objs[id].(roundtrip := roundtrip), success);
    var w := s.objs[id := c.service];
    var s1 := s.(objs := w);
    hide Inv, GroupsOk, ObjectsOk, IndexOk, StoreOk, OnResult, HealthChanged, AfterEvent, G.OnServiceHealthChange;
    hide Flagged;
    CheckEffect(env, s, id, success, roundtrip);
    CheckedTouches(s, s1, id, success, roundtrip);
    hide Touched;
    if c.callback.Some? {
      var o := G.OnServiceHealthChange(w, s.groups[g], id, c.callback.value);
      SoundFlip(s, id, c.service, o);
      var v, groups := Shown(w, s.groups, s.rules), s.groups[g := o.group];
      HeardRules(v, groups, Heeded(s, o.event), o.event, a);
      assert AfterEvent(v, groups, Heeded(s, o.event)).groups[g] == o.group by {
        hide EventRules, EventWorld;
      }
      FlipFlags(env, s, s1, id, c.service, a);
    }
  }

  lemma SoundFlip(s: State, id: Id, d: ServiceData, o: G.Outcome)
    requires ObjectsOk(s) && GroupsOk(s) && id in s.index && id in s.objs && d.memberOf in s.groups
    requires d.isHealthy != s.objs[id].isHealthy && d.priority == s.objs[id].priority
             && d.memberOf == s.objs[id].memberOf
    requires o == G.OnServiceHealthChange(s.objs[id := d], s.groups[d.memberOf], id, d.isHealthy)
    ensures FlipDecides(s.objs[id := d], s.groups[d.memberOf], id, o)
    ensures var a := s.groups[d.memberOf].active; a.Some? ==> a.value in s.index
  {
    var w := s.objs[id := d];
    FlipsOne(s, id, d, w, s.groups[d.memberOf].members);
    hide *;
    HomedIn(s, id);
    GroupIn(s, d.memberOf);
    GroupFacts(s, d.memberOf);
    HomeMember(s, id);
    FlipEvent(s.objs, w, s.groups[d.memberOf], id);
  }

  lemma HomeMember(s: State, id: Id)
    requires GroupsOk(s) && id in s.index && id in s.objs && s.objs[id].memberOf in s.groups
    ensures id in s.groups[s.objs[id].memberOf].members
  {
    HomedIn(s, id);
    hide GroupsOk;
  }

  lemma FlipsOne(s: State, id: Id, d: ServiceData, w: G.World, ms: seq<Id>)
    requires ObjectsOk(s) && id in s.objs && w == s.objs[id := d]
    requires d.isHealthy != s.objs[id].isHealthy && d.priority == s.objs[id].priority
    ensures G.Flipped(s.objs, w, id) && G.Healthy(w, id) == d.isHealthy
    ensures forall m :: m in ms ==> G.Priority(w, m) < MAX_INT
  {
    assert s.objs[id].priority < MAX_INT;
  }

  lemma HeardRules(v: Shown, groups: Groups, h: Option<G.PromotionEvent>, e: Option<G.PromotionEvent>, a: Id)
    requires h.None? || h == e
    ensures var u := AfterEvent(v, groups, h);
            && (h.None? || h.value.newActive == h.value.oldActive ==> u.rules == v.rules)
            && (h.Some? && h.value.newActive == Some(a) != h.value.oldActive ==> RuleOf(G.Get(u.objs, a)) in u.rules)
  {
    SameNames(v.objs, h);
    hide EventWorld;
  }
}
