/** What every step of the services manager does, exactly: to the service objects, to the groups and to the
    spoof rules. All of it is determined by the state before the step. */
module ManagerEffects {
  import opened Basics
  import opened Services
  import opened Managers
  import opened ManagerInvariants
  import opened ManagerPromotions
  import opened ManagerSteps
  import opened ManagerLeaving
  import opened ManagerRuns
  import G = ServiceGroups
  import R = ServiceRepos
  import S = Schedulers

  // ---------- The visible part of a state ----------

  type Groups = map<string, G.Group>

  datatype Shown = Shown(objs: G.World, groups: Groups, rules: set<Rule>)

  function Show(s: State): Shown {
    Shown(s.objs, s.groups, s.rules)
  }

  /** The rules and the objects after a promotion that is carried out. */
  function EventRules(w: G.World, rules: set<Rule>, e: Option<G.PromotionEvent>): set<Rule> {
    if e.None? || e.value.newActive == e.value.oldActive then rules
    else
      (if e.value.oldActive.Some? then rules - {RuleOf(G.Get(w, e.value.oldActive.value))} else rules)
      + (if e.value.newActive.Some? then {RuleOf(G.Get(w, e.value.newActive.value))} else {})
  }

  function EventWorld(w: G.World, e: Option<G.PromotionEvent>): G.World {
    if e.None? || e.value.newActive == e.value.oldActive then w else PromotedWorld(w, e.value)
  }

  function AfterEvent(v: Shown, groups: Groups, e: Option<G.PromotionEvent>): Shown {
    Shown(EventWorld(v.objs, e), groups, EventRules(v.objs, v.rules, e))
  }

  /** The group operation with outcome `o` on group `g`. */
  function AfterGroup(v: Shown, g: string, o: G.Outcome): Shown {
    AfterEvent(v, v.groups[g := o.group], o.event)
  }

  /** The same when a service leaves, and perhaps the group with it. */
  function AfterLeave(v: Shown, g: string, o: G.Outcome): Shown {
    AfterEvent(v, if o.group.members == [] then v.groups - {g} else v.groups[g := o.group], o.event)
  }

  // ---------- When a promotion is carried out ----------

  ghost predicate CarriedOut(s: State, e: G.PromotionEvent) {
    e.newActive != e.oldActive && StoredIfSome(s, e.oldActive) && StoredIfSome(s, e.newActive)
  }

  /** A promotion takes effect exactly when both services it names still have a stored record; otherwise
      it is abandoned half-way, without any announcement. */
  lemma PromotionEffect(env: Env, s: State, g: string, e: G.PromotionEvent, except: Option<Id>)
    requires !s.crashed && ObjectsOk(s) && IndexOk(s, except) && StoreSane(s) && StoredAreIndexed(s)
    requires EventOf(s, g, e)
    requires e.newActive.Some? ==> e.newActive != except
    requires e.oldActive == except && except.Some? && except.value in s.index ==> s.index[except.value] in s.schedulers
    ensures Show(HandlePromotion(env, s, e)) ==
            if CarriedOut(s, e) then AfterEvent(Show(s), s.groups, Some(e)) else Show(s)
  {
    hide ObjectsOk, IndexOk, StoreSane, StoredIfSome, StoredAreIndexed, MoveFlag, Reschedule, Reschedulable;
    if e.newActive != e.oldActive {
      var (st, goesOn) := MoveFlag(s, e);
      var s1 := s.(store := st);
      MoveFlagKeeps(s, g, e, s1, goesOn);
      ScheduleFrame(s, s1, except);
      if goesOn {
        OldScheduled(s, e, except);
        SameReschedulable(s, s1, e, except);
        RescheduleKeeps(env, s1, e, except);
      }
    }
  }

  lemma StoredIffRegistered(s: State, id: Id)
    requires Inv(s)
    ensures id in s.index ==> id in s.objs
    ensures id in s.objs ==> (Stored(s, s.objs[id].memberOf, id) <==> id in s.index)
  {
    if id in s.objs {
      var g := s.objs[id].memberOf;
      assert Stored(s, g, id) <==> IsMember(s, g, id);
      assert g in s.groups ==> GroupOk(s, g);
    }
  }

  lemma StoredIfSomeFrame(s: State, t: State)
    requires t.store == s.store && t.objs == s.objs
    ensures forall x :: StoredIfSome(t, x) == StoredIfSome(s, x)
  {
  }

  lemma StoredAreIndexedFrame(s: State, t: State)
    requires t.store == s.store && t.index == s.index && StoredAreIndexed(s)
    ensures StoredAreIndexed(t)
  {
    SameStoreFrame(s, t);
    hide Stored;
  }

  lemma EventFrame(s: State, t: State, g: string, e: G.PromotionEvent)
    requires t.store == s.store && t.objs == s.objs && EventOf(s, g, e)
    ensures EventOf(t, g, e)
  {
    SameStoreFrame(s, t);
    hide Flagged;
  }

  lemma StoredNone(t: State)
    ensures StoredIfSome(t, None)
  {
  }

  lemma EventFitsExcept(t: State, g: string, o: G.Outcome, except: Option<Id>)
    requires EventFits(t, g, o, except) && o.event.Some?
    ensures o.event.value.newActive == o.group.active
  {
  }

  lemma FaithfulMeans(t: State, g: string, before: G.Group, o: G.Outcome)
    requires o.event.Some? && G.FaithfulEvent(t.objs, before, o)
    ensures o.event.value.newActive != before.active
    ensures before.active.Some? ==> o.event.value.oldActive == before.active
    ensures o.group.active.Some? ==> o.group.active.value in o.group.members
  {
  }

  lemma MembersStored(s: State, g: string)
    requires Inv(s) && g in s.groups
    ensures forall m :: m in s.groups[g].members ==> StoredIfSome(s, Some(m))
  {
    GroupIn(s, g);
    GroupFacts(s, g);
    forall m | m in s.groups[g].members ensures StoredIfSome(s, Some(m)) {
      assert IsMember(s, g, m) && Stored(s, g, m);
    }
  }

  lemma LeavableActive(p: State, g: string, id: Id)
    requires Leavable(p, g, id)
    ensures p.groups[g].active.Some? ==> p.groups[g].active.value in p.groups[g].members
  {
  }

  // ---------- A group operation ----------

  /** The event that takes effect, if any. */
  ghost function Effective(t: State, e: Option<G.PromotionEvent>): Option<G.PromotionEvent> {
    if e.Some? && CarriedOut(t, e.value) then e else None
  }

  lemma GroupEffect(env: Env, t: State, g: string, o: G.Outcome, except: Option<Id>)
    requires !t.crashed && ObjectsOk(t) && IndexOk(t, except) && StoreSane(t) && StoredAreIndexed(t)
    requires !o.crashed && EventFits(t, g, o, except)
    ensures Show(GroupChanged(env, t, g, o)) == AfterEvent(Show(t), t.groups[g := o.group], Effective(t, o.event))
  {
    hide ObjectsOk, IndexOk, StoreSane, StoredAreIndexed, StoredIfSome, SameServices, Flagged, Stored;
    hide EventRules, PromotedWorld;
    if o.event.Some? {
      var u := t.(groups := t.groups[g := o.group]);
      ScheduleFrame(t, u, except);
      SameStoreFrame(t, u);
      StoredAreIndexedFrame(t, u);
      EventFrame(t, u, g, o.event.value);
      StoredIfSomeFrame(t, u);
      PromotionEffect(env, u, g, o.event.value, except);
      hide HandlePromotion;
      NoEvent(Show(t), t.groups[g := o.group]);
    } else {
      NoEvent(Show(t), t.groups[g := o.group]);
    }
  }

  lemma NoEvent(v: Shown, groups: Groups)
    ensures AfterEvent(v, groups, None) == v.(groups := groups)
  {
  }

  /** An event between services with records takes effect, or would change nothing anyway. */
  lemma EffectiveEvent(t: State, v: Shown, groups: Groups, e: Option<G.PromotionEvent>)
    requires e.Some? ==> StoredIfSome(t, e.value.oldActive) && StoredIfSome(t, e.value.newActive)
    ensures AfterEvent(v, groups, Effective(t, e)) == AfterEvent(v, groups, e)
  {
  }

  /** A group operation that names only members with records. */
  lemma FullGroupEffect(env: Env, t: State, g: string, o: G.Outcome, before: G.Group, except: Option<Id>)
    requires !t.crashed && ObjectsOk(t) && IndexOk(t, except) && StoreSane(t) && StoredAreIndexed(t)
    requires !o.crashed && EventFits(t, g, o, except) && G.FaithfulEvent(t.objs, before, o)
    requires o.event.Some? ==> o.event.value.oldActive == before.active
    requires StoredIfSome(t, before.active)
    requires forall m :: m in o.group.members ==> StoredIfSome(t, Some(m))
    ensures Show(GroupChanged(env, t, g, o)) == AfterGroup(Show(t), g, o)
  {
    if o.event.Some? {
      FaithfulMeans(t, g, before, o);
      EventFitsExcept(t, g, o, except);
    }
    StoredNone(t);
    hide StoredIfSome;
    assert o.event.Some? ==> StoredIfSome(t, o.event.value.newActive);
    EffectiveEvent(t, Show(t), t.groups[g := o.group], o.event);
    hide AfterEvent;
    GroupEffect(env, t, g, o, except);
  }

  lemma StoredMember(t: State, u: State, g: string, x: Id)
    requires AlmostInv(u, g) && u == t.(groups := u.groups) && g in u.groups && x in u.groups[g].members
    ensures StoredIfSome(t, Some(x))
  {
    assert IsMember(u, g, x) && Stored(u, g, x) && GroupOk(u, g);
    SameStoreFrame(t, u);
  }

  /** A group operation that leaves a sound state but for the flags. */
  lemma SettledEffect(env: Env, t: State, g: string, o: G.Outcome, before: G.Group)
    requires !o.crashed && EventFits(t, g, o, None) && AlmostInv(t.(groups := t.groups[g := o.group]), g)
    requires G.FaithfulEvent(t.objs, before, o) && (o.event.Some? ==> o.event.value.oldActive == before.active)
    requires before.active.Some? ==> before.active.value in o.group.members
    ensures Show(GroupChanged(env, t, g, o)) == AfterGroup(Show(t), g, o)
  {
    hide *;
    var u := t.(groups := t.groups[g := o.group]);
    AlmostInvGives(t, u, g);
    StoredNone(t);
    forall m | m in o.group.members ensures StoredIfSome(t, Some(m)) {
      StoredMember(t, u, g, m);
    }
    if before.active.Some? {
      assert Some(before.active.value) == before.active;
    }
    FullGroupEffect(env, t, g, o, before, None);
  }

  /** An election's event demotes the active that the group had. */
  lemma ElectionDemotesActive(sort: G.Sorter, w: G.World, g: G.Group, id: Id)
    requires g.mode != G.ActiveActiveRoundTrip
    ensures var o := G.Update(sort, w, g); o.event.Some? ==> o.event.value.oldActive == g.active
    ensures var o := G.RegisterMember(sort, w, g, id); o.event.Some? ==> o.event.value.oldActive == g.active
    ensures var o := G.RemoveMember(sort, w, g, id); o.event.Some? ==> o.event.value.oldActive == g.active
  {
    hide G.SetGroupMode;
    if g.members != [] {
      G.UpdateChooses(sort, w, g);
    }
    if id !in g.members {
      G.UpdateChooses(sort, w, g.(members := g.members + [id]));
    } else if G.Without(g.members, id) != [] {
      G.UpdateChooses(sort, w, g.(members := G.Without(g.members, id)));
    }
  }

  // ---------- A first registration ----------

  function RegisterShown(env: Env, s: State, n: ServiceData): Shown {
    var w := s.objs[n.id := n];
    AfterGroup(Shown(w, s.groups, s.rules), n.memberOf,
               G.RegisterMember(env.sort, w, GroupOrNew(s, n.memberOf), n.id))
  }

  lemma RegisterNewEffect(env: Env, s: State, n: ServiceData)
    requires Inv(s) && n.id !in s.index && SaneService(n)
    ensures Show(RegisterNew(env, s, n)) == RegisterShown(env, s, n)
  {
    var g, t := n.memberOf, Announced(env, s, n);
    var before := GroupOrNew(s, g);
    var o := G.RegisterMember(env.sort, t.objs, before, n.id);
    InvParts(s);
    SoundGroup(s, g);
    hide AfterGroup, Announced, ObjectsOk, IndexOk, GroupsOk, StoreOk, SaneService, Inv, RegisterNew, GroupChanged;
    hide G.RegisterMember, GroupOrNew, AlmostInv, EventFits, G.FaithfulEvent, G.Elected, IsMember, FlagsAtMost;
    AnnouncedFirst(env, s, n);
    AnnouncedSchedule(env, s, n);
    JoinReady(env, s, t, n, o);
    JoinOutcome(s, t.objs, n, env.sort, o);
    ElectionDemotesActive(env.sort, t.objs, before, n.id);
    SettledEffect(env, t, g, o, before);
  }

  /** The group of this name, or the new group that it would get. */
  lemma SoundGroup(s: State, g: string)
    requires GroupsOk(s)
    ensures var grp := GroupOrNew(s, g);
            && grp.mode != G.ActiveActiveRoundTrip
            && (forall m :: m in grp.members <==> IsMember(s, g, m))
            && (grp.active.Some? ==> IsMember(s, g, grp.active.value))
  {
    if g in s.groups {
      GroupIn(s, g);
      GroupFacts(s, g);
    }
  }

  // ---------- A change within the group ----------

  function RefreshShown(env: Env, s: State, n: ServiceData): Shown
    requires n.memberOf in s.groups
  {
    var w := s.objs[n.id := Assign(Obj(s, n.id), n)];
    AfterGroup(Shown(w, s.groups, s.rules), n.memberOf, G.Update(env.sort, w, s.groups[n.memberOf]))
  }

  lemma RefreshEffect(env: Env, s: State, n: ServiceData)
    requires Inv(s) && n.id in s.index && n.memberOf == Obj(s, n.id).memberOf && Assignable(n)
    ensures n.memberOf in s.groups
    ensures Show(RefreshGroup(env, s.(objs := s.objs[n.id := Assign(Obj(s, n.id), n)]), n.memberOf))
         == RefreshShown(env, s, n)
  {
    var id, g := n.id, n.memberOf;
    InvMeans(s, id);
    var d := Assign(s.objs[id], n);
    var t := s.(objs := s.objs[id := d]);
    var before := s.groups[g];
    var o := G.Update(env.sort, t.objs, before);
    var u := t.(groups := t.groups[g := o.group]);
    InvParts(s);
    SoundGroup(s, g);
    GroupIn(s, g);
    assert RefreshGroup(env, t, g) == GroupChanged(env, t, g, o);
    hide AfterGroup, ObjectsOk, IndexOk, GroupsOk, StoreOk, Assignable, SaneService, Inv, GroupChanged, RefreshGroup;
    hide G.Update, AlmostInv, EventFits, G.FaithfulEvent, G.Elected, FlagsAtMost, GroupOk, FlagsShrunk, StoreSane;
    AssignTouches(s, t, id, n);
    UpdateOutcome(s, t.objs, id, d, env.sort, o);
    SameFlags(s, t);
    SoundLast(s, g);
    hide Touched, ConfigChanged;
    TouchAlmost(s, t, u, id, d, o);
    TouchFits(s, t, id, d, o);
    ElectionDemotesActive(env.sort, t.objs, before, id);
    SettledEffect(env, t, g, o, before);
  }

  lemma SoundLast(s: State, g: string)
    requires GroupOk(s, g)
    ensures s.groups[g].lastActive.Some? ==> s.groups[g].lastActive.value in s.objs
    ensures s.groups[g].active.Some? ==> s.groups[g].active.value in s.objs
  {
    GroupFacts(s, g);
  }

  // ---------- Leaving a group ----------

  lemma LeaveEffect(env: Env, p: State, g: string, id: Id, except: Option<Id>)
    requires !p.crashed && ObjectsOk(p) && IndexOk(p, except) && StoreSane(p) && StoredAreIndexed(p)
    requires Leavable(p, g, id) && ActiveFlagged(p, g)
    requires except.Some? ==> except == Some(id) && (id in p.index ==> p.index[id] in p.schedulers)
    requires forall m :: m in p.groups[g].members ==> StoredIfSome(p, Some(m))
    ensures Show(LeaveGroup(env, p, g, id))
         == AfterLeave(Show(p), g, G.RemoveMember(env.sort, p.objs, p.groups[g], id))
  {
    var before := p.groups[g];
    var o := G.RemoveMember(env.sort, p.objs, before, id);
    LeavableMode(p, g, id);
    LeaveGroupMeans(env, p, g, id, o);
    LeaveShown(Show(p), g, o);
    hide *;
    LeaveOutcome(p, g, id, env.sort, o);
    LeaveFits(p, g, id, o, except);
    LeavableActive(p, g, id);
    ElectionDemotesActive(env.sort, p.objs, before, id);
    StoredNone(p);
    if before.active.Some? {
      assert Some(before.active.value) == before.active;
    }
    FullGroupEffect(env, p, g, o, before, except);
  }

  lemma LeavableMode(p: State, g: string, id: Id)
    requires Leavable(p, g, id)
    ensures g in p.groups && p.groups[g].mode != G.ActiveActiveRoundTrip
  {
  }

  lemma LeaveGroupMeans(env: Env, p: State, g: string, id: Id, o: G.Outcome)
    requires g in p.groups && o == G.RemoveMember(env.sort, p.objs, p.groups[g], id)
    ensures var c, q := Show(GroupChanged(env, p, g, o)), Show(LeaveGroup(env, p, g, id));
            c.groups == p.groups[g := o.group] ==>
              q == if o.group.members == [] then c.(groups := c.groups - {g}) else c
  {
    hide GroupChanged, G.RemoveMember;
  }

  lemma LeaveShown(v: Shown, g: string, o: G.Outcome)
    ensures var c := AfterGroup(v, g, o);
            && c.groups == v.groups[g := o.group]
            && AfterLeave(v, g, o) == if o.group.members == [] then c.(groups := c.groups - {g}) else c
  {
    hide EventRules, EventWorld;
    assert v.groups[g := o.group] - {g} == v.groups - {g};
  }

  function RemoveShown(env: Env, s: State, id: Id): Shown
    requires Obj(s, id).memberOf in s.groups
  {
    var g := Obj(s, id).memberOf;
    AfterLeave(Show(s), g, G.RemoveMember(env.sort, s.objs, s.groups[g], id))
  }

  lemma RemoveEffect(env: Env, s: State, id: Id)
    requires Inv(s) && id in s.index
    ensures Obj(s, id).memberOf in s.groups
    ensures Show(RemoveService(env, s, id)) == RemoveShown(env, s, id)
  {
    InvMeans(s, id);
    var g, d := s.objs[id].memberOf, s.index[id];
    InvParts(s);
    IndexedAt(s, id, None);
    var p := s.(schedulers := s.schedulers[d := S.Remove(s.schedulers[d], id).0]);
    var q := LeaveGroup(env, p, g, id);
    RemoveMeans(env, s, id, p, q);
    hide ObjectsOk, IndexOk, GroupsOk, StoreOk, Leavable, ActiveFlagged, StoreSane, StoredAreIndexed, StoredIfSome;
    hide S.Remove, LeaveGroup, RemoveService, AfterLeave, G.RemoveMember;
    GroupLeavable(s, g, id);
    StoredFromInv(s);
    UnscheduledOk(s, p, id);
    LeavableFrame(s, p, g, id);
    MembersStored(s, g);
    StoredIfSomeFrame(s, p);
    hide Inv;
    LeaveEffect(env, p, g, id, Some(id));
  }

  lemma RemoveMeans(env: Env, s: State, id: Id, p: State, q: State)
    requires id in s.index && s.index[id] in s.schedulers && Obj(s, id).memberOf in s.groups
    requires p == s.(schedulers := s.schedulers[s.index[id] := S.Remove(s.schedulers[s.index[id]], id).0])
    requires q == LeaveGroup(env, p, Obj(s, id).memberOf, id)
    ensures Show(RemoveService(env, s, id)) == Show(q)
  {
    hide LeaveGroup, S.Remove, R.Delete;
  }

  // ---------- Moving to another group ----------

  lemma RelabelledTouches(s: State, t: State, id: Id, g: string, d: ServiceData)
    requires Relabelled(s, t, id, g, d)
    ensures Touched(s, t, id, d) && StoreSane(t) && t.groups == s.groups && id in s.objs
    ensures t.objs == s.objs[id := d] && t.index == s.index && !t.crashed == !s.crashed && id in s.index
  {
    hide SaneService, StoreSane, Stored, Flagged;
  }

  lemma RelabelledIndexed(s: State, t: State, id: Id, g: string, d: ServiceData)
    requires StoredAreIndexed(s) && Relabelled(s, t, id, g, d) && id in s.index && t.index == s.index
    ensures StoredAreIndexed(t)
  {
    hide Stored, Flagged, StoreSane, SaneService, Touched;
  }

  /** Whoever is or becomes a member of the new group has a record under it. */
  lemma RelabelledStored(s: State, t: State, id: Id, g: string, d: ServiceData)
    requires Inv(s) && Relabelled(s, t, id, g, d)
    requires t.objs == s.objs[id := d] && id in s.objs && s.objs[id].memberOf == g
    ensures forall m :: IsMember(s, d.memberOf, m) || m == id ==> StoredIfSome(t, Some(m))
  {
    hide ObjectsOk, IndexOk, StoreOk, StoreSane, SaneService, G.Elected;
    if d.memberOf in s.groups {
      MembersStored(s, d.memberOf);
      GroupIn(s, d.memberOf);
    }
    hide Inv, Stored, Flagged, Touched;
    forall m | IsMember(s, d.memberOf, m) || m == id ensures StoredIfSome(t, Some(m)) {
      if m != id {
        assert StoredIfSome(s, Some(m)) && s.objs[m].memberOf == d.memberOf;
      }
    }
  }

  lemma InBothStored(s: State, p: State, id: Id, g: string, d: ServiceData, o: G.Outcome)
    requires Inv(s) && InBoth(s, p, id, d, o) && Recorded(s, p, id, g, d, o)
    requires s.objs[id].memberOf == g != d.memberOf && g in s.groups
    ensures p.groups[g] == s.groups[g]
    ensures forall m :: m in p.groups[g].members ==> StoredIfSome(p, Some(m))
  {
    hide ObjectsOk, IndexOk, Flagged, StoreSane, G.Elected;
    MembersStored(s, g);
    hide Stored;
    GroupIn(s, g);
    forall m | m in p.groups[g].members ensures StoredIfSome(p, Some(m)) {
      if m != id {
        assert StoredIfSome(s, Some(m));
      }
    }
  }

  /** Joining the new group, and then leaving the old one: both operations are determined by the objects
      with their new configuration. */
  function JoinOutcomeOf(env: Env, s: State, n: ServiceData): G.Outcome {
    G.RegisterMember(env.sort, s.objs[n.id := Assign(Obj(s, n.id), n)], GroupOrNew(s, n.memberOf), n.id)
  }

  function LeaveOutcomeOf(env: Env, s: State, n: ServiceData): G.Outcome
    requires Obj(s, n.id).memberOf in s.groups
  {
    G.RemoveMember(env.sort, s.objs[n.id := Assign(Obj(s, n.id), n)], s.groups[Obj(s, n.id).memberOf], n.id)
  }

  function JoinShown(env: Env, s: State, n: ServiceData): Shown {
    AfterGroup(Shown(s.objs[n.id := Assign(Obj(s, n.id), n)], s.groups, s.rules), n.memberOf, JoinOutcomeOf(env, s, n))
  }

  function MoveShown(env: Env, s: State, n: ServiceData): Shown
    requires Obj(s, n.id).memberOf in s.groups
  {
    AfterLeave(JoinShown(env, s, n), Obj(s, n.id).memberOf, LeaveOutcomeOf(env, s, n))
  }

  /** The state between joining and leaving. */
  function Joined(env: Env, s: State, n: ServiceData): State {
    var d := Assign(Obj(s, n.id), n);
    var t := s.(objs := s.objs[n.id := d],
                store := R.Create(R.Delete(s.store, Obj(s, n.id).memberOf, n.id), GSLBService(d)));
    GroupChanged(env, t, d.memberOf, G.RegisterMember(env.sort, t.objs, GroupOrNew(t, d.memberOf), n.id))
  }

  lemma JoinedThenLeft(env: Env, s: State, n: ServiceData)
    requires Assign(Obj(s, n.id), n).memberOf == n.memberOf
    ensures ChangeGroup(env, s.(objs := s.objs[n.id := Assign(Obj(s, n.id), n)]), Obj(s, n.id).memberOf, n.id)
         == LeaveGroup(env, Joined(env, s, n), Obj(s, n.id).memberOf, n.id)
  {
    hide Assign, R.Create, R.Delete, LeaveGroup, GroupChanged, G.RegisterMember;
  }

  lemma JoinEffect(env: Env, s: State, n: ServiceData)
    requires Inv(s) && n.id in s.index && n.memberOf != Obj(s, n.id).memberOf && Assignable(n)
    ensures var p, d, o := Joined(env, s, n), Assign(s.objs[n.id], n), JoinOutcomeOf(env, s, n);
            && n.id in s.objs && Show(p) == JoinShown(env, s, n)
            && InBoth(s, p, n.id, d, o) && Recorded(s, p, n.id, s.objs[n.id].memberOf, d, o)
  {
    var id, g, h := n.id, Obj(s, n.id).memberOf, n.memberOf;
    InvMeans(s, id);
    var d := Assign(s.objs[id], n);
    var t := s.(objs := s.objs[id := d], store := R.Create(R.Delete(s.store, g, id), GSLBService(d)));
    var before := GroupOrNew(s, h);
    var o := G.RegisterMember(env.sort, t.objs, before, id);
    InvParts(s);
    SoundGroup(s, h);
    assert Joined(env, s, n) == GroupChanged(env, t, h, o);
    hide AfterGroup, ObjectsOk, IndexOk, GroupsOk, StoreOk, Assignable, SaneService, Inv, GroupChanged, Joined;
    hide G.RegisterMember, EventFits, G.FaithfulEvent, G.Elected, FlagsAtMost, StoreSane, R.Create, R.Delete;
    hide GroupOrNew, IsMember, StoredIfSome, StoredAreIndexed, InBoth, Recorded, Stored;
    AssignTouches(s, t, id, n);
    NotStored(s, id, h);
    RelabelMeans(s, t, id, g, d);
    RelabelledTouches(s, t, id, g, d);
    TouchedSchedule(s, t, id, d);
    hide Touched;
    RelabelledStored(s, t, id, g, d);
    StoredFromInv(s);
    RelabelledIndexed(s, t, id, g, d);
    MoveInOutcome(s, t.objs, id, d, env.sort, o);
    MoveInFits(s, t, id, g, d, o);
    MovedIn(env, s, t, id, g, d, o);
    ElectionDemotesActive(env.sort, t.objs, before, id);
    StoredNone(t);
    hide Relabelled;
    FullGroupEffect(env, t, h, o, before, None);
  }

  /** Intervals are no concern of an election. */
  lemma EventAlike(w: G.World, e: Option<G.PromotionEvent>, ms: seq<Id>)
    ensures G.Alike(EventWorld(w, e), w, ms)
    ensures forall x :: RuleOf(G.Get(EventWorld(w, e), x)) == RuleOf(G.Get(w, x)) || x !in w
  {
  }

  lemma MoveEffect(env: Env, s: State, n: ServiceData)
    requires Inv(s) && n.id in s.index && n.memberOf != Obj(s, n.id).memberOf && Assignable(n)
    ensures Obj(s, n.id).memberOf in s.groups
    ensures Show(ChangeGroup(env, s.(objs := s.objs[n.id := Assign(Obj(s, n.id), n)]), Obj(s, n.id).memberOf, n.id))
         == MoveShown(env, s, n)
  {
    var id, g := n.id, Obj(s, n.id).memberOf;
    InvMeans(s, id);
    var p, d, o := Joined(env, s, n), Assign(s.objs[id], n), JoinOutcomeOf(env, s, n);
    var w := s.objs[id := d];
    InvParts(s);
    SoundGroup(s, g);
    JoinedThenLeft(env, s, n);
    JoinEffect(env, s, n);
    assert p.objs == EventWorld(w, o.event);
    EventAlike(w, o.event, s.groups[g].members);
    G.RemoveFrame(env.sort, p.objs, w, s.groups[g], id);
    hide ObjectsOk, IndexOk, GroupsOk, StoreOk, Inv, Assignable, AfterEvent, Joined, InBoth, Recorded, StoreSane;
    hide G.RemoveMember, G.RegisterMember, LeaveGroup, Leavable, ActiveFlagged, StoredAreIndexed, StoredIfSome, Stored;
    HomedIn(s, id);
    InBothMeans(s, p, id, d, o);
    RecordedSane(s, p, id, g, d, o);
    InBothLeavable(s, p, id, g, d, o);
    InBothFlagged(s, p, id, g, d, o);
    InBothStored(s, p, id, g, d, o);
    LeaveEffect(env, p, g, id, None);
  }

  // ---------- Updates ----------

  /** An update up to the point where the service may follow its new default interval. */
  function RegroupedShown(env: Env, s: State, n: ServiceData): Shown
    requires Obj(s, n.id).memberOf in s.groups
  {
    if n.memberOf == Obj(s, n.id).memberOf then RefreshShown(env, s, n) else MoveShown(env, s, n)
  }

  lemma SaveRecordShows(s: State, id: Id)
    ensures Show(SaveRecord(s, id)) == Show(s)
  {
  }

  lemma RegroupedEffect(env: Env, s: State, n: ServiceData)
    requires Inv(s) && n.id in s.index && Assignable(n)
    ensures Obj(s, n.id).memberOf in s.groups
    ensures Show(Regrouped(env, s, n)) == RegroupedShown(env, s, n)
  {
    hide Inv, Show, RefreshShown, MoveShown, SaveRecord, RefreshGroup, ChangeGroup, Assignable, Assign;
    var t := s.(objs := s.objs[n.id := Assign(Obj(s, n.id), n)]);
    if n.memberOf == Obj(s, n.id).memberOf {
      RefreshEffect(env, s, n);
      SaveRecordShows(RefreshGroup(env, t, n.memberOf), n.id);
    } else {
      MoveEffect(env, s, n);
      SaveRecordShows(ChangeGroup(env, t, Obj(s, n.id).memberOf, n.id), n.id);
    }
  }

  // ---------- Check results ----------

  /** A promotion that names a service which is no longer registered is not heeded. */
  function Heeded(s: State, e: Option<G.PromotionEvent>): Option<G.PromotionEvent> {
    if e.Some? && e.value.oldActive.Some? && e.value.oldActive.value !in s.index then None else e
  }

  function CheckShown(s: State, id: Id, success: bool, roundtrip: Duration): Shown
    requires Obj(s, id).memberOf in s.groups
  {
    var c, g := OnResult(Obj(s, id).(roundtrip := roundtrip), success), Obj(s, id).memberOf;
    var w := s.objs[id := c.service];
    if c.callback.None? then Shown(w, s.groups, s.rules)
    else
      var o := G.OnServiceHealthChange(w, s.groups[g], id, c.callback.value);
      AfterEvent(Shown(w, s.groups, s.rules), s.groups[g := o.group], Heeded(s, o.event))
  }

  lemma CheckEffect(env: Env, s: State, id: Id, success: bool, roundtrip: Duration)
    requires Inv(s) && id in s.index
    ensures Obj(s, id).memberOf in s.groups
    ensures Show(CheckResult(env, s, id, success, roundtrip)) == CheckShown(s, id, success, roundtrip)
  {
    InvMeans(s, id);
    var c := OnResult(s.objs[id].(roundtrip := roundtrip), success);
    var s1 := s.(objs := s.objs[id := c.service]);
    InvParts(s);
    hide ObjectsOk, IndexOk, GroupsOk, StoreOk, Inv, OnResult, HealthChanged, AfterEvent, G.OnServiceHealthChange;
    CheckedTouches(s, s1, id, success, roundtrip);
    if c.callback.Some? {
      hide Touched;
      FlipEffect(env, s, s1, id, c.service);
    }
  }

  lemma FlipEffect(env: Env, s: State, s1: State, id: Id, d: ServiceData)
    requires Inv(s) && Touched(s, s1, id, d) && s1 == s.(objs := s1.objs) && s1.objs == s.objs[id := d]
    requires d.memberOf == s.objs[id].memberOf && d.isHealthy != s.objs[id].isHealthy
             && d.priority == s.objs[id].priority
    ensures d.memberOf in s.groups
    ensures var o := G.OnServiceHealthChange(s1.objs, s.groups[d.memberOf], id, d.isHealthy);
            Show(HealthChanged(env, s1, id, d.isHealthy))
            == AfterEvent(Show(s1), s.groups[d.memberOf := o.group], Heeded(s, o.event))
  {
    var g, t := d.memberOf, SaveRecord(s1, id);
    InvMeans(s, id);
    InvParts(s);
    GroupIn(s, g);
    SaveRecordShows(s1, id);
    var o := G.OnServiceHealthChange(t.objs, t.groups[g], id, d.isHealthy);
    HealthChangedMeans(env, s1, id, d, t, o);
    MembersStored(s, g);
    TouchedMeans(s, s1, id, d);
    SaveRecordShrinks(s, s1, id, d);
    SavedTouches(s, s1, t, id, d);
    hide *;
    FlipOutcome(s, t, id, d, o);
    TouchFits(s, t, id, d, o);
    TouchedSchedule(s, t, id, d);
    StoredFromInv(s);
    ShrunkIndexed(s, t);
    GroupEffect(env, t, g, o, None);
    NamesHeeded(s, t, id, d, o);
    HeededIsEffective(s, t, Show(t), t.groups[g := o.group], o.event);
  }

  lemma HealthChangedMeans(env: Env, s1: State, id: Id, d: ServiceData, t: State, o: G.Outcome)
    requires t == SaveRecord(s1, id) && d.memberOf in s1.groups && Obj(s1, id) == d
    requires o == G.OnServiceHealthChange(t.objs, t.groups[d.memberOf], id, d.isHealthy)
    ensures t.objs == s1.objs && t.groups == s1.groups && t.rules == s1.rules && t.index == s1.index
    ensures t.crashed == s1.crashed && t.schedulers == s1.schedulers
    ensures HealthChanged(env, s1, id, d.isHealthy) == GroupChanged(env, t, d.memberOf, o)
    ensures Obj(s1, id) == d ==> Show(t) == Show(s1)
  {
    hide G.OnServiceHealthChange, GroupChanged;
  }

  lemma SavedTouches(s: State, s1: State, t: State, id: Id, d: ServiceData)
    requires Touched(s, s1, id, d) && t == s1.(store := t.store)
    ensures Touched(s, t, id, d)
  {
    hide SaneService;
  }

  lemma ShrunkIndexed(s: State, t: State)
    requires StoredAreIndexed(s) && FlagsShrunk(s, t) && t.index == s.index
    ensures StoredAreIndexed(t) && StoreSane(t)
  {
    hide Stored, Flagged, StoreSane;
  }

  /** Of the services that the event of a health flip names, the new active has a record, and the old one
      if it is registered. */
  lemma NamesHeeded(s: State, t: State, id: Id, d: ServiceData, o: G.Outcome)
    requires Inv(s) && Touched(s, t, id, d) && FlagsShrunk(s, t) && GroupOk(s, d.memberOf)
    requires d.memberOf == s.objs[id].memberOf && G.FaithfulEvent(t.objs, s.groups[d.memberOf], o)
    requires o.group.members == s.groups[d.memberOf].members
    requires forall m :: m in s.groups[d.memberOf].members ==> StoredIfSome(s, Some(m))
    ensures o.event.Some? ==> StoredIfSome(t, o.event.value.newActive)
    ensures o.event.Some? ==> (StoredIfSome(t, o.event.value.oldActive) <==>
                                 (o.event.value.oldActive.Some? ==> o.event.value.oldActive.value in s.index))
  {
    if o.event.Some? {
      var e := o.event.value;
      hide ObjectsOk, IndexOk, StoreOk, G.Elected, SaneService, StoreSane;
      SoundLast(s, d.memberOf);
      ShrunkStored(s, t, id, d);
      StoredNone(t);
      if e.newActive.Some? {
        assert StoredIfSome(s, Some(e.newActive.value));
        assert e.newActive == Some(e.newActive.value);
      }
      if e.oldActive.Some? {
        StoredIffRegistered(s, e.oldActive.value);
        assert e.oldActive == Some(e.oldActive.value);
      }
    }
  }

  lemma ShrunkStored(s: State, t: State, id: Id, d: ServiceData)
    requires Touched(s, t, id, d) && FlagsShrunk(s, t) && d.memberOf == s.objs[id].memberOf
    ensures forall x :: StoredIfSome(t, x) == StoredIfSome(s, x)
  {
    hide SaneService, StoreSane, Stored, Flagged;
  }

  lemma HeededIsEffective(s: State, t: State, v: Shown, groups: Groups, e: Option<G.PromotionEvent>)
    requires e.Some? ==> StoredIfSome(t, e.value.newActive)
    requires e.Some? ==> (StoredIfSome(t, e.value.oldActive) <==>
                            (e.value.oldActive.Some? ==> e.value.oldActive.value in s.index))
    ensures AfterEvent(v, groups, Effective(t, e)) == AfterEvent(v, groups, Heeded(s, e))
  {
    hide StoredIfSome;
  }
}
