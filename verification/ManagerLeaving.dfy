/** Steps in which a service leaves a group: removal, and a change of membership. */
module ManagerLeaving {
  import opened Basics
  import opened Services
  import opened Managers
  import opened ManagerInvariants
  import opened ManagerPromotions
  import opened ManagerSteps
  import G = ServiceGroups
  import R = ServiceRepos
  import S = Schedulers

  // ---------- One service leaves a group ----------

  /** Group `g` still lists the service `id`, which may already name another group. */
  ghost predicate Leavable(p: State, g: string, id: Id) {
    && g in p.groups && id in p.objs
    && var grp := p.groups[g];
       && grp.name == g && grp.mode != G.ActiveActiveRoundTrip && NoDup(grp.members) && id in grp.members
       && (grp.lastActive.Some? ==> grp.lastActive.value in p.objs)
       && (grp.active.Some? ==>
             && grp.active.value in grp.members && grp.active.value in p.objs
             && (grp.active.value != id ==> G.Healthy(p.objs, grp.active.value)))
       && forall m :: m in grp.members && m != id ==> m in p.index && m in p.objs && p.objs[m].memberOf == g
  }

  ghost predicate ActiveFlagged(p: State, g: string) {
    forall x :: Flagged(p, g, x) ==>
                  g in p.groups && p.groups[g].active == Some(x) && x in p.objs && p.objs[x].memberOf == g
  }

  /** The group without the service, or no group at all. */
  ghost predicate Left(p: State, q: State, g: string, id: Id)
    requires g in p.groups
  {
    && (forall h :: h != g ==> (h in q.groups <==> h in p.groups))
    && (forall h :: h != g && h in p.groups ==> q.groups[h] == p.groups[h])
    && if |p.groups[g].members| == 1 then g !in q.groups
       else GroupOk(q, g) && forall m :: m in q.groups[g].members <==> m in p.groups[g].members && m != id
  }

  ghost predicate FlagsLeft(q: State, g: string, id: Id) {
    forall x :: Flagged(q, g, x) && x != id ==> g in q.groups && q.groups[g].active == Some(x)
  }

  /** How the group looks without the service. */
  lemma LeaveOutcome(p: State, g: string, id: Id, sort: G.Sorter, o: G.Outcome)
    requires Leavable(p, g, id) && o == G.RemoveMember(sort, p.objs, p.groups[g], id)
    ensures !o.crashed && o.group.name == g && G.FaithfulEvent(p.objs, p.groups[g], o)
    ensures forall m :: m in o.group.members <==> m in p.groups[g].members && m != id
    ensures if |p.groups[g].members| == 1 then o.group.members == [] && o.event.None?
            else o.group.members != [] && G.Elected(p.objs, o.group)
    ensures o.group.lastActive.Some? ==> o.group.lastActive.value in p.objs
    ensures o.event.None? && p.groups[g].active.Some? && p.groups[g].active.value != id ==>
              |p.groups[g].members| > 1 && o.group.active == p.groups[g].active
  {
    var grp := p.groups[g];
    G.RemoveElects(sort, p.objs, grp, id);
    hide G.RemoveMember, G.Elected, G.FaithfulEvent;
    if grp.active.Some? && grp.active.value != id {
      TwoMembers(grp.members, grp.active.value, id);
      if |grp.members| == 2 {
        G.SurvivorStays(sort, p.objs, grp, id, grp.active.value);
      }
    }
  }

  lemma TwoMembers(ms: seq<Id>, a: Id, b: Id)
    requires a in ms && b in ms && a != b
    ensures |ms| > 1
  {
  }

  lemma LeaveFits(p: State, g: string, id: Id, o: G.Outcome, except: Option<Id>)
    requires Leavable(p, g, id) && ActiveFlagged(p, g)
    requires except.Some? ==> except == Some(id) && (id in p.index ==> p.index[id] in p.schedulers)
    requires G.FaithfulEvent(p.objs, p.groups[g], o)
    requires forall m :: m in o.group.members <==> m in p.groups[g].members && m != id
    ensures EventFits(p, g, o, except)
  {
    hide Flagged, G.Elected;
  }

  /** Leaving a group, with the promotion it may raise. `except` is the service itself when it is no
      longer checked. */
  lemma LeaveKeeps(env: Env, p: State, g: string, id: Id, except: Option<Id>)
    requires !p.crashed && ObjectsOk(p) && IndexOk(p, except) && StoreSane(p) && StoredAreIndexed(p)
    requires Leavable(p, g, id) && ActiveFlagged(p, g)
    requires except.Some? ==> except == Some(id) && (id in p.index ==> p.index[id] in p.schedulers)
    ensures var q := LeaveGroup(env, p, g, id);
            && !q.crashed && SameServices(p, q) && ObjectsOk(q) && IndexOk(q, except)
            && StoreSane(q) && SameStored(p, q) && FlagsShrinkElsewhere(p, q, g)
            && Left(p, q, g, id) && FlagsLeft(q, g, id)
  {
    var o := G.RemoveMember(env.sort, p.objs, p.groups[g], id);
    LeaveOutcome(p, g, id, env.sort, o);
    LeaveFits(p, g, id, o, except);
    var c := GroupChanged(env, p, g, o);
    var q := LeaveGroup(env, p, g, id);
    hide ObjectsOk, IndexOk, StoreSane, StoredAreIndexed, EventFits, GroupChanged, G.RemoveMember, G.Elected;
    hide G.FaithfulEvent;
    GroupChangedKeeps(env, p, g, o, except);
    assert q == c || q == c.(groups := c.groups - {g});
    ScheduleFrame(c, q, except);
    SameStoreFrame(c, q);
    LeftGroup(p, c, q, g, id, o);
    hide LeaveGroup, Left, Leavable, ObjectsOk;
    LeftFlags(p, c, q, g, id, o);
  }

  lemma LeftGroup(p: State, c: State, q: State, g: string, id: Id, o: G.Outcome)
    requires Leavable(p, g, id) && SameServices(p, c) && c.groups == p.groups[g := o.group]
    requires q == if o.group.members == [] then c.(groups := c.groups - {g}) else c
    requires o.group.name == g && (o.group.lastActive.Some? ==> o.group.lastActive.value in p.objs)
    requires forall m :: m in o.group.members <==> m in p.groups[g].members && m != id
    requires if |p.groups[g].members| == 1 then o.group.members == []
             else o.group.members != [] && G.Elected(p.objs, o.group)
    ensures Left(p, q, g, id)
  {
    if |p.groups[g].members| != 1 {
      assert forall m :: m in o.group.members ==> m in p.objs && m in p.index;
      G.ElectedDependsOnMembersOnly(p.objs, q.objs, o.group);
      hide G.Elected;
      assert GroupOk(q, g);
    }
  }

  lemma LeftFlags(p: State, c: State, q: State, g: string, id: Id, o: G.Outcome)
    requires Changed(p, c, g, o) && ActiveFlagged(p, g)
    requires q == if o.group.members == [] then c.(groups := c.groups - {g}) else c
    requires o.event.Some? ==> o.group.members != []
    requires o.event.None? && g in p.groups && p.groups[g].active.Some? && p.groups[g].active.value != id ==>
               o.group.members != [] && o.group.active == p.groups[g].active
    ensures SameStored(p, q) && FlagsShrinkElsewhere(p, q, g) && FlagsLeft(q, g, id)
  {
    SameStoreFrame(c, q);
    hide Stored, Flagged, StoreSane, SameServices;
  }

  // ---------- Removal ----------

  lemma GroupLeavable(s: State, g: string, id: Id)
    requires Inv(s) && id in s.index && id in s.objs && s.objs[id].memberOf == g
    ensures g in s.groups && Leavable(s, g, id) && ActiveFlagged(s, g)
  {
    assert IsMember(s, g, id);
    assert GroupOk(s, g);
    GroupFacts(s, g);
    FlagsFollowActive(s, g);
  }

  /** Taking a service off its scheduler, without dropping an emptied scheduler. */
  lemma UnscheduledOk(s: State, t: State, id: Id)
    requires ObjectsOk(s) && IndexOk(s, None) && id in s.index && s.index[id] in s.schedulers
    requires t == s.(schedulers := s.schedulers[s.index[id] := S.Remove(s.schedulers[s.index[id]], id).0])
    ensures ObjectsOk(t) && IndexOk(t, Some(id)) && t.index[id] in t.schedulers
  {
    assert SchedulersOk(s);
    UnscheduledSchedulers(s, t, s.index[id], id);
    hide Scheduled, SchedulersOk, S.Remove;
  }

  lemma UnscheduledSchedulers(s: State, t: State, d: Duration, id: Id)
    requires SchedulersOk(s) && d in s.schedulers
    requires t.schedulers == s.schedulers[d := S.Remove(s.schedulers[d], id).0]
    ensures SchedulersOk(t)
    ensures forall e, x :: x != id && Scheduled(s, e, x) ==> Scheduled(t, e, x)
  {
    S.RemoveSparesOthers(s.schedulers[d], id);
    hide S.WellFormed, S.HasLive, S.Remove;
  }

  lemma StoredFromInv(s: State)
    requires Inv(s)
    ensures StoreSane(s) && StoredAreIndexed(s)
  {
    forall h, x | Stored(s, h, x) ensures x in s.index {
      assert IsMember(s, h, x) && GroupOk(s, h);
    }
  }

  lemma DeleteMeans(s: State, g: string, id: Id, t: State)
    requires StoreSane(s) && t.store == R.Delete(s.store, g, id)
    ensures StoreSane(t)
    ensures forall h, x :: Stored(t, h, x) <==> Stored(s, h, x) && !(h == g && x == id)
    ensures forall h, x :: Flagged(t, h, x) <==> Flagged(s, h, x) && !(h == g && x == id)
  {
    R.DeleteRefines(s.store, g, id);
    hide R.Delete, R.Lookup, R.WellStored, R.NoOverrides;
  }

  lemma ForgottenSchedule(q: State, t: State, id: Id)
    requires ObjectsOk(q) && IndexOk(q, Some(id))
    requires t.objs == q.objs && t.index == q.index - {id} && t.schedulers == q.schedulers
    ensures ObjectsOk(t) && IndexOk(t, None)
  {
    SchedulersFrame(q, t);
    hide SchedulersOk, Scheduled;
  }

  lemma ForgottenGroups(s: State, q: State, t: State, g: string, id: Id)
    requires GroupsOk(s) && id in s.index && g in s.groups && s.objs[id].memberOf == g && IsMember(s, g, id)
    requires SameServices(s, q) && Left(s, q, g, id)
    requires t.objs == q.objs && t.index == q.index - {id} && t.groups == q.groups
    ensures GroupsOk(t)
    ensures forall h, x :: IsMember(t, h, x) <==> IsMember(s, h, x) && !(h == g && x == id)
  {
    hide G.Elected;
    forall h | h in t.groups ensures GroupOk(t, h) {
      if h == g {
        assert GroupOk(q, g);
        GroupFacts(q, g);
        GroupOkFrame(q, t, g);
      } else {
        assert GroupOk(s, h);
        GroupFacts(s, h);
        GroupOkFrame(s, t, h);
      }
    }
    ForgottenMembers(s, q, t, g, id);
  }

  lemma ForgottenMembers(s: State, q: State, t: State, g: string, id: Id)
    requires GroupsOk(s) && id in s.index && g in s.groups && s.objs[id].memberOf == g && IsMember(s, g, id)
    requires SameServices(s, q) && Left(s, q, g, id)
    requires t.objs == q.objs && t.index == q.index - {id} && t.groups == q.groups
    ensures Homed(t)
    ensures forall h, x :: IsMember(t, h, x) <==> IsMember(s, h, x) && !(h == g && x == id)
  {
    assert |s.groups[g].members| != 1 ==> g in q.groups;
    hide GroupOk;
    forall h, x ensures IsMember(t, h, x) <==> IsMember(s, h, x) && !(h == g && x == id) {
      if h == g && |s.groups[g].members| == 1 && IsMember(s, g, x) {
        assert x == s.groups[g].members[0] == id;
      }
    }
    hide Left, IsMember;
    ForgottenHomes(s, q, t, g, id);
  }

  lemma ForgottenHomes(s: State, q: State, t: State, g: string, id: Id)
    requires Homed(s) && id in s.index && SameServices(s, q) && t.objs == q.objs && t.index == q.index - {id}
    requires forall h, x :: IsMember(t, h, x) <==> IsMember(s, h, x) && !(h == g && x == id)
    ensures Homed(t)
  {
    hide IsMember;
    forall x | x in t.index ensures x in t.objs && IsMember(t, t.objs[x].memberOf, x) {
      assert x in s.index && x in s.objs && IsMember(s, s.objs[x].memberOf, x);
      assert t.objs[x].memberOf == s.objs[x].memberOf;
    }
  }

  lemma ForgottenStore(s: State, q: State, t: State, g: string, id: Id)
    requires StoreOk(s) && StoreSane(q) && SameStored(s, q) && FlagsShrinkElsewhere(s, q, g)
    requires g in s.groups && Left(s, q, g, id) && FlagsLeft(q, g, id)
    requires t.store == R.Delete(q.store, g, id) && t.groups == q.groups
    requires forall h, x :: IsMember(t, h, x) <==> IsMember(s, h, x) && !(h == g && x == id)
    ensures StoreOk(t)
  {
    DeleteMeans(q, g, id, t);
    hide Stored, Flagged, IsMember, StoreSane, R.Delete, GroupOk;
    forall h ensures FlagsOk(t, h) {
      assert h != g ==> FlagsOk(s, h);
    }
  }

  lemma RemoveServiceKeeps(env: Env, s: State, id: Id)
    requires Inv(s)
    ensures Inv(RemoveService(env, s, id)) && RemoveService(env, s, id).index.Keys == s.index.Keys - {id}
  {
    if id in s.index {
      var g, d := Obj(s, id).memberOf, s.index[id];
      hide ObjectsOk, IndexOk, GroupsOk, StoreOk;
      IndexedAt(s, id, None);
      GroupLeavable(s, g, id);
      StoredFromInv(s);
      var p := s.(schedulers := s.schedulers[d := S.Remove(s.schedulers[d], id).0]);
      UnscheduledOk(s, p, id);
      LeavableFrame(s, p, g, id);
      hide S.Remove, Leavable, ActiveFlagged, StoreSane, StoredAreIndexed;
      LeaveKeeps(env, p, g, id, Some(id));
      var q := LeaveGroup(env, p, g, id);
      hide LeaveGroup;
      LeftFrame(s, p, q, g, id);
      RemovalRestores(s, q, g, id, RemoveService(env, s, id));
    }
  }

  lemma LeavableFrame(s: State, p: State, g: string, id: Id)
    requires p == s.(schedulers := p.schedulers)
    requires Leavable(s, g, id) && ActiveFlagged(s, g) && StoreSane(s) && StoredAreIndexed(s)
    ensures Leavable(p, g, id) && ActiveFlagged(p, g) && StoreSane(p) && StoredAreIndexed(p)
  {
    SameStoreFrame(s, p);
    hide StoreSane, Stored, Flagged;
  }

  lemma LeftFrame(s: State, p: State, q: State, g: string, id: Id)
    requires p == s.(schedulers := p.schedulers) && g in s.groups
    requires SameServices(p, q) && SameStored(p, q) && FlagsShrinkElsewhere(p, q, g) && Left(p, q, g, id)
    ensures SameServices(s, q) && SameStored(s, q) && FlagsShrinkElsewhere(s, q, g) && Left(s, q, g, id)
  {
    SameStoreFrame(s, p);
    hide Stored, Flagged, GroupOk;
  }

  lemma RemovalRestores(s: State, q: State, g: string, id: Id, t: State)
    requires Inv(s) && id in s.index && id in s.objs && s.objs[id].memberOf == g && g in s.groups
    requires !q.crashed && SameServices(s, q) && ObjectsOk(q) && IndexOk(q, Some(id))
    requires StoreSane(q) && SameStored(s, q) && FlagsShrinkElsewhere(s, q, g)
    requires Left(s, q, g, id) && FlagsLeft(q, g, id)
    requires t == q.(index := q.index - {id}, store := R.Delete(q.store, g, id))
    ensures Inv(t)
  {
    assert IsMember(s, g, id);
    hide ObjectsOk, IndexOk, GroupsOk, StoreOk, StoreSane, Left, SameServices, SameStored;
    hide FlagsShrinkElsewhere, FlagsLeft;
    ForgottenSchedule(q, t, id);
    ForgottenGroups(s, q, t, g, id);
    hide IsMember, R.Delete;
    ForgottenStore(s, q, t, g, id);
  }
}
