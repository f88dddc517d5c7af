/** What the manager stores when it shuts down. */
module ManagerShutdown {
  import opened Basics
  import opened Services
  import opened Managers
  import I = ManagerInvariants
  import Runs = ManagerRuns
  import Steps = ManagerSteps
  import G = ServiceGroups
  import R = ServiceRepos

  /** What `GetActive` answers for a group. */
  function ActiveOf(s: State, g: string): Option<Id>
    requires g in s.groups
  {
    G.GetActive(s.objs, s.groups[g])
  }

  /** The record that is stored for a member of a group. */
  function FinalRecord(s: State, g: string, id: Id, override: bool): Record
    requires g in s.groups
  {
    GSLBService(Obj(s, id)).(isActive := ActiveOf(s, g) == Some(id), hasOverride := override)
  }

  function PersistMember(s: State, st: R.Store, g: string, id: Id): R.Saved
    requires g in s.groups
  {
    R.Update(st, FinalRecord(s, g, id, R.HasOverride(st, g)))
  }

  /** The members are stored one after the other, until an update is refused. */
  function PersistGroup(s: State, st: R.Store, g: string, ids: seq<Id>): R.Saved
    requires g in s.groups
    decreases |ids|
  {
    if ids == [] then R.Saved(st)
    else
      var saved := PersistGroup(s, st, g, ids[..|ids| - 1]);
      if saved.Refused? then saved else PersistMember(s, saved.store, g, ids[|ids| - 1])
  }

  function PersistAll(s: State, st: R.Store, gs: seq<string>): R.Saved
    requires forall g :: g in gs ==> g in s.groups
    decreases |gs|
  {
    if gs == [] then R.Saved(st)
    else
      var saved := PersistAll(s, st, gs[..|gs| - 1]);
      var g := gs[|gs| - 1];
      if saved.Refused? then saved else PersistGroup(s, saved.store, g, s.groups[g].members)
  }

  /** What is stored for one member, from any state and over any store, overrides included: the record is flagged
      exactly when the member is what `GetActive` answers, and flagged as overriding exactly when its group was. */
  lemma PersistedFlags(s: State, st: R.Store, g: string, id: Id)
    requires g in s.groups && R.WellStored(st) && Obj(s, id).id == id && Obj(s, id).memberOf == g
    ensures var saved := PersistMember(s, st, g, id);
            && (saved.Refused? <==> R.Lookup(st, g, id).None?)
            && (saved.Saved? ==>
                  var r := R.Lookup(saved.store, g, id);
                  && r.Some? && r.value.isActive == (ActiveOf(s, g) == Some(id))
                  && r.value.hasOverride == R.HasOverride(st, g))
  {
    var n := FinalRecord(s, g, id, R.HasOverride(st, g));
    var rs := R.Read(st, g);
    var i := R.IndexOfId(rs, id);
    if i != -1 {
      var r := if rs[i].isActive && R.HasOverride(st, g) then n.(ip := rs[i].ip, hasOverride := true) else n;
      R.OverwritesOne(rs, i, r);
    }
    hide R.HasOverride, R.IndexOfId, G.GetActive;
  }

  lemma {:induction false} RefusedStays(s: State, st: R.Store, g: string, ids: seq<Id>, i: nat)
    requires g in s.groups && i <= |ids| && PersistGroup(s, st, g, ids[..i]).Refused?
    ensures PersistGroup(s, st, g, ids).Refused?
    decreases |ids|
  {
    hide PersistMember;
    if i < |ids| {
      assert ids[..|ids| - 1][..i] == ids[..i];
      RefusedStays(s, st, g, ids[..|ids| - 1], i);
    } else {
      assert ids[..i] == ids;
    }
  }

  lemma {:induction false} RefusedStaysAll(s: State, st: R.Store, gs: seq<string>, i: nat)
    requires i <= |gs| && (forall g :: g in gs ==> g in s.groups) && PersistAll(s, st, gs[..i]).Refused?
    ensures PersistAll(s, st, gs).Refused?
    decreases |gs|
  {
    hide PersistGroup;
    if i < |gs| {
      assert gs[..|gs| - 1][..i] == gs[..i];
      RefusedStaysAll(s, st, gs[..|gs| - 1], i);
    } else {
      assert gs[..i] == gs;
    }
  }

  /** The loop of `OnShutdown` over the members of one group. */
  method StoreMembers(s: State, st: R.Store, g: string) returns (saved: R.Saved)
    requires g in s.groups
    ensures saved == PersistGroup(s, st, g, s.groups[g].members)
  {
    var group := s.groups[g];
    var active := G.GetActive(s.objs, group);
    saved := R.Saved(st);
    for j := 0 to |group.members|
      invariant saved.Saved? && saved == PersistGroup(s, st, g, group.members[..j])
    {
      hide R.Update, R.HasOverride;
      assert group.members[..j + 1][..j] == group.members[..j];
      var id := group.members[j];
      var record := GSLBService(Obj(s, id)).(isActive := active == Some(id),
                                             hasOverride := R.HasOverride(saved.store, g));
      saved := R.Update(saved.store, record);
      if saved.Refused? {
        RefusedStays(s, st, g, group.members, j + 1);
        return;
      }
    }
    assert group.members[..|group.members|] == group.members;
  }

  /** `OnShutdown`, with the groups visited in the order `gs`. */
  method OnShutdown(s: State, gs: seq<string>) returns (saved: R.Saved)
    requires forall g :: g in gs ==> g in s.groups
    ensures saved == PersistAll(s, s.store, gs)
  {
    saved := R.Saved(s.store);
    for i := 0 to |gs|
      invariant saved.Saved? && saved == PersistAll(s, s.store, gs[..i])
    {
      hide PersistGroup;
      assert gs[..i + 1][..i] == gs[..i];
      saved := StoreMembers(s, saved.store, gs[i]);
      if saved.Refused? {
        RefusedStaysAll(s, s.store, gs, i + 1);
        return;
      }
    }
    assert gs[..|gs|] == gs;
  }

  ghost predicate Sane(st: R.Store) {
    R.WellStored(st) && R.NoOverrides(st)
  }

  ghost predicate Written(s: State, st: R.Store, g: string, id: Id)
    requires g in s.groups
  {
    R.Lookup(st, g, id) == Some(FinalRecord(s, g, id, false))
  }

  ghost predicate Ready(s: State, st: R.Store, g: string, ids: seq<Id>) {
    forall id :: id in ids ==> Obj(s, id).id == id && Obj(s, id).memberOf == g && R.Lookup(st, g, id).Some?
  }

  lemma MemberWritten(s: State, st: R.Store, g: string, id: Id)
    requires g in s.groups && Sane(st) && Ready(s, st, g, [id])
    ensures var saved := PersistMember(s, st, g, id);
            && saved.Saved? && Sane(saved.store) && R.OnlyAt(st, saved.store, g, id, Some(FinalRecord(s, g, id, false)))
  {
    R.PlainMeans(st);
    R.StoredGroup(st, g);
    assert id in [id];
    R.UpdateRefines(st, FinalRecord(s, g, id, false));
  }

  lemma {:induction false} GroupWritten(s: State, st: R.Store, g: string, ids: seq<Id>)
    requires g in s.groups && Sane(st) && Ready(s, st, g, ids)
    ensures var saved := PersistGroup(s, st, g, ids);
            && saved.Saved? && Sane(saved.store)
            && (forall id :: id in ids ==> Written(s, saved.store, g, id))
            && (forall h, x :: !(h == g && x in ids) ==> R.Lookup(saved.store, h, x) == R.Lookup(st, h, x))
    decreases |ids|
  {
    hide PersistMember, Sane, R.Lookup;
    if ids != [] {
      var n := |ids| - 1;
      GroupWritten(s, st, g, ids[..n]);
      var st1 := PersistGroup(s, st, g, ids[..n]).store;
      assert R.Lookup(st1, g, ids[n]).Some?;
      MemberWritten(s, st1, g, ids[n]);
      assert ids == ids[..n] + [ids[n]];
    }
  }

  lemma {:induction false} AllWritten(s: State, st: R.Store, gs: seq<string>)
    requires NoDup(gs) && Sane(st)
    requires forall g :: g in gs ==> g in s.groups && Ready(s, st, g, s.groups[g].members)
    ensures var saved := PersistAll(s, st, gs);
            && saved.Saved? && Sane(saved.store)
            && (forall g, id :: g in gs && id in s.groups[g].members ==> Written(s, saved.store, g, id))
            && (forall h, x :: !(h in gs && x in s.groups[h].members) ==>
                                 R.Lookup(saved.store, h, x) == R.Lookup(st, h, x))
    decreases |gs|
  {
    hide PersistGroup, Sane, R.Lookup, FinalRecord;
    if gs != [] {
      var n := |gs| - 1;
      AllWritten(s, st, gs[..n]);
      var st1 := PersistAll(s, st, gs[..n]).store;
      forall id | id in s.groups[gs[n]].members ensures R.Lookup(st1, gs[n], id).Some? {
        assert gs[n] !in gs[..n];
      }
      GroupWritten(s, st1, gs[n], s.groups[gs[n]].members);
    }
  }

  /** In every reachable state, in whatever order the groups are visited, shutting down refuses nothing
      and leaves every record up to date, and flagged exactly the member of each group that `GetActive`
      answers, which is a healthy one of the best priority whenever there is one. */
  lemma ShutdownFlagsExactlyTheActive(env: Env, run: seq<Event>, gs: seq<string>, g: string, id: Id)
    requires Runs.Admissible(env, NewManager(), run) && !Runs.Final(env, NewManager(), run).crashed
    requires NoDup(gs) && forall h :: h in gs <==> h in Runs.Final(env, NewManager(), run).groups
    ensures var s := Runs.Final(env, NewManager(), run); var saved := PersistAll(s, s.store, gs);
            && saved.Saved?
            && (R.Lookup(saved.store, g, id).Some? <==> id in s.index && Obj(s, id).memberOf == g)
            && (id in s.index && Obj(s, id).memberOf == g ==>
                  g in s.groups && R.Lookup(saved.store, g, id).value
                                   == GSLBService(Obj(s, id)).(isActive := ActiveOf(s, g) == Some(id))
                  && G.RightActive(s.objs, s.groups[g].members, ActiveOf(s, g)))
  {
    hide Runs.Final, Runs.Admissible, I.Inv, PersistAll, R.Lookup, G.RightActive, G.GetActive;
    Runs.RunKeeps(env, run);
    var s := Runs.Final(env, NewManager(), run);
    Runs.ReachableMembership(env, run, g, id);
    Runs.ReachableStore(env, run, g, id);
    if g in s.groups {
      SoundGetActive(s, g);
    }
    ShutdownWrites(s, gs, g, id);
  }

  lemma MembersAreReady(s: State, g: string)
    requires I.GroupsOk(s) && I.StoreOk(s) && I.ObjectsOk(s) && g in s.groups
    ensures Ready(s, s.store, g, s.groups[g].members)
  {
    forall x | x in s.groups[g].members
      ensures Obj(s, x).id == x && Obj(s, x).memberOf == g && R.Lookup(s.store, g, x).Some?
    {
      assert I.GroupOk(s, g) && I.IsMember(s, g, x);
      assert I.Stored(s, g, x);
    }
  }

  lemma ShutdownWrites(s: State, gs: seq<string>, g: string, id: Id)
    requires I.Inv(s) && NoDup(gs) && forall h :: h in gs <==> h in s.groups
    ensures var saved := PersistAll(s, s.store, gs);
            && saved.Saved?
            && if I.IsMember(s, g, id) then Written(s, saved.store, g, id)
               else R.Lookup(saved.store, g, id) == R.Lookup(s.store, g, id)
  {
    assert I.GroupsOk(s) && I.StoreOk(s) && I.ObjectsOk(s) && Sane(s.store);
    hide I.Inv, I.GroupsOk, I.StoreOk, I.ObjectsOk, PersistAll, R.Lookup, Ready, Sane;
    forall h | h in gs ensures Ready(s, s.store, h, s.groups[h].members) {
      MembersAreReady(s, h);
    }
    AllWritten(s, s.store, gs);
  }

  // ---------- What `GetActive` answers ----------

  /** No healthy member is listed before `a`. */
  ghost predicate FirstUp(w: G.World, ms: seq<Id>, a: Id) {
    forall i, j :: 0 <= i < j < |ms| && ms[j] == a ==> !G.Healthy(w, ms[i])
  }

  lemma {:induction false} FirstHealthyIff(w: G.World, ms: seq<Id>, a: Id)
    requires NoDup(ms) && a in ms && G.Healthy(w, a)
    ensures G.FirstHealthy(w, ms) == Some(a) <==> FirstUp(w, ms, a)
  {
    if ms[0] == a {
    } else if G.Healthy(w, ms[0]) {
      var j :| 0 <= j < |ms| && ms[j] == a;
      assert 0 < j && !FirstUp(w, ms, a);
    } else {
      var rest := ms[1..];
      FirstHealthyIff(w, rest, a);
      assert forall i :: 0 <= i < |rest| ==> rest[i] == ms[i + 1];
      if FirstUp(w, rest, a) {
        forall i, j | 0 <= i < j < |ms| && ms[j] == a ensures !G.Healthy(w, ms[i]) {
          assert i > 0 ==> ms[i] == rest[i - 1] && ms[j] == rest[j - 1];
        }
      }
    }
  }

  lemma GetActiveIsRight(w: G.World, g: G.Group)
    requires G.Elected(w, g)
    ensures G.RightActive(w, g.members, G.GetActive(w, g))
    ensures G.GetActive(w, g) == g.active <==>
            (g.mode == G.ActivePassive || g.active.None? || FirstUp(w, g.members, g.active.value))
  {
    if g.mode == G.ActiveActive {
      forall a, b | a in g.members && b in g.members ensures G.Priority(w, a) == G.Priority(w, b) {
        G.SamePriority(w, g.members, a, b);
      }
      if g.active.Some? {
        FirstHealthyIff(w, g.members, g.active.value);
      }
    }
  }

  lemma SoundGetActive(s: State, g: string)
    requires I.Inv(s) && g in s.groups
    ensures var grp := s.groups[g];
            && G.RightActive(s.objs, grp.members, ActiveOf(s, g))
            && (ActiveOf(s, g) == grp.active <==>
                grp.mode == G.ActivePassive || grp.active.None? || FirstUp(s.objs, grp.members, grp.active.value))
  {
    Runs.InvParts(s);
    Runs.GroupIn(s, g);
    Steps.GroupFacts(s, g);
    hide I.Inv, I.GroupsOk, I.GroupOk, G.Elected, G.RightActive, G.GetActive, FirstUp;
    GetActiveIsRight(s.objs, s.groups[g]);
  }

  /** In every reachable state, `GetActive` answers a right choice for every group; it is the group's own
      active if and only if the group is ActivePassive, or down, or no healthy member is listed before the
      active. */
  lemma ReachableGetActive(env: Env, run: seq<Event>, g: string)
    requires Runs.Admissible(env, NewManager(), run) && !Runs.Final(env, NewManager(), run).crashed
    requires g in Runs.Final(env, NewManager(), run).groups
    ensures var s := Runs.Final(env, NewManager(), run); var grp := s.groups[g];
            && G.RightActive(s.objs, grp.members, ActiveOf(s, g))
            && (ActiveOf(s, g) == grp.active <==>
                grp.mode == G.ActivePassive || grp.active.None? || FirstUp(s.objs, grp.members, grp.active.value))
  {
    hide Runs.Final, Runs.Admissible, I.Inv;
    Runs.RunKeeps(env, run);
    SoundGetActive(Runs.Final(env, NewManager(), run), g);
  }

  /** For instance: of two members of equal priority the second is active, and the first recovers. The
      active stays, without an event, but `GetActive` answers the first. */
  lemma GetActiveMayAnswerAnother(up: ServiceData, down: ServiceData) returns (v: G.World, w: G.World, g: G.Group)
    requires up.id != down.id && up.isHealthy && !down.isHealthy
    requires up.priority == down.priority && down.datacenter != ""
    ensures G.Elected(v, g) && down.id in g.members && G.Flipped(v, w, down.id)
    ensures G.OnServiceHealthChange(w, g, down.id, true) == G.Outcome(g, None, false)
    ensures g.active == Some(up.id) && G.GetActive(w, g) == Some(down.id)
  {
    v := map[up.id := up, down.id := down];
    w := v[down.id := down.(isHealthy := true)];
    g := G.Group("", G.ActiveActive, [down.id, up.id], Some(up.id), None, "");
    assert g.members[0] == down.id;
  }
}
