/** The stored records carry the current address and datacenter of their services. */
module ManagerRecords {
  import opened Basics
  import opened Services
  import opened Managers
  import opened ManagerInvariants
  import opened ManagerPromotions
  import opened ManagerSteps
  import opened ManagerRuns
  import G = ServiceGroups
  import R = ServiceRepos
  import S = Schedulers

  /** The record says of the service what its object says; the counter only as it was when last written. */
  ghost predicate Fits(r: Record, d: ServiceData, was: Option<Record>) {
    && r.ip == d.ip && r.datacenter == d.datacenter && r.fqdn == d.fqdn && r.isHealthy == d.isHealthy
    && (r.failureCount == d.failureCount || Some(r) == was)
  }

  ghost predicate FitsAt(s: State, was: R.Store, g: string, id: Id) {
    Stored(s, g, id) && Fits(R.Lookup(s.store, g, id).value, Obj(s, id), R.Lookup(was, g, id))
  }

  /** Every stored record fits its service, but for those of the service `except`; and it is as in the store `was`, or
      has the current counter. */
  ghost predicate Current(s: State, except: Option<Id>, was: R.Store) {
    forall g, x :: Some(x) != except && Stored(s, g, x) ==> FitsAt(s, was, g, x)
  }

  /** Every object is kept under its own id. */
  ghost predicate Named(s: State) {
    && (forall x :: x in s.objs ==> s.objs[x].id == x && x != "")
    && forall x :: x in s.index ==> x in s.objs
  }

  ghost predicate Records(s: State, except: Option<Id>, was: R.Store) {
    StoreSane(s) && Named(s) && Current(s, except, was)
  }

  // ---------- What keeps the records current ----------

  /** The same store, and the same objects but for their schedule. */
  ghost predicate Rescheduled(s: State, t: State) {
    && t.store == s.store && t.objs.Keys == s.objs.Keys && t.index.Keys <= s.objs.Keys
    && forall x :: x in s.objs ==> t.objs[x] == s.objs[x].(scheduledInterval := t.objs[x].scheduledInterval)
  }

  lemma RescheduledRecords(s: State, t: State, e: Option<Id>, was: R.Store)
    requires Records(s, e, was) && Rescheduled(s, t)
    ensures Records(t, e, was)
  {
    SameStoreFrame(s, t);
    hide StoreSane, Stored;
    forall g, x | Some(x) != e && Stored(t, g, x) ensures FitsAt(t, was, g, x) {
      assert Stored(s, g, x);
      assert FitsAt(s, was, g, x);
    }
  }

  /** One record is written from the current object. */
  lemma WrittenRecords(s: State, t: State, id: Id, active: bool, e: Option<Id>, was: R.Store)
    requires Records(s, e, was)
    requires var saved := SaveActive(s.store, Obj(s, id), active);
             t == if saved.Saved? then s.(store := saved.store) else s
    ensures Records(t, e, was)
  {
    var n := GSLBService(Obj(s, id)).(isActive := active);
    hide R.Update, R.WellStored, R.NoOverrides, R.Lookup;
    R.UpdateRefines(s.store, n);
    assert Obj(s, n.id) == Obj(s, id);
    forall g, x | Some(x) != e && Stored(t, g, x) ensures FitsAt(t, was, g, x) {
      assert !(g == n.memberOf && x == n.id) ==> Stored(s, g, x);
    }
  }

  lemma MoveReschedules(env: Env, s: State, id: Id, d: Duration)
    requires Named(s)
    ensures Rescheduled(s, MoveServiceToInterval(env, s, id, d))
  {
    hide S.Remove, ScheduleOn, Named, Rescheduled;
    var old' := Obj(s, id).scheduledInterval;
    var s1 := if id in s.index
              then s.(index := s.index[id := d], objs := s.objs[id := Obj(s, id).(scheduledInterval := d)])
              else s;
    IndexReschedules(s, s1, id, d);
    var t := MoveServiceToInterval(env, s, id, d);
    if old' == d {
      IndexReschedules(s, s, id, d);
    } else if old' !in s.schedulers {
      RescheduledAlike(s, s1, t);
    } else {
      var (sc, last) := S.Remove(s.schedulers[old'], id);
      var s2 := s1.(schedulers := if last then s.schedulers - {old'} else s.schedulers[old' := sc]);
      ScheduleOnFrame(env, s2, d, id);
      RescheduledAlike(s, s1, t);
    }
  }

  lemma IndexReschedules(s: State, s1: State, id: Id, d: Duration)
    requires Named(s)
    requires s1 == s || (id in s.index && s1 == s.(index := s.index[id := d],
                                                   objs := s.objs[id := Obj(s, id).(scheduledInterval := d)]))
    ensures Rescheduled(s, s1)
  {
  }

  lemma RescheduledAlike(s: State, s1: State, t: State)
    requires Rescheduled(s, s1) && t.store == s1.store && t.objs == s1.objs && t.index == s1.index
    ensures Rescheduled(s, t)
  {
  }

  lemma MoveRecords(env: Env, s: State, id: Id, d: Duration, e: Option<Id>, was: R.Store)
    requires Records(s, e, was)
    ensures Records(MoveServiceToInterval(env, s, id, d), e, was)
    ensures Records(Demote(env, s, id, d), e, was) && Records(Promote(env, s, id, d), e, was)
  {
    MoveReschedules(env, s, id, d);
    var t := MoveServiceToInterval(env, s, id, d);
    hide MoveServiceToInterval, Records;
    RescheduledRecords(s, t, e, was);
    SameRecords(t, Demote(env, s, id, d), e, was);
    SameRecords(t, Promote(env, s, id, d), e, was);
  }

  lemma SameRecords(s: State, t: State, e: Option<Id>, was: R.Store)
    requires Records(s, e, was) && t.store == s.store && t.objs == s.objs && t.index.Keys <= s.index.Keys
    ensures Records(t, e, was)
  {
    assert forall x :: x in t.index ==> x in s.index.Keys;
    RescheduledRecords(s, t, e, was);
  }

  lemma RescheduleRecords(env: Env, s: State, e: G.PromotionEvent, except: Option<Id>, was: R.Store)
    requires Records(s, except, was)
    ensures Records(Reschedule(env, s, e), except, was)
  {
    hide Demote, Promote, Records;
    if e.newActive.Some? {
      var n := e.newActive.value;
      if e.oldActive.Some? {
        var o := e.oldActive.value;
        var base := if Obj(s, o).baseInterval == 0 then Obj(s, n).baseInterval else Obj(s, o).baseInterval;
        MoveRecords(env, s, o, Obj(s, n).scheduledInterval, except, was);
        MoveRecords(env, Demote(env, s, o, Obj(s, n).scheduledInterval), n, base, except, was);
      } else {
        MoveRecords(env, s, n, Obj(s, n).baseInterval, except, was);
      }
    } else {
      SameRecords(s, Reschedule(env, s, e), except, was);
    }
  }

  lemma MoveFlagRecords(s: State, e: G.PromotionEvent, except: Option<Id>, was: R.Store)
    requires Records(s, except, was)
    ensures Records(s.(store := MoveFlag(s, e).0), except, was)
  {
    hide Records, SaveActive;
    var st1 := if e.oldActive.Some? then SaveActive(s.store, Obj(s, e.oldActive.value), false) else R.Saved(s.store);
    var s1 := if st1.Saved? then s.(store := st1.store) else s;
    if e.oldActive.Some? {
      WrittenRecords(s, s1, e.oldActive.value, false, except, was);
    }
    if st1.Saved? && e.newActive.Some? {
      var st2 := SaveActive(st1.store, Obj(s, e.newActive.value), true);
      WrittenRecords(s1, if st2.Saved? then s1.(store := st2.store) else s1, e.newActive.value, true, except, was);
    }
  }

  lemma GroupChangedRecords(env: Env, s: State, g: string, o: G.Outcome, except: Option<Id>, was: R.Store)
    requires Records(s, except, was)
    ensures Records(GroupChanged(env, s, g, o), except, was)
  {
    hide MoveFlag, Reschedule, Records;
    var s1 := s.(groups := s.groups[g := o.group], crashed := s.crashed || o.crashed);
    SameRecords(s, s1, except, was);
    if o.event.Some? {
      MoveFlagRecords(s1, o.event.value, except, was);
      RescheduleRecords(env, s1.(store := MoveFlag(s1, o.event.value).0), o.event.value, except, was);
    }
  }

  lemma LeaveGroupRecords(env: Env, s: State, g: string, id: Id, except: Option<Id>, was: R.Store)
    requires Records(s, except, was)
    ensures Records(LeaveGroup(env, s, g, id), except, was)
  {
    hide GroupChanged, Records, G.RemoveMember;
    if g in s.groups {
      var o := G.RemoveMember(env.sort, s.objs, s.groups[g], id);
      GroupChangedRecords(env, s, g, o, except, was);
      SameRecords(GroupChanged(env, s, g, o), LeaveGroup(env, s, g, id), except, was);
    }
  }

  lemma SaveRecordRecords(s: State, id: Id, except: Option<Id>, was: R.Store)
    requires Records(s, except, was)
    ensures Records(SaveRecord(s, id), except, was)
  {
    hide R.Update, Records;
    assert GSLBService(Obj(s, id)).(isActive := false) == GSLBService(Obj(s, id));
    WrittenRecords(s, SaveRecord(s, id), id, false, except, was);
  }

  // ---------- Steps ----------

  /** Nothing is stored of a service that is not registered, or under a group that is not its own. */
  lemma OnlyHome(s: State, g: string, id: Id)
    requires Inv(s) && Stored(s, g, id)
    ensures id in s.index && id in s.objs && s.objs[id].memberOf == g
  {
    assert IsMember(s, g, id) && GroupOk(s, g);
  }

  lemma CreatedRecords(s: State, t: State, id: Id, e: Option<Id>, was: R.Store)
    requires Records(s, Some(id), was) && t == s.(store := R.Create(s.store, GSLBService(Obj(s, id)))) && id in s.objs
    requires e == Some(id) || forall g :: !Stored(s, g, id)
    ensures Records(t, e, was)
  {
    var n := GSLBService(Obj(s, id));
    R.CreateRefines(s.store, n);
    hide R.Create, R.WellStored, R.NoOverrides, R.Lookup;
    forall g, x | Some(x) != e && Stored(t, g, x) ensures FitsAt(t, was, g, x) {
      if g == n.memberOf && x == n.id {
        assert R.Lookup(t.store, g, x) == Some(n);
        NewlyFits(t, was, g, x);
      } else {
        assert R.Lookup(t.store, g, x) == R.Lookup(s.store, g, x);
        assert Stored(s, g, x);
      }
    }
  }

  lemma NewlyFits(s: State, was: R.Store, g: string, id: Id)
    requires R.Lookup(s.store, g, id) == Some(GSLBService(Obj(s, id)))
    ensures FitsAt(s, was, g, id)
  {
    hide R.Lookup;
  }

  lemma DeletedRecords(s: State, t: State, g: string, id: Id, e: Option<Id>, was: R.Store)
    requires Records(s, e, was) && t == s.(store := R.Delete(s.store, g, id))
    ensures Records(t, e, was)
  {
    R.DeleteRefines(s.store, g, id);
    hide R.Delete, R.WellStored, R.NoOverrides, R.Lookup;
    forall h, x | Some(x) != e && Stored(t, h, x) ensures FitsAt(t, was, h, x) {
      assert Stored(s, h, x);
    }
  }

  /** A service may change arbitrarily, if its records are excepted. */
  lemma ExceptedRecords(s: State, t: State, id: Id, was: R.Store)
    requires Records(s, None, was) && t == s.(objs := t.objs) && id != "" && id in t.objs && t.objs[id].id == id
    requires t.objs == s.objs[id := t.objs[id]]
    ensures Records(t, Some(id), was)
  {
    SameStoreFrame(s, t);
    hide StoreSane;
    forall g, x | x != id && Stored(t, g, x) ensures FitsAt(t, was, g, x) {
      assert Stored(s, g, x);
    }
  }

  lemma RegisterNewRecords(env: Env, s: State, n: ServiceData, was: R.Store)
    requires Inv(s) && Records(s, None, was) && n.id !in s.index && n.id != ""
    ensures Records(RegisterNew(env, s, n), None, was)
  {
    hide GroupChanged, ScheduleOn, Records, G.RegisterMember, R.Create, Inv;
    var s0 := s.(objs := s.objs[n.id := n]);
    var s1 := s0.(store := R.Create(s.store, GSLBService(n)));
    var s2 := ScheduleOn(env, s1, n.scheduledInterval, n.id);
    var s3 := s2.(index := s2.index[n.id := n.scheduledInterval]);
    ExceptedRecords(s, s0, n.id, was);
    forall g ensures !Stored(s0, g, n.id) {
      SameStoreFrame(s, s0);
      if Stored(s, g, n.id) {
        OnlyHome(s, g, n.id);
        assert false;
      }
    }
    CreatedRecords(s0, s1, n.id, None, was);
    ScheduleOnFrame(env, s1, n.scheduledInterval, n.id);
    SameRecords(s1, s2, None, was);
    IndexedRecords(s2, s3, n.id, was);
    var o := G.RegisterMember(env.sort, s3.objs, GroupOrNew(s3, n.memberOf), n.id);
    GroupChangedRecords(env, s3, n.memberOf, o, None, was);
  }

  lemma IndexedRecords(s: State, t: State, id: Id, was: R.Store)
    requires Records(s, None, was) && id in s.objs && t == s.(index := t.index) && t.index.Keys == s.index.Keys + {id}
    ensures Records(t, None, was)
  {
    assert forall x :: x in t.index ==> x in t.index.Keys;
    SameStoreFrame(s, t);
    hide StoreSane;
    forall g, x | Stored(t, g, x) ensures FitsAt(t, was, g, x) {
      assert Stored(s, g, x);
    }
  }

  /** Saving the record of the excepted service makes all records current, if it has no others. */
  lemma LastRecord(s: State, t: State, id: Id, was: R.Store)
    requires Records(s, Some(id), was) && t == SaveRecord(s, id) && id in s.objs
    requires forall g :: Stored(t, g, id) ==> g == Obj(s, id).memberOf
    ensures Records(t, None, was)
  {
    var n := GSLBService(Obj(s, id));
    SaveRecordRecords(s, id, Some(id), was);
    R.UpdateRefines(s.store, n);
    hide R.Update, R.WellStored, R.NoOverrides, R.Lookup;
    forall g, x | Stored(t, g, x) ensures FitsAt(t, was, g, x) {
      if x == id {
        assert R.Lookup(t.store, g, x) == Some(n);
      }
    }
  }

  lemma ChangeGroupRecords(env: Env, s: State, g: string, id: Id, was: R.Store)
    requires Records(s, Some(id), was) && id in s.objs
    ensures Records(ChangeGroup(env, s, g, id), Some(id), was)
  {
    hide GroupChanged, LeaveGroup, Records, G.RegisterMember, R.Create, R.Delete;
    var d := Obj(s, id);
    var s1 := s.(store := R.Delete(s.store, g, id));
    var s2 := s1.(store := R.Create(s1.store, GSLBService(d)));
    var o := G.RegisterMember(env.sort, s2.objs, GroupOrNew(s2, d.memberOf), id);
    DeletedRecords(s, s1, g, id, Some(id), was);
    CreatedRecords(s1, s2, id, Some(id), was);
    GroupChangedRecords(env, s2, d.memberOf, o, Some(id), was);
    LeaveGroupRecords(env, GroupChanged(env, s2, d.memberOf, o), g, id, Some(id), was);
  }

  lemma RefreshGroupRecords(env: Env, s: State, g: string, e: Option<Id>, was: R.Store)
    requires Records(s, e, was)
    ensures Records(RefreshGroup(env, s, g), e, was)
  {
    hide GroupChanged, Records, G.Update;
    if g in s.groups {
      GroupChangedRecords(env, s, g, G.Update(env.sort, s.objs, s.groups[g]), e, was);
    }
  }

  lemma RegroupedRecords(env: Env, s: State, n: ServiceData, was: R.Store)
    requires Inv(s) && Records(s, None, was) && n.id in s.index && Assignable(n)
    ensures Records(Regrouped(env, s, n), None, was)
  {
    var id, old' := n.id, Obj(s, n.id);
    var s1 := s.(objs := s.objs[id := Assign(old', n)]);
    assert id != "" && Assign(old', n).id == id;
    hide Inv, Records, Assign, SaveRecord, ChangeGroup, RefreshGroup, Assignable;
    RegroupedKeeps(env, s, n);
    ExceptedRecords(s, s1, id, was);
    ChangeGroupRecords(env, s1, old'.memberOf, id, was);
    RefreshGroupRecords(env, s1, old'.memberOf, Some(id), was);
    var s2 := if old'.memberOf != n.memberOf then ChangeGroup(env, s1, old'.memberOf, id)
              else RefreshGroup(env, s1, old'.memberOf);
    SavedLast(Regrouped(env, s, n), s2, id, was);
  }

  lemma SavedLast(t: State, s: State, id: Id, was: R.Store)
    requires Inv(t) && t == SaveRecord(s, id) && Records(s, Some(id), was) && id in t.index.Keys
    ensures Records(t, None, was)
  {
    hide Records;
    OnlyOwnRecord(t, s, id);
    hide Inv;
    LastRecord(s, t, id, was);
  }

  lemma OnlyOwnRecord(t: State, s: State, id: Id)
    requires Inv(t) && t == SaveRecord(s, id) && id in t.index.Keys
    ensures id in s.objs && forall g :: Stored(t, g, id) ==> g == Obj(s, id).memberOf
  {
    assert t.objs == s.objs by {
      hide R.Update;
    }
    InvMeans(t, id);
    hide Inv, SaveRecord, Stored;
    forall g | Stored(t, g, id) ensures g == Obj(s, id).memberOf {
      OnlyHome(t, g, id);
    }
  }

  lemma UpdateRecords(env: Env, s: State, n: ServiceData, was: R.Store)
    requires Inv(s) && Records(s, None, was) && n.id in s.index && Assignable(n)
    ensures Records(UpdateService(env, s, n), None, was)
  {
    hide Inv, Regrouped, MoveServiceToInterval, Records, ConfigChanged, Assignable;
    var u := Regrouped(env, s, n);
    RegroupedRecords(env, s, n, was);
    MoveRecords(env, u, n.id, Obj(u, n.id).defaultInterval, None, was);
  }

  lemma RemoveRecords(env: Env, s: State, id: Id, was: R.Store)
    requires Records(s, None, was)
    ensures Records(RemoveService(env, s, id), None, was)
  {
    hide LeaveGroup, S.Remove, R.Delete, Records;
    if id in s.index {
      var interval, g := s.index[id], Obj(s, id).memberOf;
      if interval !in s.schedulers || g !in s.groups {
        SameRecords(s, RemoveService(env, s, id), None, was);
      } else {
        var s1 := s.(schedulers := s.schedulers[interval := S.Remove(s.schedulers[interval], id).0]);
        var s2 := LeaveGroup(env, s1, g, id);
        SameRecords(s, s1, None, was);
        LeaveGroupRecords(env, s1, g, id, None, was);
        DeletedRecords(s2, s2.(store := R.Delete(s2.store, g, id)), g, id, None, was);
        SameRecords(s2.(store := R.Delete(s2.store, g, id)), RemoveService(env, s, id), None, was);
      }
    }
  }

  lemma CheckRecords(env: Env, s: State, id: Id, success: bool, roundtrip: Duration)
    requires Inv(s) && Records(s, None, s.store) && id in s.index
    ensures Records(CheckResult(env, s, id, success, roundtrip), None, s.store)
  {
    var d := Obj(s, id);
    var c := OnResult(d.(roundtrip := roundtrip), success);
    var s1 := s.(objs := s.objs[id := c.service]);
    var was := s.store;
    CheckedMeans(d.(roundtrip := roundtrip), success);
    assert id in s.objs && id != "";
    OnlyHomeRecord(s, s1, id);
    hide Inv, GroupChanged, SaveRecord, OnResult, Records, G.OnServiceHealthChange;
    if c.callback.Some? {
      var s2, g := SaveRecord(s1, id), Obj(s1, id).memberOf;
      FlippedRecords(s, s1, id);
      if g in s2.groups {
        var o := G.OnServiceHealthChange(s2.objs, s2.groups[g], id, c.callback.value);
        GroupChangedRecords(env, s2, g, o, None, was);
      } else {
        SameRecords(s2, s2.(crashed := true), None, was);
      }
    } else {
      CheckedRecords(s, s1, id);
    }
  }

  lemma OnlyHomeRecord(s: State, t: State, id: Id)
    requires Inv(s) && id in s.index && id in t.objs && t == s.(objs := s.objs[id := t.objs[id]])
    requires t.objs[id].memberOf == Obj(s, id).memberOf
    ensures forall g :: Stored(s, g, id) ==> g == Obj(t, id).memberOf
  {
    hide Inv, Stored;
    forall g | Stored(s, g, id) ensures g == Obj(t, id).memberOf {
      OnlyHome(s, g, id);
    }
  }

  /** After a flip the record is saved before anything else. */
  lemma FlippedRecords(s: State, t: State, id: Id)
    requires Records(s, None, s.store) && id in s.index && id in t.objs && t == s.(objs := s.objs[id := t.objs[id]])
    requires t.objs[id].id == id && id != "" && forall g :: Stored(s, g, id) ==> g == Obj(t, id).memberOf
    ensures Records(SaveRecord(t, id), None, s.store)
  {
    ExceptedRecords(s, t, id, s.store);
    var n := GSLBService(Obj(t, id));
    SameStoreFrame(s, t);
    SavedWhere(t, id);
    hide SaveRecord, Records, Stored;
    LastRecord(t, SaveRecord(t, id), id, s.store);
  }

  /** Saving a record adds none. */
  lemma SavedWhere(s: State, id: Id)
    requires StoreSane(s)
    ensures forall g, x :: Stored(SaveRecord(s, id), g, x) ==> Stored(s, g, x)
  {
    R.UpdateRefines(s.store, GSLBService(Obj(s, id)));
    hide R.Update, R.WellStored, R.NoOverrides, R.Lookup;
  }

  lemma CheckedRecords(s: State, t: State, id: Id)
    requires Records(s, None, s.store) && id in s.index && id in t.objs && t == s.(objs := s.objs[id := t.objs[id]])
    requires t.objs[id].id == Obj(s, id).id && t.objs[id].isHealthy == Obj(s, id).isHealthy
    requires t.objs[id].ip == Obj(s, id).ip && t.objs[id].datacenter == Obj(s, id).datacenter
    requires t.objs[id].fqdn == Obj(s, id).fqdn
    ensures Records(t, None, s.store)
  {
    SameStoreFrame(s, t);
    hide StoreSane;
    forall g, x | Stored(t, g, x) ensures FitsAt(t, s.store, g, x) {
      assert Stored(s, g, x) && FitsAt(s, s.store, g, x);
    }
  }

  lemma StepRecords(env: Env, s: State, e: Event)
    requires Inv(s) && Records(s, None, s.store) && Allowed(s, e)
    ensures Records(Step(env, s, e), None, s.store)
  {
    hide Inv, Records, RegisterService, RemoveService, CheckResult;
    match e
    case Register(cfg) => RegisterRecords(env, s, cfg, s.store);
    case Remove(id) => RemoveRecords(env, s, id, s.store);
    case Check(id, success, roundtrip) => CheckRecords(env, s, id, success, roundtrip);
    case Turn(d, now, gap) => SameRecords(s, Step(env, s, e), None, s.store);
  }

  lemma Rebased(s: State, was: R.Store)
    requires Records(s, None, was)
    ensures Records(s, None, s.store)
  {
    hide StoreSane, R.Lookup;
    forall g, x | Stored(s, g, x) ensures FitsAt(s, s.store, g, x) {
      assert FitsAt(s, was, g, x);
    }
  }

  lemma RegisterRecords(env: Env, s: State, cfg: Config, was: R.Store)
    requires Inv(s) && Records(s, None, was) && Allowed(s, Register(cfg))
    ensures Records(RegisterService(env, s, cfg), None, was)
  {
    RegisterServiceMeans(env, s, cfg);
    NewServiceMeans(cfg, s.store);
    hide Inv, Records, RegisterService, RegistrationPanics, UpdatePanics, NewService, Assignable, S.Schedulable;
    match NewService(cfg, s.store)
    case None =>
    case Some(n) =>
      if n.id in s.index {
        UpdateRecords(env, s, n, was);
      } else {
        RegisterNewRecords(env, s, n, was);
      }
  }

  /** The records agree with the objects. */
  ghost predicate UpToDate(s: State) {
    Records(s, None, s.store)
  }

  /** In every reachable state every stored record has the current address, datacenter, name and health of its
      service. */
  lemma {:induction false} ReachableRecords(env: Env, run: seq<Event>)
    requires Admissible(env, NewManager(), run) && !Final(env, NewManager(), run).crashed
    ensures UpToDate(Final(env, NewManager(), run))
  {
    hide Inv, Step, Panics;
    if run != [] {
      hide Records;
      var before := Final(env, NewManager(), run[..|run| - 1]);
      DeadStaysDead(env, before, run[|run| - 1]);
      RunKeeps(env, run[..|run| - 1]);
      ReachableRecords(env, run[..|run| - 1]);
      StepRecords(env, before, run[|run| - 1]);
      Rebased(Final(env, NewManager(), run), before.store);
    }
  }

  /** A step of a reachable state leaves a record as it is, or writes all of it: under its own name and group, with
      the failure counter, and everything else, that the object then has. */
  lemma RecordsAreWrittenWhole(env: Env, run: seq<Event>, e: Event, g: string, id: Id)
    requires Admissible(env, NewManager(), run + [e]) && !Final(env, NewManager(), run + [e]).crashed
    ensures var s, t := Final(env, NewManager(), run), Final(env, NewManager(), run + [e]);
            Stored(t, g, id) ==>
              var r, d := R.Lookup(t.store, g, id).value, Obj(t, id);
              && r.id == id && d.id == id && r.memberOf == g && !r.hasOverride
              && r.ip == d.ip && r.datacenter == d.datacenter && r.fqdn == d.fqdn && r.isHealthy == d.isHealthy
              && (r.failureCount == d.failureCount || R.Lookup(s.store, g, id) == Some(r))
  {
    var s, t := Final(env, NewManager(), run), Final(env, NewManager(), run + [e]);
    RecordsNext(env, run, e);
    hide Final, Inv, Records, R.Lookup;
    if Stored(t, g, id) {
      OnlyHome(t, g, id);
      RecordMeans(t, s.store, g, id);
    }
  }

  lemma RecordsNext(env: Env, run: seq<Event>, e: Event)
    requires Admissible(env, NewManager(), run + [e]) && !Final(env, NewManager(), run + [e]).crashed
    ensures var s, t := Final(env, NewManager(), run), Final(env, NewManager(), run + [e]);
            Inv(t) && Records(t, None, s.store)
  {
    assert (run + [e])[..|run|] == run;
    hide Inv, Step, Panics, Records;
    var s := Final(env, NewManager(), run);
    DeadStaysDead(env, s, e);
    RunKeeps(env, run);
    RunKeeps(env, run + [e]);
    ReachableRecords(env, run);
    StepRecords(env, s, e);
  }

  lemma RecordMeans(s: State, was: R.Store, g: string, id: Id)
    requires Records(s, None, was) && Stored(s, g, id) && id in s.objs
    ensures var r, d := R.Lookup(s.store, g, id).value, Obj(s, id);
            && r.id == id && d.id == id && r.memberOf == g && !r.hasOverride
            && Fits(r, d, R.Lookup(was, g, id))
  {
    assert FitsAt(s, was, g, id);
    R.FindsMembers(R.Read(s.store, g), id);
  }
}
