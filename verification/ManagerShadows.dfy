/** Two managers that run in step, though one of them may find records and rules that the other does not: whatever
    they do, they differ in nothing else. */
module ManagerShadows {
  import opened Basics
  import opened Services
  import opened Managers
  import opened ManagerInvariants
  import opened ManagerPromotions
  import opened ManagerSteps
  import opened ManagerLeaving
  import opened ManagerRuns
  import opened ManagerEffects
  import G = ServiceGroups
  import R = ServiceRepos
  import S = Schedulers

  /** What a manager may find: no overrides, no id twice in a group, no record under another group than its own,
      and none without an id. */
  ghost predicate Startable(st: R.Store) {
    R.WellStored(st) && R.NoOverrides(st) && R.Lookup(st, "", "").None?
  }

  // ---------- Two stores that agree ----------

  /** The record of a service object, under the group that it names. */
  function Own(st: R.Store, d: ServiceData): Option<Record> {
    R.Lookup(st, d.memberOf, d.id)
  }

  ghost predicate Named(w: G.World) {
    forall x :: x in w ==> w[x].id == x && x != ""
  }

  /** What the first of two stores is compared with: the records there once were, and the places, a group and an id
      each, where a service may have been stored since. Of two managers in step, `sameStore` says whether they had the
      same store or the same rules. */
  datatype Past = Past(store: R.Store, places: (string, Id) -> bool, sameStore: bool)

  /** Both stores have the same record of every service object, if any. In other places the first has what there
      once was. */
  ghost predicate Agree(past: Past, w: G.World, a: R.Store, b: R.Store) {
    && Startable(a) && Startable(b) && (past.sameStore ==> a == b)
    && (forall x :: x in w ==> past.places(w[x].memberOf, x) && Own(a, w[x]) == Own(b, w[x]))
    && (forall h, x :: !past.places(h, x) ==> R.Lookup(a, h, x) == R.Lookup(past.store, h, x))
  }

  /** Both stores get the same entry, in such a place. */
  lemma SameEntry(past: Past, w: G.World, a: R.Store, b: R.Store, a': R.Store, b': R.Store,
                  g: string, id: Id, entry: Option<Record>)
    requires Named(w) && id != "" && past.places(g, id) && Startable(a) && Startable(b)
    requires past.sameStore ==> a' == b'
    requires forall y :: y in w ==> past.places(w[y].memberOf, y)
    requires forall y :: y in w ==> Own(a, w[y]) == Own(b, w[y]) || (w[y].memberOf == g && w[y].id == id)
    requires forall h, y :: !past.places(h, y) ==> R.Lookup(a, h, y) == R.Lookup(past.store, h, y)
    requires R.WellStored(a') && R.NoOverrides(a') && R.OnlyAt(a, a', g, id, entry)
    requires R.WellStored(b') && R.NoOverrides(b') && R.OnlyAt(b, b', g, id, entry)
    ensures Agree(past, w, a', b')
  {
    hide R.WellStored, R.NoOverrides, R.Lookup;
  }

  lemma UpdateAgrees(past: Past, w: G.World, a: R.Store, b: R.Store, x: Id, active: bool)
    requires Named(w) && Agree(past, w, a, b)
    ensures var u, v := SaveActive(a, G.Get(w, x), active), SaveActive(b, G.Get(w, x), active);
            && (u.Saved? <==> v.Saved?)
            && (u.Saved? ==> Agree(past, w, u.store, v.store))
  {
    hide R.WellStored, R.NoOverrides, R.Lookup, R.Update, R.OnlyAt;
    var n := GSLBService(G.Get(w, x)).(isActive := active);
    AgreeMeans(past, w, a, b, x);
    hide Agree, Startable;
    R.UpdateRefines(a, n);
    R.UpdateRefines(b, n);
    if R.Update(a, n).Saved? {
      SameEntry(past, w, a, b, R.Update(a, n).store, R.Update(b, n).store, n.memberOf, n.id, Some(n));
    }
  }

  lemma AgreeMeans(past: Past, w: G.World, a: R.Store, b: R.Store, x: Id)
    requires Named(w) && Agree(past, w, a, b)
    ensures R.WellStored(a) && R.NoOverrides(a) && R.WellStored(b) && R.NoOverrides(b) && Startable(a) && Startable(b)
    ensures var d := G.Get(w, x);
            && R.Lookup(a, d.memberOf, d.id) == R.Lookup(b, d.memberOf, d.id)
            && (R.Lookup(a, d.memberOf, d.id).Some? ==> d.id != "" && past.places(d.memberOf, d.id))
            && (x in w ==> past.places(d.memberOf, x))
    ensures forall y :: y in w ==> past.places(w[y].memberOf, y)
    ensures forall y :: y in w ==> Own(a, w[y]) == Own(b, w[y])
    ensures forall h, y :: !past.places(h, y) ==> R.Lookup(a, h, y) == R.Lookup(past.store, h, y)
    ensures past.sameStore ==> a == b
  {
    hide R.WellStored, R.NoOverrides, R.Lookup;
  }

  lemma CreateAgrees(past: Past, w: G.World, a: R.Store, b: R.Store, x: Id)
    requires Named(w) && x in w && Startable(a) && Startable(b) && (past.sameStore ==> a == b)
    requires forall y :: y in w ==> past.places(w[y].memberOf, y)
    requires forall y :: y in w && y != x ==> Own(a, w[y]) == Own(b, w[y])
    requires forall h, y :: !past.places(h, y) ==> R.Lookup(a, h, y) == R.Lookup(past.store, h, y)
    ensures Agree(past, w, R.Create(a, GSLBService(w[x])), R.Create(b, GSLBService(w[x])))
  {
    hide R.WellStored, R.NoOverrides, R.Lookup, R.Create, R.OnlyAt, Agree;
    var n := GSLBService(w[x]);
    R.CreateRefines(a, n);
    R.CreateRefines(b, n);
    SameEntry(past, w, a, b, R.Create(a, n), R.Create(b, n), n.memberOf, x, Some(n));
  }

  lemma DeleteAgrees(past: Past, w: G.World, a: R.Store, b: R.Store, g: string, x: Id)
    requires Named(w) && Agree(past, w, a, b) && x != "" && past.places(g, x)
    ensures Agree(past, w, R.Delete(a, g, x), R.Delete(b, g, x))
  {
    hide R.WellStored, R.NoOverrides, R.Lookup, R.Delete, R.OnlyAt;
    AgreeMeans(past, w, a, b, x);
    hide Agree, Startable;
    R.DeleteRefines(a, g, x);
    R.DeleteRefines(b, g, x);
    SameEntry(past, w, a, b, R.Delete(a, g, x), R.Delete(b, g, x), g, x, None);
  }

  // ---------- Two managers in step ----------

  /** Nothing differs but the rules and the store, and the stores agree on all services that there are objects of. */
  ghost predicate InStep(past: Past, s: State, t: State) {
    && t == s.(store := t.store, rules := t.rules) && (!past.sameStore ==> t.rules == s.rules)
    && Named(s.objs) && s.index.Keys <= s.objs.Keys
    && Agree(past, s.objs, s.store, t.store)
  }

  /** The same objects, but for what no record is found by. */
  ghost predicate SamePlaces(w: G.World, w': G.World) {
    && w'.Keys == w.Keys
    && forall x :: x in w ==> w'[x].id == w[x].id && w'[x].memberOf == w[x].memberOf
  }

  /** A step that neither reads nor writes the store. */
  lemma StoreAside(past: Past, s: State, t: State, s': State, t': State)
    requires InStep(past, s, t) && t' == s'.(store := t.store, rules := t'.rules) && s'.store == s.store
    requires SamePlaces(s.objs, s'.objs) && s'.index.Keys <= s.objs.Keys
    requires !past.sameStore ==> t'.rules == s'.rules
    ensures InStep(past, s', t')
  {
    hide Startable, R.Lookup;
    forall x | x in s'.objs
      ensures s'.objs[x].id == x && x != "" && past.places(s'.objs[x].memberOf, x)
      ensures Own(s.store, s'.objs[x]) == Own(t.store, s'.objs[x])
    {
      assert x in s.objs.Keys;
      assert Own(s.store, s.objs[x]) == Own(t.store, s.objs[x]);
    }
  }

  lemma ScheduleAside(env: Env, s: State, x: R.Store, r: set<Rule>, d: Duration, id: Id)
    ensures ScheduleOn(env, s.(store := x, rules := r), d, id) == ScheduleOn(env, s, d, id).(store := x, rules := r)
  {
    ScheduleParts(env, s, d, id);
    ScheduleParts(env, s.(store := x, rules := r), d, id);
    hide *;
  }

  lemma ScheduleParts(env: Env, s: State, d: Duration, id: Id)
    ensures var sc := if d in s.schedulers then s.schedulers[d] else S.NewScheduler(d);
            var u, ok := ScheduleOn(env, s, d, id), S.Schedulable(sc.interval);
            && (!ok ==> u == s.(crashed := true))
            && (ok ==> var sc' := S.Schedule(sc, id, s.pushes, env.now(s.pushes), env.gap(s.pushes));
                       u == s.(schedulers := s.schedulers[d := sc'], pushes := s.pushes + 1,
                               log := s.log + [Push(id, sc.heap, sc'.heap)]))
  {
    hide S.Schedule, S.Schedulable;
  }

  function Reindexed(s: State, id: Id, d: Duration): State {
    if id in s.index
    then s.(index := s.index[id := d], objs := s.objs[id := Obj(s, id).(scheduledInterval := d)])
    else s
  }

  /** What a move does before it schedules the service. */
  function Unscheduled(s: State, id: Id, d: Duration): State {
    var old' := Obj(s, id).scheduledInterval;
    if old' !in s.schedulers then Reindexed(s, id, d).(crashed := true)
    else
      var (sc, last) := S.Remove(s.schedulers[old'], id);
      Reindexed(s, id, d).(schedulers := if last then s.schedulers - {old'} else s.schedulers[old' := sc])
  }

  lemma MoveIs(env: Env, s: State, id: Id, d: Duration)
    ensures MoveServiceToInterval(env, s, id, d) ==
            if Obj(s, id).scheduledInterval == d then s
            else if Obj(s, id).scheduledInterval !in s.schedulers then Unscheduled(s, id, d)
            else ScheduleOn(env, Unscheduled(s, id, d), d, id)
  {
    hide S.Remove, ScheduleOn;
  }

  lemma ReindexedAside(s: State, x: R.Store, r: set<Rule>, id: Id, d: Duration)
    ensures Reindexed(s.(store := x, rules := r), id, d) == Reindexed(s, id, d).(store := x, rules := r)
    ensures var t := Reindexed(s, id, d);
            && t.store == s.store && t.rules == s.rules
            && (id in s.index && id in s.objs ==> SamePlaces(s.objs, t.objs) && t.index.Keys == s.index.Keys)
            && (id !in s.index ==> t.objs == s.objs && t.index == s.index)
  {
  }

  lemma UnscheduledAside(s: State, x: R.Store, r: set<Rule>, id: Id, d: Duration)
    ensures Unscheduled(s.(store := x, rules := r), id, d) == Unscheduled(s, id, d).(store := x, rules := r)
    ensures var t, u := Unscheduled(s, id, d), Reindexed(s, id, d);
            t.store == u.store && t.rules == u.rules && t.objs == u.objs && t.index == u.index
  {
    ReindexedAside(s, x, r, id, d);
    UnscheduledIs(s, id, d);
    UnscheduledIs(s.(store := x, rules := r), id, d);
    assert Obj(s.(store := x, rules := r), id) == Obj(s, id);
    hide *;
  }

  lemma UnscheduledIs(s: State, id: Id, d: Duration)
    ensures var old', u := Obj(s, id).scheduledInterval, Reindexed(s, id, d);
            Unscheduled(s, id, d) ==
            if old' !in s.schedulers then u.(crashed := true)
            else
              var (sc, last) := S.Remove(s.schedulers[old'], id);
              u.(schedulers := if last then s.schedulers - {old'} else s.schedulers[old' := sc])
  {
    hide S.Remove, Reindexed;
  }

  lemma MoveAside(env: Env, s: State, x: R.Store, r: set<Rule>, id: Id, d: Duration)
    ensures MoveServiceToInterval(env, s.(store := x, rules := r), id, d)
         == MoveServiceToInterval(env, s, id, d).(store := x, rules := r)
    ensures var t := MoveServiceToInterval(env, s, id, d);
            && t.store == s.store && t.rules == s.rules
            && (id in s.index && id in s.objs ==> SamePlaces(s.objs, t.objs) && t.index.Keys == s.index.Keys)
            && (id !in s.index ==> t.objs == s.objs && t.index == s.index)
  {
    hide Unscheduled, ScheduleOn, MoveServiceToInterval;
    MoveIs(env, s, id, d);
    MoveIs(env, s.(store := x, rules := r), id, d);
    UnscheduledAside(s, x, r, id, d);
    ReindexedAside(s, x, r, id, d);
    ScheduleAside(env, Unscheduled(s, id, d), x, r, d, id);
    ScheduleOnFrame(env, Unscheduled(s, id, d), d, id);
  }

  lemma MoveInStep(env: Env, past: Past, s: State, t: State, id: Id, d: Duration)
    requires InStep(past, s, t)
    ensures InStep(past, MoveServiceToInterval(env, s, id, d), MoveServiceToInterval(env, t, id, d))
  {
    hide *;
    InStepMeans(past, s, t);
    SamePlacesAsBefore(s.objs);
    MoveAside(env, s, t.store, t.rules, id, d);
    assert id in s.index ==> id in s.index.Keys;
    StoreAside(past, s, t, MoveServiceToInterval(env, s, id, d), MoveServiceToInterval(env, t, id, d));
  }

  lemma ExchangeInStep(env: Env, past: Past, s: State, t: State, id: Id, d: Duration)
    requires InStep(past, s, t)
    ensures InStep(past, Demote(env, s, id, d), Demote(env, t, id, d))
    ensures InStep(past, Promote(env, s, id, d), Promote(env, t, id, d))
  {
    InStepMeans(past, s, t);
    hide MoveServiceToInterval, InStep, Agree, Named;
    MoveInStep(env, past, s, t, id, d);
    var s1, t1 := MoveServiceToInterval(env, s, id, d), MoveServiceToInterval(env, t, id, d);
    InStepMeans(past, s1, t1);
    FieldsInStep(past, s1, t1, Demote(env, s, id, d), Demote(env, t, id, d));
    FieldsInStep(past, s1, t1, Promote(env, s, id, d), Promote(env, t, id, d));
  }

  lemma InStepMeans(past: Past, s: State, t: State)
    requires InStep(past, s, t)
    ensures t == s.(store := t.store, rules := t.rules) && s.index.Keys <= s.objs.Keys
    ensures !past.sameStore ==> t == s.(store := t.store)
    ensures past.sameStore ==> t == s.(rules := t.rules)
    ensures Named(s.objs) && Agree(past, s.objs, s.store, t.store)
    ensures forall id :: Obj(t, id) == Obj(s, id) == G.Get(s.objs, id)
  {
    AgreeMeans(past, s.objs, s.store, t.store, "");
    hide Agree;
  }

  lemma SamePlacesAsBefore(w: G.World)
    ensures SamePlaces(w, w)
  {
  }

  /** Rules, groups and the like may change alike. */
  lemma FieldsInStep(past: Past, s: State, t: State, s': State, t': State)
    requires InStep(past, s, t) && s'.store == s.store && s'.objs == s.objs && s'.index.Keys <= s.index.Keys
    requires t' == s'.(store := t.store, rules := t'.rules) && (!past.sameStore ==> t'.rules == s'.rules)
    ensures InStep(past, s', t')
  {
    hide Agree;
  }

  function DemotedFor(env: Env, s: State, o: Id, n: Id): State {
    Demote(env, s, o, Obj(s, n).scheduledInterval)
  }

  function BaseOf(s: State, o: Id, n: Id): Duration {
    if Obj(s, o).baseInterval == 0 then Obj(s, n).baseInterval else Obj(s, o).baseInterval
  }

  lemma RescheduleIs(env: Env, s: State, e: G.PromotionEvent)
    ensures Reschedule(env, s, e) ==
            match (e.oldActive, e.newActive)
            case (Some(o), Some(n)) => Promote(env, DemotedFor(env, s, o, n), n, BaseOf(s, o, n))
            case (None, Some(n)) => Promote(env, s, n, Obj(s, n).baseInterval)
            case (Some(o), None) => s.(rules := s.rules - {RuleOf(Obj(s, o))})
            case (None, None) => s
  {
    hide Demote, Promote;
  }

  lemma SameBase(s: State, t: State)
    requires forall id :: Obj(t, id) == Obj(s, id)
    ensures forall o, n :: BaseOf(t, o, n) == BaseOf(s, o, n)
  {
  }

  lemma DemotedInStep(env: Env, past: Past, s: State, t: State, o: Id, n: Id)
    requires InStep(past, s, t)
    ensures InStep(past, DemotedFor(env, s, o, n), DemotedFor(env, t, o, n))
  {
    InStepMeans(past, s, t);
    hide Demote, InStep;
    ExchangeInStep(env, past, s, t, o, Obj(s, n).scheduledInterval);
  }

  lemma RescheduleInStep(env: Env, past: Past, s: State, t: State, e: G.PromotionEvent)
    requires InStep(past, s, t)
    ensures InStep(past, Reschedule(env, s, e), Reschedule(env, t, e))
  {
    hide *;
    InStepMeans(past, s, t);
    RescheduleIs(env, s, e);
    RescheduleIs(env, t, e);
    SameBase(s, t);
    match (e.oldActive, e.newActive)
    case (Some(o), Some(n)) =>
      DemotedInStep(env, past, s, t, o, n);
      ExchangeInStep(env, past, DemotedFor(env, s, o, n), DemotedFor(env, t, o, n), n, BaseOf(s, o, n));
    case (None, Some(n)) => ExchangeInStep(env, past, s, t, n, Obj(s, n).baseInterval);
    case (Some(o), None) => FieldsInStep(past, s, t, Reschedule(env, s, e), Reschedule(env, t, e));
    case (None, None) =>
  }

  predicate CanSave(s: State, x: Option<Id>, active: bool) {
    x.Some? ==> SaveActive(s.store, Obj(s, x.value), active).Saved?
  }

  function Saved(s: State, x: Option<Id>, active: bool): State {
    if x.Some? && CanSave(s, x, active) then s.(store := SaveActive(s.store, Obj(s, x.value), active).store) else s
  }

  lemma MoveFlagIs(s: State, e: G.PromotionEvent)
    ensures var s1 := Saved(s, e.oldActive, false);
            MoveFlag(s, e) == if !CanSave(s, e.oldActive, false) then (s.store, false)
                              else (Saved(s1, e.newActive, true).store, CanSave(s1, e.newActive, true))
    ensures forall u: State, x, active :: Saved(u, x, active) == u.(store := Saved(u, x, active).store)
  {
    hide SaveActive;
  }

  lemma WriteInStep(past: Past, s: State, t: State, x: Option<Id>, active: bool)
    requires InStep(past, s, t)
    ensures CanSave(s, x, active) == CanSave(t, x, active)
    ensures InStep(past, Saved(s, x, active), Saved(t, x, active))
  {
    InStepMeans(past, s, t);
    hide SaveActive, Agree;
    if x.Some? {
      UpdateAgrees(past, s.objs, s.store, t.store, x.value, active);
    }
  }

  lemma MoveFlagInStep(past: Past, s: State, t: State, e: G.PromotionEvent)
    requires InStep(past, s, t)
    ensures var (u, ok), (v, ok') := MoveFlag(s, e), MoveFlag(t, e);
            ok == ok' && InStep(past, s.(store := u), t.(store := v))
  {
    hide *;
    MoveFlagIs(s, e);
    MoveFlagIs(t, e);
    WriteInStep(past, s, t, e.oldActive, false);
    var s1, t1 := Saved(s, e.oldActive, false), Saved(t, e.oldActive, false);
    WriteInStep(past, s1, t1, e.newActive, true);
    assert s.(store := s.store) == s && t.(store := t.store) == t;
    assert s1 == s.(store := s1.store) && t1 == t.(store := t1.store);
  }

  lemma GroupChangedInStep(env: Env, past: Past, s: State, t: State, g: string, o: G.Outcome)
    requires InStep(past, s, t)
    ensures InStep(past, GroupChanged(env, s, g, o), GroupChanged(env, t, g, o))
  {
    InStepMeans(past, s, t);
    hide MoveFlag, Reschedule, InStep, Agree, Named;
    var s1 := s.(groups := s.groups[g := o.group], crashed := s.crashed || o.crashed);
    var t1 := t.(groups := t.groups[g := o.group], crashed := t.crashed || o.crashed);
    FieldsInStep(past, s, t, s1, t1);
    if o.event.Some? {
      MoveFlagInStep(past, s1, t1, o.event.value);
      RescheduleInStep(env, past, s1.(store := MoveFlag(s1, o.event.value).0),
                       t1.(store := MoveFlag(t1, o.event.value).0), o.event.value);
    }
  }

  function WithoutEmpty(s: State, g: string): State {
    if g in s.groups && s.groups[g].members == [] then s.(groups := s.groups - {g}) else s
  }

  lemma LeaveGroupIs(env: Env, s: State, g: string, id: Id)
    ensures LeaveGroup(env, s, g, id) ==
            if g !in s.groups then s
            else WithoutEmpty(GroupChanged(env, s, g, G.RemoveMember(env.sort, s.objs, s.groups[g], id)), g)
  {
    hide GroupChanged, G.RemoveMember;
  }

  lemma WithoutEmptyInStep(past: Past, s: State, t: State, g: string)
    requires InStep(past, s, t)
    ensures InStep(past, WithoutEmpty(s, g), WithoutEmpty(t, g))
  {
    hide Agree;
  }

  lemma LeaveGroupInStep(env: Env, past: Past, s: State, t: State, g: string, id: Id)
    requires InStep(past, s, t)
    ensures InStep(past, LeaveGroup(env, s, g, id), LeaveGroup(env, t, g, id))
  {
    hide *;
    InStepMeans(past, s, t);
    LeaveGroupIs(env, s, g, id);
    LeaveGroupIs(env, t, g, id);
    if g in s.groups {
      var o := G.RemoveMember(env.sort, s.objs, s.groups[g], id);
      GroupChangedInStep(env, past, s, t, g, o);
      WithoutEmptyInStep(past, GroupChanged(env, s, g, o), GroupChanged(env, t, g, o), g);
    }
  }

  lemma SaveRecordInStep(past: Past, s: State, t: State, id: Id)
    requires InStep(past, s, t)
    ensures InStep(past, SaveRecord(s, id), SaveRecord(t, id))
  {
    hide *;
    WriteInStep(past, s, t, Some(id), false);
    SaveRecordIs(s, id);
    SaveRecordIs(t, id);
  }

  lemma SaveRecordIs(s: State, id: Id)
    ensures SaveRecord(s, id) == Saved(s, Some(id), false)
  {
    hide R.Update;
    assert GSLBService(Obj(s, id)).(isActive := false) == GSLBService(Obj(s, id));
  }

  lemma RefreshGroupInStep(env: Env, past: Past, s: State, t: State, g: string)
    requires InStep(past, s, t)
    ensures InStep(past, RefreshGroup(env, s, g), RefreshGroup(env, t, g))
  {
    InStepMeans(past, s, t);
    hide GroupChanged, InStep, Agree, Named, G.Update;
    if g in s.groups {
      GroupChangedInStep(env, past, s, t, g, G.Update(env.sort, s.objs, s.groups[g]));
    }
  }

  /** A service gets new data `d`, and after that a record, before anything else happens. */
  lemma CreatedInStep(past: Past, s: State, t: State, s1: State, t1: State, d: ServiceData, a: R.Store, b: R.Store)
    requires InStep(past, s, t) && d.id != "" && Agree(past, s.objs, a, b) && past.places(d.memberOf, d.id)
    requires s1 == s.(objs := s.objs[d.id := d], store := R.Create(a, GSLBService(d)))
    requires t1 == t.(objs := t.objs[d.id := d], store := R.Create(b, GSLBService(d)))
    ensures InStep(past, s1, t1)
  {
    hide R.Create, R.Lookup, R.WellStored, R.NoOverrides, Startable;
    var w := s.objs[d.id := d];
    forall y | y in w && y != d.id ensures Own(a, w[y]) == Own(b, w[y]) {
      assert w[y] == s.objs[y];
    }
    assert Named(w) && w[d.id] == d;
    CreateAgrees(past, w, a, b, d.id);
  }

  lemma RegisterNewInStep(env: Env, past: Past, s: State, t: State, n: ServiceData)
    requires InStep(past, s, t) && n.id != "" && past.places(n.memberOf, n.id)
    ensures InStep(past, RegisterNew(env, s, n), RegisterNew(env, t, n))
  {
    hide *;
    InStepMeans(past, s, t);
    var s1 := s.(objs := s.objs[n.id := n], store := R.Create(s.store, GSLBService(n)));
    var t1 := t.(objs := t.objs[n.id := n], store := R.Create(t.store, GSLBService(n)));
    CreatedInStep(past, s, t, s1, t1, n, s.store, t.store);
    IndexedInStep(env, past, s1, t1, n);
    var s2, t2 := Indexed(env, s1, n), Indexed(env, t1, n);
    InStepMeans(past, s2, t2);
    SameGroupOrNew(s2, t2, n.memberOf);
    var o := G.RegisterMember(env.sort, s2.objs, GroupOrNew(s2, n.memberOf), n.id);
    GroupChangedInStep(env, past, s2, t2, n.memberOf, o);
    RegisterNewIs(env, s, n);
    RegisterNewIs(env, t, n);
  }

  lemma SameGroupOrNew(s: State, t: State, g: string)
    requires t.groups == s.groups
    ensures GroupOrNew(t, g) == GroupOrNew(s, g)
  {
  }

  function Indexed(env: Env, s: State, n: ServiceData): State {
    var u := ScheduleOn(env, s, n.scheduledInterval, n.id);
    u.(index := u.index[n.id := n.scheduledInterval])
  }

  lemma RegisterNewIs(env: Env, s: State, n: ServiceData)
    ensures var s1 := s.(objs := s.objs[n.id := n], store := R.Create(s.store, GSLBService(n)));
            var s2 := Indexed(env, s1, n);
            RegisterNew(env, s, n) ==
            GroupChanged(env, s2, n.memberOf,
                         G.RegisterMember(env.sort, s2.objs, GroupOrNew(s2, n.memberOf), n.id))
  {
    hide ScheduleOn, GroupChanged, G.RegisterMember, R.Create, GroupOrNew;
  }

  lemma IndexedInStep(env: Env, past: Past, s: State, t: State, n: ServiceData)
    requires InStep(past, s, t) && n.id in s.objs
    ensures InStep(past, Indexed(env, s, n), Indexed(env, t, n))
  {
    InStepMeans(past, s, t);
    hide ScheduleOn, Agree, Named;
    ScheduleAside(env, s, t.store, t.rules, n.scheduledInterval, n.id);
    ScheduleOnFrame(env, s, n.scheduledInterval, n.id);
  }

  lemma DeletedInStep(past: Past, s: State, t: State, g: string, id: Id)
    requires InStep(past, s, t) && id != "" && past.places(g, id)
    ensures InStep(past, s.(store := R.Delete(s.store, g, id)), t.(store := R.Delete(t.store, g, id)))
  {
    hide R.Delete, Agree, Named;
    DeleteAgrees(past, s.objs, s.store, t.store, g, id);
  }

  lemma AssignNames(d: ServiceData, n: ServiceData)
    ensures Assign(d, n).id == d.id && Assign(d, n).memberOf == n.memberOf
  {
  }

  lemma JoinedInStep(env: Env, past: Past, s: State, t: State, n: ServiceData)
    requires InStep(past, s, t) && n.id in s.objs && past.places(n.memberOf, n.id)
    ensures InStep(past, Joined(env, s, n), Joined(env, t, n))
  {
    hide *;
    InStepMeans(past, s, t);
    var id, old' := n.id, Obj(s, n.id);
    var d := Assign(old', n);
    var a, b := R.Delete(s.store, old'.memberOf, id), R.Delete(t.store, old'.memberOf, id);
    var s1 := s.(objs := s.objs[id := d], store := R.Create(a, GSLBService(d)));
    var t1 := t.(objs := t.objs[id := d], store := R.Create(b, GSLBService(d)));
    AssignNames(old', n);
    NamedMeans(s, id);
    AgreeMeans(past, s.objs, s.store, t.store, id);
    DeleteAgrees(past, s.objs, s.store, t.store, old'.memberOf, id);
    CreatedInStep(past, s, t, s1, t1, d, a, b);
    SameGroupOrNew(s1, t1, d.memberOf);
    GroupChangedInStep(env, past, s1, t1, d.memberOf,
                       G.RegisterMember(env.sort, s1.objs, GroupOrNew(s1, d.memberOf), id));
    JoinedIs(env, s, n);
    JoinedIs(env, t, n);
  }

  lemma NamedMeans(s: State, id: Id)
    requires Named(s.objs) && id in s.objs
    ensures Obj(s, id).id == id && id != "" && s.objs[id] == Obj(s, id)
  {
  }

  lemma JoinedIs(env: Env, s: State, n: ServiceData)
    ensures var d := Assign(Obj(s, n.id), n);
            var s1 := s.(objs := s.objs[n.id := d],
                         store := R.Create(R.Delete(s.store, Obj(s, n.id).memberOf, n.id), GSLBService(d)));
            Joined(env, s, n) ==
            GroupChanged(env, s1, d.memberOf,
                         G.RegisterMember(env.sort, s1.objs, GroupOrNew(s1, d.memberOf), n.id))
  {
    hide GroupChanged, G.RegisterMember, R.Create, R.Delete, GroupOrNew, Assign;
  }

  lemma RegroupedIs(env: Env, s: State, n: ServiceData)
    ensures var old' := Obj(s, n.id);
            var s1 := s.(objs := s.objs[n.id := Assign(old', n)]);
            Regrouped(env, s, n) ==
            SaveRecord(if old'.memberOf != n.memberOf then LeaveGroup(env, Joined(env, s, n), old'.memberOf, n.id)
                       else RefreshGroup(env, s1, old'.memberOf), n.id)
  {
    AssignNames(Obj(s, n.id), n);
    hide Assign, SaveRecord, LeaveGroup, Joined, RefreshGroup, ChangeGroup;
    JoinedThenLeft(env, s, n);
  }

  lemma RegroupedInStep(env: Env, past: Past, s: State, t: State, n: ServiceData)
    requires InStep(past, s, t) && n.id in s.objs && past.places(n.memberOf, n.id)
    ensures InStep(past, Regrouped(env, s, n), Regrouped(env, t, n))
  {
    hide *;
    InStepMeans(past, s, t);
    RegroupedIs(env, s, n);
    RegroupedIs(env, t, n);
    var id, g := n.id, Obj(s, n.id).memberOf;
    if g != n.memberOf {
      JoinedInStep(env, past, s, t, n);
      var s1, t1 := Joined(env, s, n), Joined(env, t, n);
      LeaveGroupInStep(env, past, s1, t1, g, id);
      SaveRecordInStep(past, LeaveGroup(env, s1, g, id), LeaveGroup(env, t1, g, id), id);
    } else {
      var d := Assign(Obj(s, id), n);
      var s1, t1 := s.(objs := s.objs[id := d]), t.(objs := t.objs[id := d]);
      AssignNames(Obj(s, id), n);
      TouchedInStep(past, s, t, id, d);
      RefreshGroupInStep(env, past, s1, t1, g);
      SaveRecordInStep(past, RefreshGroup(env, s1, g), RefreshGroup(env, t1, g), id);
    }
  }

  /** An object changes, but neither its name nor its group. */
  lemma TouchedInStep(past: Past, s: State, t: State, id: Id, d: ServiceData)
    requires InStep(past, s, t) && id in s.objs
    requires d.id == G.Get(s.objs, id).id && d.memberOf == G.Get(s.objs, id).memberOf
    ensures InStep(past, s.(objs := s.objs[id := d]), t.(objs := t.objs[id := d]))
  {
    hide *;
    InStepMeans(past, s, t);
    OtherData(s.objs, id, d);
    StoreAside(past, s, t, s.(objs := s.objs[id := d]), t.(objs := t.objs[id := d]));
  }

  lemma OtherData(w: G.World, id: Id, d: ServiceData)
    requires id in w && d.id == G.Get(w, id).id && d.memberOf == G.Get(w, id).memberOf
    ensures SamePlaces(w, w[id := d])
  {
  }

  lemma UpdateInStep(env: Env, past: Past, s: State, t: State, n: ServiceData)
    requires InStep(past, s, t) && n.id in s.objs
    requires ConfigChanged(Obj(s, n.id), n) ==> past.places(n.memberOf, n.id)
    ensures InStep(past, UpdateService(env, s, n), UpdateService(env, t, n))
  {
    hide *;
    InStepMeans(past, s, t);
    UpdateIs(env, s, n);
    UpdateIs(env, t, n);
    if ConfigChanged(Obj(s, n.id), n) {
      RegroupedInStep(env, past, s, t, n);
      var u, v := Regrouped(env, s, n), Regrouped(env, t, n);
      InStepMeans(past, u, v);
      MoveInStep(env, past, u, v, n.id, Obj(u, n.id).defaultInterval);
    }
  }

  lemma UpdateIs(env: Env, s: State, n: ServiceData)
    ensures var u := Regrouped(env, s, n);
            var d, from := Obj(u, n.id), Obj(s, n.id).defaultInterval;
            UpdateService(env, s, n) ==
            if !ConfigChanged(Obj(s, n.id), n) then s
            else if from != d.defaultInterval && from == d.scheduledInterval
                 then MoveServiceToInterval(env, u, n.id, d.defaultInterval) else u
  {
    hide Regrouped, ConfigChanged, MoveServiceToInterval;
  }

  /** Taking a service off its scheduler. */
  function OffSchedule(s: State, id: Id): State
    requires id in s.index && s.index[id] in s.schedulers
  {
    s.(schedulers := s.schedulers[s.index[id] := S.Remove(s.schedulers[s.index[id]], id).0])
  }

  lemma RemoveIs(env: Env, s: State, id: Id)
    requires id in s.index && s.index[id] in s.schedulers && Obj(s, id).memberOf in s.groups
    ensures var g := Obj(s, id).memberOf;
            var u := LeaveGroup(env, OffSchedule(s, id), g, id);
            RemoveService(env, s, id) == u.(index := u.index - {id}, store := R.Delete(u.store, g, id))
  {
    hide S.Remove, LeaveGroup, R.Delete;
  }

  lemma RemoveFails(env: Env, s: State, id: Id)
    ensures id !in s.index ==> RemoveService(env, s, id) == s
    ensures id in s.index && (s.index[id] !in s.schedulers || Obj(s, id).memberOf !in s.groups) ==>
              RemoveService(env, s, id) == s.(crashed := true)
  {
    hide S.Remove, LeaveGroup, R.Delete;
  }

  lemma RemoveInStep(env: Env, past: Past, s: State, t: State, id: Id)
    requires InStep(past, s, t)
    ensures InStep(past, RemoveService(env, s, id), RemoveService(env, t, id))
  {
    hide *;
    InStepMeans(past, s, t);
    RemoveFails(env, s, id);
    RemoveFails(env, t, id);
    var g := Obj(s, id).memberOf;
    if id in s.index && s.index[id] in s.schedulers && g in s.groups {
      var s1, t1 := OffSchedule(s, id), OffSchedule(t, id);
      OffScheduleInStep(past, s, t, id);
      LeaveGroupInStep(env, past, s1, t1, g, id);
      var u, v := LeaveGroup(env, s1, g, id), LeaveGroup(env, t1, g, id);
      assert id in s.index.Keys;
      NamedMeans(s, id);
      AgreeMeans(past, s.objs, s.store, t.store, id);
      InStepMeans(past, u, v);
      DeletedInStep(past, u, v, g, id);
      RemoveIs(env, s, id);
      RemoveIs(env, t, id);
      FieldsInStep(past, u.(store := R.Delete(u.store, g, id)), v.(store := R.Delete(v.store, g, id)),
                   RemoveService(env, s, id), RemoveService(env, t, id));
    } else if id in s.index {
      FieldsInStep(past, s, t, s.(crashed := true), t.(crashed := true));
    }
  }

  lemma OffScheduleInStep(past: Past, s: State, t: State, id: Id)
    requires InStep(past, s, t) && id in s.index && s.index[id] in s.schedulers
    ensures InStep(past, OffSchedule(s, id), OffSchedule(t, id)) && OffSchedule(s, id).index == s.index
  {
    hide Agree, S.Remove;
  }

  lemma CheckInStep(env: Env, past: Past, s: State, t: State, id: Id, success: bool, roundtrip: Duration)
    requires InStep(past, s, t) && id in s.objs
    ensures InStep(past, CheckResult(env, s, id, success, roundtrip), CheckResult(env, t, id, success, roundtrip))
  {
    hide *;
    InStepMeans(past, s, t);
    var d := Obj(s, id).(roundtrip := roundtrip);
    var c := OnResult(d, success);
    CheckedMeans(d, success);
    CheckIs(env, s, id, success, roundtrip);
    CheckIs(env, t, id, success, roundtrip);
    var s1, t1 := s.(objs := s.objs[id := c.service]), t.(objs := t.objs[id := c.service]);
    TouchedInStep(past, s, t, id, c.service);
    if c.callback.Some? {
      FlippedInStep(env, past, s1, t1, id, c.callback.value);
    }
  }

  lemma CheckIs(env: Env, s: State, id: Id, success: bool, roundtrip: Duration)
    ensures var c := OnResult(Obj(s, id).(roundtrip := roundtrip), success);
            var s1 := s.(objs := s.objs[id := c.service]);
            CheckResult(env, s, id, success, roundtrip) ==
            if c.callback.Some? then HealthChanged(env, s1, id, c.callback.value) else s1
  {
    hide OnResult, HealthChanged;
  }

  lemma FlippedInStep(env: Env, past: Past, s: State, t: State, id: Id, healthy: bool)
    requires InStep(past, s, t)
    ensures InStep(past, HealthChanged(env, s, id, healthy), HealthChanged(env, t, id, healthy))
  {
    InStepMeans(past, s, t);
    hide InStep, Agree, Named, SaveRecord, GroupChanged, G.OnServiceHealthChange;
    SaveRecordInStep(past, s, t, id);
    var g, u, v := Obj(s, id).memberOf, SaveRecord(s, id), SaveRecord(t, id);
    InStepMeans(past, u, v);
    if g in u.groups {
      GroupChangedInStep(env, past, u, v, g, G.OnServiceHealthChange(u.objs, u.groups[g], id, healthy));
    } else {
      FieldsInStep(past, u, v, u.(crashed := true), v.(crashed := true));
    }
  }

  lemma TickInStep(past: Past, s: State, t: State, d: Duration, now: int, gap: Duration)
    requires InStep(past, s, t)
    ensures InStep(past, Tick(s, d, now, gap), Tick(t, d, now, gap))
  {
    hide *;
    InStepMeans(past, s, t);
    TickIs(s, d, now, gap);
    TickIs(t, d, now, gap);
    FieldsInStep(past, s, t, Tick(s, d, now, gap), Tick(t, d, now, gap));
  }

  lemma TickIs(s: State, d: Duration, now: int, gap: Duration)
    ensures Tick(s, d, now, gap) ==
            if d !in s.schedulers then s
            else s.(schedulers := s.schedulers[d := S.Iterate(s.schedulers[d], now, gap)])
  {
    hide S.Iterate;
  }
}
