/** When the manager checks every service under a single entry of its scheduler. */
module ManagerEntries {
  import opened Basics
  import opened Services
  import opened Managers
  import opened ManagerInvariants
  import opened ManagerRuns
  import opened SingleEntries
  import G = ServiceGroups
  import H = Heaps
  import R = ServiceRepos
  import S = Schedulers

  /** The service was scheduled while its scheduler still held an entry of it, dead or alive. */
  predicate ReturnsEarly(p: Push) {
    H.IndexOfService(p.before, p.id) != -1
  }

  predicate NoEarlyReturns(log: seq<Push>) {
    forall k :: 0 <= k < |log| ==> !ReturnsEarly(log[k])
  }

  /** Every call of `ScheduleService` left every service of its scheduler with one entry. */
  ghost predicate SingleAfterwards(log: seq<Push>) {
    forall k :: 0 <= k < |log| ==> S.OneEntryEach(log[k].after)
  }

  ghost predicate SingleNow(s: State) {
    forall d :: d in s.schedulers ==> S.OneEntryEach(s.schedulers[d].heap)
  }

  ghost predicate Neat(s: State) {
    && (forall d :: d in s.schedulers ==> S.WellFormed(s.schedulers[d]))
    && (NoEarlyReturns(s.log) <==> SingleAfterwards(s.log))
    && (NoEarlyReturns(s.log) ==> SingleNow(s))
  }

  /** What every operation of the manager keeps, in whatever state. */
  ghost predicate KeepsNeat(s: State, t: State) {
    s.log <= t.log && (Neat(s) ==> Neat(t))
  }

  lemma KeepsBoth(s: State, t: State, u: State)
    requires KeepsNeat(s, t) && KeepsNeat(t, u)
    ensures KeepsNeat(s, u)
  {
    hide Neat;
  }

  lemma Untouched(s: State, t: State)
    requires t.schedulers == s.schedulers && t.log == s.log
    ensures KeepsNeat(s, t)
  {
  }

  lemma OneMorePush(log: seq<Push>, p: Push)
    ensures NoEarlyReturns(log + [p]) <==> NoEarlyReturns(log) && !ReturnsEarly(p)
    ensures SingleAfterwards(log + [p]) <==> SingleAfterwards(log) && S.OneEntryEach(p.after)
  {
    hide ReturnsEarly, S.OneEntryEach;
    assert (log + [p])[|log|] == p;
    assert forall k :: 0 <= k < |log| ==> (log + [p])[k] == log[k];
  }

  lemma PushedNeat(s: State, t: State, d: Duration, before: S.Scheduler, after: S.Scheduler, p: Push)
    requires Neat(s) && S.WellFormed(after) && p.before == before.heap && p.after == after.heap
    requires t.schedulers == s.schedulers[d := after] && t.log == s.log + [p]
    requires d in s.schedulers ==> before == s.schedulers[d]
    requires d !in s.schedulers ==> before.heap == []
    requires S.OneEntryEach(before.heap) ==> (S.OneEntryEach(after.heap) <==> !ReturnsEarly(p))
    ensures Neat(t) && s.log <= t.log
  {
    OneMorePush(s.log, p);
    assert before.heap == [] ==> S.OneEntryEach(before.heap);
    hide S.WellFormed, S.OneEntryEach, ReturnsEarly, NoEarlyReturns, SingleAfterwards;
  }

  lemma PushOne(sc: S.Scheduler, id: Id, tag: nat, now: int, gap: Duration)
    requires S.WellFormed(sc)
    ensures var sc' := S.Schedule(sc, id, tag, now, gap);
            && S.WellFormed(sc')
            && (S.OneEntryEach(sc.heap) ==>
                  (S.OneEntryEach(sc'.heap) <==> !ReturnsEarly(Push(id, sc.heap, sc'.heap))))
  {
    S.ScheduleAdds(sc, id, tag, now, gap);
    hide S.WellFormed, S.OneEntryEach, S.Schedule;
    if S.OneEntryEach(sc.heap) {
      S.SecondEntryIffTombstoneLeft(sc, id, tag, now, gap);
    }
  }

  /** Scheduling a service is the only way to a second entry. */
  lemma ScheduleOnNeat(env: Env, s: State, d: Duration, id: Id)
    ensures KeepsNeat(s, ScheduleOn(env, s, d, id))
  {
    var sc := if d in s.schedulers then s.schedulers[d] else S.NewScheduler(d);
    var t := ScheduleOn(env, s, d, id);
    if !S.Schedulable(sc.interval) {
      Untouched(s, t);
    } else {
      var sc' := S.Schedule(sc, id, s.pushes, env.now(s.pushes), env.gap(s.pushes));
      var p := Push(id, sc.heap, sc'.heap);
      assert t.schedulers == s.schedulers[d := sc'] && t.log == s.log + [p] by {
        hide S.Schedule;
      }
      if Neat(s) {
        KnownWellFormed(s, d, sc);
        hide *;
        PushOne(sc, id, s.pushes, env.now(s.pushes), env.gap(s.pushes));
        PushedNeat(s, t, d, sc, sc', p);
        NeatKept(s, t);
      }
    }
  }

  lemma KnownWellFormed(s: State, d: Duration, sc: S.Scheduler)
    requires Neat(s) && S.Schedulable(sc.interval)
    requires sc == if d in s.schedulers then s.schedulers[d] else S.NewScheduler(d)
    ensures S.WellFormed(sc)
  {
    if d !in s.schedulers {
      S.NewIsWellFormed(d);
    }
    hide S.WellFormed;
  }

  lemma NeatKept(s: State, t: State)
    requires Neat(t) && s.log <= t.log
    ensures KeepsNeat(s, t)
  {
  }

  /** One scheduler changes, and no entry is added. */
  lemma OneSchedulerNeat(s: State, t: State, d: Duration, sc: S.Scheduler)
    requires d in s.schedulers && t.log == s.log
    requires t.schedulers == s.schedulers[d := sc] || t.schedulers == s.schedulers - {d}
    requires S.WellFormed(s.schedulers[d]) ==>
               S.WellFormed(sc) && (S.OneEntryEach(s.schedulers[d].heap) ==> S.OneEntryEach(sc.heap))
    ensures KeepsNeat(s, t)
  {
    hide S.WellFormed, S.OneEntryEach, NoEarlyReturns, SingleAfterwards;
  }

  lemma RemoveOne(sc: S.Scheduler, id: Id)
    ensures S.WellFormed(sc) ==>
              && S.WellFormed(S.Remove(sc, id).0)
              && (S.OneEntryEach(sc.heap) ==> S.OneEntryEach(S.Remove(sc, id).0.heap))
  {
    hide S.WellFormed, S.OneEntryEach, S.Remove;
    if S.WellFormed(sc) {
      S.RemoveSparesOthers(sc, id);
      if S.OneEntryEach(sc.heap) {
        RemoveKeepsOneEntry(sc, id);
      }
    }
  }

  lemma MoveNeat(env: Env, s: State, id: Id, d: Duration)
    ensures KeepsNeat(s, MoveServiceToInterval(env, s, id, d))
  {
    hide S.Remove, ScheduleOn, KeepsNeat;
    var old' := Obj(s, id).scheduledInterval;
    var s1 := if id in s.index
              then s.(index := s.index[id := d], objs := s.objs[id := Obj(s, id).(scheduledInterval := d)])
              else s;
    if old' == d {
      Untouched(s, s);
    } else if old' !in s.schedulers {
      Untouched(s, s1.(crashed := true));
    } else {
      var (sc, last) := S.Remove(s.schedulers[old'], id);
      var s2 := s1.(schedulers := if last then s.schedulers - {old'} else s.schedulers[old' := sc]);
      RemoveOne(s.schedulers[old'], id);
      OneSchedulerNeat(s, s2, old', sc);
      ScheduleOnNeat(env, s2, d, id);
      KeepsBoth(s, s2, ScheduleOn(env, s2, d, id));
    }
  }

  lemma ExchangeNeat(env: Env, s: State, id: Id, d: Duration)
    ensures KeepsNeat(s, Demote(env, s, id, d)) && KeepsNeat(s, Promote(env, s, id, d))
  {
    var t := MoveServiceToInterval(env, s, id, d);
    hide MoveServiceToInterval, KeepsNeat;
    MoveNeat(env, s, id, d);
    Untouched(t, Demote(env, s, id, d));
    Untouched(t, Promote(env, s, id, d));
    KeepsBoth(s, t, Demote(env, s, id, d));
    KeepsBoth(s, t, Promote(env, s, id, d));
  }

  lemma RescheduleNeat(env: Env, s: State, e: G.PromotionEvent)
    ensures KeepsNeat(s, Reschedule(env, s, e))
  {
    hide Demote, Promote, KeepsNeat;
    if e.newActive.Some? {
      var n := e.newActive.value;
      if e.oldActive.Some? {
        var o := e.oldActive.value;
        var base := if Obj(s, o).baseInterval == 0 then Obj(s, n).baseInterval else Obj(s, o).baseInterval;
        var t := Demote(env, s, o, Obj(s, n).scheduledInterval);
        ExchangeNeat(env, s, o, Obj(s, n).scheduledInterval);
        ExchangeNeat(env, t, n, base);
        KeepsBoth(s, t, Promote(env, t, n, base));
      } else {
        ExchangeNeat(env, s, n, Obj(s, n).baseInterval);
      }
    } else {
      Untouched(s, Reschedule(env, s, e));
    }
  }

  lemma GroupChangedNeat(env: Env, s: State, g: string, o: G.Outcome)
    ensures KeepsNeat(s, GroupChanged(env, s, g, o))
  {
    hide MoveFlag, Reschedule, KeepsNeat;
    var s1 := s.(groups := s.groups[g := o.group], crashed := s.crashed || o.crashed);
    Untouched(s, s1);
    if o.event.Some? && !s1.crashed && o.event.value.newActive != o.event.value.oldActive {
      var s2 := s1.(store := MoveFlag(s1, o.event.value).0);
      Untouched(s, s2);
      RescheduleNeat(env, s2, o.event.value);
      KeepsBoth(s, s2, Reschedule(env, s2, o.event.value));
    }
  }

  lemma LeaveGroupNeat(env: Env, s: State, g: string, id: Id)
    ensures KeepsNeat(s, LeaveGroup(env, s, g, id))
  {
    hide GroupChanged, KeepsNeat, G.RemoveMember;
    if g in s.groups {
      var o := G.RemoveMember(env.sort, s.objs, s.groups[g], id);
      var t := GroupChanged(env, s, g, o);
      GroupChangedNeat(env, s, g, o);
      Untouched(t, LeaveGroup(env, s, g, id));
      KeepsBoth(s, t, LeaveGroup(env, s, g, id));
    } else {
      Untouched(s, s);
    }
  }

  lemma SaveRecordNeat(s: State, t: State, id: Id)
    requires KeepsNeat(s, t)
    ensures KeepsNeat(s, SaveRecord(t, id))
  {
    Untouched(t, SaveRecord(t, id));
    hide KeepsNeat;
    KeepsBoth(s, t, SaveRecord(t, id));
  }

  lemma RegroupedNeat(env: Env, s: State, n: ServiceData)
    ensures KeepsNeat(s, Regrouped(env, s, n))
  {
    hide GroupChanged, LeaveGroup, KeepsNeat, G.RegisterMember, G.Update, SaveRecord, R.Create, R.Delete, Assign;
    var old' := Obj(s, n.id);
    var s1 := s.(objs := s.objs[n.id := Assign(old', n)]);
    Untouched(s, s1);
    if old'.memberOf != n.memberOf {
      var d := Obj(s1, n.id);
      var s2 := s1.(store := R.Create(R.Delete(s.store, old'.memberOf, n.id), GSLBService(d)));
      var o := G.RegisterMember(env.sort, s2.objs, GroupOrNew(s2, d.memberOf), n.id);
      var s3 := GroupChanged(env, s2, d.memberOf, o);
      Untouched(s, s2);
      GroupChangedNeat(env, s2, d.memberOf, o);
      LeaveGroupNeat(env, s3, old'.memberOf, n.id);
      KeepsBoth(s, s2, s3);
      KeepsBoth(s, s3, LeaveGroup(env, s3, old'.memberOf, n.id));
      SaveRecordNeat(s, LeaveGroup(env, s3, old'.memberOf, n.id), n.id);
    } else if old'.memberOf in s.groups {
      var o := G.Update(env.sort, s1.objs, s.groups[old'.memberOf]);
      GroupChangedNeat(env, s1, old'.memberOf, o);
      KeepsBoth(s, s1, GroupChanged(env, s1, old'.memberOf, o));
      SaveRecordNeat(s, GroupChanged(env, s1, old'.memberOf, o), n.id);
    } else {
      SaveRecordNeat(s, s1, n.id);
    }
  }

  lemma UpdateNeat(env: Env, s: State, n: ServiceData)
    ensures KeepsNeat(s, UpdateService(env, s, n))
  {
    hide Regrouped, MoveServiceToInterval, KeepsNeat, ConfigChanged;
    Untouched(s, s);
    var u := Regrouped(env, s, n);
    RegroupedNeat(env, s, n);
    MoveNeat(env, u, n.id, Obj(u, n.id).defaultInterval);
    KeepsBoth(s, u, MoveServiceToInterval(env, u, n.id, Obj(u, n.id).defaultInterval));
  }

  lemma RegisterNewNeat(env: Env, s: State, n: ServiceData)
    ensures KeepsNeat(s, RegisterNew(env, s, n))
  {
    hide GroupChanged, ScheduleOn, KeepsNeat, G.RegisterMember, R.Create;
    var s1 := s.(objs := s.objs[n.id := n], store := R.Create(s.store, GSLBService(n)));
    var s2 := ScheduleOn(env, s1, n.scheduledInterval, n.id);
    var s3 := s2.(index := s2.index[n.id := n.scheduledInterval]);
    var o := G.RegisterMember(env.sort, s3.objs, GroupOrNew(s3, n.memberOf), n.id);
    Untouched(s, s1);
    ScheduleOnNeat(env, s1, n.scheduledInterval, n.id);
    Untouched(s2, s3);
    GroupChangedNeat(env, s3, n.memberOf, o);
    KeepsBoth(s, s1, s2);
    KeepsBoth(s, s2, s3);
    KeepsBoth(s, s3, GroupChanged(env, s3, n.memberOf, o));
  }

  lemma RegisterNeat(env: Env, s: State, cfg: Config)
    ensures KeepsNeat(s, RegisterService(env, s, cfg))
  {
    hide NewService, RegisterNew, UpdateService, KeepsNeat;
    Untouched(s, s);
    match NewService(cfg, s.store)
    case None =>
    case Some(n) =>
      UpdateNeat(env, s, n);
      RegisterNewNeat(env, s, n);
  }

  lemma RemoveNeat(env: Env, s: State, id: Id)
    ensures KeepsNeat(s, RemoveService(env, s, id))
  {
    hide LeaveGroup, S.Remove, R.Delete, KeepsNeat;
    Untouched(s, s);
    if id in s.index {
      var interval, g := s.index[id], Obj(s, id).memberOf;
      if interval !in s.schedulers || g !in s.groups {
        Untouched(s, s.(crashed := true));
      } else {
        var sc := S.Remove(s.schedulers[interval], id).0;
        var s1 := s.(schedulers := s.schedulers[interval := sc]);
        var s2 := LeaveGroup(env, s1, g, id);
        RemoveOne(s.schedulers[interval], id);
        OneSchedulerNeat(s, s1, interval, sc);
        LeaveGroupNeat(env, s1, g, id);
        KeepsBoth(s, s1, s2);
        Untouched(s2, RemoveService(env, s, id));
        KeepsBoth(s, s2, RemoveService(env, s, id));
      }
    }
  }

  lemma CheckNeat(env: Env, s: State, id: Id, success: bool, roundtrip: Duration)
    ensures KeepsNeat(s, CheckResult(env, s, id, success, roundtrip))
  {
    hide GroupChanged, SaveRecord, OnResult, KeepsNeat, G.OnServiceHealthChange;
    var c := OnResult(Obj(s, id).(roundtrip := roundtrip), success);
    var s1 := s.(objs := s.objs[id := c.service]);
    Untouched(s, s1);
    if c.callback.Some? {
      var s2, g := SaveRecord(s1, id), Obj(s1, id).memberOf;
      SaveRecordNeat(s, s1, id);
      if g in s2.groups {
        var o := G.OnServiceHealthChange(s2.objs, s2.groups[g], id, c.callback.value);
        GroupChangedNeat(env, s2, g, o);
        KeepsBoth(s, s2, GroupChanged(env, s2, g, o));
      } else {
        Untouched(s2, s2.(crashed := true));
        KeepsBoth(s, s2, s2.(crashed := true));
      }
    }
  }

  lemma TickNeat(s: State, d: Duration, now: int, gap: Duration)
    ensures KeepsNeat(s, Tick(s, d, now, gap))
  {
    hide S.Iterate, KeepsNeat, S.WellFormed, S.OneEntryEach;
    if d in s.schedulers {
      var sc := S.Iterate(s.schedulers[d], now, gap);
      if S.WellFormed(s.schedulers[d]) {
        S.IterateReschedules(s.schedulers[d], now, gap);
        if S.OneEntryEach(s.schedulers[d].heap) {
          IterateKeepsOneEntry(s.schedulers[d], now, gap);
        }
      }
      OneSchedulerNeat(s, Tick(s, d, now, gap), d, sc);
    } else {
      Untouched(s, s);
    }
  }

  lemma StepNeat(env: Env, s: State, e: Event)
    ensures KeepsNeat(s, Step(env, s, e))
  {
    hide RegisterService, RemoveService, CheckResult, Tick, KeepsNeat;
    Untouched(s, s);
    match e
    case Register(cfg) => RegisterNeat(env, s, cfg);
    case Remove(id) => RemoveNeat(env, s, id);
    case Check(id, success, roundtrip) => CheckNeat(env, s, id, success, roundtrip);
    case Turn(interval, now, gap) => TickNeat(s, interval, now, gap);
  }

  // ---------- When entries are due ----------

  /** A call of `ScheduleService`, by the clock and with the gap that it sees: the service gets one live entry in the
      scheduler at the interval, new or not, due within one interval of the plain gap; the others stay as they are. */
  lemma ScheduledWhenDue(env: Env, s: State, d: Duration, id: Id)
    requires Neat(s) && S.Schedulable(d) && (d in s.schedulers ==> s.schedulers[d].interval == d)
    ensures var t, now, gap := ScheduleOn(env, s, d, id), env.now(s.pushes), env.gap(s.pushes);
            && d in t.schedulers && t.schedulers - {d} == s.schedulers - {d} && t.schedulers[d].interval == d
            && exists e: H.Entry ::
                 && multiset(t.schedulers[d].heap)
                    == (if d in s.schedulers then multiset(s.schedulers[d].heap) else multiset{}) + multiset{e}
                 && e.id == id && e.live && now + gap <= e.time <= now + gap + S.Abs(d) - 500_000_000
  {
    var sc := if d in s.schedulers then s.schedulers[d] else S.NewScheduler(d);
    KnownWellFormed(s, d, sc);
    S.ScheduleAdds(sc, id, s.pushes, env.now(s.pushes), env.gap(s.pushes));
    hide S.Schedule, S.WellFormed, Neat;
    var t := ScheduleOn(env, s, d, id);
    assert t.schedulers == s.schedulers[d := t.schedulers[d]];
    OtherSchedulers(s, t, d);
    assert multiset(sc.heap) == if d in s.schedulers then multiset(s.schedulers[d].heap) else multiset{};
  }

  lemma OtherSchedulers(s: State, t: State, d: Duration)
    requires d in t.schedulers && t.schedulers == s.schedulers[d := t.schedulers[d]]
    ensures t.schedulers - {d} == s.schedulers - {d}
  {
  }

  /** A turn of a scheduler's loop takes the entry that is due first, and puts it back, if it is live, for the moment
      and with the gap that it sees; it changes nothing else. */
  lemma TurnReschedules(env: Env, s: State, d: Duration, now: int, gap: Duration)
    requires Neat(s) && !s.crashed && d in s.schedulers && !s.schedulers[d].stopped && s.schedulers[d].heap != []
    ensures var t, h := Step(env, s, Turn(d, now, gap)), s.schedulers[d].heap;
            && d in t.schedulers && t.schedulers - {d} == s.schedulers - {d}
            && t == s.(schedulers := t.schedulers)
            && (forall k :: 0 <= k < |h| ==> h[0].time <= h[k].time)
            && multiset(t.schedulers[d].heap) == multiset(h) - multiset{h[0]}
                 + (if h[0].live then multiset{h[0].(time := now + gap)} else multiset{})
  {
    S.IterateReschedules(s.schedulers[d], now, gap);
    hide S.Iterate, S.WellFormed;
    OtherSchedulers(s, Step(env, s, Turn(d, now, gap)), d);
  }

  // ---------- Runs ----------

  /** At every moment of the run, also in the middle of its steps, every scheduler holds at most one entry
      of each service: it does between steps, and after each call of `ScheduleService`. */
  ghost predicate AlwaysSingle(env: Env, s: State, run: seq<Event>) {
    && SingleNow(Final(env, s, run)) && SingleAfterwards(Final(env, s, run).log)
    && (run != [] ==> AlwaysSingle(env, s, run[..|run| - 1]))
  }

  /** Over any run of the manager, every service has at most one entry per scheduler at every moment if and
      only if no service returned to a scheduler that still held its tombstone, or an entry of it. */
  lemma {:induction false} SingleIffNoEarlyReturns(env: Env, run: seq<Event>)
    ensures Neat(Final(env, NewManager(), run))
    ensures AlwaysSingle(env, NewManager(), run) <==> NoEarlyReturns(Final(env, NewManager(), run).log)
  {
    hide Step, S.WellFormed, S.OneEntryEach, ReturnsEarly;
    if run != [] {
      var before := Final(env, NewManager(), run[..|run| - 1]);
      SingleIffNoEarlyReturns(env, run[..|run| - 1]);
      StepNeat(env, before, run[|run| - 1]);
      if NoEarlyReturns(Final(env, NewManager(), run).log) {
        assert NoEarlyReturns(before.log);
      }
    }
  }

  /** In every reachable state, then, a registered service is being checked under exactly one entry, if no
      service has returned early. */
  lemma ReachableSingleCheck(env: Env, run: seq<Event>, id: Id)
    requires Admissible(env, NewManager(), run) && !Final(env, NewManager(), run).crashed
    requires NoEarlyReturns(Final(env, NewManager(), run).log) && id in Final(env, NewManager(), run).index
    ensures var s := Final(env, NewManager(), run); var d := s.index[id];
            && Obj(s, id).scheduledInterval == d
            && d in s.schedulers && s.schedulers[d].isRunning && !s.schedulers[d].stopped
            && var h := s.schedulers[d].heap;
               exists k :: 0 <= k < |h| && h[k].live && forall j :: 0 <= j < |h| ==> (h[j].id == id <==> j == k)
  {
    var s := Final(env, NewManager(), run);
    ReachableChecks(env, run, id);
    SingleIffNoEarlyReturns(env, run);
    hide Final, Admissible, NoEarlyReturns, SingleAfterwards, AlwaysSingle;
    var h := s.schedulers[s.index[id]].heap;
    assert S.OneEntryEach(h);
    var e: H.Entry :| e in h && e.id == id && e.live;
    var k :| 0 <= k < |h| && h[k] == e;
  }
}
