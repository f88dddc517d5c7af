/** A reachable removal after which the manager goes on checking the service. */
module ManagerLingers {
  import opened Basics
  import opened Services
  import opened Managers
  import opened ManagerInvariants
  import opened ManagerSteps
  import opened ManagerRuns
  import opened ManagerEffects
  import opened ManagerRecoveries
  import opened ManagerScenarios
  import opened ManagerFailures
  import opened ManagerStops
  import G = ServiceGroups
  import S = Schedulers

  /** Three services of one group, of which the first beats the second, at another interval. */
  predicate BeatsSecond(cfgs: seq<Config>) {
    && |cfgs| == 3 && (forall k :: 0 <= k < 3 ==> Plain(cfgs[k]))
    && cfgs[0].memberOf == cfgs[1].memberOf == cfgs[2].memberOf
    && cfgs[0].priority < cfgs[1].priority && cfgs[0].baseInterval != cfgs[1].interval
  }

  /** The first is the active of its group, the second is up, and the third is down. */
  ghost predicate TwoUp(s: State, cfgs: seq<Config>) {
    && |cfgs| == 3 && Inv(s) && cfgs[0].serviceId in s.index && cfgs[0].memberOf in s.groups
    && var a, b, c, grp := cfgs[0].serviceId, cfgs[1].serviceId, cfgs[2].serviceId, s.groups[cfgs[0].memberOf];
       && Obj(s, a).memberOf == cfgs[0].memberOf && grp.active == Some(a) && a != b
       && NoDup(grp.members) && |grp.members| > 2 && a in grp.members && b in grp.members
       && (forall m :: m in grp.members ==> m == a || m == b || m == c)
       && Obj(s, b).isHealthy && !Obj(s, c).isHealthy
       && Obj(s, a).scheduledInterval == cfgs[0].baseInterval && Obj(s, b).scheduledInterval == cfgs[1].interval
  }

  /** The two parts of the group that matter before the second comes up. */
  lemma Members(s: State, cfgs: seq<Config>)
    requires BeatsSecond(cfgs) && DistinctIds(cfgs) && OnlyFirstUp(s, cfgs)
    ensures var a, b, c, g := cfgs[0].serviceId, cfgs[1].serviceId, cfgs[2].serviceId, cfgs[0].memberOf;
            && g in s.groups && |s.groups[g].members| > 2 && NoDup(s.groups[g].members)
            && s.groups[g].active == Some(a) && a in s.groups[g].members && b in s.groups[g].members
            && (forall m :: m in s.groups[g].members ==> m == a || m == b || m == c)
            && b in s.index && a in s.index && a != b && b != c && a != c
            && Obj(s, b) == Made(cfgs[1]) && Obj(s, c) == Made(cfgs[2])
            && Obj(s, a).isHealthy && Obj(s, a).priority == cfgs[0].priority && Obj(s, a).memberOf == g
  {
    BigGroup(s, cfgs);
    ConfiguredMembers(s, cfgs, 0);
    ConfiguredMembers(s, cfgs, 1);
    OnlyFirstUpInv(s, cfgs);
    OneOfThem(s, cfgs);
    assert DistinctIds(cfgs) ==> cfgs[0].serviceId != cfgs[1].serviceId;
    assert Obj(s, cfgs[1].serviceId) == Made(cfgs[1]) && Obj(s, cfgs[2].serviceId) == Made(cfgs[2]);
    hide Inv, IdsIn;
  }

  lemma OneOfThem(s: State, cfgs: seq<Config>)
    requires |cfgs| == 3 && Inv(s) && s.index.Keys == IdsIn(cfgs) && cfgs[0].memberOf in s.groups
    ensures NoDup(s.groups[cfgs[0].memberOf].members)
    ensures forall m :: m in s.groups[cfgs[0].memberOf].members ==>
                          m == cfgs[0].serviceId || m == cfgs[1].serviceId || m == cfgs[2].serviceId
  {
    InvParts(s);
    GroupIn(s, cfgs[0].memberOf);
    hide Inv, GroupsOk, G.Elected, IdsIn;
    GroupFacts(s, cfgs[0].memberOf);
    hide GroupOk;
    forall m | m in s.groups[cfgs[0].memberOf].members
      ensures m == cfgs[0].serviceId || m == cfgs[1].serviceId || m == cfgs[2].serviceId
    {
      assert m in s.index.Keys;
      OneOfIds(cfgs, m);
    }
  }

  lemma OneOfIds(cfgs: seq<Config>, m: Id)
    requires |cfgs| == 3 && m in IdsIn(cfgs)
    ensures m == cfgs[0].serviceId || m == cfgs[1].serviceId || m == cfgs[2].serviceId
  {
  }

  /** The second comes up, and the first keeps its role. */
  lemma SecondUp(env: Env, s: State, cfgs: seq<Config>)
    requires BeatsSecond(cfgs) && DistinctIds(cfgs) && OnlyFirstUp(s, cfgs)
    requires Obj(s, cfgs[0].serviceId).scheduledInterval == cfgs[0].baseInterval
    ensures TwoUp(Step(env, s, Check(cfgs[1].serviceId, true, 0)), cfgs)
  {
    var b, g := cfgs[1].serviceId, cfgs[0].memberOf;
    var q := Step(env, s, Check(b, true, 0));
    Members(s, cfgs);
    OnlyFirstUpInv(s, cfgs);
    var d := Up(Obj(s, b));
    var w := s.objs[b := d];
    assert OnResult(Obj(s, b).(roundtrip := 0), true) == Checked(d, Some(true)) && Obj(s, b).memberOf == g by {
      assert Plain(cfgs[1]);
      hide Inv, OnlyFirstUp, DistinctIds;
    }
    assert d.isHealthy && !Obj(s, b).isHealthy;
    var o := G.OnServiceHealthChange(w, s.groups[g], b, true);
    hide *;
    Flips(env, s, b, true, d);
    KeepsFirst(s, cfgs, d, o);
    QuietShow(s, q, w, g, o);
    NowBothUp(s, q, cfgs, d, o);
  }

  lemma KeepsFirst(s: State, cfgs: seq<Config>, d: ServiceData, o: G.Outcome)
    requires BeatsSecond(cfgs) && d == Up(Made(cfgs[1])) && cfgs[0].memberOf in s.groups
    requires var a, b, c, grp := cfgs[0].serviceId, cfgs[1].serviceId, cfgs[2].serviceId, s.groups[cfgs[0].memberOf];
             && grp.active == Some(a) && a in grp.members && b in grp.members
             && (forall m :: m in grp.members ==> m == a || m == b || m == c)
             && a != b && b != c && a != c
             && Obj(s, c) == Made(cfgs[2]) && Obj(s, a).isHealthy && Obj(s, a).priority == cfgs[0].priority
             && FlipDecides(s.objs[b := d], grp, b, o)
    ensures o.event.None? && o.group.active == Some(cfgs[0].serviceId)
    ensures o.group.members == s.groups[cfgs[0].memberOf].members
  {
    hide Plain, FlipDecides;
    StillFirst(s, s.objs[cfgs[1].serviceId := d], cfgs, o);
  }

  lemma NowBothUp(s: State, q: State, cfgs: seq<Config>, d: ServiceData, o: G.Outcome)
    requires BeatsSecond(cfgs) && Inv(q) && q.index.Keys == s.index.Keys && d == Up(Made(cfgs[1]))
    requires Obj(s, cfgs[0].serviceId).scheduledInterval == cfgs[0].baseInterval && cfgs[0].memberOf in s.groups
    requires var a, b, c, grp := cfgs[0].serviceId, cfgs[1].serviceId, cfgs[2].serviceId, s.groups[cfgs[0].memberOf];
             && |grp.members| > 2 && NoDup(grp.members) && a in grp.members && b in grp.members
             && (forall m :: m in grp.members ==> m == a || m == b || m == c)
             && a in s.index && a != b && b != c && a != c
             && Obj(s, c) == Made(cfgs[2]) && Obj(s, a).memberOf == cfgs[0].memberOf
             && o.group.active == Some(a) && o.group.members == grp.members
    requires q.objs == s.objs[cfgs[1].serviceId := d] && q.groups == s.groups[cfgs[0].memberOf := o.group]
    ensures TwoUp(q, cfgs)
  {
    hide Inv, Plain;
    assert cfgs[0].serviceId in q.index.Keys;
    assert forall x :: x != cfgs[1].serviceId ==> Obj(q, x) == Obj(s, x);
  }

  lemma QuietShow(s: State, q: State, w: G.World, g: string, o: G.Outcome)
    requires o.event.None?
    requires Show(q) == AfterEvent(Shown(w, s.groups, s.rules), s.groups[g := o.group], Heeded(s, o.event))
    ensures q.objs == w && q.groups == s.groups[g := o.group]
  {
    assert q.objs == Show(q).objs && q.groups == Show(q).groups;
  }

  lemma StillFirst(s: State, w: G.World, cfgs: seq<Config>, o: G.Outcome)
    requires |cfgs| == 3 && cfgs[0].memberOf in s.groups
    requires var a, b, c := cfgs[0].serviceId, cfgs[1].serviceId, cfgs[2].serviceId;
             && FlipDecides(w, s.groups[cfgs[0].memberOf], b, o)
             && var grp := s.groups[cfgs[0].memberOf];
                && grp.active == Some(a) && a in grp.members && b in grp.members
                && (forall m :: m in grp.members ==> m == a || m == b || m == c)
                && G.Healthy(w, a) && G.Healthy(w, b) && !G.Healthy(w, c) && G.Priority(w, a) < G.Priority(w, b)
    ensures o.event.None? && o.group.active == Some(cfgs[0].serviceId)
    ensures o.group.members == s.groups[cfgs[0].memberOf].members
  {
  }

  /** Then the first has an heir at another interval. */
  lemma HeirElsewhere(env: Env, s: State, cfgs: seq<Config>)
    requires BeatsSecond(cfgs) && TwoUp(s, cfgs)
    ensures StaysScheduled(env, s, cfgs[0].serviceId)
  {
    hide Inv;
    var a, b, grp := cfgs[0].serviceId, cfgs[1].serviceId, s.groups[cfgs[0].memberOf];
    var rest := G.Without(grp.members, a);
    G.WithoutMember(grp.members, a);
    SortKeeps(env.sort, s.objs, rest);
    hide G.Without;
    var heir := G.Chosen(env.sort, s.objs, rest);
    assert b in env.sort(s.objs, rest) && G.Healthy(s.objs, b);
    assert heir.Some? && heir.value in rest && G.Healthy(s.objs, heir.value);
    assert heir.value == b;
  }

  /** The active of a group of three is removed while another is up at another interval: nothing registered is left
      of it, and a scheduler still holds a live entry of it. */
  lemma RemovedStaysChecked(env: Env, cfgs: seq<Config>) returns (run: seq<Event>, s: State)
    requires BeatsSecond(cfgs) && DistinctIds(cfgs)
    ensures var a := cfgs[0].serviceId;
            && Reaches(env, run, s) && a !in s.index && !(exists g :: IsMember(s, g, a) || Stored(s, g, a))
            && exists d :: d in s.schedulers && S.HasLive(s.schedulers[d].heap, a)
  {
    var up;
    run, up := FirstComesUp(env, cfgs);
    var a, b := cfgs[0].serviceId, cfgs[1].serviceId;
    var e1, e2 := Check(b, true, 0), Remove(a);
    var both := Step(env, up, e1);
    s := Step(env, both, e2);
    Members(up, cfgs);
    SecondUp(env, up, cfgs);
    assert Allowed(up, e1) && Allowed(both, e2);
    TwoUpInv(both, cfgs);
    InvIsAlive(both);
    RemoveIsStep(env, both, a);
    hide *;
    HeirElsewhere(env, both, cfgs);
    RemovedIsCheckedIff(env, both, a);
    Then(env, run, up, e1);
    Then(env, run + [e1], both, e2);
    run := run + [e1] + [e2];
    Gone(s, a);
  }

  lemma TwoUpInv(s: State, cfgs: seq<Config>)
    requires TwoUp(s, cfgs)
    ensures Inv(s) && cfgs[0].serviceId in s.index
  {
  }

  lemma RemoveIsStep(env: Env, s: State, id: Id)
    requires !s.crashed
    ensures Step(env, s, Remove(id)) == RemoveService(env, s, id)
  {
    hide RemoveService;
  }

  lemma Gone(s: State, id: Id)
    requires Inv(s) && id !in s.index && IsChecked(s, id)
    ensures !exists g :: IsMember(s, g, id) || Stored(s, g, id)
    ensures exists d :: d in s.schedulers && S.HasLive(s.schedulers[d].heap, id)
  {
    forall g ensures !IsMember(s, g, id) && !Stored(s, g, id) {
      NoMember(s, g, id);
    }
    var d :| Scheduled(s, d, id);
  }

  lemma NoMember(s: State, g: string, id: Id)
    requires Inv(s) && id !in s.index
    ensures !IsMember(s, g, id) && !Stored(s, g, id)
  {
    InvParts(s);
    if g in s.groups {
      GroupIn(s, g);
      GroupFacts(s, g);
    }
    assert Stored(s, g, id) <==> IsMember(s, g, id);
  }
}
