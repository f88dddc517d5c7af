/** A reachable state in which the promotion of one service withdraws the announcement of a healthy active of
    another group. */
module ManagerStrays {
  import opened Basics
  import opened Services
  import opened Managers
  import opened ManagerInvariants
  import opened ManagerPromotions
  import opened ManagerSteps
  import opened ManagerLeaving
  import opened ManagerRuns
  import opened ManagerEffects
  import opened ManagerRules
  import opened ManagerRecoveries
  import opened ManagerSpares
  import opened ManagerUpdates
  import opened ManagerScenarios
  import opened ManagerFailures
  import G = ServiceGroups

  /** Joining a new group is not noticed by anyone when the service is down. */
  lemma FoundsDown(sort: G.Sorter, w: G.World, h: string, id: Id)
    requires !G.Healthy(w, id)
    ensures var o := G.RegisterMember(sort, w, G.EmptyGroup(h), id);
            && o.event.None? && o.group.active.None? && o.group.lastActive.None?
            && forall m :: m in o.group.members ==> !G.Healthy(w, m)
  {
    hide G.RegisterMember;
    JoinDown(sort, w, G.EmptyGroup(h), id);
  }

  lemma SilentMove(v: Shown, h: string, o1: G.Outcome, g: string, o2: G.Outcome)
    requires o1.event.None? && o2.event.None? && o2.group.members != [] && g != h
    ensures AfterLeave(AfterGroup(v, h, o1), g, o2) ==
            Shown(v.objs, v.groups[h := o1.group][g := o2.group], v.rules)
  {
  }

  /** Founding group `h` and leaving group `g`, where everybody is down, changes nothing else. */
  lemma QuietMove(env: Env, s: State, n: ServiceData)
    requires Inv(s) && n.id in s.index && n.memberOf != Obj(s, n.id).memberOf && n.memberOf !in s.groups
    requires Obj(s, n.id).memberOf in s.groups
    requires var g := s.groups[Obj(s, n.id).memberOf]; g.active.None? && |g.members| > 1
    ensures var u, g, h := RegroupedShown(env, s, n), Obj(s, n.id).memberOf, n.memberOf;
            && u.objs == Assigned(s, n) && u.rules == s.rules
            && h in u.groups && u.groups[h].lastActive.None? && u.groups[h].active.None?
            && (forall m :: m in u.groups[h].members ==> !G.Healthy(u.objs, m))
            && g in u.groups && u.groups[g].active.None? && u.groups[g].lastActive == s.groups[g].lastActive
  {
    var id, g, h, w := n.id, Obj(s, n.id).memberOf, n.memberOf, Assigned(s, n);
    var grp, o1, o2 := s.groups[g], JoinOutcomeOf(env, s, n), LeaveOutcomeOf(env, s, n);
    hide *;
    MoveParts(env, s, n);
    DownMembers(s, n);
    FoundsDown(env.sort, w, h, id);
    QuietLeave(env.sort, w, grp, id, o2);
    SilentMove(Shown(w, s.groups, s.rules), h, o1, g, o2);
  }

  lemma MoveParts(env: Env, s: State, n: ServiceData)
    requires n.memberOf != Obj(s, n.id).memberOf && n.memberOf !in s.groups && Obj(s, n.id).memberOf in s.groups
    ensures var g, h, w := Obj(s, n.id).memberOf, n.memberOf, Assigned(s, n);
            var o1, o2 := JoinOutcomeOf(env, s, n), LeaveOutcomeOf(env, s, n);
            && o1 == G.RegisterMember(env.sort, w, G.EmptyGroup(h), n.id)
            && o2 == G.RemoveMember(env.sort, w, s.groups[g], n.id)
            && RegroupedShown(env, s, n) == AfterLeave(AfterGroup(Shown(w, s.groups, s.rules), h, o1), g, o2)
  {
    hide AfterLeave, AfterGroup, Assign, G.RegisterMember, G.RemoveMember;
  }

  lemma DownMembers(s: State, n: ServiceData)
    requires Inv(s) && n.id in s.index && Obj(s, n.id).memberOf in s.groups
    requires s.groups[Obj(s, n.id).memberOf].active.None?
    ensures var grp, w := s.groups[Obj(s, n.id).memberOf], Assigned(s, n);
            && NoDup(grp.members) && n.id in grp.members && grp.mode != G.ActiveActiveRoundTrip
            && forall m :: m in grp.members ==> !G.Healthy(w, m)
  {
    var g := Obj(s, n.id).memberOf;
    InvParts(s);
    InvMeans(s, n.id);
    AssignMeans(s.objs[n.id], n);
    hide *;
    GroupIn(s, g);
    GroupFacts(s, g);
    NoneUp(s, s.groups[g]);
    HomeMember(s, n.id);
    AssignedHealth(s, n);
  }

  /** An update changes nobody's health. */
  lemma AssignedHealth(s: State, n: ServiceData)
    ensures forall m :: G.Healthy(Assigned(s, n), m) == G.Healthy(s.objs, m)
  {
  }

  /** The first service is down and last active in its group, and the others wait. */
  ghost predicate LastDown(s: State, cfgs: seq<Config>) {
    && |cfgs| == 3 && Inv(s) && s.rules == {} && s.index.Keys == IdsIn(cfgs)
    && var a, g := cfgs[0].serviceId, cfgs[0].memberOf;
       && a in s.index && Obj(s, a).memberOf == g && g in s.groups && |s.groups[g].members| > 2
       && s.groups[g].active.None? && s.groups[g].lastActive == Some(a)
       && !Obj(s, a).isHealthy && Obj(s, a).failureCount == 1
       && Obj(s, a).defaultInterval == cfgs[0].interval && Obj(s, a).ip == cfgs[0].ip
       && (forall k :: 0 <= k < 3 ==> Obj(s, cfgs[k].serviceId).memberOf == g)
       && forall k :: 1 <= k < 3 ==> Waiting(Obj(s, cfgs[k].serviceId), cfgs[k])
  }

  predicate Waiting(d: ServiceData, cfg: Config) {
    !d.isHealthy && d.failureCount == 1 && d.priority == cfg.priority
  }

  predicate ThreeOfAGroup(cfgs: seq<Config>) {
    && |cfgs| == 3 && (forall k :: 0 <= k < 3 ==> Plain(cfgs[k]))
    && cfgs[0].memberOf == cfgs[1].memberOf == cfgs[2].memberOf
    && cfgs[0].priority != cfgs[1].priority && cfgs[1].priority != cfgs[2].priority
  }

  lemma FirstGoesDown(env: Env, s: State, cfgs: seq<Config>)
    requires ThreeOfAGroup(cfgs) && DistinctIds(cfgs) && OnlyFirstUp(s, cfgs)
    ensures LastDown(Step(env, s, Check(cfgs[0].serviceId, false, 0)), cfgs)
  {
    var a := cfgs[0].serviceId;
    var q := Step(env, s, Check(a, false, 0));
    assert forall k :: 0 <= k < |cfgs| ==> Plain(cfgs[k]);
    assert cfgs[0].memberOf == cfgs[1].memberOf == cfgs[2].memberOf;
    hide *;
    GoesDown(env, s, cfgs);
    FirstInterval(s, cfgs);
    BigGroup(s, cfgs);
    WaitsThere(s, cfgs);
    OnlyThese(s, cfgs);
    LastDownOf(s, q, cfgs);
  }

  lemma OnlyThese(s: State, cfgs: seq<Config>)
    requires OnlyFirstUp(s, cfgs)
    ensures s.index.Keys == IdsIn(cfgs)
  {
    hide Inv, IdsIn;
  }

  lemma LastDownOf(s: State, q: State, cfgs: seq<Config>)
    requires |cfgs| == 3 && cfgs[0].memberOf == cfgs[1].memberOf == cfgs[2].memberOf
    requires q.index.Keys == s.index.Keys == IdsIn(cfgs) && Inv(q) && q.rules == {}
    requires var a, g := cfgs[0].serviceId, cfgs[0].memberOf;
             && a in q.index && Obj(q, a).memberOf == g && g in q.groups && q.groups[g].active.None?
             && q.groups[g].lastActive == Some(a) && ComesUp(q, a)
             && g in s.groups && q.groups[g].members == s.groups[g].members && |s.groups[g].members| > 2
             && OnlyService(s, q, a, Down(Obj(s, a)))
             && Obj(s, a).defaultInterval == cfgs[0].interval && Obj(s, a).ip == cfgs[0].ip
    requires forall k :: 1 <= k < 3 ==>
               var d := Obj(s, cfgs[k].serviceId);
               cfgs[k].serviceId != cfgs[0].serviceId && d.memberOf == cfgs[k].memberOf && Waiting(d, cfgs[k])
    ensures LastDown(q, cfgs)
  {
    hide Inv, IdsIn;
  }

  lemma WaitsThere(s: State, cfgs: seq<Config>)
    requires |cfgs| == 3 && OnlyFirstUp(s, cfgs) && DistinctIds(cfgs) && forall k :: 0 <= k < |cfgs| ==> Plain(cfgs[k])
    ensures forall k :: 1 <= k < 3 ==>
              var d := Obj(s, cfgs[k].serviceId);
              cfgs[k].serviceId != cfgs[0].serviceId && d.memberOf == cfgs[k].memberOf && Waiting(d, cfgs[k])
  {
    hide OnlyFirstUp, Plain, DistinctIds;
    forall k | 1 <= k < 3
      ensures var d := Obj(s, cfgs[k].serviceId);
              cfgs[k].serviceId != cfgs[0].serviceId && d.memberOf == cfgs[k].memberOf && Waiting(d, cfgs[k])
    {
      Waits(s, cfgs, k);
    }
  }

  // ---------- The move ----------

  lemma NoOtherGroup(s: State, cfgs: seq<Config>, h: string)
    requires LastDown(s, cfgs) && h != cfgs[0].memberOf
    ensures h !in s.groups
  {
    hide Inv;
    forall m | m in s.index.Keys ensures Obj(s, m).memberOf == cfgs[0].memberOf {
      var k :| 0 <= k < |cfgs| && cfgs[k].serviceId == m;
    }
    if h in s.groups {
      var m := MemberOf(s, h);
      assert false;
    }
  }

  lemma MemberOf(s: State, h: string) returns (m: Id)
    requires Inv(s) && h in s.groups
    ensures m in s.index.Keys && Obj(s, m).memberOf == h
  {
    InvParts(s);
    GroupIn(s, h);
    GroupFacts(s, h);
    m := s.groups[h].members[0];
  }

  /** The first service has gone to group `h`, where nobody has been up yet. */
  ghost predicate MovedDown(s: State, cfgs: seq<Config>, h: string) {
    && |cfgs| == 3 && Inv(s) && s.rules == {} && s.index.Keys == IdsIn(cfgs)
    && var a, g := cfgs[0].serviceId, cfgs[0].memberOf;
       && a in s.index && Obj(s, a).memberOf == h != g && g in s.groups && h in s.groups
       && s.groups[g].active.None? && s.groups[g].lastActive == Some(a)
       && s.groups[h].active.None? && AllDown(s, h)
       && !Obj(s, a).isHealthy && Obj(s, a).failureCount == 1 && Obj(s, a).datacenter == cfgs[0].datacenter
       && forall k :: 1 <= k < 3 ==>
            Obj(s, cfgs[k].serviceId).memberOf == g && Waiting(Obj(s, cfgs[k].serviceId), cfgs[k])
  }

  lemma UpdateIsRegrouping(env: Env, s: State, n: ServiceData)
    requires Inv(s) && n.id in s.index && Assignable(n) && ConfigChanged(Obj(s, n.id), n)
    requires n.defaultInterval == Obj(s, n.id).defaultInterval
    ensures UpdateService(env, s, n) == Regrouped(env, s, n)
  {
    RegroupedEffect(env, s, n);
    RegroupedService(env, s, n);
    assert Obj(Regrouped(env, s, n), n.id) == G.Get(Show(Regrouped(env, s, n)).objs, n.id);
    assert Assign(Obj(s, n.id), n).defaultInterval == n.defaultInterval;
    hide Inv, Regrouped, RegroupedShown, Assign, ConfigChanged;
  }

  lemma MovesOver(env: Env, s: State, cfgs: seq<Config>, moved: Config)
    requires LastDown(s, cfgs) && Plain(cfgs[0]) && DistinctIds(cfgs)
    requires moved == cfgs[0].(memberOf := moved.memberOf, ip := moved.ip)
    requires moved.ip != cfgs[0].ip && moved.memberOf != cfgs[0].memberOf
    ensures Allowed(s, Register(moved)) && MovedDown(Step(env, s, Register(moved)), cfgs, moved.memberOf)
  {
    var q, a := Step(env, s, Register(moved)), cfgs[0].serviceId;
    LastDownMeans(s, cfgs);
    PlainMeans(cfgs[0]);
    NoOtherGroup(s, cfgs, moved.memberOf);
    Updates(env, s, moved);
    var n := NewService(moved, s.store).value;
    assert ConfigChanged(Obj(s, a), n);
    assert cfgs[1].serviceId != a && cfgs[2].serviceId != a;
    AssignMeans(Obj(s, a), n);
    hide *;
    QuietUpdate(env, s, moved);
    UpdateIsRegrouping(env, s, n);
    RegroupedEffect(env, s, n);
    QuietMove(env, s, n);
    ShownParts(q);
    MovedDownOf(s, q, cfgs, n);
  }

  lemma QuietUpdate(env: Env, s: State, cfg: Config)
    requires Inv(s) && cfg.addressOk && cfg.serviceId != "" && cfg.serviceId in s.index && cfg.priority < MAX_INT
    requires cfg.interval == Obj(s, cfg.serviceId).defaultInterval
    ensures var q := Step(env, s, Register(cfg)); Inv(q) && q.index.Keys == s.index.Keys
  {
    hide *;
    PlainUpdate(env, s, cfg);
    Updates(env, s, cfg);
    RegisterServiceKeeps(env, s, cfg);
    assert s.index.Keys + {cfg.serviceId} == s.index.Keys;
  }

  lemma MovedDownOf(s: State, q: State, cfgs: seq<Config>, n: ServiceData)
    requires LastDown(s, cfgs) && n.id == cfgs[0].serviceId && n.datacenter == cfgs[0].datacenter
    requires n.memberOf != cfgs[0].memberOf && cfgs[1].serviceId != n.id && cfgs[2].serviceId != n.id
    requires Inv(q) && q.index.Keys == s.index.Keys && q.objs == Assigned(s, n) && q.rules == s.rules
    requires var g, h := Obj(s, n.id).memberOf, n.memberOf;
             && h in q.groups && q.groups[h].lastActive.None? && q.groups[h].active.None?
             && (forall m :: m in q.groups[h].members ==> !G.Healthy(q.objs, m))
             && g in s.groups && g in q.groups && q.groups[g].active.None?
             && q.groups[g].lastActive == s.groups[g].lastActive
    ensures MovedDown(q, cfgs, n.memberOf)
  {
    hide Inv, IdsIn;
    assert n.id in q.index.Keys;
    assert Obj(q, n.id) == Assign(Obj(s, n.id), n);
    forall k | 1 <= k < 3
      ensures Obj(q, cfgs[k].serviceId) == Obj(s, cfgs[k].serviceId)
    {
    }
  }

  lemma LastDownMeans(s: State, cfgs: seq<Config>)
    requires LastDown(s, cfgs)
    ensures Inv(s) && cfgs[0].serviceId in s.index
    ensures var d := Obj(s, cfgs[0].serviceId);
            && d.defaultInterval == cfgs[0].interval && d.ip == cfgs[0].ip && d.memberOf == cfgs[0].memberOf
            && cfgs[0].memberOf in s.groups && s.groups[cfgs[0].memberOf].active.None?
            && |s.groups[cfgs[0].memberOf].members| > 2
  {
    hide Inv;
  }

  // ---------- Coming up in the new group, and the other in the old ----------

  /** The first service is announced in group `h`, flagged there, and healthy. */
  ghost predicate UpElsewhere(s: State, cfgs: seq<Config>, h: string) {
    && |cfgs| == 3 && Inv(s) && s.index.Keys == IdsIn(cfgs)
    && var a, g := cfgs[0].serviceId, cfgs[0].memberOf;
       && a in s.index && Obj(s, a).memberOf == h != g && g in s.groups && HealthyThere(s, a, h)
       && Rule(h, cfgs[0].datacenter) in s.rules && Flagged(s, h, a) && Obj(s, a).datacenter == cfgs[0].datacenter
       && s.groups[g].active.None? && s.groups[g].lastActive == Some(a)
       && forall k :: 1 <= k < 3 ==>
            Obj(s, cfgs[k].serviceId).memberOf == g && Waiting(Obj(s, cfgs[k].serviceId), cfgs[k])
  }

  predicate HealthyThere(s: State, a: Id, h: string) {
    h in s.groups && s.groups[h].active == Some(a) && Obj(s, a).isHealthy && Obj(s, a).memberOf == h
  }

  lemma ComesUpElsewhere(env: Env, s: State, cfgs: seq<Config>, h: string)
    requires MovedDown(s, cfgs, h) && DistinctIds(cfgs)
    ensures UpElsewhere(Step(env, s, Check(cfgs[0].serviceId, true, 0)), cfgs, h)
  {
    var a, q := cfgs[0].serviceId, Step(env, s, Check(cfgs[0].serviceId, true, 0));
    MovedDownMeans(s, cfgs, h);
    InvIsAlive(s);
    hide *;
    ServiceUp(env, s, a);
    CheckIsStep(env, s, a, true);
    NewlyUp(s, q, a);
    RecoveryHeardIff(env, s, a, true, 0, a);
    UpElsewhereOf(s, q, cfgs, h);
  }

  lemma MovedDownMeans(s: State, cfgs: seq<Config>, h: string)
    requires MovedDown(s, cfgs, h)
    ensures var a := cfgs[0].serviceId;
            && Inv(s) && a in s.index && ComesUp(s, a) && AllDown(s, Obj(s, a).memberOf) && Obj(s, a).memberOf == h
            && !Unheard(s, a)
  {
    hide Inv;
  }

  lemma NewlyUp(s: State, q: State, a: Id)
    requires ComesUp(s, a) && Obj(s, a).memberOf in q.groups && q.groups[Obj(s, a).memberOf].active == Some(a)
    ensures NewlyActive(s, q, Obj(s, a).memberOf, a)
  {
  }

  lemma UpElsewhereOf(s: State, q: State, cfgs: seq<Config>, h: string)
    requires MovedDown(s, cfgs, h) && DistinctIds(cfgs) && OnlyGroup(s, q, h) && q.index.Keys == s.index.Keys
    requires OnlyService(s, q, cfgs[0].serviceId, Up(Obj(s, cfgs[0].serviceId)))
    requires h in q.groups && q.groups[h].active == Some(cfgs[0].serviceId)
    requires Flagged(q, h, cfgs[0].serviceId) && RuleOf(Obj(q, cfgs[0].serviceId)) in q.rules
    ensures UpElsewhere(q, cfgs, h)
  {
    hide Inv, IdsIn, Flagged, AllDown;
    assert cfgs[0].serviceId in q.index.Keys;
    assert cfgs[1].serviceId != cfgs[0].serviceId && cfgs[2].serviceId != cfgs[0].serviceId;
  }

  /** The second service comes up, and the first one is no longer announced or flagged. */
  lemma SecondComesUp(env: Env, s: State, cfgs: seq<Config>, h: string)
    requires UpElsewhere(s, cfgs, h) && DistinctIds(cfgs) && cfgs[1].priority != cfgs[2].priority
    ensures var q, a := Step(env, s, Check(cfgs[1].serviceId, true, 0)), cfgs[0].serviceId;
            && Allowed(s, Check(cfgs[1].serviceId, true, 0))
            && Inv(q) && HealthyThere(q, a, h) && RuleOf(Obj(q, a)) == Rule(h, cfgs[0].datacenter)
            && RuleOf(Obj(q, a)) !in q.rules && !Flagged(q, h, a)
  {
    var a, b := cfgs[0].serviceId, cfgs[1].serviceId;
    var q := Step(env, s, Check(b, true, 0));
    InvOfUp(s, cfgs, h);
    InvIsAlive(s);
    SecondStands(s, cfgs, h);
    hide *;
    CheckIsStep(env, s, b, true);
    CheckKeeps(env, s, b, true, 0);
    CheckElsewhere(env, s, b, true, 0);
    CheckKeepsGroups(env, s, b, true, 0);
    WithdrawnElsewhere(s, q, cfgs, h);
  }

  lemma InvOfUp(s: State, cfgs: seq<Config>, h: string)
    requires UpElsewhere(s, cfgs, h)
    ensures Inv(s)
  {
  }

  lemma SecondStands(s: State, cfgs: seq<Config>, h: string)
    requires UpElsewhere(s, cfgs, h) && DistinctIds(cfgs) && cfgs[1].priority != cfgs[2].priority
    ensures var a, b := cfgs[0].serviceId, cfgs[1].serviceId;
            && b in s.index && Callback(s, b, true, 0) == Some(true) && Strayed(s, b, a)
            && Allowed(s, Check(b, true, 0))
  {
    hide Inv;
    var g, b, c := cfgs[0].memberOf, cfgs[1].serviceId, cfgs[2].serviceId;
    assert b in s.index.Keys && c in s.index.Keys;
    StillThere(s, g, b);
    StillThere(s, g, c);
    MixedGroup(s, g, b, c);
  }

  lemma WithdrawnElsewhere(s: State, q: State, cfgs: seq<Config>, h: string)
    requires UpElsewhere(s, cfgs, h) && LosesTo(s, q, cfgs[1].serviceId, cfgs[0].serviceId)
    requires SameGroupsBut(s.groups, q.groups, Obj(s, cfgs[1].serviceId).memberOf)
    ensures var a := cfgs[0].serviceId;
            && HealthyThere(q, a, h) && RuleOf(Obj(q, a)) == Rule(h, cfgs[0].datacenter)
            && RuleOf(Obj(q, a)) !in q.rules && !Flagged(q, h, a)
  {
    hide Inv, IdsIn, Flagged;
    assert Obj(s, cfgs[1].serviceId).memberOf != h;
  }

  /** Of three services in a group, the first comes up, goes down, moves to another group, and comes up there.
      Then another member of its old group comes up: this withdraws the rule and the flag that the first one
      has in its new group, where it is still the healthy active. */
  lemma RecoveryHitsAnother(env: Env, cfgs: seq<Config>, h: string, ip: string)
    returns (run: seq<Event>, before: State, s: State)
    requires ThreeOfAGroup(cfgs) && DistinctIds(cfgs) && h != cfgs[0].memberOf && ip != cfgs[0].ip
    ensures Reaches(env, run, before) && s == Step(env, before, Check(cfgs[1].serviceId, true, 0))
    ensures Reaches(env, run + [Check(cfgs[1].serviceId, true, 0)], s)
    ensures var a, rule := cfgs[0].serviceId, Rule(h, cfgs[0].datacenter);
            && HealthyThere(before, a, h) && rule in before.rules && Flagged(before, h, a)
            && HealthyThere(s, a, h) && RuleOf(Obj(s, a)) == rule && rule !in s.rules && !Flagged(s, h, a)
  {
    var up;
    assert forall k :: 0 <= k < |cfgs| ==> Plain(cfgs[k]);
    run, up := FirstComesUp(env, cfgs);
    var moved := cfgs[0].(memberOf := h, ip := ip);
    var e1, e2, e3 := Check(cfgs[0].serviceId, false, 0), Register(moved), Check(cfgs[0].serviceId, true, 0);
    var down := Step(env, up, e1);
    var there := Step(env, down, e2);
    before := Step(env, there, e3);
    s := Step(env, before, Check(cfgs[1].serviceId, true, 0));
    assert Plain(cfgs[0]) && cfgs[1].priority != cfgs[2].priority;
    assert Allowed(up, e1) by {
      ConfiguredAs(up, cfgs, 0);
    }
    FirstGoesDown(env, up, cfgs);
    MovesOver(env, down, cfgs, moved);
    ComesUpElsewhere(env, there, cfgs, h);
    SecondComesUp(env, before, cfgs, h);
    UpMeans(before, cfgs, h);
    LastDownMeans(down, cfgs);
    MovedDownMeans(there, cfgs, h);
    assert Allowed(there, e3);
    hide *;
    Then(env, run, up, e1);
    Then(env, run + [e1], down, e2);
    Then(env, run + [e1] + [e2], there, e3);
    run := run + [e1] + [e2] + [e3];
    Then(env, run, before, Check(cfgs[1].serviceId, true, 0));
  }

  lemma UpMeans(s: State, cfgs: seq<Config>, h: string)
    requires UpElsewhere(s, cfgs, h)
    ensures Inv(s) && HealthyThere(s, cfgs[0].serviceId, h) && Flagged(s, h, cfgs[0].serviceId)
    ensures Rule(h, cfgs[0].datacenter) in s.rules
  {
    hide Inv, Flagged;
  }
}
