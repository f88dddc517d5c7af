/** Reachable states in which the manager falls short: one for each condition that its theorems need. */
module ManagerFailures {
  import opened Basics
  import opened Services
  import opened Managers
  import opened ManagerInvariants
  import opened ManagerPromotions
  import opened ManagerSteps
  import opened ManagerLeaving
  import opened ManagerRuns
  import opened ManagerEffects
  import opened ManagerEntries
  import opened ManagerRules
  import opened ManagerRecoveries
  import opened ManagerSpares
  import opened ManagerUpdates
  import opened ManagerScenarios
  import G = ServiceGroups
  import H = Heaps
  import R = ServiceRepos
  import S = Schedulers

  // ---------- Rules left behind ----------

  lemma FirstIsAnnounced(s: State, cfgs: seq<Config>)
    requires OnlyFirstUp(s, cfgs)
    ensures RulesOk(s) && IsAnnounced(s, cfgs[0].serviceId)
    ensures Obj(s, cfgs[0].serviceId).memberOf == cfgs[0].memberOf
    ensures RuleOf(Obj(s, cfgs[0].serviceId)) == Rule(cfgs[0].memberOf, cfgs[0].datacenter)
  {
    hide Inv, IdsIn;
  }

  lemma LoneMember(s: State, id: Id)
    requires Inv(s) && s.index.Keys == {id}
    ensures var g := Obj(s, id).memberOf; g in s.groups && s.groups[g].members == [id]
  {
    hide Inv, GroupsOk, GroupOk, ObjectsOk, IndexOk, StoreOk, StoreSane, G.Elected;
    assert id in s.index.Keys;
    InvMeans(s, id);
    var g := Obj(s, id).memberOf;
    InvParts(s);
    GroupIn(s, g);
    GroupFacts(s, g);
    forall m | m in s.groups[g].members ensures m == id {
      assert m in s.index.Keys;
    }
    AllTheSame(s.groups[g].members, id);
  }

  lemma AllTheSame(ms: seq<Id>, id: Id)
    requires NoDup(ms) && ms != [] && forall m :: m in ms ==> m == id
    ensures ms == [id]
  {
    assert ms[0] in ms;
    SameElements(ms, [id]);
    Rearranged(ms, [id]);
  }

  lemma OnlyOne(s: State, cfg: Config)
    requires OnlyFirstUp(s, [cfg])
    ensures s.index.Keys == {cfg.serviceId}
  {
    hide Inv;
  }

  /** A lone announced service is removed: its rule stays. */
  lemma RemovalLeavesRule(env: Env, cfg: Config) returns (run: seq<Event>, s: State)
    requires Plain(cfg)
    ensures Reaches(env, run, s) && !RulesOk(s)
  {
    var before;
    run, before := FirstComesUp(env, [cfg]);
    var id, e := cfg.serviceId, Remove(cfg.serviceId);
    s := Step(env, before, e);
    assert [cfg][0].serviceId == id && Allowed(before, e);
    OnlyFirstUpInv(before, [cfg]);
    FirstIsAnnounced(before, [cfg]);
    ConfiguredAs(before, [cfg], 0);
    OnlyOne(before, cfg);
    LoneMember(before, cfg.serviceId);
    hide *;
    LoneLeavesRule(before, id);
    RemoveIsStep(env, before, id);
    RemovalKeepsRules(env, before, id);
    RemoveServiceKeeps(env, before, id);
    Then(env, run, before, e);
    run := run + [e];
  }

  lemma LoneLeavesRule(s: State, id: Id)
    requires id in s.index && IsAnnounced(s, id)
    requires Obj(s, id).memberOf in s.groups && s.groups[Obj(s, id).memberOf].members == [id]
    ensures LeavesRule(s, id)
  {
  }

  lemma RemoveIsStep(env: Env, s: State, id: Id)
    requires Inv(s)
    ensures Step(env, s, Remove(id)) == RemoveService(env, s, id)
  {
    InvIsAlive(s);
    hide RemoveService, Inv;
  }

  /** What a registration of a known service amounts to. */
  lemma Updates(env: Env, s: State, cfg: Config)
    requires Inv(s) && cfg.addressOk && cfg.serviceId != "" && cfg.serviceId in s.index && cfg.priority < MAX_INT
    ensures NewService(cfg, s.store).Some? && Allowed(s, Register(cfg))
    ensures var n := NewService(cfg, s.store).value;
            && Step(env, s, Register(cfg)) == UpdateService(env, s, n) == RegisterService(env, s, cfg)
            && n.id == cfg.serviceId && Assignable(n) && n.defaultInterval == cfg.interval
            && n == n.(ip := cfg.ip, port := cfg.port, fqdn := cfg.fqdn, memberOf := cfg.memberOf,
                       datacenter := cfg.datacenter, checkType := cfg.checkType, priority := cfg.priority,
                       failureThreshold := cfg.failureThreshold)
  {
    InvIsAlive(s);
    NewServiceMeans(cfg, s.store);
    hide Inv, UpdateService;
  }

  /** An update that leaves the interval as it is ends in a sound state. */
  lemma PlainUpdate(env: Env, s: State, cfg: Config)
    requires Inv(s) && cfg.addressOk && cfg.serviceId != "" && cfg.serviceId in s.index && cfg.priority < MAX_INT
    requires cfg.interval == Obj(s, cfg.serviceId).defaultInterval
    ensures Inv(Step(env, s, Register(cfg)))
  {
    Updates(env, s, cfg);
    RegisterServiceKeeps(env, s, cfg);
    hide Inv, NewService, RegisterService, UpdateService, RegistrationPanics;
    RegistrationPanicsIff(env, s, cfg);
    hide RegisterService, S.Schedulable, SettledInterval, ConfigChanged;
  }

  /** An announced service gets another datacenter: the rule keeps its old name. */
  lemma RenamingLeavesRule(env: Env, cfg: Config, datacenter: string) returns (run: seq<Event>, s: State)
    requires Plain(cfg) && datacenter != cfg.datacenter
    ensures Reaches(env, run, s) && !RulesOk(s)
  {
    var before;
    run, before := FirstComesUp(env, [cfg]);
    var renamed := cfg.(datacenter := datacenter);
    var id, e := cfg.serviceId, Register(renamed);
    FirstIsAnnounced(before, [cfg]);
    OnlyFirstUpInv(before, [cfg]);
    OnlyOne(before, cfg);
    LoneMember(before, cfg.serviceId);
    assert id in before.index.Keys;
    Updates(env, before, renamed);
    s := Step(env, before, e);
    var n := NewService(renamed, before.store).value;
    assert Obj(before, id).defaultInterval == cfg.interval && Obj(before, id).memberOf == cfg.memberOf;
    assert Obj(before, id).datacenter == cfg.datacenter;
    assert RuleOf(n) != RuleOf(Obj(before, id)) && ConfigChanged(Obj(before, id), n);
    HeirIsBest(env, before, n);
    LoneHeir(env, before, n);
    assert Renames(env, before, n) by {
      hide Inv, Heir, UpdateService;
    }
    hide *;
    PlainUpdate(env, before, renamed);
    UpdateKeepsRulesIff(env, before, n);
    Then(env, run, before, e);
    run := run + [e];
  }

  /** Nobody but the service itself can be its heir in a group of its own, and it has its new name. */
  lemma LoneHeir(env: Env, s: State, n: ServiceData)
    requires Obj(s, n.id).memberOf in s.groups && s.groups[Obj(s, n.id).memberOf].members == [n.id]
    requires n.memberOf == Obj(s, n.id).memberOf && RuleOf(n) != RuleOf(Obj(s, n.id))
    ensures !HeirTakesRule(env, s, n)
  {
    HeirIsBest(env, s, n);
    AssignMeans(Obj(s, n.id), n);
    hide Heir, Assign;
  }

  lemma ConfiguredAs(s: State, cfgs: seq<Config>, k: nat)
    requires OnlyFirstUp(s, cfgs) && k < |cfgs|
    ensures cfgs[k].serviceId in s.index && Obj(s, cfgs[k].serviceId).memberOf == cfgs[k].memberOf
  {
    hide Inv;
    assert cfgs[k].serviceId in IdsIn(cfgs);
    assert cfgs[k].serviceId in s.index.Keys;
  }

  /** The services are members of the groups they are configured for. */
  lemma ConfiguredMembers(s: State, cfgs: seq<Config>, k: nat)
    requires OnlyFirstUp(s, cfgs) && k < |cfgs|
    ensures cfgs[k].memberOf in s.groups && cfgs[k].serviceId in s.groups[cfgs[k].memberOf].members
  {
    OnlyFirstUpInv(s, cfgs);
    ConfiguredAs(s, cfgs, k);
    hide Inv, OnlyFirstUp;
    InvMeans(s, cfgs[k].serviceId);
  }

  lemma ThreeMembers(ms: seq<Id>, a: Id, b: Id, c: Id)
    requires a in ms && b in ms && c in ms && a != b && b != c && a != c
    ensures |ms| > 2
  {
    var i :| 0 <= i < |ms| && ms[i] == a;
    var j :| 0 <= j < |ms| && ms[j] == b;
    var k :| 0 <= k < |ms| && ms[k] == c;
  }

  lemma OthersDown(s: State, cfgs: seq<Config>, x: Id)
    requires OnlyFirstUp(s, cfgs) && x != cfgs[0].serviceId && x in s.index
    ensures !Obj(s, x).isHealthy
  {
    hide Inv;
    assert x in s.index.Keys;
    var k :| 0 <= k < |cfgs| && cfgs[k].serviceId == x;
    assert k > 0 && Obj(s, x) == Made(cfgs[k]);
  }

  /** With the others of its group down, a service that moves away has no heir. */
  lemma NoHeir(env: Env, s: State, n: ServiceData)
    requires Inv(s) && n.id in s.index && n.memberOf != Obj(s, n.id).memberOf
    requires forall x :: x in s.index && x != n.id ==> !Obj(s, x).isHealthy
    ensures Obj(s, n.id).memberOf in s.groups && Heir(env, s, n).None?
  {
    InvMeans(s, n.id);
    var g := Obj(s, n.id).memberOf;
    InvParts(s);
    GroupIn(s, g);
    GroupFacts(s, g);
    HeirIsBest(env, s, n);
    G.WithoutMember(s.groups[g].members, n.id);
    hide Inv, GroupsOk, GroupOk, Heir, G.Without, Assign, G.Elected;
    assert forall m :: m in Staying(s, n) ==> m in s.index && m != n.id;
    assert forall m :: m in Staying(s, n) ==> !G.Healthy(Assigned(s, n), m);
  }

  /** A healthy service that joins a group that is down becomes its active. */
  lemma JoinsAsActive(env: Env, s: State, n: ServiceData)
    requires Inv(s) && n.id in s.index && n.memberOf != Obj(s, n.id).memberOf && Obj(s, n.id).isHealthy
    requires forall x :: x in s.index && x != n.id ==> !Obj(s, x).isHealthy
    ensures NewActive(env, s, n) == Some(n.id)
  {
    JoinersDown(s, n);
    hide Inv, Assign, NewActive, Assigned, Joining;
    NewActiveIsBest(env, s, n);
  }

  lemma JoinersDown(s: State, n: ServiceData)
    requires Inv(s) && n.id in s.index && n.memberOf != Obj(s, n.id).memberOf && Obj(s, n.id).isHealthy
    requires forall x :: x in s.index && x != n.id ==> !Obj(s, x).isHealthy
    ensures n.id in Joining(s, n) && G.Healthy(Assigned(s, n), n.id)
    ensures forall m :: m in Joining(s, n) && m != n.id ==> !G.Healthy(Assigned(s, n), m)
  {
    var before := GroupOrNew(s, n.memberOf).members;
    InvParts(s);
    SoundGroup(s, n.memberOf);
    hide *;
    MembersRegistered(s, n.memberOf);
    Appended(s, n);
    forall m | m in Joining(s, n) && m != n.id ensures !G.Healthy(Assigned(s, n), m) {
      assert m in before;
    }
  }

  lemma MembersRegistered(s: State, g: string)
    requires GroupsOk(s)
    ensures forall m :: IsMember(s, g, m) ==> m in s.index
  {
    if g in s.groups {
      GroupIn(s, g);
      GroupFacts(s, g);
    }
  }

  lemma Appended(s: State, n: ServiceData)
    ensures forall m :: m in Joining(s, n) <==> m in GroupOrNew(s, n.memberOf).members || m == n.id
    ensures forall m :: G.Healthy(Assigned(s, n), m) == Obj(s, m).isHealthy
  {
    hide GroupOrNew;
    assert Joining(s, n)[|Joining(s, n)| - 1] == n.id;
  }

  /** An announced active moves from a group of three, where nobody else is up, to a group where nobody is
      up. The old rule stays, and the active of the new group has none. */
  lemma MoveLeavesRule(env: Env, cfgs: seq<Config>, ip: string) returns (run: seq<Event>, s: State)
    requires |cfgs| == 4 && DistinctIds(cfgs) && (forall k :: 0 <= k < 4 ==> Plain(cfgs[k])) && ip != cfgs[0].ip
    requires cfgs[0].memberOf == cfgs[1].memberOf == cfgs[2].memberOf != cfgs[3].memberOf
    ensures Reaches(env, run, s) && !RulesOk(s)
    ensures var id, rule := cfgs[0].serviceId, Rule(cfgs[3].memberOf, cfgs[0].datacenter);
            && rule.group in s.groups && s.groups[rule.group].active == Some(id)
            && RuleOf(Obj(s, id)) == rule && rule !in s.rules
  {
    var before;
    run, before := FirstComesUp(env, cfgs);
    var moved := cfgs[0].(memberOf := cfgs[3].memberOf, ip := ip);
    s := Step(env, before, Register(moved));
    assert Plain(cfgs[0]);
    PlainMeans(cfgs[0]);
    hide *;
    MoveStep(env, before, cfgs, moved);
    Then(env, run, before, Register(moved));
    run := run + [Register(moved)];
  }

  lemma PlainMeans(cfg: Config)
    requires Plain(cfg)
    ensures cfg.addressOk && cfg.serviceId != "" && cfg.priority < MAX_INT
  {
  }

  lemma MoveStep(env: Env, s: State, cfgs: seq<Config>, moved: Config)
    requires |cfgs| == 4 && DistinctIds(cfgs) && OnlyFirstUp(s, cfgs)
    requires cfgs[0].addressOk && cfgs[0].serviceId != "" && cfgs[0].priority < MAX_INT
    requires cfgs[0].memberOf == cfgs[1].memberOf == cfgs[2].memberOf != cfgs[3].memberOf
    requires moved == cfgs[0].(memberOf := cfgs[3].memberOf, ip := moved.ip) && moved.ip != cfgs[0].ip
    ensures var q, id, h := Step(env, s, Register(moved)), moved.serviceId, moved.memberOf;
            && Allowed(s, Register(moved)) && Inv(q) && !RulesOk(q)
            && h in q.groups && q.groups[h].active == Some(id)
            && RuleOf(Obj(q, id)) == Rule(h, moved.datacenter) && Rule(h, moved.datacenter) !in q.rules
  {
    var q, id := Step(env, s, Register(moved)), moved.serviceId;
    FirstIsAnnounced(s, cfgs);
    OnlyFirstUpInv(s, cfgs);
    ConfiguredAs(s, cfgs, 0);
    Updates(env, s, moved);
    var n := NewService(moved, s.store).value;
    AssignMeans(Obj(s, id), n);
    assert RuleOf(n) == Rule(moved.memberOf, moved.datacenter);
    FirstInterval(s, cfgs);
    hide *;
    MovesAway(env, s, cfgs, n);
    PlainUpdate(env, s, moved);
    UpdateKeepsRulesIff(env, s, n);
    NewGroupRuleIff(env, s, n, id);
    UpdatedService(env, s, n);
    SameRuleOf(Obj(q, id), Assign(Obj(s, id), n));
  }

  lemma FirstInterval(s: State, cfgs: seq<Config>)
    requires OnlyFirstUp(s, cfgs)
    ensures var d := Obj(s, cfgs[0].serviceId);
            && d.defaultInterval == cfgs[0].interval && d.isHealthy && d.ip == cfgs[0].ip
            && d.datacenter == cfgs[0].datacenter
  {
    hide Inv, IdsIn;
  }

  lemma SameRuleOf(d: ServiceData, e: ServiceData)
    requires d == e.(scheduledInterval := d.scheduledInterval)
    ensures RuleOf(d) == RuleOf(e)
  {
  }

  lemma MovesAway(env: Env, s: State, cfgs: seq<Config>, n: ServiceData)
    requires |cfgs| == 4 && DistinctIds(cfgs) && OnlyFirstUp(s, cfgs) && n.id == cfgs[0].serviceId && n.ip != cfgs[0].ip
    requires cfgs[0].memberOf == cfgs[1].memberOf == cfgs[2].memberOf != cfgs[3].memberOf
    requires n.memberOf == cfgs[3].memberOf && n.datacenter == cfgs[0].datacenter
    ensures n.id in s.index && n.memberOf != Obj(s, n.id).memberOf && ConfigChanged(Obj(s, n.id), n)
    ensures Renames(env, s, n) && WithdrawsNewRule(s, n, n.id)
    ensures NewActive(env, s, n) == Some(n.id)
  {
    OnlyFirstUpInv(s, cfgs);
    FirstIsAnnounced(s, cfgs);
    FirstInterval(s, cfgs);
    ConfiguredAs(s, cfgs, 0);
    assert n.datacenter == Obj(s, n.id).datacenter;
    BigGroup(s, cfgs);
    forall x | x in s.index && x != n.id ensures !Obj(s, x).isHealthy {
      OthersDown(s, cfgs, x);
    }
    hide *;
    NoHeir(env, s, n);
    JoinsAsActive(env, s, n);
    HeirlessRenames(env, s, n);
  }

  lemma HeirlessRenames(env: Env, s: State, n: ServiceData)
    requires Obj(s, n.id).memberOf in s.groups && Heir(env, s, n).None? && IsAnnounced(s, n.id)
    requires n.memberOf != Obj(s, n.id).memberOf && n.ip != Obj(s, n.id).ip
    requires n.datacenter == Obj(s, n.id).datacenter && |s.groups[Obj(s, n.id).memberOf].members| > 2
    ensures ConfigChanged(Obj(s, n.id), n) && Renames(env, s, n) && WithdrawsNewRule(s, n, n.id)
  {
    AssignMeans(Obj(s, n.id), n);
    hide Heir;
  }

  lemma BigGroup(s: State, cfgs: seq<Config>)
    requires |cfgs| > 2 && DistinctIds(cfgs) && OnlyFirstUp(s, cfgs)
    requires cfgs[0].memberOf == cfgs[1].memberOf == cfgs[2].memberOf
    ensures cfgs[0].memberOf in s.groups && |s.groups[cfgs[0].memberOf].members| > 2
  {
    hide OnlyFirstUp;
    ConfiguredMembers(s, cfgs, 0);
    ConfiguredMembers(s, cfgs, 1);
    ConfiguredMembers(s, cfgs, 2);
    ThreeMembers(s.groups[cfgs[0].memberOf].members, cfgs[0].serviceId, cfgs[1].serviceId, cfgs[2].serviceId);
  }

  // ---------- Recoveries nobody hears of ----------

  lemma MixedGroup(s: State, g: string, a: Id, b: Id)
    requires Inv(s) && IsMember(s, g, a) && IsMember(s, g, b) && Obj(s, a).priority != Obj(s, b).priority
    ensures s.groups[g].mode == G.ActivePassive
  {
    InvParts(s);
    GroupIn(s, g);
    GroupFacts(s, g);
    hide Inv, GroupsOk, GroupOk;
    var ms := s.groups[g].members;
    var i :| 0 <= i < |ms| && ms[i] == a;
    var j :| 0 <= j < |ms| && ms[j] == b;
    assert || G.Priority(s.objs, ms[i]) != G.Priority(s.objs, ms[0])
           || G.Priority(s.objs, ms[j]) != G.Priority(s.objs, ms[0]);
  }

  /** The recovered service is active, but neither announced nor flagged. */
  lemma UnheardStep(env: Env, s: State, id: Id)
    requires Inv(s) && ComesUp(s, id) && Unheard(s, id) && s.rules == {}
    ensures var q, g := Step(env, s, Check(id, true, 0)), Obj(s, id).memberOf;
            && Inv(q) && g in q.groups && q.groups[g].active == Some(id) && Obj(q, id).memberOf == g
            && Obj(q, id).isHealthy && q.rules == {} && !Flagged(q, g, id)
  {
    var d, g, q := Up(Obj(s, id)), Obj(s, id).memberOf, Step(env, s, Check(id, true, 0));
    var w := s.objs[id := d];
    Flips(env, s, id, true, d) by {
      hide Inv, Unheard;
    }
    var o := G.OnServiceHealthChange(w, s.groups[g], id, true);
    CheckIsStep(env, s, id, true) by {
      InvIsAlive(s);
    }
    UnheardEvent(s, id, w, o);
    hide Inv, G.OnServiceHealthChange, Step, AfterEvent, Show, IsMember, FlipDecides, OnlyService, SameGroupsBut;
    hide Heeded, CheckResult, Flagged, Unheard;
    FlippedOnly(s, q, id, d, g, o.group, Heeded(s, o.event));
    RecoveryHeardIff(env, s, id, true, 0, id);
  }

  lemma UnheardEvent(s: State, id: Id, w: G.World, o: G.Outcome)
    requires Unheard(s, id) && FlipDecides(w, s.groups[Obj(s, id).memberOf], id, o)
    ensures o.group.active == Some(id)
    ensures var e := Heeded(s, o.event);
            e.Some? ==> (e.value.oldActive.Some? ==> e.value.oldActive.value == id)
                        && (e.value.newActive.Some? ==> e.value.newActive.value == id)
  {
    hide G.Elected;
  }

  /** The only announced service of a group goes down and comes up again before any other. It becomes active
      again, but is no longer announced. */
  lemma RecoveryUnheard(env: Env, cfgs: seq<Config>) returns (run: seq<Event>, s: State)
    requires |cfgs| == 2 && DistinctIds(cfgs) && forall k :: 0 <= k < 2 ==> Plain(cfgs[k])
    requires cfgs[0].memberOf == cfgs[1].memberOf && cfgs[0].priority != cfgs[1].priority
    ensures var g, id := cfgs[0].memberOf, cfgs[0].serviceId;
            && Reaches(env, run, s) && g in s.groups && s.groups[g].active == Some(id) && Obj(s, id).isHealthy
            && s.rules == {} && !Flagged(s, g, id)
  {
    var up;
    run, up := FirstComesUp(env, cfgs);
    var g, id := cfgs[0].memberOf, cfgs[0].serviceId;
    var down := Step(env, up, Check(id, false, 0));
    s := Step(env, down, Check(id, true, 0));
    GoesDown(env, up, cfgs);
    assert Allowed(up, Check(id, false, 0)) && Allowed(down, Check(id, true, 0));
    assert Unheard(down, id) by {
      hide Inv, ComesUp;
    }
    hide *;
    Then(env, run, up, Check(id, false, 0));
    UnheardStep(env, down, id);
    Then(env, run + [Check(id, false, 0)], down, Check(id, true, 0));
    run := run + [Check(id, false, 0)] + [Check(id, true, 0)];
  }

  /** The one service that is up goes down. */
  lemma GoesDown(env: Env, s: State, cfgs: seq<Config>)
    requires |cfgs| >= 2 && DistinctIds(cfgs) && OnlyFirstUp(s, cfgs) && forall k :: 0 <= k < |cfgs| ==> Plain(cfgs[k])
    requires cfgs[0].memberOf == cfgs[1].memberOf && cfgs[0].priority != cfgs[1].priority
    ensures var g, id := cfgs[0].memberOf, cfgs[0].serviceId;
            var q := Step(env, s, Check(id, false, 0));
            && id in s.index && id in q.index
            && Inv(q) && q.index.Keys == s.index.Keys && ComesUp(q, id) && q.rules == {}
            && Obj(q, id).memberOf == g && g in q.groups && q.groups[g].active.None?
            && q.groups[g].lastActive == Some(id) && q.groups[g].mode == G.ActivePassive
            && g in s.groups && q.groups[g].members == s.groups[g].members
            && OnlyService(s, q, id, Down(Obj(s, id)))
            && forall x :: x != id ==> Obj(q, x) == Obj(s, x)
  {
    var g, id := cfgs[0].memberOf, cfgs[0].serviceId;
    var q := Step(env, s, Check(id, false, 0));
    OnlyFirstUpInv(s, cfgs);
    FirstIsAnnounced(s, cfgs);
    FirstCounts(s, cfgs);
    ConfiguredAs(s, cfgs, 0);
    ConfiguredAs(s, cfgs, 1);
    OthersAreDown(s, cfgs);
    AnnouncedActive(s, id);
    assert cfgs[0].failureThreshold == 1 && cfgs[1].serviceId != id;
    hide *;
    ServiceDown(env, s, id);
    DownParts(s, q, id);
    StillThere(q, g, id);
    StillThere(q, g, cfgs[1].serviceId);
    MixedGroup(q, g, id, cfgs[1].serviceId);
  }

  lemma DownParts(s: State, q: State, id: Id)
    requires id in s.index && q.index.Keys == s.index.Keys && Obj(s, id).failureThreshold == 1
    requires OnlyService(s, q, id, Down(Obj(s, id))) && OnlyGroup(s, q, Obj(s, id).memberOf)
    requires Obj(s, id).memberOf in q.groups && q.groups[Obj(s, id).memberOf].active.None?
    requires s.rules == {RuleOf(Obj(s, id))} && q.rules == s.rules - {RuleOf(Obj(s, id))}
    ensures Inv(q) && ComesUp(q, id) && q.rules == {} && id in q.index
    ensures Obj(q, id).memberOf == Obj(s, id).memberOf && Obj(q, id).priority == Obj(s, id).priority
    ensures forall x :: x != id ==> Obj(q, x) == Obj(s, x)
  {
    hide Inv;
    assert id in q.index.Keys;
  }

  lemma FirstCounts(s: State, cfgs: seq<Config>)
    requires OnlyFirstUp(s, cfgs)
    ensures var d := Obj(s, cfgs[0].serviceId);
            && d.failureCount == 0 && d.failureThreshold == cfgs[0].failureThreshold && d.isHealthy
            && s.rules == {RuleOf(d)}
            && forall k :: 0 <= k < |cfgs| ==> Obj(s, cfgs[k].serviceId).priority == cfgs[k].priority
  {
    hide Inv, IdsIn;
    forall k | 0 <= k < |cfgs| ensures Obj(s, cfgs[k].serviceId).priority == cfgs[k].priority {
    }
  }

  lemma OthersAreDown(s: State, cfgs: seq<Config>)
    requires OnlyFirstUp(s, cfgs)
    ensures Alone(s, cfgs[0].serviceId)
  {
    OnlyFirstUpInv(s, cfgs);
    InvParts(s);
    var g := Obj(s, cfgs[0].serviceId).memberOf;
    forall m | IsMember(s, g, m) && m != cfgs[0].serviceId ensures !Obj(s, m).isHealthy {
      GroupIn(s, g);
      GroupFacts(s, g);
      OthersDown(s, cfgs, m);
    }
  }

  // ---------- A removal between going down and coming up ----------

  lemma UpdateQuiet(sort: G.Sorter, w: G.World, g: G.Group)
    requires g.members != [] && g.mode != G.ActiveActiveRoundTrip && G.Update(sort, w, g).event.None?
    ensures G.Update(sort, w, g).group.lastActive == g.lastActive
  {
    G.UpdateMeans(sort, w, g);
    hide G.Update;
  }

  /** A service is removed from a group that is down. */
  lemma QuietRemoval(env: Env, s: State, id: Id)
    requires Inv(s) && id in s.index && Obj(s, id).memberOf in s.groups
    requires s.groups[Obj(s, id).memberOf].active.None? && |s.groups[Obj(s, id).memberOf].members| > 1
    ensures var q, g := Step(env, s, Remove(id)), Obj(s, id).memberOf;
            && Inv(q) && q.index.Keys == s.index.Keys - {id} && q.objs == s.objs && q.rules == s.rules
            && g in q.groups && q.groups[g].active.None? && q.groups[g].lastActive == s.groups[g].lastActive
  {
    var q, g := Step(env, s, Remove(id)), Obj(s, id).memberOf;
    var grp := s.groups[g];
    var o := G.RemoveMember(env.sort, s.objs, grp, id);
    InvParts(s);
    InvMeans(s, id);
    GroupIn(s, g);
    GroupFacts(s, g);
    NoneUp(s, grp);
    QuietShown(s, g, o);
    assert RemoveShown(env, s, id) == AfterLeave(Show(s), g, o);
    hide *;
    RemoveIsStep(env, s, id);
    RemoveServiceKeeps(env, s, id);
    RemoveEffect(env, s, id);
    QuietLeave(env.sort, s.objs, grp, id, o);
    ShownParts(q);
  }

  lemma ShownParts(q: State)
    ensures Show(q) == Shown(q.objs, q.groups, q.rules)
  {
  }

  lemma NoneUp(s: State, g: G.Group)
    requires G.Elected(s.objs, g) && g.active.None?
    ensures forall m :: m in g.members ==> !G.Healthy(s.objs, m)
  {
    hide G.FittingMode;
  }

  lemma QuietLeave(sort: G.Sorter, w: G.World, g: G.Group, id: Id, o: G.Outcome)
    requires NoDup(g.members) && id in g.members && g.mode != G.ActiveActiveRoundTrip && |g.members| > 1
    requires g.active.None? && (forall m :: m in g.members ==> !G.Healthy(w, m)) && o == G.RemoveMember(sort, w, g, id)
    ensures o.event.None? && o.group.active.None? && o.group.lastActive == g.lastActive && o.group.members != []
  {
    LeaveFacts(sort, w, g, id);
    G.WithoutMember(g.members, id);
    RightNone(w, o.group.members, o.group.active);
    var rest := g.(members := G.Without(g.members, id));
    assert o == G.Update(sort, w, rest) by {
      hide G.Update, G.Without;
    }
    hide G.RemoveMember, G.Update, G.Without, G.RightActive;
    UpdateQuiet(sort, w, rest);
  }

  lemma RightNone(w: G.World, ms: seq<Id>, active: Option<Id>)
    ensures G.RightActive(w, ms, active) && (forall m :: m in ms ==> !G.Healthy(w, m)) ==> active.None?
  {
  }

  lemma QuietShown(s: State, g: string, o: G.Outcome)
    ensures o.event.None? && o.group.members != [] ==>
              AfterLeave(Show(s), g, o) == Shown(s.objs, s.groups[g := o.group], s.rules)
  {
  }

  /** The announced service of a group goes down and is removed. The next to come up becomes active, but is
      not announced. */
  lemma RecoveryUnheardAfterRemoval(env: Env, cfgs: seq<Config>) returns (run: seq<Event>, s: State)
    requires |cfgs| == 3 && DistinctIds(cfgs) && forall k :: 0 <= k < 3 ==> Plain(cfgs[k])
    requires cfgs[0].memberOf == cfgs[1].memberOf == cfgs[2].memberOf
    requires cfgs[0].priority != cfgs[1].priority && cfgs[1].priority != cfgs[2].priority
    ensures var g, id := cfgs[1].memberOf, cfgs[1].serviceId;
            && Reaches(env, run, s) && g in s.groups && s.groups[g].active == Some(id) && Obj(s, id).isHealthy
            && s.rules == {} && !Flagged(s, g, id)
  {
    var up;
    run, up := FirstComesUp(env, cfgs);
    var a, b := cfgs[0].serviceId, cfgs[1].serviceId;
    var e1, e2, e3 := Check(a, false, 0), Remove(a), Check(b, true, 0);
    var down := Step(env, up, e1);
    var gone := Step(env, down, e2);
    s := Step(env, gone, e3);
    GoesDown(env, up, cfgs);
    LoserRemoved(env, up, down, cfgs);
    assert Allowed(up, e1) && Allowed(down, e2) && Allowed(gone, e3);
    hide *;
    Then(env, run, up, e1);
    Then(env, run + [e1], down, e2);
    UnheardStep(env, gone, b);
    Then(env, run + [e1] + [e2], gone, e3);
    run := run + [e1] + [e2] + [e3];
  }

  lemma LoserRemoved(env: Env, up: State, down: State, cfgs: seq<Config>)
    requires |cfgs| == 3 && DistinctIds(cfgs) && OnlyFirstUp(up, cfgs) && forall k :: 0 <= k < 3 ==> Plain(cfgs[k])
    requires cfgs[0].memberOf == cfgs[1].memberOf == cfgs[2].memberOf && cfgs[1].priority != cfgs[2].priority
    requires var g, a := cfgs[0].memberOf, cfgs[0].serviceId;
             && Inv(down) && down.index.Keys == up.index.Keys && down.rules == {} && a in down.index
             && Obj(down, a).memberOf == g && g in down.groups && down.groups[g].active.None?
             && down.groups[g].lastActive == Some(a)
             && g in up.groups && down.groups[g].members == up.groups[g].members
             && forall x :: x != a ==> Obj(down, x) == Obj(up, x)
    ensures var b, q := cfgs[1].serviceId, Step(env, down, Remove(cfgs[0].serviceId));
            Inv(q) && q.rules == {} && ComesUp(q, b) && Unheard(q, b) && Obj(q, b).memberOf == cfgs[1].memberOf
  {
    hide Step, Inv, OnlyFirstUp, Plain;
    var g, a, b, c := cfgs[0].memberOf, cfgs[0].serviceId, cfgs[1].serviceId, cfgs[2].serviceId;
    var q := Step(env, down, Remove(a));
    BigGroup(up, cfgs);
    Waits(up, cfgs, 1);
    Waits(up, cfgs, 2);
    assert b != c && b != a && c != a;
    hide *;
    QuietRemoval(env, down, a);
    SameObjects(down, q);
    StillThere(q, g, b);
    StillThere(q, g, c);
    MixedGroup(q, g, b, c);
    SoonUnheard(q, b);
  }

  lemma SameObjects(s: State, q: State)
    requires q.objs == s.objs
    ensures forall x :: Obj(q, x) == Obj(s, x)
  {
  }

  lemma StillThere(s: State, g: string, id: Id)
    requires Inv(s) && id in s.index.Keys && Obj(s, id).memberOf == g
    ensures IsMember(s, g, id)
  {
    InvMeans(s, id);
  }

  lemma SoonUnheard(s: State, id: Id)
    requires id in s.index.Keys && Obj(s, id).memberOf in s.groups
    requires !Obj(s, id).isHealthy && Obj(s, id).failureCount == 1
    requires var g := s.groups[Obj(s, id).memberOf];
             g.active.None? && g.mode == G.ActivePassive && g.lastActive.Some? && g.lastActive.value !in s.index.Keys
    ensures ComesUp(s, id) && Unheard(s, id)
  {
  }

  /** A service that has not been checked yet. */
  lemma Waits(s: State, cfgs: seq<Config>, k: nat)
    requires 1 <= k < |cfgs| && OnlyFirstUp(s, cfgs) && Plain(cfgs[k]) && DistinctIds(cfgs)
    ensures var id := cfgs[k].serviceId; var d := Obj(s, id);
            && id in s.index.Keys && id != cfgs[0].serviceId && !d.isHealthy && d.failureCount == 1
            && d.memberOf == cfgs[k].memberOf && d.priority == cfgs[k].priority
  {
    ConfiguredAs(s, cfgs, k);
    hide Inv, IdsIn;
    assert Obj(s, cfgs[k].serviceId) == Made(cfgs[k]);
  }

  // ---------- Updates that are skipped, and updates that panic ----------

  lemma OneRegistered(env: Env, cfg: Config) returns (s: State)
    requires Plain(cfg)
    ensures s == Final(env, NewManager(), [Register(cfg)]) == Step(env, NewManager(), Register(cfg))
    ensures Reaches(env, [Register(cfg)], s)
    ensures s.index.Keys == {cfg.serviceId} && cfg.serviceId in s.index && Obj(s, cfg.serviceId) == Made(cfg)
  {
    hide Inv, Step, Plain, Made;
    s := Step(env, NewManager(), Register(cfg));
    NewManagerInv();
    assert AllDown(NewManager(), cfg.memberOf) && cfg.serviceId !in NewManager().index;
    assert [] + [Register(cfg)] == [Register(cfg)];
    assert Reaches(env, [], NewManager());
    hide AllDown;
    RegisterDown(env, NewManager(), cfg);
    AllowedPlain(NewManager(), cfg);
    assert cfg.serviceId in s.index.Keys;
    hide Reaches;
    Then(env, [], NewManager(), Register(cfg));
    ReachesEnd(env, [Register(cfg)], s);
    EndMeans(env, [Register(cfg)], s);
  }

  lemma ReachesEnd(env: Env, run: seq<Event>, s: State)
    requires Reaches(env, run, s)
    ensures EndsIn(env, run, s)
  {
    hide Inv;
  }

  lemma EndMeans(env: Env, run: seq<Event>, s: State)
    requires EndsIn(env, run, s)
    ensures Admissible(env, NewManager(), run) && Final(env, NewManager(), run) == s
  {
  }

  lemma SameSettings(d: ServiceData, n: ServiceData, cfg: Config)
    requires d == Made(cfg)
    requires n == n.(ip := cfg.ip, port := cfg.port, fqdn := cfg.fqdn, datacenter := cfg.datacenter,
                     checkType := cfg.checkType, priority := cfg.priority, failureThreshold := cfg.failureThreshold)
    ensures !ConfigChanged(d, n)
  {
  }

  /** The configuration of a service changes its group and nothing else: the service stays where it is. */
  lemma RegroupingSkipped(env: Env, cfg: Config, group: string) returns (run: seq<Event>, s: State)
    requires Plain(cfg) && group != cfg.memberOf
    ensures run == [Register(cfg)] + [Register(cfg.(memberOf := group))] && Reaches(env, run, s)
    ensures IsMember(s, cfg.memberOf, cfg.serviceId) && !IsMember(s, group, cfg.serviceId)
  {
    var before := OneRegistered(env, cfg);
    var moved, id := cfg.(memberOf := group), cfg.serviceId;
    s := Step(env, before, Register(moved));
    run := [Register(cfg)] + [Register(moved)];
    PlainMeans(cfg);
    ReachesInv(env, [Register(cfg)], before);
    Updates(env, before, moved);
    assert Obj(before, id).defaultInterval == cfg.interval && Obj(before, id).memberOf == cfg.memberOf;
    var n := NewService(moved, before.store).value;
    SameSettings(Obj(before, id), n, cfg);
    hide *;
    PlainUpdate(env, before, moved);
    Skipped(env, before, n);
    Then(env, [Register(cfg)], before, Register(moved));
    MemberIff(s, cfg.memberOf, id);
    MemberIff(s, group, id);
  }

  /** A first registration at an interval at which nothing can be scheduled panics. */
  lemma FirstRegistrationPanics(env: Env, cfg: Config)
    requires cfg.addressOk && cfg.serviceId != "" && cfg.priority < MAX_INT && !S.Schedulable(cfg.interval)
    ensures Admissible(env, NewManager(), [Register(cfg)]) && Final(env, NewManager(), [Register(cfg)]).crashed
  {
    NewManagerInv();
    NewServiceMeans(cfg, NewManager().store);
    assert [Register(cfg)][..0] == [];
    hide Inv, RegisterService;
    RegistrationPanicsIff(env, NewManager(), cfg);
  }

  /** An update to such an interval panics, too, when the service stands at its default interval. */
  lemma UpdateMayPanic(env: Env, cfg: Config, ip: string, interval: Duration) returns (run: seq<Event>)
    requires Plain(cfg) && ip != cfg.ip && !S.Schedulable(interval)
    ensures run == [Register(cfg)] + [Register(cfg.(ip := ip, interval := interval))]
    ensures Admissible(env, NewManager(), run) && Final(env, NewManager(), run).crashed
  {
    var before := OneRegistered(env, cfg);
    var changed := cfg.(ip := ip, interval := interval);
    run := [Register(cfg)] + [Register(changed)];
    PlainMeans(cfg);
    ReachesInv(env, [Register(cfg)], before);
    Updates(env, before, changed);
    var n := NewService(changed, before.store).value;
    LoneMember(before, cfg.serviceId);
    assert Obj(before, n.id) == Made(cfg);
    hide Inv, Step, Reaches, NewService, Made, UpdateService, RegisterService, S.Schedulable;
    StandsAtDefault(env, before, n, cfg, changed);
    hide *;
    RegistrationPanicsIff(env, before, changed);
    ReachesEnd(env, [Register(cfg)], before);
    GoesOn(env, [Register(cfg)], before, Register(changed));
    EndMeans(env, run, Step(env, before, Register(changed)));
  }

  /** Alone in its group, a service stays at its interval. */
  lemma StandsAtDefault(env: Env, s: State, n: ServiceData, cfg: Config, changed: Config)
    requires NewService(changed, s.store) == Some(n)
    requires changed.interval != cfg.interval && !S.Schedulable(changed.interval)
    requires Obj(s, n.id) == Made(cfg) && n.memberOf == cfg.memberOf && n.ip != cfg.ip
    requires cfg.memberOf in s.groups && s.groups[cfg.memberOf].members == [n.id]
    ensures WouldPanic(env, s, changed)
  {
    hide NewService, S.Schedulable, Heir;
    assert G.Get(Assigned(s, n), n.id).scheduledInterval == cfg.interval;
  }

  // ---------- A service that returns early ----------

  lemma NoEventNoSchedule(env: Env, s: State, g: string, o: G.Outcome)
    requires o.event.None?
    ensures GroupChanged(env, s, g, o).schedulers == s.schedulers && GroupChanged(env, s, g, o).log == s.log
  {
    hide HandlePromotion;
  }

  /** Registering a service in a group that is down puts it on its scheduler, and does no more there. */
  lemma OnlyScheduled(env: Env, s: State, cfg: Config)
    requires Inv(s) && Plain(cfg) && cfg.serviceId !in s.index && AllDown(s, cfg.memberOf)
    ensures var q, t := Step(env, s, Register(cfg)), ScheduleOn(env, s, cfg.interval, cfg.serviceId);
            q.schedulers == t.schedulers && q.log == t.log
  {
    hide Inv;
    var n, q := Made(cfg), RegisterNew(env, s, Made(cfg));
    InvParts(s);
    MadeFirst(s, cfg);
    RegisterServiceMeans(env, s, cfg);
    assert Step(env, s, Register(cfg)) == q by {
      hide RegisterNew, Inv, SaneService;
    }
    var t := Announced(env, s, n);
    var o := G.RegisterMember(env.sort, t.objs, GroupOrNew(s, n.memberOf), n.id);
    AnnouncedIsScheduled(env, s, n);
    MadeNames(cfg);
    assert n.scheduledInterval == cfg.interval && !n.isHealthy;
    hide *;
    AnnouncedSchedule(env, s, n);
    AnnouncedFirst(env, s, n);
    JoinsDown(env, s, n);
    NoEventNoSchedule(env, t, n.memberOf, o);
  }

  lemma AnnouncedIsScheduled(env: Env, s: State, n: ServiceData)
    ensures var t, u := Announced(env, s, n), ScheduleOn(env, s, n.scheduledInterval, n.id);
            t.schedulers == u.schedulers && t.log == u.log
  {
    hide R.Create, ScheduleOn;
    SameSchedule(env, s.(objs := s.objs[n.id := n], store := R.Create(s.store, GSLBService(n))), s,
                 n.scheduledInterval, n.id);
  }

  lemma SameSchedule(env: Env, s: State, t: State, d: Duration, id: Id)
    requires s.schedulers == t.schedulers && s.pushes == t.pushes && s.log == t.log
    ensures var u, v := ScheduleOn(env, s, d, id), ScheduleOn(env, t, d, id);
            u.schedulers == v.schedulers && u.log == v.log
  {
    ScheduledParts(env, s, d, id);
    ScheduledParts(env, t, d, id);
    hide *;
  }

  lemma ScheduledParts(env: Env, s: State, d: Duration, id: Id)
    ensures var sc := if d in s.schedulers then s.schedulers[d] else S.NewScheduler(d);
            var u, ok := ScheduleOn(env, s, d, id), S.Schedulable(sc.interval);
            && (!ok ==> u.schedulers == s.schedulers && u.log == s.log)
            && (ok ==> var sc' := S.Schedule(sc, id, s.pushes, env.now(s.pushes), env.gap(s.pushes));
                       && u.schedulers == s.schedulers[d := sc']
                       && u.log == s.log + [Push(id, sc.heap, sc'.heap)])
  {
    hide S.Schedule, S.Schedulable;
  }

  /** Removing the only service of a group leaves a tombstone in its scheduler. */
  lemma TombstoneStays(env: Env, s: State, id: Id, d: Duration)
    requires Inv(s) && s.index.Keys == {id} && d == Obj(s, id).scheduledInterval
    ensures var q := Step(env, s, Remove(id));
            && Inv(q) && q.index.Keys == {} && q.log == s.log && (forall g :: AllDown(q, g))
            && d in s.schedulers && q.schedulers == s.schedulers[d := S.Remove(s.schedulers[d], id).0]
  {
    var q, g := Step(env, s, Remove(id)), Obj(s, id).memberOf;
    assert id in s.index.Keys;
    RemoveIsStep(env, s, id);
    RemoveServiceKeeps(env, s, id);
    LoneMember(s, id);
    IndexedAt(s, id, None) by {
      InvParts(s);
    }
    hide Inv;
    LoneRemoval(env, s, id);
    NoGroups(q);
  }

  lemma NoGroups(q: State)
    requires Inv(q) && q.index.Keys == {}
    ensures forall g :: AllDown(q, g)
  {
    hide Inv;
    forall g ensures AllDown(q, g) {
      if g in q.groups {
        SomeMember(q, g);
        assert false;
      }
    }
  }

  lemma SomeMember(q: State, g: string)
    requires Inv(q) && g in q.groups
    ensures q.index.Keys != {}
  {
    InvParts(q);
    GroupIn(q, g);
    GroupFacts(q, g);
    hide Inv, GroupsOk, GroupOk;
    assert q.groups[g].members[0] in q.groups[g].members;
    assert q.groups[g].members[0] in q.index.Keys;
  }

  lemma LoneRemoval(env: Env, s: State, id: Id)
    requires id in s.index && s.index[id] in s.schedulers && Obj(s, id).memberOf in s.groups
    requires s.groups[Obj(s, id).memberOf].members == [id]
    ensures var q, d := RemoveService(env, s, id), s.index[id];
            q.log == s.log && q.schedulers == s.schedulers[d := S.Remove(s.schedulers[d], id).0]
  {
    var d, g := s.index[id], Obj(s, id).memberOf;
    var s1 := s.(schedulers := s.schedulers[d := S.Remove(s.schedulers[d], id).0]);
    var o := G.RemoveMember(env.sort, s.objs, s.groups[g], id);
    assert G.Without([id], id) == [] && o.event.None?;
    hide S.Remove, G.RemoveMember, HandlePromotion, R.Delete;
    NoEventNoSchedule(env, s1, g, o);
  }

  lemma TombstoneIsFound(sc: S.Scheduler, e: H.Entry, id: Id)
    requires S.WellFormed(sc) && multiset(sc.heap) == multiset{e} && e.id == id
    ensures H.IndexOfService(S.Remove(sc, id).0.heap, id) != -1
  {
    assert |sc.heap| == |multiset(sc.heap)| == 1;
    assert sc.heap[0] in multiset(sc.heap);
  }

  lemma FirstEntry(env: Env, s: State, d: Duration, id: Id)
    requires d !in s.schedulers && S.Schedulable(d)
    ensures var q := ScheduleOn(env, s, d, id);
            && d in q.schedulers && S.WellFormed(q.schedulers[d])
            && H.IndexOfService(S.Remove(q.schedulers[d], id).0.heap, id) != -1
  {
    var sc := S.NewScheduler(d);
    S.NewIsWellFormed(d);
    S.ScheduleAdds(sc, id, s.pushes, env.now(s.pushes), env.gap(s.pushes));
    hide S.Schedule, S.WellFormed, S.Remove, H.IndexOfService;
    var sc' := S.Schedule(sc, id, s.pushes, env.now(s.pushes), env.gap(s.pushes));
    var e :| multiset(sc'.heap) == multiset(sc.heap) + multiset{e} && e.id == id;
    TombstoneIsFound(sc', e, id);
  }

  lemma OnceScheduled(env: Env, cfg: Config, one: State)
    requires Plain(cfg) && one == Step(env, NewManager(), Register(cfg))
    ensures var d, id := cfg.interval, cfg.serviceId;
            d in one.schedulers && H.IndexOfService(S.Remove(one.schedulers[d], id).0.heap, id) != -1
  {
    NewManagerInv();
    assert AllDown(NewManager(), cfg.memberOf) && cfg.serviceId !in NewManager().index;
    assert S.Schedulable(cfg.interval) && cfg.interval !in NewManager().schedulers;
    hide *;
    OnlyScheduled(env, NewManager(), cfg);
    FirstEntry(env, NewManager(), cfg.interval, cfg.serviceId);
  }

  lemma ScheduledAgain(env: Env, s: State, d: Duration, id: Id)
    requires Inv(s) && d in s.schedulers && H.IndexOfService(s.schedulers[d].heap, id) != -1
    ensures !NoEarlyReturns(ScheduleOn(env, s, d, id).log)
  {
    assert S.Schedulable(s.schedulers[d].interval) by {
      assert SchedulersOk(s);
    }
    var sc := S.Schedule(s.schedulers[d], id, s.pushes, env.now(s.pushes), env.gap(s.pushes));
    OneMorePush(s.log, Push(id, s.schedulers[d].heap, sc.heap));
    hide Inv, S.Schedule, H.IndexOfService;
  }

  lemma OnlyGroupSound(s: State, q: State, g: string)
    requires OnlyGroup(s, q, g)
    ensures Inv(q)
  {
  }

  /** A service is registered, removed and registered again: its tombstone is still there. */
  lemma ReturnsAfterRemoval(env: Env, cfg: Config) returns (run: seq<Event>, s: State)
    requires Plain(cfg)
    ensures run == [Register(cfg)] + [Remove(cfg.serviceId)] + [Register(cfg)]
    ensures Reaches(env, run, s) && !NoEarlyReturns(s.log)
  {
    var id := cfg.serviceId;
    var one := OneRegistered(env, cfg);
    var none := Step(env, one, Remove(id));
    s := Step(env, none, Register(cfg));
    run := [Register(cfg)] + [Remove(id)] + [Register(cfg)];
    ReachesInv(env, [Register(cfg)], one);
    assert Obj(one, id).scheduledInterval == cfg.interval && S.Schedulable(cfg.interval);
    assert Allowed(one, Remove(id));
    OnceScheduled(env, cfg, one);
    AllowedPlain(none, cfg);
    hide *;
    TombstoneStays(env, one, id, cfg.interval);
    Then(env, [Register(cfg)], one, Remove(id));
    RegisterDown(env, none, cfg);
    OnlyScheduled(env, none, cfg);
    ScheduledAgain(env, none, cfg.interval, id);
    OnlyGroupSound(none, s, cfg.memberOf);
    Then(env, [Register(cfg)] + [Remove(id)], none, Register(cfg));
  }
}
