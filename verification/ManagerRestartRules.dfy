/** The rules on the servers after a restart: those left over from before, and those of the present life. */
module ManagerRestartRules {
  import opened Basics
  import opened Services
  import opened Managers
  import opened ManagerInvariants
  import opened ManagerSteps
  import opened ManagerLeaving
  import opened ManagerRuns
  import opened ManagerEffects
  import opened ManagerRules
  import opened ManagerRecoveries
  import opened ManagerUpdates
  import opened ManagerRuleChanges
  import opened ManagerShadows
  import opened ManagerRestarts
  import G = ServiceGroups
  import R = ServiceRepos
  import S = Schedulers

  // ---------- What a step does to the rules reads neither rules nor records ----------

  lemma SameChanges(env: Env, s: State, t: State)
    requires t == s.(store := t.store, rules := t.rules)
    ensures forall id :: RemovalChange(env, t, id) == RemovalChange(env, s, id)
    ensures forall id, success, roundtrip ::
              CheckChange(t, id, success, roundtrip) == CheckChange(s, id, success, roundtrip)
  {
    hide G.Chosen, G.OnServiceHealthChange, OnResult, Handover;
  }

  lemma SameConfigChanges(env: Env, s: State, t: State, n: ServiceData)
    requires t == s.(store := t.store, rules := t.rules)
    ensures UpdateChange(env, t, n) == UpdateChange(env, s, n)
    ensures RegistrationChange(env, t, n) == RegistrationChange(env, s, n)
  {
    hide G.Chosen, ConfigChanged, Handover, Both;
  }

  /** A sound manager with the same rules runs in step, and services may be anywhere. */
  ghost predicate Shadows(past: Past, s: State, t: State) {
    InStep(past, s, t) && Inv(t) && past == Anywhere(past) && !past.sameStore
  }

  lemma ShadowsMeans(past: Past, s: State, t: State)
    requires Shadows(past, s, t)
    ensures InStep(past, s, t) && Inv(t) && !past.sameStore && forall h, x :: past.places(h, x)
    ensures t == s.(store := t.store) && t.index == s.index
    ensures forall id :: Obj(t, id) == Obj(s, id)
  {
    InStepMeans(past, s, t);
    hide InStep, Inv, Agree, Named;
  }

  lemma RunFollows(env: Env, st: R.Store, left: set<Rule>, run: seq<Event>, s: State) returns (past: Past, t: State)
    requires Running(env, st, left, run, s)
    ensures Shadows(past, s, t)
  {
    past, t := RunningShadowed(env, st, left, run, s);
  }

  lemma UpdateRulesAlike(env: Env, past: Past, s: State, t: State, n: ServiceData)
    requires Shadows(past, s, t) && n.id in s.index && Assignable(n)
    ensures UpdateService(env, s, n).rules == Applied(s.rules, UpdateChange(env, s, n))
  {
    hide *;
    ShadowsMeans(past, s, t);
    InStepMeans(past, s, t);
    assert n.id in s.index.Keys;
    UpdateInStep(env, past, s, t, n);
    InStepMeans(past, UpdateService(env, s, n), UpdateService(env, t, n));
    UpdateChanges(env, t, n);
    SameConfigChanges(env, s, t, n);
  }

  lemma NewRulesAlike(env: Env, past: Past, s: State, t: State, n: ServiceData)
    requires Shadows(past, s, t) && n.id !in s.index && n.id != "" && Assignable(n)
    requires !RegisterNew(env, s, n).crashed
    ensures RegisterNew(env, s, n).rules == Applied(s.rules, RegistrationChange(env, s, n))
  {
    hide *;
    ShadowsMeans(past, s, t);
    NewFollows(env, past, s, t, n);
    InStepMeans(past, RegisterNew(env, s, n), RegisterNew(env, t, n));
    SaneIfSchedulable(n);
    NewChanges(env, t, n);
    SameConfigChanges(env, s, t, n);
  }

  lemma RegisterRulesAlike(env: Env, past: Past, s: State, t: State, cfg: Config)
    requires Shadows(past, s, t) && Allowed(s, Register(cfg)) && !RegisterService(env, s, cfg).crashed
    ensures RegisterService(env, s, cfg).rules == Applied(s.rules, StepChange(env, s, Register(cfg)))
  {
    hide Shadows, UpdateService, RegisterNew, NewService, RegisterService, Assignable, UpdateChange, Applied;
    hide RegistrationChange;
    RegisterServiceMeans(env, s, cfg);
    NewServiceMeans(cfg, s.store);
    BothApply(s.rules, NO_CHANGE, NO_CHANGE);
    match NewService(cfg, s.store)
    case None =>
    case Some(n) =>
      if n.id in s.index {
        UpdateRulesAlike(env, past, s, t, n);
      } else {
        NewRulesAlike(env, past, s, t, n);
      }
  }

  lemma RemoveRulesAlike(env: Env, past: Past, s: State, t: State, id: Id)
    requires Shadows(past, s, t)
    ensures RemoveService(env, s, id).rules == Applied(s.rules, RemovalChange(env, s, id))
  {
    hide *;
    ShadowsMeans(past, s, t);
    RemoveInStep(env, past, s, t, id);
    InStepMeans(past, RemoveService(env, s, id), RemoveService(env, t, id));
    RemoveChanges(env, t, id);
    SameChanges(env, s, t);
  }

  lemma CheckRulesAlike(env: Env, past: Past, s: State, t: State, id: Id, success: bool, roundtrip: Duration)
    requires Shadows(past, s, t) && id in s.index
    ensures CheckResult(env, s, id, success, roundtrip).rules
         == Applied(s.rules, CheckChange(s, id, success, roundtrip))
  {
    hide *;
    ShadowsMeans(past, s, t);
    InStepMeans(past, s, t);
    assert id in s.index.Keys;
    CheckInStep(env, past, s, t, id, success, roundtrip);
    InStepMeans(past, CheckResult(env, s, id, success, roundtrip), CheckResult(env, t, id, success, roundtrip));
    CheckChanges(env, t, id, success, roundtrip);
    SameChanges(env, s, t);
  }

  lemma StepAlike(env: Env, past: Past, s: State, t: State, e: Event)
    requires Shadows(past, s, t) && Allowed(s, e) && !Step(env, s, e).crashed
    ensures Step(env, s, e).rules == Applied(s.rules, StepChange(env, s, e))
  {
    hide Shadows, RegisterService, RemoveService, CheckResult, UpdateChange, RegistrationChange;
    hide RemovalChange, CheckChange, Applied;
    match e
    case Register(cfg) => RegisterRulesAlike(env, past, s, t, cfg);
    case Remove(id) => RemoveRulesAlike(env, past, s, t, id);
    case Check(id, success, roundtrip) => CheckRulesAlike(env, past, s, t, id, success, roundtrip);
    case Turn(_, _, _) => BothApply(s.rules, NO_CHANGE, NO_CHANGE);
  }

  /** After a restart, too, every step withdraws and announces exactly these rules. */
  lemma RestartChanges(env: Env, st: R.Store, left: set<Rule>, run: seq<Event>, s: State, e: Event)
    requires Running(env, st, left, run, s) && Allowed(s, e) && !Step(env, s, e).crashed
    ensures Step(env, s, e).rules == Applied(s.rules, StepChange(env, s, e))
  {
    hide *;
    var past, t := RunFollows(env, st, left, run, s);
    StepAlike(env, past, s, t, e);
  }

  // ---------- When a left-over rule goes ----------

  predicate Withdraws(env: Env, s: State, e: Event, r: Rule) {
    r in StepChange(env, s, e).dropped && r !in StepChange(env, s, e).added
  }

  predicate NeverWithdrawn(env: Env, s: State, run: seq<Event>, r: Rule) {
    run != [] ==>
      && NeverWithdrawn(env, s, run[..|run| - 1], r)
      && !Withdraws(env, Final(env, s, run[..|run| - 1]), run[|run| - 1], r)
  }

  ghost predicate AlwaysThere(env: Env, s: State, run: seq<Event>, r: Rule) {
    r in Final(env, s, run).rules && (run != [] ==> AlwaysThere(env, s, run[..|run| - 1], r))
  }

  lemma RunsOn(env: Env, st: R.Store, left: set<Rule>, run: seq<Event>)
    requires Startable(st) && Admissible(env, Restarted(st, left), run) && !Final(env, Restarted(st, left), run).crashed
    ensures Running(env, st, left, run, Final(env, Restarted(st, left), run))
    ensures run != [] ==>
              var before, e := Final(env, Restarted(st, left), run[..|run| - 1]), run[|run| - 1];
              && !before.crashed && Running(env, st, left, run[..|run| - 1], before)
              && Allowed(before, e) && Final(env, Restarted(st, left), run) == Step(env, before, e)
  {
    hide Step, Startable, Restarted, Allowed;
    if run != [] {
      DeadStaysDead(env, Final(env, Restarted(st, left), run[..|run| - 1]), run[|run| - 1]);
    }
  }

  /** A rule that was left over is there at every moment exactly when no step withdraws it. */
  lemma {:induction false} LeftRuleStaysIff(env: Env, st: R.Store, left: set<Rule>, run: seq<Event>, r: Rule)
    requires Startable(st) && Admissible(env, Restarted(st, left), run) && !Final(env, Restarted(st, left), run).crashed
    requires r in left
    ensures AlwaysThere(env, Restarted(st, left), run, r) <==> NeverWithdrawn(env, Restarted(st, left), run, r)
  {
    hide Startable, StepChange, Step, Running, Allowed;
    if run != [] {
      RunsOn(env, st, left, run);
      var before, e := Final(env, Restarted(st, left), run[..|run| - 1]), run[|run| - 1];
      LeftRuleStaysIff(env, st, left, run[..|run| - 1], r);
      RestartChanges(env, st, left, run[..|run| - 1], before, e);
    }
  }

  /** The rule is that of the service in office in some group, by its configuration before or in this step. */
  ghost predicate NamesInOffice(s: State, e: Event, r: Rule) {
    exists h, x :: h in s.groups && InOffice(s.groups[h]) == Some(x)
                   && (RuleOf(Obj(s, x)) == r
                       || (e.Register? && x == e.cfg.serviceId && r == Rule(e.cfg.memberOf, e.cfg.datacenter)))
  }

  lemma DroppedInOffice(w: G.World, g: G.Group, new': Option<Id>, r: Rule)
    requires r in Handover(w, g.active, new').dropped || r in Handover(w, InOffice(g), new').dropped
    ensures InOffice(g).Some? && RuleOf(G.Get(w, InOffice(g).value)) == r
  {
  }

  lemma OfficeNamed(s: State, e: Event, h: string, r: Rule)
    requires h in s.groups && InOffice(s.groups[h]).Some?
    requires var x := InOffice(s.groups[h]).value;
             RuleOf(Obj(s, x)) == r
             || (e.Register? && x == e.cfg.serviceId && r == Rule(e.cfg.memberOf, e.cfg.datacenter))
    ensures NamesInOffice(s, e, r)
  {
    assert InOffice(s.groups[h]) == Some(InOffice(s.groups[h]).value);
  }

  lemma UpdateDrops(env: Env, s: State, n: ServiceData, r: Rule)
    requires r in UpdateChange(env, s, n).dropped
    ensures exists h :: h in s.groups && InOffice(s.groups[h]).Some?
                        && RuleOf(G.Get(Assigned(s, n), InOffice(s.groups[h]).value)) == r
  {
    var g, h, w := Obj(s, n.id).memberOf, n.memberOf, Assigned(s, n);
    hide Handover, Heir, NewActive, ConfigChanged, Assigned, InOffice;
    if g == h {
      DroppedInOffice(w, s.groups[g], Heir(env, s, n), r);
    } else if r in JoinChange(env, s, n).dropped {
      NoneDropped(r);
      DroppedInOffice(w, s.groups[h], NewActive(env, s, n), r);
    } else {
      NoneDropped(r);
      DroppedInOffice(w, s.groups[g], Heir(env, s, n), r);
    }
  }

  lemma NoneDropped(r: Rule)
    ensures r !in NO_CHANGE.dropped
  {
  }

  lemma NamedAsConfigured(s: State, n: ServiceData, x: Id)
    ensures RuleOf(G.Get(Assigned(s, n), x)) == if x == n.id then RuleOf(n) else RuleOf(Obj(s, x))
    ensures RuleOf(G.Get(s.objs[n.id := n], x)) == if x == n.id then RuleOf(n) else RuleOf(Obj(s, x))
  {
  }

  lemma ConfiguredRule(cfg: Config, st: R.Store)
    requires NewService(cfg, st).Some?
    ensures var n := NewService(cfg, st).value; n.id == cfg.serviceId && RuleOf(n) == Rule(cfg.memberOf, cfg.datacenter)
  {
    hide R.Lookup;
  }

  lemma CheckDrops(s: State, id: Id, success: bool, roundtrip: Duration, r: Rule)
    requires r in CheckChange(s, id, success, roundtrip).dropped
    ensures var h := Obj(s, id).memberOf;
            h in s.groups && InOffice(s.groups[h]).Some? && RuleOf(Obj(s, InOffice(s.groups[h]).value)) == r
  {
    var c, h := OnResult(Obj(s, id).(roundtrip := roundtrip), success), Obj(s, id).memberOf;
    var w := s.objs[id := c.service];
    CheckedMeans(Obj(s, id).(roundtrip := roundtrip), success);
    NoneDropped(r);
    hide OnResult, Handover, InOffice, G.OnServiceHealthChange, Unheard;
    DroppedInOffice(w, s.groups[h], G.OnServiceHealthChange(w, s.groups[h], id, c.callback.value).group.active, r);
  }

  lemma RemovalDrops(env: Env, s: State, id: Id, r: Rule)
    requires r in RemovalChange(env, s, id).dropped
    ensures exists h :: h in s.groups && InOffice(s.groups[h]).Some?
                        && RuleOf(Obj(s, InOffice(s.groups[h]).value)) == r
  {
    var h := Obj(s, id).memberOf;
    NoneDropped(r);
    hide Handover, InOffice, G.Chosen, G.Without;
    DroppedInOffice(s.objs, s.groups[h], G.Chosen(env.sort, s.objs, G.Without(s.groups[h].members, id)), r);
  }

  lemma RegistrationDrops(env: Env, s: State, n: ServiceData, r: Rule)
    requires r in RegistrationChange(env, s, n).dropped
    ensures n.memberOf in s.groups
    ensures var g := s.groups[n.memberOf];
            InOffice(g).Some? && RuleOf(G.Get(s.objs[n.id := n], InOffice(g).value)) == r
  {
    NoneDropped(r);
    hide Handover, InOffice, G.Chosen;
    var w := s.objs[n.id := n];
    DroppedInOffice(w, s.groups[n.memberOf], G.Chosen(env.sort, w, s.groups[n.memberOf].members + [n.id]), r);
  }

  /** Only a promotion that takes the office from a service of that name withdraws a rule. */
  lemma WithdrawnIsInOffice(env: Env, s: State, e: Event, r: Rule)
    requires Withdraws(env, s, e, r)
    ensures NamesInOffice(s, e, r)
  {
    hide UpdateChange, RegistrationChange, RemovalChange, CheckChange, NewService, InOffice, NamesInOffice;
    NoneDropped(r);
    match e
    case Register(cfg) =>
      var n := NewService(cfg, s.store).value;
      ConfiguredRule(cfg, s.store);
      var h;
      if n.id in s.index {
        UpdateDrops(env, s, n, r);
        h :| h in s.groups && InOffice(s.groups[h]).Some?
             && RuleOf(G.Get(Assigned(s, n), InOffice(s.groups[h]).value)) == r;
      } else {
        RegistrationDrops(env, s, n, r);
        h := n.memberOf;
      }
      NamedAsConfigured(s, n, InOffice(s.groups[h]).value);
      OfficeNamed(s, e, h, r);
    case Remove(id) =>
      RemovalDrops(env, s, id, r);
      var h :| h in s.groups && InOffice(s.groups[h]).Some? && RuleOf(Obj(s, InOffice(s.groups[h]).value)) == r;
      OfficeNamed(s, e, h, r);
    case Check(id, success, roundtrip) =>
      CheckDrops(s, id, success, roundtrip, r);
      OfficeNamed(s, e, Obj(s, id).memberOf, r);
    case Turn(_, _, _) =>
  }

  // ---------- The same run on empty servers ----------

  lemma UpdateToo(env: Env, past: Past, s: State, t: State, cfg: Config)
    requires InStep(past, s, t) && past.sameStore && (forall h, x :: past.places(h, x)) && cfg.priority < MAX_INT
    ensures InStep(past, RegisterService(env, s, cfg), RegisterService(env, t, cfg))
  {
    InStepMeans(past, s, t);
    RegisterServiceMeans(env, s, cfg);
    RegisterServiceMeans(env, t, cfg);
    NewServiceMeans(cfg, s.store);
    hide InStep, Agree, Named, UpdateService, RegisterNew, NewService, RegisterService, RegistrationPanics;
    match NewService(cfg, s.store)
    case None =>
    case Some(n) =>
      if n.id in s.index {
        assert n.id in s.index.Keys;
        UpdateInStep(env, past, s, t, n);
      } else {
        RegisterNewInStep(env, past, s, t, n);
      }
  }

  lemma StepToo(env: Env, past: Past, s: State, t: State, e: Event)
    requires InStep(past, s, t) && past.sameStore && (forall h, x :: past.places(h, x)) && Allowed(s, e)
    ensures InStep(past, Step(env, s, e), Step(env, t, e))
  {
    InStepMeans(past, s, t);
    hide InStep, Agree, Named, RegisterService, RemoveService, CheckResult, Tick;
    match e
    case Register(cfg) => UpdateToo(env, past, s, t, cfg);
    case Remove(id) => RemoveInStep(env, past, s, t, id);
    case Check(id, success, roundtrip) =>
      assert id in s.index.Keys;
      CheckInStep(env, past, s, t, id, success, roundtrip);
    case Turn(d, now, gap) => TickInStep(past, s, t, d, now, gap);
  }

  lemma StartsAlike(past: Past, left: set<Rule>)
    requires Startable(past.store) && past.sameStore
    ensures InStep(past, Restarted(past.store, left), Restarted(past.store, {}))
  {
    hide Startable;
  }

  /** The run is also one of a manager that finds no rules, and leads it to the same state but for the rules. */
  lemma {:induction false} SameRun(env: Env, past: Past, left: set<Rule>, run: seq<Event>)
    requires Startable(past.store) && past.sameStore && (forall h, x :: past.places(h, x))
    requires Admissible(env, Restarted(past.store, left), run)
    ensures Admissible(env, Restarted(past.store, {}), run)
    ensures InStep(past, Final(env, Restarted(past.store, left), run), Final(env, Restarted(past.store, {}), run))
  {
    hide InStep, Step, Startable, Restarted, Allowed;
    if run == [] {
      StartsAlike(past, left);
    } else {
      var s := Final(env, Restarted(past.store, left), run[..|run| - 1]);
      var t := Final(env, Restarted(past.store, {}), run[..|run| - 1]);
      SameRun(env, past, left, run[..|run| - 1]);
      StepToo(env, past, s, t, run[|run| - 1]);
      InStepMeans(past, s, t);
      AllowedToo(s, t, run[|run| - 1]);
    }
  }

  lemma AllowedToo(s: State, t: State, e: Event)
    requires t.index == s.index
    ensures Allowed(t, e) == Allowed(s, e)
  {
  }

  lemma SameStepChange(env: Env, s: State, t: State, e: Event)
    requires t == s.(rules := t.rules)
    ensures StepChange(env, t, e) == StepChange(env, s, e)
  {
    hide UpdateChange, RegistrationChange, RemovalChange, CheckChange, NewService;
    SameChanges(env, s, t);
    match e
    case Register(cfg) =>
      if NewService(cfg, s.store).Some? {
        SameConfigChanges(env, s, t, NewService(cfg, s.store).value);
      }
    case _ =>
  }

  lemma AppliedBetween(small: set<Rule>, big: set<Rule>, left: set<Rule>, c: Change)
    requires small <= big <= small + left
    ensures Applied(small, c) <= Applied(big, c) <= Applied(small, c) + left
  {
  }

  /** What the servers hold is what the same run puts on empty ones, and rules left over. */
  lemma {:induction false} RulesBetween(env: Env, st: R.Store, left: set<Rule>, run: seq<Event>)
    requires Startable(st) && Admissible(env, Restarted(st, left), run) && !Final(env, Restarted(st, left), run).crashed
    ensures var s, t := Final(env, Restarted(st, left), run), Final(env, Restarted(st, {}), run);
            && Running(env, st, {}, run, t) && t == s.(rules := t.rules)
            && t.rules <= s.rules <= t.rules + left
  {
    var past := Past(st, (h, x) => true, true);
    SameRun(env, past, left, run);
    InStepMeans(past, Final(env, Restarted(st, left), run), Final(env, Restarted(st, {}), run));
    RunsOn(env, st, left, run);
    RunsOn(env, st, {}, run);
    hide Startable, StepChange, Step, Running, Allowed, InStep, Applied;
    if run != [] {
      var before, e := Final(env, Restarted(st, left), run[..|run| - 1]), run[|run| - 1];
      var empty := Final(env, Restarted(st, {}), run[..|run| - 1]);
      RulesBetween(env, st, left, run[..|run| - 1]);
      RestartChanges(env, st, left, run[..|run| - 1], before, e);
      RestartChanges(env, st, {}, run[..|run| - 1], empty, e);
      SameStepChange(env, before, empty, e);
      AppliedBetween(empty.rules, before.rules, left, StepChange(env, before, e));
    }
  }

  // ---------- Rules that are right, or were left over ----------

  ghost predicate RightBut(s: State, left: set<Rule>) {
    forall r :: r in s.rules && r !in left ==> RightRule(Show(s), r)
  }

  function Concerned(e: Event): Id {
    match e
    case Register(cfg) => cfg.serviceId
    case Remove(id) => id
    case Check(id, _, _) => id
    case Turn(_, _, _) => ""
  }

  /** A step that leaves a rule behind, and not one that was left over. */
  predicate DisturbsBut(env: Env, s: State, e: Event, left: set<Rule>) {
    Disturbs(env, s, e) && RuleOf(Obj(s, Concerned(e))) !in left
  }

  lemma RightWithout(s: State, left: set<Rule>)
    ensures RightBut(s, left) <==> RulesOk(s.(rules := s.rules - left))
  {
    var v := s.(rules := s.rules - left);
    assert forall r :: RightRule(Show(v), r) <==> RightRule(Show(s), r);
  }

  lemma AnnouncedWithout(env: Env, s: State, left: set<Rule>)
    ensures var v := s.(rules := s.rules - left);
            && (forall id :: LeavesRule(v, id) <==> LeavesRule(s, id) && RuleOf(Obj(s, id)) !in left)
            && (forall n :: Renames(env, v, n) <==> Renames(env, s, n) && RuleOf(Obj(s, n.id)) !in left)
  {
    hide G.Chosen, ConfigChanged, HeirTakesRule;
    var v := s.(rules := s.rules - left);
    forall n ensures Renames(env, v, n) <==> Renames(env, s, n) && RuleOf(Obj(s, n.id)) !in left {
      SameHeir(env, s, v, n);
    }
  }

  lemma SameHeir(env: Env, s: State, v: State, n: ServiceData)
    requires v == s.(rules := v.rules)
    ensures Obj(s, n.id).memberOf in s.groups ==> HeirTakesRule(env, v, n) == HeirTakesRule(env, s, n)
    ensures RuleOf(Obj(v, n.id)) == RuleOf(Obj(s, n.id))
  {
    hide G.Chosen;
  }

  /** Without left-over rules and without any rules: the three states differ in their rules only. */
  lemma RightButIff(u: State, uv: State, uw: State, rules: set<Rule>, left: set<Rule>, c: Change)
    requires uv == u.(rules := uv.rules) && uw == u.(rules := uw.rules) && RulesOk(uw)
    requires u.rules == Applied(rules, c) && uv.rules == Applied(rules - left, c) && uw.rules == Applied({}, c)
    ensures RightBut(u, left) <==> RulesOk(uv)
  {
    assert forall r :: RightRule(Show(uv), r) <==> RightRule(Show(u), r);
    assert forall r :: RightRule(Show(uw), r) <==> RightRule(Show(u), r);
    hide RightRule;
    forall r | r in uv.rules && r in left ensures RightRule(Show(uv), r) {
      assert r in uw.rules;
    }
  }

  lemma SameRight(env: Env, s: State, t: State, left: set<Rule>)
    requires t == s.(store := t.store)
    ensures RightBut(t, left) == RightBut(s, left)
    ensures forall id :: LeavesRule(t, id) == LeavesRule(s, id)
    ensures forall n :: Renames(env, t, n) == Renames(env, s, n)
  {
    hide G.Chosen, ConfigChanged, RightRule;
    assert Show(t) == Show(s);
    forall n ensures Renames(env, t, n) == Renames(env, s, n) {
      SameRename(env, s, t, n);
    }
  }

  lemma SameRename(env: Env, s: State, t: State, n: ServiceData)
    requires t == s.(store := t.store)
    ensures Renames(env, t, n) == Renames(env, s, n)
  {
    hide G.Chosen, ConfigChanged;
  }

  /** The sound manager, without the rules left over, and without any rules. */
  ghost predicate Trio(env: Env, past: Past, t: State, v: State, w: State, left: set<Rule>) {
    && v == t.(rules := t.rules - left) && w == t.(rules := {})
    && Inv(t) && Inv(v) && Inv(w) && RulesOk(v) && RulesOk(w)
    && past.sameStore && (forall h, x :: past.places(h, x)) && InStep(past, t, v) && InStep(past, t, w)
  }

  lemma RulesApart(past: Past, s: State, t: State, rules: set<Rule>)
    requires Shadows(past, s, t)
    ensures InStep(Past(t.store, (h, x) => true, true), t, t.(rules := rules)) && Inv(t.(rules := rules))
  {
    ShadowsMeans(past, s, t);
    InStepMeans(past, s, t);
    AgreeMeans(past, s.objs, s.store, t.store, "");
    RulesAside(t, rules);
    hide Inv, Startable, Shadows;
  }

  lemma NothingAnnounced(env: Env, t: State)
    ensures RulesOk(t.(rules := {}))
    ensures forall id :: !LeavesRule(t.(rules := {}), id)
    ensures forall n :: !Renames(env, t.(rules := {}), n)
  {
    hide Heir, ConfigChanged;
  }

  lemma TrioOf(env: Env, past: Past, s: State, t: State, left: set<Rule>) returns (aside: Past, v: State, w: State)
    requires Shadows(past, s, t) && RightBut(s, left)
    ensures Trio(env, aside, t, v, w, left)
  {
    aside, v, w := Past(t.store, (h, x) => true, true), t.(rules := t.rules - left), t.(rules := {});
    ShadowsMeans(past, s, t);
    SameRight(env, s, t, left);
    RightWithout(t, left);
    NothingAnnounced(env, t);
    hide InStep, Inv, RulesOk, Shadows;
    RulesApart(past, s, t, v.rules);
    RulesApart(past, s, t, w.rules);
  }

  lemma TrioMeans(env: Env, past: Past, t: State, v: State, w: State, left: set<Rule>)
    requires Trio(env, past, t, v, w, left)
    ensures v == t.(rules := t.rules - left) && w == t.(rules := {})
    ensures Inv(t) && Inv(v) && Inv(w) && RulesOk(v) && RulesOk(w)
    ensures past.sameStore && (forall h, x :: past.places(h, x)) && InStep(past, t, v) && InStep(past, t, w)
    ensures t.index.Keys <= t.objs.Keys
    ensures forall id :: !LeavesRule(w, id)
    ensures forall n :: !Renames(env, w, n)
    ensures forall id :: LeavesRule(v, id) <==> LeavesRule(t, id) && RuleOf(Obj(t, id)) !in left
    ensures forall n :: Renames(env, v, n) <==> Renames(env, t, n) && RuleOf(Obj(t, n.id)) !in left
  {
    InStepMeans(past, t, v);
    NothingAnnounced(env, t);
    AnnouncedWithout(env, t, left);
    hide InStep, Inv, RulesOk, LeavesRule, Renames, Agree, Named;
  }

  lemma UpdateRight(env: Env, past: Past, s: State, t: State, n: ServiceData, left: set<Rule>)
    requires Shadows(past, s, t) && RightBut(s, left) && n.id in s.index && Assignable(n)
    ensures RightBut(UpdateService(env, s, n), left) <==> !(Renames(env, s, n) && RuleOf(Obj(s, n.id)) !in left)
  {
    hide *;
    ShadowsMeans(past, s, t);
    InStepMeans(past, s, t);
    assert n.id in s.index.Keys;
    UpdateInStep(env, past, s, t, n);
    var u := UpdateService(env, t, n);
    InStepMeans(past, UpdateService(env, s, n), u);
    SameRight(env, s, t, left);
    SameRight(env, UpdateService(env, s, n), u, left);
    var aside, v, w := TrioOf(env, past, s, t, left);
    UpdateTrio(env, aside, t, v, w, n, left);
  }

  lemma UpdateTrio(env: Env, past: Past, t: State, v: State, w: State, n: ServiceData, left: set<Rule>)
    requires Trio(env, past, t, v, w, left) && n.id in t.index && Assignable(n)
    ensures RightBut(UpdateService(env, t, n), left) <==> !(Renames(env, t, n) && RuleOf(Obj(t, n.id)) !in left)
  {
    hide *;
    TrioMeans(env, past, t, v, w, left);
    assert n.id in t.index.Keys;
    var u, uv, uw := UpdateService(env, t, n), UpdateService(env, v, n), UpdateService(env, w, n);
    UpdateInStep(env, past, t, v, n);
    UpdateInStep(env, past, t, w, n);
    InStepMeans(past, u, uv);
    InStepMeans(past, u, uw);
    UpdateKeepsRulesIff(env, v, n);
    UpdateKeepsRulesIff(env, w, n);
    UpdateChanges(env, t, n);
    UpdateChanges(env, v, n);
    UpdateChanges(env, w, n);
    SameConfigChanges(env, t, v, n);
    SameConfigChanges(env, t, w, n);
    RightButIff(u, uv, uw, t.rules, left, UpdateChange(env, t, n));
  }

  lemma NewRight(env: Env, past: Past, s: State, t: State, n: ServiceData, left: set<Rule>)
    requires Shadows(past, s, t) && RightBut(s, left) && n.id !in s.index && n.id != "" && Assignable(n)
    requires !RegisterNew(env, s, n).crashed
    ensures RightBut(RegisterNew(env, s, n), left)
  {
    hide *;
    ShadowsMeans(past, s, t);
    InStepMeans(past, s, t);
    NewFollows(env, past, s, t, n);
    SaneIfSchedulable(n);
    var u := RegisterNew(env, t, n);
    InStepMeans(past, RegisterNew(env, s, n), u);
    SameRight(env, s, t, left);
    SameRight(env, RegisterNew(env, s, n), u, left);
    var aside, v, w := TrioOf(env, past, s, t, left);
    NewTrio(env, aside, t, v, w, n, left);
  }

  lemma NewTrio(env: Env, past: Past, t: State, v: State, w: State, n: ServiceData, left: set<Rule>)
    requires Trio(env, past, t, v, w, left) && n.id !in t.index && n.id != "" && SaneService(n)
    ensures RightBut(RegisterNew(env, t, n), left)
  {
    hide *;
    TrioMeans(env, past, t, v, w, left);
    var u, uv, uw := RegisterNew(env, t, n), RegisterNew(env, v, n), RegisterNew(env, w, n);
    RegisterNewInStep(env, past, t, v, n);
    RegisterNewInStep(env, past, t, w, n);
    InStepMeans(past, u, uv);
    InStepMeans(past, u, uw);
    RegisterNewRules(env, v, n);
    RegisterNewRules(env, w, n);
    NewChanges(env, t, n);
    NewChanges(env, v, n);
    NewChanges(env, w, n);
    SameConfigChanges(env, t, v, n);
    SameConfigChanges(env, t, w, n);
    RightButIff(u, uv, uw, t.rules, left, RegistrationChange(env, t, n));
  }

  lemma RemoveRight(env: Env, past: Past, s: State, t: State, id: Id, left: set<Rule>)
    requires Shadows(past, s, t) && RightBut(s, left)
    ensures RightBut(RemoveService(env, s, id), left) <==> !(LeavesRule(s, id) && RuleOf(Obj(s, id)) !in left)
  {
    hide *;
    ShadowsMeans(past, s, t);
    InStepMeans(past, s, t);
    RemoveInStep(env, past, s, t, id);
    var u := RemoveService(env, t, id);
    InStepMeans(past, RemoveService(env, s, id), u);
    SameRight(env, s, t, left);
    SameRight(env, RemoveService(env, s, id), u, left);
    var aside, v, w := TrioOf(env, past, s, t, left);
    if id in t.index {
      RemoveTrio(env, aside, t, v, w, id, left);
    } else {
      UnknownRemoval(env, t, id);
    }
  }

  lemma RemoveTrio(env: Env, past: Past, t: State, v: State, w: State, id: Id, left: set<Rule>)
    requires Trio(env, past, t, v, w, left) && id in t.index
    ensures RightBut(RemoveService(env, t, id), left) <==> !(LeavesRule(t, id) && RuleOf(Obj(t, id)) !in left)
  {
    hide *;
    TrioMeans(env, past, t, v, w, left);
    var u, uv, uw := RemoveService(env, t, id), RemoveService(env, v, id), RemoveService(env, w, id);
    RemoveInStep(env, past, t, v, id);
    RemoveInStep(env, past, t, w, id);
    InStepMeans(past, u, uv);
    InStepMeans(past, u, uw);
    RemovalKeepsRules(env, v, id);
    RemovalKeepsRules(env, w, id);
    RemoveChanges(env, t, id);
    RemoveChanges(env, v, id);
    RemoveChanges(env, w, id);
    SameChanges(env, t, v);
    SameChanges(env, t, w);
    RightButIff(u, uv, uw, t.rules, left, RemovalChange(env, t, id));
  }

  lemma CheckRight(env: Env, past: Past, s: State, t: State, id: Id, success: bool, roundtrip: Duration,
                   left: set<Rule>)
    requires Shadows(past, s, t) && RightBut(s, left) && id in s.index
    ensures RightBut(CheckResult(env, s, id, success, roundtrip), left)
  {
    hide *;
    ShadowsMeans(past, s, t);
    InStepMeans(past, s, t);
    assert id in s.index.Keys;
    CheckInStep(env, past, s, t, id, success, roundtrip);
    var u := CheckResult(env, t, id, success, roundtrip);
    InStepMeans(past, CheckResult(env, s, id, success, roundtrip), u);
    SameRight(env, s, t, left);
    SameRight(env, CheckResult(env, s, id, success, roundtrip), u, left);
    var aside, v, w := TrioOf(env, past, s, t, left);
    CheckTrio(env, aside, t, v, w, id, success, roundtrip, left);
  }

  lemma CheckTrio(env: Env, past: Past, t: State, v: State, w: State, id: Id, success: bool, roundtrip: Duration,
                  left: set<Rule>)
    requires Trio(env, past, t, v, w, left) && id in t.index
    ensures RightBut(CheckResult(env, t, id, success, roundtrip), left)
  {
    hide *;
    TrioMeans(env, past, t, v, w, left);
    assert id in t.index.Keys;
    var u, uv := CheckResult(env, t, id, success, roundtrip), CheckResult(env, v, id, success, roundtrip);
    var uw := CheckResult(env, w, id, success, roundtrip);
    CheckInStep(env, past, t, v, id, success, roundtrip);
    CheckInStep(env, past, t, w, id, success, roundtrip);
    InStepMeans(past, u, uv);
    InStepMeans(past, u, uw);
    CheckRules(env, v, id, success, roundtrip);
    CheckRules(env, w, id, success, roundtrip);
    CheckChanges(env, t, id, success, roundtrip);
    CheckChanges(env, v, id, success, roundtrip);
    CheckChanges(env, w, id, success, roundtrip);
    SameChanges(env, t, v);
    SameChanges(env, t, w);
    RightButIff(u, uv, uw, t.rules, left, CheckChange(t, id, success, roundtrip));
  }

  lemma TurnRight(s: State, d: Duration, now: int, gap: Duration, left: set<Rule>)
    requires RightBut(s, left)
    ensures RightBut(Tick(s, d, now, gap), left)
  {
    assert Show(Tick(s, d, now, gap)) == Show(s);
    hide RightRule;
  }

  lemma RegisterRight(env: Env, past: Past, s: State, t: State, cfg: Config, left: set<Rule>)
    requires Shadows(past, s, t) && RightBut(s, left)
    requires Allowed(s, Register(cfg)) && !RegisterService(env, s, cfg).crashed
    ensures RightBut(RegisterService(env, s, cfg), left) <==> !DisturbsBut(env, s, Register(cfg), left)
  {
    hide Shadows, UpdateService, RegisterNew, NewService, RegisterService, Assignable, RightBut, Renames;
    RegisterServiceMeans(env, s, cfg);
    NewServiceMeans(cfg, s.store);
    match NewService(cfg, s.store)
    case None =>
    case Some(n) =>
      if n.id in s.index {
        UpdateRight(env, past, s, t, n, left);
      } else {
        NewRight(env, past, s, t, n, left);
      }
  }

  /** With all rules right but for those left over, a step keeps them so exactly when it leaves no other rule
      behind. */
  lemma StepRulesBut(env: Env, past: Past, s: State, t: State, e: Event, left: set<Rule>)
    requires Shadows(past, s, t) && RightBut(s, left) && Allowed(s, e) && !Step(env, s, e).crashed
    ensures RightBut(Step(env, s, e), left) <==> !DisturbsBut(env, s, e, left)
  {
    hide Shadows, Inv, InStep, RegisterService, RemoveService, CheckResult, Tick, RightBut, Renames, LeavesRule, Obj;
    hide NewService, RuleOf;
    assert !s.crashed by {
      ShadowsMeans(past, s, t);
      InvIsAlive(t);
    }
    match e
    case Register(cfg) => RegisterRight(env, past, s, t, cfg, left);
    case Remove(id) => RemoveRight(env, past, s, t, id, left);
    case Check(id, success, roundtrip) => CheckRight(env, past, s, t, id, success, roundtrip, left);
    case Turn(d, now, gap) => TurnRight(s, d, now, gap, left);
  }

  ghost predicate AlwaysRightBut(env: Env, s: State, run: seq<Event>, left: set<Rule>) {
    RightBut(Final(env, s, run), left) && (run != [] ==> AlwaysRightBut(env, s, run[..|run| - 1], left))
  }

  predicate UndisturbedBut(env: Env, s: State, run: seq<Event>, left: set<Rule>) {
    run != [] ==>
      && UndisturbedBut(env, s, run[..|run| - 1], left)
      && !DisturbsBut(env, Final(env, s, run[..|run| - 1]), run[|run| - 1], left)
  }

  /** Whatever was stored, and whatever rules the servers held when the manager was started: over every run without
      a panic, every rule is right or was left over at every moment exactly when no step leaves another rule
      behind. */
  lemma {:induction false} RestartRulesIff(env: Env, st: R.Store, left: set<Rule>, run: seq<Event>)
    requires Startable(st) && Admissible(env, Restarted(st, left), run) && !Final(env, Restarted(st, left), run).crashed
    ensures AlwaysRightBut(env, Restarted(st, left), run, left) <==>
            UndisturbedBut(env, Restarted(st, left), run, left)
  {
    hide Startable, RightBut, DisturbsBut, Step, Allowed, Restarted, Running;
    RunsOn(env, st, left, run);
    if run == [] {
      OnlyLeft(st, left);
    } else {
      var n := |run| - 1;
      var before := Final(env, Restarted(st, left), run[..n]);
      RestartRulesIff(env, st, left, run[..n]);
      var past, t := RunFollows(env, st, left, run[..n], before);
      hide Shadows;
      if AlwaysRightBut(env, Restarted(st, left), run[..n], left) {
        StepRulesBut(env, past, before, t, run[n], left);
      }
    }
  }

  lemma OnlyLeft(st: R.Store, left: set<Rule>)
    ensures RightBut(Restarted(st, left), left)
  {
  }

  /** Of the rules that were not left over there is at most one for a group then, and it is that of the group's
      healthy active. */
  lemma RestartOneRulePerGroup(env: Env, st: R.Store, left: set<Rule>, run: seq<Event>, s: State, r: Rule, q: Rule)
    requires Running(env, st, left, run, s) && UndisturbedBut(env, Restarted(st, left), run, left)
    requires r in s.rules - left && q in s.rules - left && r.group == q.group
    ensures r == q && r.group in s.groups && s.groups[r.group].active.Some?
    ensures var a := Obj(s, s.groups[r.group].active.value); a.datacenter == r.datacenter && a.isHealthy
  {
    RestartRulesIff(env, st, left, run);
    RestartElects(env, st, left, run, s, r.group, "");
    assert RightBut(s, left);
    hide Running, UndisturbedBut, AlwaysRightBut, Final, Admissible;
    assert RightRule(Show(s), r) && RightRule(Show(s), q);
  }
}
