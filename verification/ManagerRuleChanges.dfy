/** What every step does to the rules, whatever rules there are: which it withdraws, and which it announces. Both are
    given by members, actives and configurations before the step. */
module ManagerRuleChanges {
  import opened Basics
  import opened Services
  import opened Managers
  import opened ManagerInvariants
  import opened ManagerPromotions
  import opened ManagerSteps
  import opened ManagerLeaving
  import opened ManagerRuns
  import opened ManagerEffects
  import opened ManagerRules
  import opened ManagerRecoveries
  import opened ManagerUpdates
  import G = ServiceGroups
  import R = ServiceRepos
  import S = Schedulers

  /** Rules that are withdrawn, and rules that are announced after that. */
  datatype Change = Change(dropped: set<Rule>, added: set<Rule>)

  const NO_CHANGE := Change({}, {})

  function Applied(rules: set<Rule>, c: Change): set<Rule> {
    rules - c.dropped + c.added
  }

  function Both(c: Change, d: Change): Change {
    Change(c.dropped + d.dropped, c.added - d.dropped + d.added)
  }

  lemma BothApply(rules: set<Rule>, c: Change, d: Change)
    ensures Applied(rules, Both(c, d)) == Applied(Applied(rules, c), d)
    ensures Applied(rules, NO_CHANGE) == rules
  {
  }

  function NamesOf(w: G.World, x: Option<Id>): set<Rule> {
    if x.Some? then {RuleOf(G.Get(w, x.value))} else {}
  }

  /** The role of the active goes from one service to another. */
  function Handover(w: G.World, old': Option<Id>, new': Option<Id>): Change {
    if old' == new' then NO_CHANGE else Change(NamesOf(w, old'), NamesOf(w, new'))
  }

  function EventChange(w: G.World, e: Option<G.PromotionEvent>): Change {
    if e.None? then NO_CHANGE else Handover(w, e.value.oldActive, e.value.newActive)
  }

  lemma EventApplies(w: G.World, rules: set<Rule>, e: Option<G.PromotionEvent>)
    ensures EventRules(w, rules, e) == Applied(rules, EventChange(w, e))
  {
  }

  // ---------- Each kind of step ----------

  /** A first registration: the group, if it exists, elects from its members and the service. */
  function RegistrationChange(env: Env, s: State, n: ServiceData): Change {
    var w := s.objs[n.id := n];
    if n.memberOf !in s.groups then NO_CHANGE
    else Handover(w, s.groups[n.memberOf].active, G.Chosen(env.sort, w, s.groups[n.memberOf].members + [n.id]))
  }

  function JoinChange(env: Env, s: State, n: ServiceData): Change {
    if n.memberOf !in s.groups then NO_CHANGE
    else Handover(Assigned(s, n), s.groups[n.memberOf].active, NewActive(env, s, n))
  }

  /** The group of the service elects an heir of its active, if it has more than `least` members. */
  function HeirChange(env: Env, s: State, n: ServiceData, least: nat): Change
    requires Obj(s, n.id).memberOf in s.groups
  {
    var g := s.groups[Obj(s, n.id).memberOf];
    if |g.members| > least then Handover(Assigned(s, n), g.active, Heir(env, s, n)) else NO_CHANGE
  }

  /** An update: an election in its group, or joining another group and then leaving its own. */
  function UpdateChange(env: Env, s: State, n: ServiceData): Change {
    if !ConfigChanged(Obj(s, n.id), n) || Obj(s, n.id).memberOf !in s.groups then NO_CHANGE
    else if n.memberOf == Obj(s, n.id).memberOf then HeirChange(env, s, n, 1)
    else Both(JoinChange(env, s, n), HeirChange(env, s, n, 2))
  }

  /** A removal from a group of three or more. */
  function RemovalChange(env: Env, s: State, id: Id): Change {
    var h := Obj(s, id).memberOf;
    if id !in s.index || h !in s.groups || id !in s.groups[h].members || |s.groups[h].members| <= 2 then NO_CHANGE
    else Handover(s.objs, s.groups[h].active, G.Chosen(env.sort, s.objs, G.Without(s.groups[h].members, id)))
  }

  /** Whom a promotion demotes: the active, or the last one in an ActivePassive group that is down. */
  function InOffice(g: G.Group): Option<Id> {
    if g.mode == G.ActivePassive && g.active.None? then g.lastActive else g.active
  }

  /** A check that flips the service, and changes the active of its group, unless that goes unheard. */
  function CheckChange(s: State, id: Id, success: bool, roundtrip: Duration): Change {
    var c, h := OnResult(Obj(s, id).(roundtrip := roundtrip), success), Obj(s, id).memberOf;
    if c.callback.None? || h !in s.groups || Unheard(s, id) then NO_CHANGE
    else
      var w := s.objs[id := c.service];
      var elected := G.OnServiceHealthChange(w, s.groups[h], id, c.callback.value).group.active;
      if elected == s.groups[h].active then NO_CHANGE else Handover(w, InOffice(s.groups[h]), elected)
  }

  function StepChange(env: Env, s: State, e: Event): Change {
    match e
    case Register(cfg) =>
      (match NewService(cfg, s.store)
       case None => NO_CHANGE
       case Some(n) => if n.id in s.index then UpdateChange(env, s, n) else RegistrationChange(env, s, n))
    case Remove(id) => RemovalChange(env, s, id)
    case Check(id, success, roundtrip) => CheckChange(s, id, success, roundtrip)
    case Turn(_, _, _) => NO_CHANGE
  }

  // ---------- That is what they do ----------

  lemma AddedEvent(sort: G.Sorter, w: G.World, g: G.Group, id: Id)
    requires id !in g.members && g.mode != G.ActiveActiveRoundTrip
    ensures G.RegisterMember(sort, w, g, id).event ==
            if g.members == [] || G.Chosen(sort, w, g.members + [id]) == g.active then None
            else Some(G.PromotionEvent(g.name, G.Chosen(sort, w, g.members + [id]), g.active))
  {
    hide G.Chosen, G.Update;
    G.UpdateChooses(sort, w, g.(members := g.members + [id]));
  }

  lemma RemovedEvent(sort: G.Sorter, w: G.World, g: G.Group, id: Id)
    requires NoDup(g.members) && id in g.members && g.mode != G.ActiveActiveRoundTrip
    ensures G.RemoveMember(sort, w, g, id).event ==
            if |g.members| <= 2 || G.Chosen(sort, w, G.Without(g.members, id)) == g.active then None
            else Some(G.PromotionEvent(g.name, G.Chosen(sort, w, G.Without(g.members, id)), g.active))
  {
    G.WithoutMember(g.members, id);
    var rest := G.Without(g.members, id);
    if rest == [] {
      assert G.Update(sort, w, g.(members := rest)).event.None?;
    }
    hide G.Chosen, G.Update, G.Without;
    if rest != [] {
      G.UpdateChooses(sort, w, g.(members := rest));
    }
  }

  lemma NewChanges(env: Env, s: State, n: ServiceData)
    requires Inv(s) && n.id !in s.index && SaneService(n)
    ensures RegisterNew(env, s, n).rules == Applied(s.rules, RegistrationChange(env, s, n))
  {
    var w, before := s.objs[n.id := n], GroupOrNew(s, n.memberOf);
    var o := G.RegisterMember(env.sort, w, before, n.id);
    RegisterNewEffect(env, s, n);
    assert RegisterNew(env, s, n).rules == EventRules(w, s.rules, o.event) by {
      hide Inv, EventRules, EventWorld, RegisterNew, G.RegisterMember;
    }
    InvParts(s);
    SoundGroup(s, n.memberOf);
    Outsider(s, n.memberOf, n.id);
    if n.memberOf in s.groups {
      GroupIn(s, n.memberOf);
      GroupFacts(s, n.memberOf);
    }
    hide Inv, GroupsOk, GroupOk, ObjectsOk, IndexOk, StoreOk, EventRules, RegisterNew, G.Chosen, G.RegisterMember;
    AddedEvent(env.sort, w, before, n.id);
    EventApplies(w, s.rules, o.event);
  }

  lemma RemoveChanges(env: Env, s: State, id: Id)
    requires Inv(s)
    ensures RemoveService(env, s, id).rules == Applied(s.rules, RemovalChange(env, s, id))
  {
    var h := Obj(s, id).memberOf;
    if id in s.index {
      hide *;
      RegisteredIn(s, id);
      var o := G.RemoveMember(env.sort, s.objs, s.groups[h], id);
      RemovalRules(env, s, id, o);
      RemovedEvent(env.sort, s.objs, s.groups[h], id);
      EventApplies(s.objs, s.rules, o.event);
      RemovalIs(env, s, id, o.event, s.groups[h].name);
    } else {
      assert RemoveService(env, s, id) == s;
    }
  }

  lemma RegisteredIn(s: State, id: Id)
    requires Inv(s) && id in s.index
    ensures var h := Obj(s, id).memberOf;
            && h in s.groups && id in s.groups[h].members && NoDup(s.groups[h].members)
            && s.groups[h].mode != G.ActiveActiveRoundTrip
  {
    InvMeans(s, id);
    InvParts(s);
    hide Inv;
    GroupIn(s, Obj(s, id).memberOf);
    GroupFacts(s, Obj(s, id).memberOf);
  }

  lemma RemovalRules(env: Env, s: State, id: Id, o: G.Outcome)
    requires Inv(s) && id in s.index && Obj(s, id).memberOf in s.groups
    requires o == G.RemoveMember(env.sort, s.objs, s.groups[Obj(s, id).memberOf], id)
    ensures RemoveService(env, s, id).rules == EventRules(s.objs, s.rules, o.event)
  {
    hide Inv, EventRules, EventWorld, RemoveService, G.RemoveMember;
    RemoveEffect(env, s, id);
  }

  lemma RemovalIs(env: Env, s: State, id: Id, e: Option<G.PromotionEvent>, name: string)
    requires var h := Obj(s, id).memberOf; id in s.index && h in s.groups && id in s.groups[h].members
    requires var g := s.groups[Obj(s, id).memberOf];
             var elected := G.Chosen(env.sort, s.objs, G.Without(g.members, id));
             e == if |g.members| <= 2 || elected == g.active then None
                  else Some(G.PromotionEvent(name, elected, g.active))
    ensures EventChange(s.objs, e) == RemovalChange(env, s, id)
  {
    hide G.Chosen, G.Without;
  }

  lemma RefreshChanges(env: Env, s: State, n: ServiceData)
    requires Inv(s) && n.id in s.index && n.memberOf == Obj(s, n.id).memberOf
    ensures n.memberOf in s.groups
    ensures RefreshShown(env, s, n).rules == Applied(s.rules, HeirChange(env, s, n, 1))
  {
    var g, w := n.memberOf, Assigned(s, n);
    InvMeans(s, n.id);
    InvParts(s);
    GroupIn(s, g);
    GroupFacts(s, g);
    hide Inv, GroupsOk, GroupOk, ObjectsOk, IndexOk, StoreOk, Assign, G.Chosen, G.Update, EventRules, EventWorld;
    G.UpdateChooses(env.sort, w, s.groups[g]);
    EventApplies(w, s.rules, G.Update(env.sort, w, s.groups[g]).event);
  }

  lemma SameHandover(v: G.World, w: G.World, e: Option<G.PromotionEvent>)
    requires forall x :: RuleOf(G.Get(v, x)) == RuleOf(G.Get(w, x))
    ensures EventChange(v, e) == EventChange(w, e)
  {
  }

  lemma TwoEventsApply(v: Shown, h: string, o1: G.Outcome, g: string, o2: G.Outcome)
    ensures AfterLeave(AfterGroup(v, h, o1), g, o2).rules
         == Applied(v.rules, Both(EventChange(v.objs, o1.event), EventChange(v.objs, o2.event)))
  {
    var u := AfterGroup(v, h, o1);
    SameNames(v.objs, o1.event);
    assert u.objs == EventWorld(v.objs, o1.event) && u.rules == EventRules(v.objs, v.rules, o1.event);
    hide EventWorld, EventRules, Applied, Both, EventChange;
    EventApplies(v.objs, v.rules, o1.event);
    EventApplies(u.objs, u.rules, o2.event);
    SameHandover(u.objs, v.objs, o2.event);
    BothApply(v.rules, EventChange(v.objs, o1.event), EventChange(v.objs, o2.event));
  }

  lemma MoveChanges(env: Env, s: State, n: ServiceData)
    requires Inv(s) && n.id in s.index && n.memberOf != Obj(s, n.id).memberOf
    ensures Obj(s, n.id).memberOf in s.groups
    ensures MoveShown(env, s, n).rules
         == Applied(s.rules, Both(JoinChange(env, s, n), HeirChange(env, s, n, 2)))
  {
    var g, h, w := Obj(s, n.id).memberOf, n.memberOf, Assigned(s, n);
    InvMeans(s, n.id);
    InvParts(s);
    GroupIn(s, g);
    GroupFacts(s, g);
    var o1, o2 := JoinOutcomeOf(env, s, n), LeaveOutcomeOf(env, s, n);
    hide *;
    JoinChooses(env, s, n);
    HomeMember(s, n.id);
    HeirOfMove(env, s, n);
    RemovedEvent(env.sort, w, s.groups[g], n.id);
    MoveIsTwo(env, s, n);
    TwoEventsApply(Shown(w, s.groups, s.rules), h, o1, g, o2);
    JoinIs(env, s, n, o1.event);
    HeirIs(env, s, n, 2, o2.event, s.groups[g].name);
  }

  lemma MoveIsTwo(env: Env, s: State, n: ServiceData)
    requires Obj(s, n.id).memberOf in s.groups
    ensures MoveShown(env, s, n) ==
            AfterLeave(AfterGroup(Shown(Assigned(s, n), s.groups, s.rules), n.memberOf, JoinOutcomeOf(env, s, n)),
                       Obj(s, n.id).memberOf, LeaveOutcomeOf(env, s, n))
  {
    hide AfterLeave, AfterGroup, Assign, JoinOutcomeOf, LeaveOutcomeOf;
  }

  lemma JoinIs(env: Env, s: State, n: ServiceData, e: Option<G.PromotionEvent>)
    requires e == if Ousts(env, s, n)
                  then Some(G.PromotionEvent(n.memberOf, NewActive(env, s, n), s.groups[n.memberOf].active)) else None
    ensures EventChange(Assigned(s, n), e) == JoinChange(env, s, n)
  {
    hide NewActive, Assigned;
  }

  lemma HeirIs(env: Env, s: State, n: ServiceData, least: nat, e: Option<G.PromotionEvent>, name: string)
    requires Obj(s, n.id).memberOf in s.groups
    requires var g, heir := s.groups[Obj(s, n.id).memberOf], Heir(env, s, n);
             e == if |g.members| <= least || heir == g.active then None
                  else Some(G.PromotionEvent(name, heir, g.active))
    ensures EventChange(Assigned(s, n), e) == HeirChange(env, s, n, least)
  {
    hide Heir, Assigned;
  }

  lemma UpdateChanges(env: Env, s: State, n: ServiceData)
    requires Inv(s) && n.id in s.index && Assignable(n)
    ensures UpdateService(env, s, n).rules == Applied(s.rules, UpdateChange(env, s, n))
  {
    BothApply(s.rules, NO_CHANGE, NO_CHANGE);
    if ConfigChanged(Obj(s, n.id), n) {
      hide Inv, Regrouped, UpdateService, ConfigChanged, Assignable, RefreshShown, MoveShown, Applied, HeirChange;
      hide JoinChange;
      UpdateShows(env, s, n);
      RegroupedEffect(env, s, n);
      if n.memberOf == Obj(s, n.id).memberOf {
        RefreshChanges(env, s, n);
      } else {
        MoveChanges(env, s, n);
      }
    } else {
      assert UpdateService(env, s, n) == s;
    }
  }

  lemma ElectedEvent(s: State, w: G.World, g: G.Group, id: Id, o: G.Outcome)
    requires FlipDecides(w, g, id, o) && Obj(s, id).memberOf in s.groups && s.groups[Obj(s, id).memberOf] == g
    requires g.active.Some? ==> g.active.value in s.index
    ensures EventChange(w, Heeded(s, o.event)) ==
            if Unheard(s, id) || o.group.active == g.active then NO_CHANGE
            else Handover(w, InOffice(g), o.group.active)
  {
    hide G.Elected;
  }

  lemma CheckChanges(env: Env, s: State, id: Id, success: bool, roundtrip: Duration)
    requires Inv(s) && id in s.index
    ensures CheckResult(env, s, id, success, roundtrip).rules
         == Applied(s.rules, CheckChange(s, id, success, roundtrip))
  {
    var q, h := CheckResult(env, s, id, success, roundtrip), Obj(s, id).memberOf;
    var c := OnResult(Obj(s, id).(roundtrip := roundtrip), success);
    var w := s.objs[id := c.service];
    BothApply(s.rules, NO_CHANGE, NO_CHANGE);
    InvMeans(s, id);
    InvParts(s);
    CheckedMeans(Obj(s, id).(roundtrip := roundtrip), success);
    hide Inv, GroupsOk, ObjectsOk, IndexOk, StoreOk, OnResult, CheckResult, G.OnServiceHealthChange, Applied, Handover;
    hide EventRules, EventWorld, Heeded, Unheard, FlipDecides, EventChange;
    CheckEffect(env, s, id, success, roundtrip);
    if c.callback.Some? {
      var o := G.OnServiceHealthChange(w, s.groups[h], id, c.callback.value);
      SoundFlip(s, id, c.service, o);
      ElectedEvent(s, w, s.groups[h], id, o);
      EventApplies(w, s.rules, Heeded(s, o.event));
    }
  }

  /** Every step that does not panic withdraws and announces exactly these rules, whatever rules there are. */
  lemma StepChanges(env: Env, s: State, e: Event)
    requires Inv(s) && Allowed(s, e) && !Panics(env, s, e)
    ensures Step(env, s, e).rules == Applied(s.rules, StepChange(env, s, e))
  {
    InvIsAlive(s);
    hide Inv, RegisterService, RemoveService, CheckResult, RegistrationPanics, UpdateChange, RegistrationChange;
    hide RemovalChange, CheckChange, Applied;
    match e
    case Register(cfg) => RegisterChanges(env, s, cfg);
    case Remove(id) => RemoveChanges(env, s, id);
    case Check(id, success, roundtrip) => CheckChanges(env, s, id, success, roundtrip);
    case Turn(_, _, _) => BothApply(s.rules, NO_CHANGE, NO_CHANGE);
  }

  lemma RegisterChanges(env: Env, s: State, cfg: Config)
    requires Inv(s) && Allowed(s, Register(cfg)) && !RegistrationPanics(env, s, cfg)
    ensures RegisterService(env, s, cfg).rules == Applied(s.rules, StepChange(env, s, Register(cfg)))
  {
    RegisterServiceMeans(env, s, cfg);
    NewServiceMeans(cfg, s.store);
    BothApply(s.rules, NO_CHANGE, NO_CHANGE);
    hide Inv, RegisterService, RegistrationPanics, NewService, Assignable, S.Schedulable, UpdateChange;
    hide RegistrationChange, Applied;
    match NewService(cfg, s.store)
    case None =>
    case Some(n) =>
      if n.id in s.index {
        UpdateChanges(env, s, n);
      } else {
        SaneIfSchedulable(n);
        NewChanges(env, s, n);
      }
  }
}
