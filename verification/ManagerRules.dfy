/** The spoof rules announced to DNS: exactly when each of them is that of its group's active. */
module ManagerRules {
  import opened Basics
  import opened Services
  import opened Managers
  import opened ManagerInvariants
  import opened ManagerPromotions
  import opened ManagerSteps
  import opened ManagerLeaving
  import opened ManagerRuns
  import opened ManagerEffects
  import opened GroupChoices
  import G = ServiceGroups
  import S = Schedulers

  // ---------- Right rules ----------

  /** The rule is that of the active of its group. */
  predicate RightRule(v: Shown, r: Rule) {
    && r.group in v.groups && v.groups[r.group].active.Some?
    && r == RuleOf(G.Get(v.objs, v.groups[r.group].active.value))
  }

  ghost predicate RulesRight(v: Shown) {
    forall r :: r in v.rules ==> RightRule(v, r)
  }

  /** Every announced rule is that of the active of its group. */
  ghost predicate RulesOk(s: State) {
    RulesRight(Show(s))
  }

  /** The service is the active of its group, and announced as such. */
  predicate IsAnnounced(s: State, id: Id) {
    && Obj(s, id).memberOf in s.groups && s.groups[Obj(s, id).memberOf].active == Some(id)
    && RuleOf(Obj(s, id)) in s.rules
  }

  // ---------- What an operation on one group does to the rules ----------

  /** The event withdraws the rule. */
  predicate Drops(v: Shown, e: Option<G.PromotionEvent>, r: Rule) {
    e.Some? && e.value.oldActive.Some? && RuleOf(G.Get(v.objs, e.value.oldActive.value)) == r
  }

  lemma SameNames(w: G.World, e: Option<G.PromotionEvent>)
    ensures forall x :: RuleOf(G.Get(EventWorld(w, e), x)) == RuleOf(G.Get(w, x))
  {
  }

  /** Only group `g` differs. */
  ghost predicate SameGroupsBut(v: Groups, w: Groups, g: string) {
    forall h :: h != g ==> (h in w <==> h in v) && (h in w ==> w[h] == v[h])
  }

  /** The event announces the active of group `g`. */
  ghost predicate Announces(v: Shown, groups: Groups, g: string, e: G.PromotionEvent) {
    && e.newActive != e.oldActive && g in groups && groups[g].active == e.newActive
    && (e.newActive.Some? ==> G.Get(v.objs, e.newActive.value).memberOf == g)
  }

  /** With `r` the only rule of group `g` that may be there, all rules are right afterwards exactly when `r`
      was not there, or is withdrawn, or is that of the active elected. */
  lemma GroupRuleIff(v: Shown, groups: Groups, g: string, r: Rule, e: Option<G.PromotionEvent>)
    requires r.group == g && SameGroupsBut(v.groups, groups, g)
    requires forall q :: q in v.rules ==> if q.group == g then q == r else RightRule(v, q)
    requires e.Some? ==> Announces(v, groups, g, e.value)
    ensures RulesRight(AfterEvent(v, groups, e)) <==>
            (r in v.rules && !Drops(v, e, r) ==>
               g in groups && groups[g].active.Some? && RuleOf(G.Get(v.objs, groups[g].active.value)) == r)
  {
    var u := AfterEvent(v, groups, e);
    SameNames(v.objs, e);
    assert u.objs == EventWorld(v.objs, e) && u.rules == EventRules(v.objs, v.rules, e);
    hide EventWorld;
    forall q | q in u.rules && (q.group != g || q != r)
      ensures RightRule(u, q)
    {
      if q.group != g {
        assert RightRule(v, q);
      }
    }
    assert RulesRight(u) <==> (r in u.rules ==> RightRule(u, r));
  }

  /** An operation on group `g`, whose active was `before`: an event demotes that one, and without an event
      it stays active. */
  ghost predicate Elects(w: G.World, groups: Groups, g: string, before: Option<Id>, e: Option<G.PromotionEvent>) {
    && (e.Some? ==>
          && e.value.newActive != before && g in groups && groups[g].active == e.value.newActive
          && (e.value.newActive.Some? ==> G.Get(w, e.value.newActive.value).memberOf == g))
    && (before.Some? ==>
          && G.Get(w, before.value).memberOf == g
          && if e.Some? then e.value.oldActive == before else g in groups && groups[g].active == before)
  }

  /** Such an operation leaves right rules right. */
  lemma ElectionKeepsRules(v: Shown, groups: Groups, g: string, before: Option<Id>, e: Option<G.PromotionEvent>)
    requires RulesRight(v) && SameGroupsBut(v.groups, groups, g)
    requires before == (if g in v.groups then v.groups[g].active else None)
    requires Elects(v.objs, groups, g, before, e)
    ensures RulesRight(AfterEvent(v, groups, e))
  {
    var r := if before.Some? then RuleOf(G.Get(v.objs, before.value)) else Rule(g, "");
    forall q | q in v.rules ensures if q.group == g then q == r else RightRule(v, q) {
      assert RightRule(v, q);
    }
    assert r in v.rules ==> RightRule(v, r);
    if e.Some? && e.value.newActive == e.value.oldActive {
      GroupRuleIff(v, groups, g, r, None);
    } else {
      GroupRuleIff(v, groups, g, r, e);
    }
  }

  // ---------- Actives of sound groups ----------

  /** In a sound state the active of a group belongs to it. */
  lemma ActiveNames(s: State, h: string)
    requires GroupsOk(s) && h in s.groups && s.groups[h].active.Some?
    ensures var a := s.groups[h].active.value;
            a in s.objs && a in s.index && s.objs[a].memberOf == h && IsMember(s, h, a) && a in s.groups[h].members
  {
    GroupIn(s, h);
    GroupFacts(s, h);
  }

  /** The rules stay right for a changed service that is no active, is not announced, or keeps its rule. */
  lemma TouchedRulesRight(s: State, id: Id, d: ServiceData)
    requires GroupsOk(s) && RulesOk(s)
    requires RuleOf(d) == RuleOf(Obj(s, id)) || !IsAnnounced(s, id)
    ensures RulesRight(Shown(s.objs[id := d], s.groups, s.rules))
  {
    var v := Shown(s.objs[id := d], s.groups, s.rules);
    forall r | r in s.rules ensures RightRule(v, r) {
      assert RightRule(Show(s), r);
      ActiveNames(s, r.group);
    }
  }

  // ---------- The elections of a sound state ----------

  /** An election among members of group `g`, whose event demotes the active there was. */
  lemma OutcomeElects(w: G.World, groups: Groups, g: string, before: G.Group, o: G.Outcome)
    requires G.FaithfulEvent(w, before, o)
    requires o.event.Some? && before.active.Some? ==> o.event.value.oldActive == before.active
    requires forall m :: m in o.group.members ==> G.Get(w, m).memberOf == g
    requires before.active.Some? ==> G.Get(w, before.active.value).memberOf == g
    requires o.event.None? && before.active.Some? ==> o.group.active == before.active
    ensures Elects(w, groups[g := o.group], g, before.active, o.event)
    ensures SameGroupsBut(groups, groups[g := o.group], g)
  {
  }

  lemma ElectedActive(w: G.World, g: G.Group)
    requires G.Elected(w, g)
    ensures g.active.Some? ==> g.active.value in g.members
  {
  }

  /** A service joins a group it is not in. */
  lemma JoinOp(s: State, id: Id, d: ServiceData, sort: G.Sorter, o: G.Outcome)
    requires GroupsOk(s) && !IsMember(s, d.memberOf, id)
    requires o == G.RegisterMember(sort, s.objs[id := d], GroupOrNew(s, d.memberOf), id)
    ensures var g := d.memberOf;
            && Elects(s.objs[id := d], s.groups[g := o.group], g, GroupOrNew(s, g).active, o.event)
            && SameGroupsBut(s.groups, s.groups[g := o.group], g)
            && (o.event.Some? ==> o.event.value.oldActive == GroupOrNew(s, g).active)
            && (o.group.active.Some? ==> G.Get(s.objs[id := d], o.group.active.value).memberOf == g)
  {
    var g, w, before := d.memberOf, s.objs[id := d], GroupOrNew(s, d.memberOf);
    SoundGroup(s, g);
    if g in s.groups {
      GroupIn(s, g);
      GroupFacts(s, g);
      G.ElectedDependsOnMembersOnly(s.objs, w, before);
    }
    assert forall m :: m in before.members || m == id ==> G.Get(w, m).memberOf == g;
    assert (before.members == [] || G.Elected(w, before)) && id !in before.members;
    assert (before.active.Some? ==> before.active.value in before.members && before.members != []) by {
      hide G.Elected;
    }
    hide *;
    JoinElects(sort, w, before, id);
    ElectedActive(w, G.RegisterMember(sort, w, before, id).group);
    ElectionDemotesActive(sort, w, before, id);
    OutcomeElects(w, s.groups, g, before, o);
  }

  // ---------- First registrations ----------

  lemma RegisterNewRules(env: Env, s: State, n: ServiceData)
    requires Inv(s) && RulesOk(s) && n.id !in s.index && SaneService(n)
    ensures RulesOk(RegisterNew(env, s, n))
  {
    var g, w := n.memberOf, s.objs[n.id := n];
    var o := G.RegisterMember(env.sort, w, GroupOrNew(s, g), n.id);
    InvParts(s);
    Outsider(s, g, n.id);
    if IsAnnounced(s, n.id) {
      ActiveNames(s, Obj(s, n.id).memberOf);
    }
    hide Inv, GroupsOk, SaneService, G.RegisterMember, G.Elected, RegisterNew, Elects, RulesRight, AfterEvent;
    RegisterNewEffect(env, s, n);
    TouchedRulesRight(s, n.id, n);
    JoinOp(s, n.id, n, env.sort, o);
    ElectionKeepsRules(Shown(w, s.groups, s.rules), s.groups[g := o.group], g, GroupOrNew(s, g).active, o.event);
  }

  // ---------- Check results ----------

  lemma CheckRules(env: Env, s: State, id: Id, success: bool, roundtrip: Duration)
    requires Inv(s) && RulesOk(s) && id in s.index
    ensures RulesOk(CheckResult(env, s, id, success, roundtrip))
  {
    InvParts(s);
    InvMeans(s, id);
    var c := OnResult(s.objs[id].(roundtrip := roundtrip), success);
    var w, g := s.objs[id := c.service], s.objs[id].memberOf;
    hide Inv, GroupsOk, ObjectsOk, IndexOk, StoreOk, OnResult, CheckResult, RulesRight, AfterEvent;
    hide G.OnServiceHealthChange, Heeded, Elects;
    CheckEffect(env, s, id, success, roundtrip);
    CheckedTouches(s, s.(objs := w), id, success, roundtrip);
    CheckedMeans(s.objs[id].(roundtrip := roundtrip), success);
    hide Touched;
    TouchedRulesRight(s, id, c.service);
    if c.callback.Some? {
      FlipOp(s, id, c.service);
      var o := G.OnServiceHealthChange(w, s.groups[g], id, c.callback.value);
      ElectionKeepsRules(Shown(w, s.groups, s.rules), s.groups[g := o.group], g, s.groups[g].active,
                         Heeded(s, o.event));
    }
  }

  lemma FlipOp(s: State, id: Id, d: ServiceData)
    requires GroupsOk(s) && ObjectsOk(s) && id in s.index && id in s.objs
    requires d == s.objs[id].(roundtrip := d.roundtrip, failureCount := d.failureCount, isHealthy := d.isHealthy)
    requires d.isHealthy != s.objs[id].isHealthy && d.memberOf in s.groups
    ensures var g := d.memberOf;
            var o := G.OnServiceHealthChange(s.objs[id := d], s.groups[g], id, d.isHealthy);
            && Elects(s.objs[id := d], s.groups[g := o.group], g, s.groups[g].active, Heeded(s, o.event))
            && SameGroupsBut(s.groups, s.groups[g := o.group], g)
  {
    var g, w := d.memberOf, s.objs[id := d];
    var o := G.OnServiceHealthChange(w, s.groups[g], id, d.isHealthy);
    HomedIn(s, id);
    GroupIn(s, g);
    GroupFacts(s, g);
    hide *;
    FlipOutcome(s, s.(objs := w), id, d, o);
    HeededElects(s, w, g, o);
  }

  /** If the event of a health flip is not heeded, then no active was announced before. */
  lemma HeededElects(s: State, w: G.World, g: string, o: G.Outcome)
    requires g in s.groups && G.FaithfulEvent(w, s.groups[g], o)
    requires o.group.members == s.groups[g].members
    requires forall m :: m in o.group.members ==> G.Get(w, m).memberOf == g && m in s.index
    requires s.groups[g].active.Some? ==> s.groups[g].active.value in s.groups[g].members
    requires o.event.None? ==> o.group.active == s.groups[g].active
    ensures Elects(w, s.groups[g := o.group], g, s.groups[g].active, Heeded(s, o.event))
    ensures SameGroupsBut(s.groups, s.groups[g := o.group], g)
  {
    hide G.Elected;
  }

  // ---------- Leaving a group ----------

  /** Who is active in a group that a service has left, and which event that raises. */
  lemma LeaveFacts(sort: G.Sorter, w: G.World, g: G.Group, id: Id)
    requires NoDup(g.members) && id in g.members && g.mode != G.ActiveActiveRoundTrip
    requires g.active.Some? && g.active.value != id ==> g.active.value in g.members && G.Healthy(w, g.active.value)
    ensures var o := G.RemoveMember(sort, w, g, id); var rest := G.Without(g.members, id);
            && (forall m :: m in o.group.members <==> m in g.members && m != id)
            && (o.group.members == [] <==> |g.members| == 1)
            && (o.group.members != [] ==> o.group.active == G.Chosen(sort, w, rest))
            && (o.event.Some? ==> o.event.value == G.PromotionEvent(g.name, o.group.active, g.active)
                                  && o.group.active != g.active && |g.members| > 2)
            && (o.group.members != [] ==> G.RightActive(w, o.group.members, o.group.active))
            && (g.active.Some? && g.active.value != id && o.event.None? ==>
                  o.group.members != [] && o.group.active == g.active)
            && (g.active == Some(id) && |g.members| > 2 ==> o.event.Some?)
  {
    var rest := G.Without(g.members, id);
    var o := G.RemoveMember(sort, w, g, id);
    G.WithoutMember(g.members, id);
    G.RemoveElects(sort, w, g, id);
    if rest != [] {
      G.UpdateChooses(sort, w, g.(members := rest));
      G.SortFrame(sort, w, w, rest);
    }
    if g.active.Some? && g.active.value != id {
      TwoMembers(g.members, g.active.value, id);
      if |g.members| == 2 {
        G.SurvivorStays(sort, w, g, id, g.active.value);
      }
    }
    var left := g.(members := rest);
    assert o == if rest == [] then G.Outcome(left, None, false) else G.Update(sort, w, left);
    hide G.RemoveMember, G.Update, G.Elected;
  }

  /** The groups after service `id` has left group `g`. */
  function LeftGroups(groups: Groups, g: string, o: G.Outcome): Groups {
    if o.group.members == [] then groups - {g} else groups[g := o.group]
  }

  // ---------- Removal ----------

  /** The other member of a group of two. */
  function Other(ms: seq<Id>, id: Id): Id
    requires |ms| == 2
  {
    if ms[0] == id then ms[1] else ms[0]
  }

  /** Removing the announced active leaves its rule behind when its group goes with it, and when it
      leaves one member that is down or in another datacenter. */
  predicate LeavesRule(s: State, id: Id) {
    && id in s.index && IsAnnounced(s, id)
    && var ms := s.groups[Obj(s, id).memberOf].members;
       || |ms| == 1
       || (|ms| == 2 &&
           var other := Obj(s, Other(ms, id));
           !(other.isHealthy && other.datacenter == Obj(s, id).datacenter))
  }

  /** Removal keeps every rule right exactly when it does not take away the announced active of a group
      that is left without a stand-in for the rule. */
  lemma RemovalKeepsRules(env: Env, s: State, id: Id)
    requires Inv(s) && RulesOk(s) && id in s.index
    ensures RulesOk(RemoveService(env, s, id)) <==> !LeavesRule(s, id)
  {
    InvParts(s);
    InvMeans(s, id);
    var g := s.objs[id].memberOf;
    var grp := s.groups[g];
    var o := G.RemoveMember(env.sort, s.objs, grp, id);
    GroupIn(s, g);
    GroupFacts(s, g);
    RemoveEffect(env, s, id);
    assert RemoveShown(env, s, id) == AfterEvent(Show(s), LeftGroups(s.groups, g, o), o.event);
    assert RulesOk(RemoveService(env, s, id)) <==> RulesRight(Show(RemoveService(env, s, id)));
    hide *;
    LeaveFacts(env.sort, s.objs, grp, id);
    if grp.active == Some(id) {
      ActiveRemoved(s, g, id, o);
    } else {
      OtherRemoved(s, g, id, o);
    }
  }

  /** In the group of an active there is no rule but its own. */
  lemma AnnouncedRule(s: State, id: Id)
    requires RulesOk(s) && Obj(s, id).memberOf in s.groups && s.groups[Obj(s, id).memberOf].active == Some(id)
    ensures forall q :: q in s.rules ==>
                          if q.group == Obj(s, id).memberOf then q == RuleOf(Obj(s, id)) else RightRule(Show(s), q)
  {
    forall q | q in s.rules ensures RightRule(Show(s), q) {
    }
  }

  lemma ActiveRemoved(s: State, g: string, id: Id, o: G.Outcome)
    requires RulesOk(s) && GroupOk(s, g) && s.groups[g].active == Some(id) && id in s.index && id in s.objs
    requires forall m :: m in o.group.members <==> m in s.groups[g].members && m != id
    requires o.group.members == [] <==> |s.groups[g].members| == 1
    requires o.group.members != [] ==> G.RightActive(s.objs, o.group.members, o.group.active)
    requires o.event.Some? <==> |s.groups[g].members| > 2
    requires o.event.Some? ==> o.event.value == G.PromotionEvent(g, o.group.active, Some(id))
                               && o.group.active != Some(id)
    ensures RulesRight(AfterEvent(Show(s), LeftGroups(s.groups, g, o), o.event)) <==> !LeavesRule(s, id)
  {
    GroupFacts(s, g);
    AnnouncedRule(s, id);
    hide GroupOk, G.Elected, AfterEvent, RulesRight, RightRule;
    if |s.groups[g].members| == 2 {
      LeftAlone(s, g, id, o);
    }
    GroupRuleIff(Show(s), LeftGroups(s.groups, g, o), g, RuleOf(s.objs[id]), o.event);
  }

  lemma LeftAlone(s: State, g: string, id: Id, o: G.Outcome)
    requires GroupOk(s, g) && |s.groups[g].members| == 2 && id in s.groups[g].members
    requires forall m :: m in o.group.members <==> m in s.groups[g].members && m != id
    requires o.group.members != [] && G.RightActive(s.objs, o.group.members, o.group.active)
    ensures var b := Other(s.groups[g].members, id);
            && b in s.objs && s.objs[b].memberOf == g
            && o.group.active == if s.objs[b].isHealthy then Some(b) else None
  {
    GroupFacts(s, g);
    assert Other(s.groups[g].members, id) in o.group.members;
  }

  lemma OtherRemoved(s: State, g: string, id: Id, o: G.Outcome)
    requires RulesOk(s) && GroupOk(s, g) && s.groups[g].active != Some(id) && id in s.index && id in s.objs
    requires s.objs[id].memberOf == g
    requires forall m :: m in o.group.members <==> m in s.groups[g].members && m != id
    requires o.group.members != [] ==> G.RightActive(s.objs, o.group.members, o.group.active)
    requires o.event.Some? ==> o.event.value == G.PromotionEvent(g, o.group.active, s.groups[g].active)
                               && o.group.active != s.groups[g].active && o.group.members != []
    requires s.groups[g].active.Some? && o.event.None? ==>
               o.group.members != [] && o.group.active == s.groups[g].active
    ensures RulesRight(AfterEvent(Show(s), LeftGroups(s.groups, g, o), o.event)) && !LeavesRule(s, id)
  {
    GroupFacts(s, g);
    hide GroupOk, G.Elected, AfterEvent, RulesRight, RightRule, RulesOk;
    assert RulesOk(s) <==> RulesRight(Show(s)) by {
      RulesOkMeans(s);
    }
    ElectionKeepsRules(Show(s), LeftGroups(s.groups, g, o), g, s.groups[g].active, o.event);
  }

  lemma RulesOkMeans(s: State)
    ensures RulesOk(s) <==> RulesRight(Show(s))
  {
  }

  // ---------- Updates ----------

  /** The members that an update leaves in the old group of its service. */
  function Staying(s: State, n: ServiceData): seq<Id>
    requires Obj(s, n.id).memberOf in s.groups
  {
    var ms := s.groups[Obj(s, n.id).memberOf].members;
    if n.memberOf == Obj(s, n.id).memberOf || n.id !in ms then ms else G.Without(ms, n.id)
  }

  /** The objects with the new configuration in place. */
  function Assigned(s: State, n: ServiceData): G.World {
    s.objs[n.id := Assign(Obj(s, n.id), n)]
  }

  /** The member elected from those that stay. */
  function Heir(env: Env, s: State, n: ServiceData): Option<Id>
    requires Obj(s, n.id).memberOf in s.groups
  {
    G.Chosen(env.sort, Assigned(s, n), Staying(s, n))
  }

  /** The heir is announced, if at all, under the name that the service had. */
  predicate HeirTakesRule(env: Env, s: State, n: ServiceData)
    requires Obj(s, n.id).memberOf in s.groups
  {
    && Heir(env, s, n).Some?
    && RuleOf(G.Get(Assigned(s, n), Heir(env, s, n).value)) == RuleOf(Obj(s, n.id))
  }

  /** The service is announced, has another rule from now on, and its heir does not take the old one. */
  predicate Orphans(env: Env, s: State, n: ServiceData) {
    IsAnnounced(s, n.id) && RuleOf(n) != RuleOf(Obj(s, n.id)) && !HeirTakesRule(env, s, n)
  }

  lemma AssignMeans(d: ServiceData, n: ServiceData)
    ensures RuleOf(Assign(d, n)) == RuleOf(n) && Assign(d, n).memberOf == n.memberOf
    ensures Assign(d, n).isHealthy == d.isHealthy && Assign(d, n).id == d.id
  {
  }

  lemma UpdateOp(s: State, id: Id, d: ServiceData, sort: G.Sorter, o: G.Outcome)
    requires GroupsOk(s) && id in s.index && id in s.objs && d.memberOf == s.objs[id].memberOf
    requires d.memberOf in s.groups
    requires d.isHealthy == s.objs[id].isHealthy
    requires o == G.Update(sort, s.objs[id := d], s.groups[d.memberOf])
    ensures var g := d.memberOf;
            && Elects(s.objs[id := d], s.groups[g := o.group], g, s.groups[g].active, o.event)
            && SameGroupsBut(s.groups, s.groups[g := o.group], g)
            && (o.event.Some? ==> o.event.value.oldActive == s.groups[g].active)
            && o.group.active == G.Chosen(sort, s.objs[id := d], s.groups[g].members)
  {
    var g, w := d.memberOf, s.objs[id := d];
    HomedIn(s, id);
    GroupIn(s, g);
    GroupFacts(s, g);
    assert forall m :: m in s.groups[g].members ==> G.Get(w, m).memberOf == g;
    hide *;
    UpdateOutcome(s, w, id, d, sort, o);
    G.UpdateChooses(sort, w, s.groups[g]);
    ElectionDemotesActive(sort, w, s.groups[g], id);
    OutcomeElects(w, s.groups, g, s.groups[g], o);
  }

  lemma RefreshRulesIff(env: Env, s: State, n: ServiceData)
    requires Inv(s) && RulesOk(s) && n.id in s.index && n.memberOf == Obj(s, n.id).memberOf
    requires n.memberOf in s.groups
    ensures RulesRight(RefreshShown(env, s, n)) <==> !Orphans(env, s, n)
  {
    var id, g, d := n.id, n.memberOf, Assign(Obj(s, n.id), n);
    var w := Assigned(s, n);
    var o := G.Update(env.sort, w, s.groups[g]);
    var v, groups := Shown(w, s.groups, s.rules), s.groups[g := o.group];
    InvParts(s);
    InvMeans(s, id);
    AssignMeans(s.objs[id], n);
    UpdateOp(s, id, d, env.sort, o) by {
      hide Inv, Assign, G.Update;
    }
    assert groups[g].active == Heir(env, s, n) by {
      hide Inv, Assign, G.Update, Elects, GroupsOk, G.Chosen;
    }
    assert RefreshShown(env, s, n) == AfterEvent(v, groups, o.event) by {
      hide Inv, Assign, G.Update, Elects, GroupsOk, EventRules, EventWorld;
    }
    if IsAnnounced(s, id) {
      AnnouncedActive(s, id);
    }
    hide *;
    OrphansMeans(env, s, n);
    if IsAnnounced(s, id) && RuleOf(n) != RuleOf(s.objs[id]) {
      RenamedOthers(s, id, d);
      RenamedElection(v, groups, g, RuleOf(s.objs[id]), id, o.event);
    } else {
      TouchedRulesRight(s, id, d);
      ElectionKeepsRules(v, groups, g, s.groups[g].active, o.event);
    }
  }

  lemma AnnouncedActive(s: State, id: Id)
    requires IsAnnounced(s, id)
    ensures Obj(s, id).memberOf in s.groups && s.groups[Obj(s, id).memberOf].active == Some(id)
    ensures RuleOf(Obj(s, id)) in s.rules && RuleOf(Obj(s, id)).group == Obj(s, id).memberOf
  {
  }

  lemma OrphansMeans(env: Env, s: State, n: ServiceData)
    requires Obj(s, n.id).memberOf in s.groups
    ensures Orphans(env, s, n) <==>
            && IsAnnounced(s, n.id) && RuleOf(n) != RuleOf(Obj(s, n.id))
            && !(Heir(env, s, n).Some? && RuleOf(G.Get(Assigned(s, n), Heir(env, s, n).value)) == RuleOf(Obj(s, n.id)))
  {
  }

  /** Around an announced service that changes its name, the other rules stay right. */
  lemma RenamedOthers(s: State, id: Id, d: ServiceData)
    requires GroupsOk(s) && RulesOk(s) && id in s.objs
    requires s.objs[id].memberOf in s.groups && s.groups[s.objs[id].memberOf].active == Some(id)
    ensures forall q :: q in s.rules ==>
                          if q.group == s.objs[id].memberOf then q == RuleOf(s.objs[id])
                          else RightRule(Shown(s.objs[id := d], s.groups, s.rules), q)
  {
    forall q | q in s.rules && q.group != s.objs[id].memberOf
      ensures RightRule(Shown(s.objs[id := d], s.groups, s.rules), q)
    {
      assert RightRule(Show(s), q);
      ActiveNames(s, q.group);
    }
    assert forall q :: q in s.rules ==> RightRule(Show(s), q);
  }

  /** The old rule of the service is then right exactly when it is that of the active elected. */
  lemma RenamedElection(v: Shown, groups: Groups, g: string, r: Rule, id: Id, e: Option<G.PromotionEvent>)
    requires r.group == g && r in v.rules && r != RuleOf(G.Get(v.objs, id)) && SameGroupsBut(v.groups, groups, g)
    requires forall q :: q in v.rules ==> if q.group == g then q == r else RightRule(v, q)
    requires Elects(v.objs, groups, g, Some(id), e)
    ensures RulesRight(AfterEvent(v, groups, e)) <==>
            g in groups && groups[g].active.Some? && RuleOf(G.Get(v.objs, groups[g].active.value)) == r
  {
    GroupRuleIff(v, groups, g, r, e);
  }

  // ---------- Updates that change the group ----------

  /** An election in another group leaves the rule `r` of group `g` alone, and the rest right. */
  lemma ElectionElsewhere(v: Shown, groups: Groups, h: string, before: Option<Id>, e: Option<G.PromotionEvent>,
                          g: string, r: Rule)
    requires h != g && r.group == g && SameGroupsBut(v.groups, groups, h)
    requires before == (if h in v.groups then v.groups[h].active else None)
    requires Elects(v.objs, groups, h, before, e) && (e.Some? ==> e.value.oldActive == before)
    requires forall q :: q in v.rules ==> if q.group == g then q == r else RightRule(v, q)
    ensures var u := AfterEvent(v, groups, e);
            && (forall q :: q in u.rules ==> if q.group == g then q == r else RightRule(u, q))
            && (r in u.rules <==> r in v.rules)
  {
    var u := AfterEvent(v, groups, e);
    SameNames(v.objs, e);
    assert u.objs == EventWorld(v.objs, e) && u.rules == EventRules(v.objs, v.rules, e);
    hide EventWorld;
    forall q | q in u.rules ensures if q.group == g then q == r else RightRule(u, q) {
      assert q in v.rules && q.group != g ==> RightRule(v, q);
    }
  }

  /** The two operations of a move: joining group `h`, and leaving group `g`, where `was` is active. */
  lemma MovedActive(v: Shown, h: string, before: Option<Id>, o1: G.Outcome, g: string, id: Id, r: Rule, o2: G.Outcome)
    requires h != g && r.group == g && G.Get(v.objs, id).memberOf == h
    requires before == (if h in v.groups then v.groups[h].active else None)
    requires Elects(v.objs, v.groups[h := o1.group], h, before, o1.event)
    requires o1.event.Some? ==> o1.event.value.oldActive == before
    requires forall q :: q in v.rules ==> if q.group == g then q == r else RightRule(v, q)
    requires o2.event.Some? ==> o2.event.value.oldActive == Some(id)
                                && o2.event.value.newActive == o2.group.active != Some(id)
    requires o2.event.Some? ==> o2.group.members != []
    requires o2.event.Some? && o2.group.active.Some? ==> G.Get(v.objs, o2.group.active.value).memberOf == g
    ensures RulesRight(AfterLeave(AfterGroup(v, h, o1), g, o2)) <==>
            (r in v.rules ==> o2.group.members != [] && o2.group.active.Some?
                              && RuleOf(G.Get(v.objs, o2.group.active.value)) == r)
  {
    var u := AfterGroup(v, h, o1);
    ElectionElsewhere(v, v.groups[h := o1.group], h, before, o1.event, g, r);
    SameNames(v.objs, o1.event);
    assert u.objs == EventWorld(v.objs, o1.event) && u.groups == v.groups[h := o1.group];
    var groups := LeftGroups(u.groups, g, o2);
    assert AfterLeave(u, g, o2) == AfterEvent(u, groups, o2.event);
    hide EventWorld, AfterEvent, AfterGroup, RightRule, Elects, AfterLeave;
    hide RulesRight;
    assert RuleOf(G.Get(u.objs, id)) != r;
    GroupRuleIff(u, groups, g, r, o2.event);
  }

  lemma MovedOther(v: Shown, h: string, before: Option<Id>, o1: G.Outcome, g: string, active: Option<Id>, o2: G.Outcome)
    requires h != g && RulesRight(v) && active == (if g in v.groups then v.groups[g].active else None)
    requires before == (if h in v.groups then v.groups[h].active else None)
    requires Elects(v.objs, v.groups[h := o1.group], h, before, o1.event)
    requires Elects(v.objs, LeftGroups(v.groups, g, o2), g, active, o2.event)
    ensures RulesRight(AfterLeave(AfterGroup(v, h, o1), g, o2))
  {
    var u := AfterGroup(v, h, o1);
    ElectionKeepsRules(v, v.groups[h := o1.group], h, before, o1.event);
    SameNames(v.objs, o1.event);
    assert u.objs == EventWorld(v.objs, o1.event) && u.groups == v.groups[h := o1.group];
    var groups := LeftGroups(u.groups, g, o2);
    assert AfterLeave(u, g, o2) == AfterEvent(u, groups, o2.event);
    hide EventWorld, AfterEvent, AfterGroup, AfterLeave, RulesRight;
    assert Elects(u.objs, groups, g, active, o2.event);
    ElectionKeepsRules(u, groups, g, active, o2.event);
  }

  /** What joining the new group decides, for the objects `w` with the new configuration. */
  ghost predicate JoinDecides(s: State, w: G.World, h: string, o: G.Outcome) {
    var before := if h in s.groups then s.groups[h].active else None;
    && Elects(w, s.groups[h := o.group], h, before, o.event)
    && (o.event.Some? ==> o.event.value.oldActive == before)
    && (o.group.active.Some? ==> G.Get(w, o.group.active.value).memberOf == h)
  }

  /** What leaving the old group `grp` decides. */
  ghost predicate LeaveDecides(w: G.World, grp: G.Group, id: Id, o: G.Outcome, heir: Option<Id>) {
    && (if o.group.members == [] then heir.None? else heir == o.group.active)
    && (o.event.Some? ==>
          && o.event.value == G.PromotionEvent(grp.name, o.group.active, grp.active)
          && o.group.active != grp.active && o.group.members != [] && |grp.members| > 2)
    && (o.group.members != [] && o.group.active.Some? ==> G.Get(w, o.group.active.value).memberOf == grp.name)
    && (grp.active == Some(id) && |grp.members| > 2 ==> o.event.Some?)
    && (grp.active.Some? && grp.active != Some(id) ==>
          && G.Get(w, grp.active.value).memberOf == grp.name
          && (o.event.None? ==> o.group.members != [] && o.group.active == grp.active))
  }

  lemma JoinOps(env: Env, s: State, n: ServiceData)
    requires Inv(s) && n.id in s.index && n.memberOf != Obj(s, n.id).memberOf
    ensures JoinDecides(s, Assigned(s, n), n.memberOf, JoinOutcomeOf(env, s, n))
  {
    var id, d := n.id, Assign(Obj(s, n.id), n);
    InvParts(s);
    InvMeans(s, id);
    AssignMeans(s.objs[id], n);
    NotStored(s, id, n.memberOf);
    var o := JoinOutcomeOf(env, s, n);
    assert o == G.RegisterMember(env.sort, s.objs[id := d], GroupOrNew(s, d.memberOf), id);
    NewGroupActive(s, n.memberOf);
    hide Inv, GroupsOk, ObjectsOk, IndexOk, StoreOk, StoreSane, IsMember, Assign, Elects, GroupOrNew;
    hide G.RegisterMember, JoinOutcomeOf;
    JoinOp(s, id, d, env.sort, o);
  }

  lemma NewGroupActive(s: State, h: string)
    ensures GroupOrNew(s, h).active == if h in s.groups then s.groups[h].active else None
  {
  }

  lemma LeaveOps(env: Env, s: State, n: ServiceData)
    requires Inv(s) && n.id in s.index && n.memberOf != Obj(s, n.id).memberOf
    ensures var g := Obj(s, n.id).memberOf;
            && g in s.groups && s.groups[g].name == g && n.id in s.groups[g].members
            && LeaveDecides(Assigned(s, n), s.groups[g], n.id, LeaveOutcomeOf(env, s, n), Heir(env, s, n))
  {
    var id, g, w := n.id, Obj(s, n.id).memberOf, Assigned(s, n);
    InvParts(s);
    InvMeans(s, id);
    GroupIn(s, g);
    GroupFacts(s, g);
    HeirOfMove(env, s, n);
    OthersAssigned(s, n, g);
    hide *;
    LeaveDecision(env.sort, w, s.groups[g], id, LeaveOutcomeOf(env, s, n));
  }

  lemma HeirOfMove(env: Env, s: State, n: ServiceData)
    requires n.memberOf != Obj(s, n.id).memberOf && Obj(s, n.id).memberOf in s.groups
    requires n.id in s.groups[Obj(s, n.id).memberOf].members
    ensures var grp := s.groups[Obj(s, n.id).memberOf];
            && Heir(env, s, n) == G.Chosen(env.sort, Assigned(s, n), G.Without(grp.members, n.id))
            && LeaveOutcomeOf(env, s, n) == G.RemoveMember(env.sort, Assigned(s, n), grp, n.id)
  {
    hide G.Chosen, G.Without, G.RemoveMember, Assign;
  }

  /** To the other members nothing has happened. */
  lemma OthersAssigned(s: State, n: ServiceData, g: string)
    requires GroupOk(s, g)
    ensures var grp, w := s.groups[g], Assigned(s, n);
            && (forall m :: m in grp.members && m != n.id ==> G.Get(w, m).memberOf == g)
            && (grp.active.Some? && grp.active.value != n.id ==> G.Healthy(w, grp.active.value))
            && (grp.active.Some? ==> grp.active.value in grp.members)
  {
    GroupFacts(s, g);
    hide GroupOk, Assign;
  }

  lemma LeaveDecision(sort: G.Sorter, w: G.World, g: G.Group, id: Id, o: G.Outcome)
    requires NoDup(g.members) && id in g.members && g.mode != G.ActiveActiveRoundTrip
    requires g.active.Some? ==> g.active.value in g.members
    requires g.active.Some? && g.active.value != id ==> G.Healthy(w, g.active.value)
    requires forall m :: m in g.members && m != id ==> G.Get(w, m).memberOf == g.name
    requires o == G.RemoveMember(sort, w, g, id)
    ensures LeaveDecides(w, g, id, o, G.Chosen(sort, w, G.Without(g.members, id)))
  {
    NoHeirInEmpty(sort, w, g.members, id);
    RightActiveIn(w, o.group.members, o.group.active);
    hide G.RemoveMember, G.Chosen, G.Without, G.RightActive;
    LeaveFacts(sort, w, g, id);
  }

  lemma RightActiveIn(w: G.World, ms: seq<Id>, active: Option<Id>)
    ensures G.RightActive(w, ms, active) && active.Some? ==> active.value in ms
  {
  }

  lemma NoHeirInEmpty(sort: G.Sorter, w: G.World, ms: seq<Id>, id: Id)
    requires NoDup(ms) && id in ms
    ensures |ms| == 1 ==> G.Chosen(sort, w, G.Without(ms, id)).None?
  {
    G.WithoutMember(ms, id);
    G.SortFrame(sort, w, w, G.Without(ms, id));
  }

  lemma MoveRulesIff(env: Env, s: State, n: ServiceData)
    requires Inv(s) && RulesOk(s) && n.id in s.index && n.memberOf != Obj(s, n.id).memberOf
    ensures Obj(s, n.id).memberOf in s.groups
    ensures RulesRight(MoveShown(env, s, n)) <==> !Orphans(env, s, n)
  {
    var id, g, h, w := n.id, Obj(s, n.id).memberOf, n.memberOf, Assigned(s, n);
    var d, o1, o2 := Assign(s.objs[id], n), JoinOutcomeOf(env, s, n), LeaveOutcomeOf(env, s, n);
    var v := Shown(w, s.groups, s.rules);
    InvParts(s);
    InvMeans(s, id);
    AssignMeans(s.objs[id], n);
    LeaveOps(env, s, n);
    JoinOps(env, s, n);
    assert MoveShown(env, s, n) == AfterLeave(AfterGroup(v, h, o1), g, o2) by {
      hide Inv, AfterLeave, AfterGroup, Assign, JoinOutcomeOf, LeaveOutcomeOf;
    }
    assert IsAnnounced(s, id) <==> s.groups[g].active == Some(id) && RuleOf(s.objs[id]) in s.rules by {
      hide Inv;
    }
    assert RuleOf(s.objs[id]).group == g && RuleOf(n) != RuleOf(s.objs[id]);
    OrphansMeans(env, s, n);
    hide Inv, GroupsOk, ObjectsOk, IndexOk, StoreOk, Assign, JoinOutcomeOf, LeaveOutcomeOf, Heir, Orphans, IsAnnounced;
    hide MoveShown, AfterLeave, AfterGroup, Elects, G.RightActive, RulesRight, RulesOk, RuleOf;
    var before := if h in s.groups then s.groups[h].active else None;
    if s.groups[g].active == Some(id) {
      RenamedOthers(s, id, d);
      MovedActive(v, h, before, o1, g, id, RuleOf(s.objs[id]), o2);
    } else {
      TouchedRulesRight(s, id, d);
      LeaveElects(v, g, s.groups[g], id, o2, Heir(env, s, n));
      MovedOther(v, h, before, o1, g, s.groups[g].active, o2);
    }
  }

  lemma LeaveElects(v: Shown, g: string, grp: G.Group, id: Id, o: G.Outcome, heir: Option<Id>)
    requires LeaveDecides(v.objs, grp, id, o, heir) && grp.name == g && grp.active != Some(id)
    ensures Elects(v.objs, LeftGroups(v.groups, g, o), g, grp.active, o.event)
  {
  }

  // ---------- Updates as a whole ----------

  /** A move between intervals shows in no rule, no group and no rule name. */
  lemma MoveShows(env: Env, s: State, id: Id, d: Duration)
    ensures var t := MoveServiceToInterval(env, s, id, d);
            t.rules == s.rules && t.groups == s.groups && forall x :: RuleOf(Obj(t, x)) == RuleOf(Obj(s, x))
  {
    hide S.Remove, ScheduleOn;
    var oldInterval := Obj(s, id).scheduledInterval;
    if oldInterval != d && oldInterval in s.schedulers {
      var s1 := if id in s.index
                then s.(index := s.index[id := d], objs := s.objs[id := Obj(s, id).(scheduledInterval := d)])
                else s;
      var (sc, last) := S.Remove(s.schedulers[oldInterval], id);
      var s2 := s1.(schedulers := if last then s.schedulers - {oldInterval} else s.schedulers[oldInterval := sc]);
      ScheduleShows(env, s2, d, id);
    }
  }

  lemma ScheduleShows(env: Env, s: State, d: Duration, id: Id)
    ensures Show(ScheduleOn(env, s, d, id)) == Show(s)
  {
    hide S.Schedule;
  }

  lemma SameNamesSameRules(s: State, t: State)
    requires t.rules == s.rules && t.groups == s.groups && forall x :: RuleOf(Obj(t, x)) == RuleOf(Obj(s, x))
    ensures RulesOk(t) <==> RulesOk(s)
  {
    forall r ensures RightRule(Show(t), r) <==> RightRule(Show(s), r) {
      if r.group in s.groups && s.groups[r.group].active.Some? {
        var a := s.groups[r.group].active.value;
        assert RuleOf(Obj(t, a)) == RuleOf(Obj(s, a));
      }
    }
  }

  lemma UpdateShows(env: Env, s: State, n: ServiceData)
    requires ConfigChanged(Obj(s, n.id), n)
    ensures var t, u := UpdateService(env, s, n), Regrouped(env, s, n);
            t.rules == u.rules && t.groups == u.groups && forall x :: RuleOf(Obj(t, x)) == RuleOf(Obj(u, x))
  {
    var u := Regrouped(env, s, n);
    hide Regrouped, ConfigChanged, MoveServiceToInterval;
    MoveShows(env, u, n.id, Obj(u, n.id).defaultInterval);
  }

  /** An update that takes effect, and leaves the rule announced for its service to nobody. */
  predicate Renames(env: Env, s: State, n: ServiceData) {
    ConfigChanged(Obj(s, n.id), n) && Orphans(env, s, n)
  }

  /** An update keeps every rule right exactly when its service is not announced, keeps its rule, or has an
      heir in its old group that takes the rule over. */
  lemma UpdateKeepsRulesIff(env: Env, s: State, n: ServiceData)
    requires Inv(s) && RulesOk(s) && n.id in s.index && Assignable(n)
    ensures RulesOk(UpdateService(env, s, n)) <==> !Renames(env, s, n)
  {
    if ConfigChanged(Obj(s, n.id), n) {
      UpdateShows(env, s, n);
      var u := Regrouped(env, s, n);
      RulesOkMeans(u);
      hide Inv, Assignable, Regrouped, ConfigChanged, UpdateService, RulesOk, RulesRight, Orphans, Show;
      RegroupedEffect(env, s, n);
      SameNamesSameRules(u, UpdateService(env, s, n));
      hide RefreshShown, MoveShown;
      if n.memberOf == Obj(s, n.id).memberOf {
        RefreshRulesIff(env, s, n);
      } else {
        MoveRulesIff(env, s, n);
      }
    } else {
      assert UpdateService(env, s, n) == s;
    }
  }

  /** The member elected from those of the new group and the service. */
  function NewActive(env: Env, s: State, n: ServiceData): Option<Id> {
    G.Chosen(env.sort, Assigned(s, n), Joining(s, n))
  }

  function Joining(s: State, n: ServiceData): seq<Id> {
    GroupOrNew(s, n.memberOf).members + [n.id]
  }

  /** The new group exists, and its active changes. */
  predicate Ousts(env: Env, s: State, n: ServiceData) {
    n.memberOf in s.groups && s.groups[n.memberOf].active != NewActive(env, s, n)
  }

  /** Whether the active of the new group is announced at the moment when the service has joined it. */
  predicate JoinAnnounces(env: Env, s: State, n: ServiceData) {
    && NewActive(env, s, n).Some?
    && (Ousts(env, s, n) || RuleOf(G.Get(Assigned(s, n), NewActive(env, s, n).value)) in s.rules)
  }

  /** Joining elects that member, and announces it exactly when the group exists and its active changes. */
  lemma JoinChooses(env: Env, s: State, n: ServiceData)
    requires Inv(s) && n.id in s.index && n.memberOf != Obj(s, n.id).memberOf
    ensures var o, h := JoinOutcomeOf(env, s, n), n.memberOf;
            && o.group.active == NewActive(env, s, n)
            && o.event == if Ousts(env, s, n)
                          then Some(G.PromotionEvent(h, NewActive(env, s, n), s.groups[h].active)) else None
  {
    var h, w := n.memberOf, Assigned(s, n);
    var before := GroupOrNew(s, h);
    InvParts(s);
    InvMeans(s, n.id);
    NotStored(s, n.id, h);
    SoundGroup(s, h);
    NewGroupActive(s, h);
    if h in s.groups {
      GroupIn(s, h);
      GroupFacts(s, h);
    }
    hide Inv, GroupsOk, GroupOk, ObjectsOk, IndexOk, StoreOk, Assign, G.Chosen, G.Update, IsMember;
    assert JoinOutcomeOf(env, s, n) == G.Update(env.sort, w, before.(members := Joining(s, n)));
    G.UpdateChooses(env.sort, w, before.(members := Joining(s, n)));
  }

  /** In leaving a group of three or more of which it is the active, a service withdraws its own new rule,
      which is that of every member of its new group in its datacenter. */
  predicate WithdrawsNewRule(s: State, n: ServiceData, a: Id) {
    && Obj(s, n.id).memberOf in s.groups && s.groups[Obj(s, n.id).memberOf].active == Some(n.id)
    && |s.groups[Obj(s, n.id).memberOf].members| > 2
    && G.Get(Assigned(s, n), a).datacenter == n.datacenter
  }

  lemma MovedRules(v: Shown, h: string, o1: G.Outcome, g: string, grp: G.Group, id: Id, o2: G.Outcome,
                   heir: Option<Id>, a: Id)
    requires h != g && grp.name == g && G.Get(v.objs, a).memberOf == h && G.Get(v.objs, id).memberOf == h
    requires o1.group.active == Some(a) && LeaveDecides(v.objs, grp, id, o2, heir)
    requires o1.event.Some? ==> o1.event.value.newActive == Some(a) != o1.event.value.oldActive
    ensures var u := AfterLeave(AfterGroup(v, h, o1), g, o2);
            && h in u.groups && u.groups[h].active == Some(a)
            && RuleOf(G.Get(u.objs, a)) == RuleOf(G.Get(v.objs, a))
            && (RuleOf(G.Get(u.objs, a)) in u.rules <==>
                  && (o1.event.Some? || RuleOf(G.Get(v.objs, a)) in v.rules)
                  && !(grp.active == Some(id) && |grp.members| > 2
                       && G.Get(v.objs, a).datacenter == G.Get(v.objs, id).datacenter))
  {
    var p := AfterGroup(v, h, o1);
    SameNames(v.objs, o1.event);
    SameNames(p.objs, o2.event);
    hide PromotedWorld;
  }

  /** After a move to another group, the active of the new group has its rule exactly when it was announced
      on joining, and the service does not withdraw that rule in leaving its old group. */
  lemma NewGroupRuleIff(env: Env, s: State, n: ServiceData, a: Id)
    requires Inv(s) && n.id in s.index && Assignable(n) && ConfigChanged(Obj(s, n.id), n)
    requires n.memberOf != Obj(s, n.id).memberOf && NewActive(env, s, n) == Some(a)
    ensures var q := UpdateService(env, s, n);
            && n.memberOf in q.groups && q.groups[n.memberOf].active == Some(a)
            && (RuleOf(Obj(q, a)) in q.rules <==> JoinAnnounces(env, s, n) && !WithdrawsNewRule(s, n, a))
  {
    var g, h, w := Obj(s, n.id).memberOf, n.memberOf, Assigned(s, n);
    var o1, o2 := JoinOutcomeOf(env, s, n), LeaveOutcomeOf(env, s, n);
    UpdateShows(env, s, n);
    RegroupedEffect(env, s, n);
    LeaveOps(env, s, n);
    JoinOps(env, s, n);
    JoinChooses(env, s, n);
    AssignMeans(Obj(s, n.id), n);
    assert RegroupedShown(env, s, n) == AfterLeave(AfterGroup(Shown(w, s.groups, s.rules), h, o1), g, o2) by {
      hide Inv, AfterLeave, AfterGroup, Assign, JoinOutcomeOf, LeaveOutcomeOf;
    }
    hide Inv, Assignable, Regrouped, ConfigChanged, UpdateService, AfterLeave, AfterGroup, Assign, RegroupedShown;
    hide JoinOutcomeOf, LeaveOutcomeOf, Heir, LeaveDecides, NewActive, Ousts;
    MovedRules(Shown(w, s.groups, s.rules), h, o1, g, s.groups[g], n.id, o2, Heir(env, s, n), a);
  }

  /** The heir is a right choice among the members that stay: none of them is to be preferred to it. */
  lemma HeirIsBest(env: Env, s: State, n: ServiceData)
    requires Obj(s, n.id).memberOf in s.groups
    ensures G.RightActive(Assigned(s, n), Staying(s, n), Heir(env, s, n))
    ensures Preferred(Assigned(s, n), Staying(s, n), Heir(env, s, n))
  {
    var w, ms := Assigned(s, n), Staying(s, n);
    hide Assigned, Staying;
    ChosenIsPreferred(env.sort, w, ms);
    G.FirstHealthyIsRight(w, env.sort(w, ms));
    G.SortFrame(env.sort, w, w, ms);
  }

  /** So is the new active among the members of the new group and the service. */
  lemma NewActiveIsBest(env: Env, s: State, n: ServiceData)
    ensures G.RightActive(Assigned(s, n), Joining(s, n), NewActive(env, s, n))
    ensures Preferred(Assigned(s, n), Joining(s, n), NewActive(env, s, n))
  {
    var w, ms := Assigned(s, n), Joining(s, n);
    hide Assigned, Joining;
    ChosenIsPreferred(env.sort, w, ms);
    G.FirstHealthyIsRight(w, env.sort(w, ms));
    G.SortFrame(env.sort, w, w, ms);
  }

  // ---------- Runs ----------

  /** The steps that leave a rule behind. */
  predicate Disturbs(env: Env, s: State, e: Event) {
    match e
    case Register(cfg) =>
      var n := NewService(cfg, s.store);
      n.Some? && n.value.id in s.index && Renames(env, s, n.value)
    case Remove(id) => LeavesRule(s, id)
    case _ => false
  }

  /** From a sound state in which every rule is right, a step leaves every rule right exactly when it is
      none of those. */
  lemma StepRulesIff(env: Env, s: State, e: Event)
    requires Inv(s) && Allowed(s, e) && RulesOk(s) && !Panics(env, s, e)
    ensures RulesOk(Step(env, s, e)) <==> !Disturbs(env, s, e)
  {
    InvIsAlive(s);
    hide Inv, RulesOk, RegisterService, RemoveService, CheckResult, Tick, Renames, LeavesRule, RegistrationPanics;
    match e
    case Register(cfg) => RegistrationRulesIff(env, s, cfg);
    case Remove(id) =>
      if id in s.index {
        RemovalKeepsRules(env, s, id);
      } else {
        UnknownRemoval(env, s, id);
      }
    case Check(id, success, roundtrip) => CheckRules(env, s, id, success, roundtrip);
    case Turn(d, now, gap) => TurnRules(s, d, now, gap);
  }

  lemma RegistrationRulesIff(env: Env, s: State, cfg: Config)
    requires Inv(s) && Allowed(s, Register(cfg)) && RulesOk(s) && !RegistrationPanics(env, s, cfg)
    ensures RulesOk(RegisterService(env, s, cfg)) <==> !Disturbs(env, s, Register(cfg))
  {
    RegisterServiceMeans(env, s, cfg);
    NewServiceMeans(cfg, s.store);
    hide Inv, RulesOk, RegisterService, Renames, RegistrationPanics, NewService, Assignable, S.Schedulable;
    match NewService(cfg, s.store)
    case None =>
    case Some(n) =>
      if n.id in s.index {
        UpdateKeepsRulesIff(env, s, n);
      } else {
        SaneIfSchedulable(n);
        RegisterNewRules(env, s, n);
      }
  }

  lemma UnknownRemoval(env: Env, s: State, id: Id)
    requires id !in s.index
    ensures RemoveService(env, s, id) == s && !LeavesRule(s, id)
  {
  }

  lemma TurnRules(s: State, d: Duration, now: int, gap: Duration)
    requires RulesOk(s)
    ensures RulesOk(Tick(s, d, now, gap))
  {
    SameNamesSameRules(s, Tick(s, d, now, gap));
  }

  predicate Undisturbed(env: Env, s: State, run: seq<Event>) {
    run != [] ==>
      && Undisturbed(env, s, run[..|run| - 1])
      && !Disturbs(env, Final(env, s, run[..|run| - 1]), run[|run| - 1])
  }

  /** At every moment of the run every rule is that of the active of its group. */
  ghost predicate AlwaysRight(env: Env, s: State, run: seq<Event>) {
    RulesOk(Final(env, s, run)) && (run != [] ==> AlwaysRight(env, s, run[..|run| - 1]))
  }

  /** Over every run without a panic, every rule is right at every moment exactly when no step is one of
      those that leave a rule behind. */
  lemma {:induction false} AlwaysRightIffUndisturbed(env: Env, run: seq<Event>)
    requires Admissible(env, NewManager(), run) && !Final(env, NewManager(), run).crashed
    ensures AlwaysRight(env, NewManager(), run) <==> Undisturbed(env, NewManager(), run)
  {
    hide Inv, RulesOk, Disturbs, Panics, Step;
    if run == [] {
      NoRules();
    } else {
      var n := |run| - 1;
      var before := Final(env, NewManager(), run[..n]);
      DeadStaysDead(env, before, run[n]);
      RunKeeps(env, run[..n]);
      AlwaysRightIffUndisturbed(env, run[..n]);
      StepKeeps(env, before, run[n]);
      if AlwaysRight(env, NewManager(), run[..n]) {
        StepRulesIff(env, before, run[n]);
      }
    }
  }

  lemma NoRules()
    ensures RulesOk(NewManager())
  {
  }

  /** Over every such run, then, at most one service of a group is announced to DNS, and it is the group's
      healthy active. */
  lemma OneRulePerGroup(env: Env, run: seq<Event>, r: Rule, q: Rule)
    requires Admissible(env, NewManager(), run) && !Final(env, NewManager(), run).crashed
    requires Undisturbed(env, NewManager(), run)
    requires var s := Final(env, NewManager(), run); r in s.rules && q in s.rules && r.group == q.group
    ensures r == q
    ensures var s := Final(env, NewManager(), run);
            && r.group in s.groups && s.groups[r.group].active.Some?
            && Obj(s, s.groups[r.group].active.value).datacenter == r.datacenter
            && Obj(s, s.groups[r.group].active.value).isHealthy
  {
    var s := Final(env, NewManager(), run);
    RunKeeps(env, run);
    AlwaysRightIffUndisturbed(env, run);
    assert RulesOk(s);
    hide Final, Admissible, Undisturbed, Inv, GroupsOk, GroupOk, AlwaysRight;
    assert RightRule(Show(s), r) && RightRule(Show(s), q);
    InvParts(s);
    GroupIn(s, r.group);
    GroupFacts(s, r.group);
  }
}
