/** Whole runs of one group: what the log of promotion events says about the active service. */
module GroupRuns {
  import opened Basics
  import opened Services
  import opened ServiceGroups

  /** `Reconfigure` is `Assign` followed by `Update`; it may also carry a new round-trip average. */
  datatype Step =
    | Join(service: ServiceData)
    | Leave(id: Id)
    | Reconfigure(service: ServiceData)
    | Flip(id: Id)

  datatype Run = Run(world: World, group: Group, log: seq<PromotionEvent>)

  function Start(name: string): Run {
    Run(map[], EmptyGroup(name), [])
  }

  predicate Enabled(r: Run, s: Step) {
    match s
    case Join(n) => n.id !in r.group.members && n.priority < MAX_INT
    case Leave(id) => id in r.group.members && |r.group.members| > 1
    case Reconfigure(n) =>
      && n.id in r.group.members && n.priority < MAX_INT
      && n.isHealthy == Get(r.world, n.id).isHealthy
    case Flip(id) => id in r.group.members && id in r.world
  }

  function Record(w: World, log: seq<PromotionEvent>, o: Outcome): Run {
    Run(w, o.group, log + if o.event.Some? then [o.event.value] else [])
  }

  function Outcomes(sort: Sorter, r: Run, s: Step): (World, Outcome) {
    match s
    case Join(n) =>
      var w := r.world[n.id := n]; (w, RegisterMember(sort, w, r.group, n.id))
    case Leave(id) =>
      (r.world, RemoveMember(sort, r.world, r.group, id))
    case Reconfigure(n) =>
      var w := r.world[n.id := n]; (w, Update(sort, w, r.group))
    case Flip(id) =>
      var d := Get(r.world, id);
      var w := r.world[id := d.(isHealthy := !d.isHealthy)];
      (w, OnServiceHealthChange(w, r.group, id, !d.isHealthy))
  }

  function Next(sort: Sorter, r: Run, s: Step): Run {
    var (w, o) := Outcomes(sort, r, s);
    Record(w, r.log, o)
  }

  /** The active service as a listener of promotion events knows it. */
  function Announced(log: seq<PromotionEvent>): Option<Id> {
    if log == [] then None else log[|log| - 1].newActive
  }

  ghost predicate Sound(r: Run) {
    && r.group.mode != ActiveActiveRoundTrip
    && (forall m :: m in r.group.members ==> m in r.world && r.world[m].priority < MAX_INT)
    && if r.group.members == [] then r.group.active == None else Elected(r.world, r.group)
  }

  /** The steps that change the active without an event: a service that is already healthy founds a
      group, or the active leaves a group of two. */
  ghost predicate Silent(r: Run, s: Step) {
    match s
    case Join(n) => r.group.members == [] && n.isHealthy
    case Leave(id) => |r.group.members| == 2 && r.group.active == Some(id)
    case _ => false
  }

  ghost predicate SoundOutcome(r: Run, s: Step, w: World, o: Outcome) {
    && !o.crashed
    && Sound(Record(w, r.log, o))
    && o.group.members != []
    && (o.event.Some? ==> o.event.value.newActive == o.group.active)
    && (o.event.None? ==> (o.group.active == r.group.active <==> !Silent(r, s)))
  }

  /** The first member of a group takes the active role silently, if it is healthy. */
  lemma Founding(sort: Sorter, w: World, g: Group, id: Id)
    requires g.members == [] && g.mode != ActiveActiveRoundTrip
    ensures RegisterMember(sort, w, g, id) ==
            Outcome(g.(members := [id], mode := ActiveActive, active := if Healthy(w, id) then Some(id) else None),
                    None, false)
  {
    var g1 := g.(members := [id]);
    assert [] + [id] == [id];
    UpdateMeans(sort, w, g1);
    var ms := sort(w, [id]);
    Rearranged([id], ms);
    assert ms == [ms[0]] && ms[0] in [id];
    assert ms[1..] == [];
  }

  lemma JoinSound(sort: Sorter, r: Run, s: Step)
    requires Sound(r) && s.Join? && Enabled(r, s)
    ensures var (w, o) := Outcomes(sort, r, s); SoundOutcome(r, s, w, o) && (o.event.Some? ==> !Silent(r, s))
  {
    hide Update;
    var n := s.service;
    var w := r.world[n.id := n];
    if r.group.members != [] {
      ElectedDependsOnMembersOnly(r.world, w, r.group);
      RegisterElects(sort, w, r.group, n.id);
      hide RegisterMember, Elected;
      Rearranged(r.group.members + [n.id], RegisterMember(sort, w, r.group, n.id).group.members);
    } else {
      Founding(sort, w, r.group, n.id);
      hide RegisterMember;
      assert AllSamePriority(w, [n.id]);
    }
  }

  lemma LeaveSound(sort: Sorter, r: Run, s: Step)
    requires Sound(r) && s.Leave? && Enabled(r, s)
    ensures var (w, o) := Outcomes(sort, r, s); SoundOutcome(r, s, w, o) && (o.event.Some? ==> !Silent(r, s))
  {
    RemoveElects(sort, r.world, r.group, s.id);
    var ms := r.group.members;
    if |ms| == 2 {
      WithoutMember(ms, s.id);
      var o := RemoveMember(sort, r.world, r.group, s.id);
      assert o.group.members[0] in o.group.members;
      if r.group.active != Some(s.id) {
        LoneSurvivor(r.world, r.group, o.group, s.id);
      }
    }
  }

  lemma LoneSurvivor(w: World, g: Group, h: Group, id: Id)
    requires Elected(w, g) && Elected(w, h) && id in g.members && g.active != Some(id)
    requires |h.members| == 1 && forall m :: m in h.members <==> m in g.members && m != id
    ensures h.active == g.active
  {
    var only := h.members[0];
    assert forall m :: m in h.members <==> m == only;
  }

  lemma ReconfigureSound(sort: Sorter, r: Run, s: Step)
    requires Sound(r) && s.Reconfigure? && Enabled(r, s)
    ensures var (w, o) := Outcomes(sort, r, s); SoundOutcome(r, s, w, o)
  {
    var n := s.service;
    var w := r.world[n.id := n];
    UpdateElects(sort, w, r.group);
    var o := Update(sort, w, r.group);
    Rearranged(r.group.members, o.group.members);
    if |r.group.members| == 1 {
      assert r.group.members == [n.id];
      assert o.group.members == [o.group.members[0]];
      assert o.group.members[0] in r.group.members;
    }
  }

  lemma FlipSound(sort: Sorter, r: Run, s: Step)
    requires Sound(r) && s.Flip? && Enabled(r, s)
    ensures var (w, o) := Outcomes(sort, r, s); SoundOutcome(r, s, w, o)
  {
    var (w, o) := Outcomes(sort, r, s);
    assert Flipped(r.world, w, s.id);
    FlipElectsBelowMaxInt(r.world, w, r.group, s.id);
  }

  /** One step keeps the group electing the right active, and the event log keeps naming it, exactly
      when the step is not one of the silent ones. */
  lemma StepKeepsAnnouncement(sort: Sorter, r: Run, s: Step)
    requires Sound(r) && Enabled(r, s) && Announced(r.log) == r.group.active
    ensures var r' := Next(sort, r, s); var (w, o) := Outcomes(sort, r, s);
            && Sound(r') && r'.group.members != []
            && !o.crashed
            && (o.event.Some? ==> RightActive(w, o.group.members, o.event.value.newActive))
            && (Announced(r'.log) == r'.group.active <==> !Silent(r, s))
  {
    hide Update, RegisterMember, RemoveMember, OnServiceHealthChange, RightActive;
    match s
    case Join(_) => JoinSound(sort, r, s);
    case Leave(_) => LeaveSound(sort, r, s);
    case Reconfigure(_) => ReconfigureSound(sort, r, s);
    case Flip(_) => FlipSound(sort, r, s);
  }

  ghost predicate Runs(sort: Sorter, r: Run, steps: seq<Step>)
    decreases steps
  {
    steps == [] || (Enabled(r, steps[0]) && Runs(sort, Next(sort, r, steps[0]), steps[1..]))
  }

  ghost predicate NeverSilent(sort: Sorter, r: Run, steps: seq<Step>)
    decreases steps
  {
    steps == [] || (!Silent(r, steps[0]) && NeverSilent(sort, Next(sort, r, steps[0]), steps[1..]))
  }

  function Final(sort: Sorter, r: Run, steps: seq<Step>): Run
    decreases steps
  {
    if steps == [] then r else Final(sort, Next(sort, r, steps[0]), steps[1..])
  }

  /** Over any run of one group the active is right, and as long as no silent step was taken,
      folding the events reproduces it. */
  lemma {:induction false} LogNamesActive(sort: Sorter, r: Run, steps: seq<Step>)
    requires Sound(r) && Runs(sort, r, steps) && NeverSilent(sort, r, steps)
    requires Announced(r.log) == r.group.active
    ensures var f := Final(sort, r, steps);
            && Sound(f)
            && Announced(f.log) == f.group.active
            && (f.group.members != [] ==> RightActive(f.world, f.group.members, Announced(f.log)))
    decreases steps
  {
    if steps != [] {
      StepKeepsAnnouncement(sort, r, steps[0]);
      LogNamesActive(sort, Next(sort, r, steps[0]), steps[1..]);
    }
  }

  /** Silent or not, every run elects. */
  lemma {:induction false} EveryRunElects(sort: Sorter, r: Run, steps: seq<Step>)
    requires Sound(r) && Runs(sort, r, steps)
    ensures Sound(Final(sort, r, steps))
    decreases steps
  {
    if steps != [] {
      var s := steps[0];
      match s {
        case Join(_) => JoinSound(sort, r, s);
        case Leave(_) => LeaveSound(sort, r, s);
        case Reconfigure(_) => ReconfigureSound(sort, r, s);
        case Flip(_) => FlipSound(sort, r, s);
      }
      EveryRunElects(sort, Next(sort, r, s), steps[1..]);
    }
  }
}
