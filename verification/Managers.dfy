/** The services manager: one atomic step per entry point, on the state it owns. */
module Managers {
  import opened Basics
  import opened Services
  import G = ServiceGroups
  import H = Heaps
  import R = ServiceRepos
  import S = Schedulers

  /** `GetBaseInterval` never answers less than five seconds. */
  type BaseInterval = d: Duration | d >= 5 * S.SECOND witness 5 * S.SECOND

  /** One record of the configuration zone. `addressOk` says that the address parses and resolves;
      `interval` is `CalculateInterval` of the priority and the configured interval, and
      `baseInterval` what `GetBaseInterval` makes of both. */
  datatype Config = Config(
    serviceId: Id,
    addressOk: bool,
    ip: string,
    port: string,
    fqdn: string,
    memberOf: string,
    datacenter: string,
    checkType: string,
    interval: Duration,
    baseInterval: BaseInterval,
    priority: int,
    failureThreshold: int)

  /** What the model does not determine: the sorting algorithm, and the clock and jittered gap seen by
      the n-th call of `ScheduleService`. */
  datatype Env = Env(sort: G.Sorter, now: nat -> int, gap: nat -> Duration)

  /** The name of a spoof rule, `memberOf:datacenter`. */
  datatype Rule = Rule(group: string, datacenter: string)

  /** One call of `ScheduleService`, with the heap before and after it. */
  datatype Push = Push(id: Id, before: seq<H.Entry>, after: seq<H.Entry>)

  /** `objs` holds every service object ever created, `index` the interval of the registered ones.
      `log` records the calls of `ScheduleService`, of which there were `pushes`. `crashed` stands for a
      panic: a nil dereference or a division by zero. */
  datatype State = State(
    objs: map<Id, ServiceData>,
    index: map<Id, Duration>,
    schedulers: map<Duration, S.Scheduler>,
    pushes: nat,
    log: seq<Push>,
    groups: map<string, G.Group>,
    store: R.Store,
    rules: set<Rule>,
    crashed: bool)

  function NewManager(): State {
    State(map[], map[], map[], 0, [], map[], map[], {}, false)
  }

  function Obj(s: State, id: Id): ServiceData {
    G.Get(s.objs, id)
  }

  function RuleOf(d: ServiceData): Rule {
    Rule(d.memberOf, d.datacenter)
  }

  // ---------- Scheduling ----------

  function ScheduleOn(env: Env, s: State, interval: Duration, id: Id): State {
    var sc := if interval in s.schedulers then s.schedulers[interval] else S.NewScheduler(interval);
    if !S.Schedulable(sc.interval) then s.(crashed := true)
    else
      var sc' := S.Schedule(sc, id, s.pushes, env.now(s.pushes), env.gap(s.pushes));
      s.(schedulers := s.schedulers[interval := sc'], pushes := s.pushes + 1,
         log := s.log + [Push(id, sc.heap, sc'.heap)])
  }

  function MoveServiceToInterval(env: Env, s: State, id: Id, newInterval: Duration): State {
    var oldInterval := Obj(s, id).scheduledInterval;
    if oldInterval == newInterval then s
    else
      var s1 := if id in s.index
                then s.(index := s.index[id := newInterval],
                        objs := s.objs[id := Obj(s, id).(scheduledInterval := newInterval)])
                else s;
      if oldInterval !in s.schedulers then s1.(crashed := true)
      else
        var (old', last) := S.Remove(s.schedulers[oldInterval], id);
        var s2 := s1.(schedulers := if last then s.schedulers - {oldInterval} else s.schedulers[oldInterval := old']);
        ScheduleOn(env, s2, newInterval, id)
  }

  // ---------- Promotions ----------

  function SaveActive(st: R.Store, d: ServiceData, active: bool): R.Saved {
    R.Update(st, GSLBService(d).(isActive := active))
  }

  /** Moves the stored flag; the boolean says whether the promotion goes on. */
  function MoveFlag(s: State, e: G.PromotionEvent): (R.Store, bool) {
    var st1 := if e.oldActive.Some? then SaveActive(s.store, Obj(s, e.oldActive.value), false) else R.Saved(s.store);
    if st1.Refused? then (s.store, false)
    else
      var st2 := if e.newActive.Some? then SaveActive(st1.store, Obj(s, e.newActive.value), true) else st1;
      if st2.Refused? then (st1.store, false) else (st2.store, true)
  }

  function Demote(env: Env, s: State, id: Id, interval: Duration): State {
    var s1 := MoveServiceToInterval(env, s, id, interval);
    s1.(rules := s1.rules - {RuleOf(Obj(s, id))})
  }

  function Promote(env: Env, s: State, id: Id, interval: Duration): State {
    var s1 := MoveServiceToInterval(env, s, id, interval);
    s1.(rules := s1.rules + {RuleOf(Obj(s, id))})
  }

  function Reschedule(env: Env, s: State, e: G.PromotionEvent): State {
    match (e.oldActive, e.newActive)
    case (Some(o), Some(n)) =>
      var base := if Obj(s, o).baseInterval == 0 then Obj(s, n).baseInterval else Obj(s, o).baseInterval;
      Promote(env, Demote(env, s, o, Obj(s, n).scheduledInterval), n, base)
    case (None, Some(n)) => Promote(env, s, n, Obj(s, n).baseInterval)
    case (Some(o), None) => s.(rules := s.rules - {RuleOf(Obj(s, o))})
    case (None, None) => s
  }

  function HandlePromotion(env: Env, s: State, e: G.PromotionEvent): State {
    if e.newActive == e.oldActive then s
    else
      var (st, goesOn) := MoveFlag(s, e);
      var s1 := s.(store := st);
      if goesOn then Reschedule(env, s1, e) else s1
  }

  /** A group has changed, and may have raised an event. */
  function GroupChanged(env: Env, s: State, g: string, o: G.Outcome): State {
    var s1 := s.(groups := s.groups[g := o.group], crashed := s.crashed || o.crashed);
    if o.event.Some? && !s1.crashed then HandlePromotion(env, s1, o.event.value) else s1
  }

  // ---------- Registration ----------

  function NewService(cfg: Config, st: R.Store): Option<ServiceData> {
    if !cfg.addressOk || cfg.serviceId == "" then None
    else
      var stored := R.Lookup(st, cfg.memberOf, cfg.serviceId);
      var count := if stored.Some? && stored.value.failureCount > -1 then stored.value.failureCount
                   else cfg.failureThreshold;
      Some(ServiceData(cfg.serviceId, cfg.ip, cfg.port, cfg.fqdn, cfg.memberOf, cfg.datacenter, cfg.checkType,
                       cfg.interval, cfg.interval, cfg.baseInterval, cfg.priority, cfg.failureThreshold,
                       count, stored.Some? && stored.value.isHealthy, 0))
  }

  function GroupOrNew(s: State, g: string): G.Group {
    if g in s.groups then s.groups[g] else G.EmptyGroup(g)
  }

  function RegisterNew(env: Env, s: State, n: ServiceData): State {
    var s1 := s.(objs := s.objs[n.id := n], store := R.Create(s.store, GSLBService(n)));
    var s2 := ScheduleOn(env, s1, n.scheduledInterval, n.id);
    var s3 := s2.(index := s2.index[n.id := n.scheduledInterval]);
    GroupChanged(env, s3, n.memberOf, G.RegisterMember(env.sort, s3.objs, GroupOrNew(s3, n.memberOf), n.id))
  }

  function LeaveGroup(env: Env, s: State, g: string, id: Id): State {
    if g !in s.groups then s
    else
      var s1 := GroupChanged(env, s, g, G.RemoveMember(env.sort, s.objs, s.groups[g], id));
      if g in s1.groups && s1.groups[g].members == [] then s1.(groups := s1.groups - {g}) else s1
  }

  /** `memberOfChanged`: first joins the new group, then leaves the old one. */
  function ChangeGroup(env: Env, s: State, oldGroup: string, id: Id): State {
    var d := Obj(s, id);
    var s1 := s.(store := R.Create(R.Delete(s.store, oldGroup, id), GSLBService(d)));
    var s2 := GroupChanged(env, s1, d.memberOf, G.RegisterMember(env.sort, s1.objs, GroupOrNew(s1, d.memberOf), id));
    LeaveGroup(env, s2, oldGroup, id)
  }

  function RefreshGroup(env: Env, s: State, g: string): State {
    if g in s.groups then GroupChanged(env, s, g, G.Update(env.sort, s.objs, s.groups[g])) else s
  }

  function SaveRecord(s: State, id: Id): State {
    var saved := R.Update(s.store, GSLBService(Obj(s, id)));
    if saved.Saved? then s.(store := saved.store) else s
  }

  function FollowDefault(env: Env, s: State, id: Id, oldDefault: Duration): State {
    var d := Obj(s, id);
    if oldDefault != d.defaultInterval && oldDefault == d.scheduledInterval
    then MoveServiceToInterval(env, s, id, d.defaultInterval) else s
  }

  /** An update up to the point where the service may follow its new default interval. */
  function Regrouped(env: Env, s: State, n: ServiceData): State {
    var old' := Obj(s, n.id);
    var s1 := s.(objs := s.objs[n.id := Assign(old', n)]);
    var s2 := if old'.memberOf != n.memberOf then ChangeGroup(env, s1, old'.memberOf, n.id)
              else RefreshGroup(env, s1, old'.memberOf);
    SaveRecord(s2, n.id)
  }

  function UpdateService(env: Env, s: State, n: ServiceData): State {
    var old' := Obj(s, n.id);
    if !ConfigChanged(old', n) then s
    else FollowDefault(env, Regrouped(env, s, n), n.id, old'.defaultInterval)
  }

  function RegisterService(env: Env, s: State, cfg: Config): State {
    match NewService(cfg, s.store)
    case None => s
    case Some(n) => if n.id in s.index then UpdateService(env, s, n) else RegisterNew(env, s, n)
  }

  function RemoveService(env: Env, s: State, id: Id): State {
    if id !in s.index then s
    else
      var interval, g := s.index[id], Obj(s, id).memberOf;
      if interval !in s.schedulers || g !in s.groups then s.(crashed := true)
      else
        var s1 := s.(schedulers := s.schedulers[interval := S.Remove(s.schedulers[interval], id).0]);
        var s2 := LeaveGroup(env, s1, g, id);
        s2.(index := s2.index - {id}, store := R.Delete(s2.store, g, id))
  }

  // ---------- Health checks ----------

  function HealthChanged(env: Env, s: State, id: Id, healthy: bool): State {
    var s1, g := SaveRecord(s, id), Obj(s, id).memberOf;
    if g !in s1.groups then s1.(crashed := true)
    else GroupChanged(env, s1, g, G.OnServiceHealthChange(s1.objs, s1.groups[g], id, healthy))
  }

  /** A completed check of a service object, with the round-trip average its checker has by then. */
  function CheckResult(env: Env, s: State, id: Id, success: bool, roundtrip: Duration): State {
    var c := OnResult(Obj(s, id).(roundtrip := roundtrip), success);
    var s1 := s.(objs := s.objs[id := c.service]);
    if c.callback.Some? then HealthChanged(env, s1, id, c.callback.value) else s1
  }

  /** One turn of the loop of one scheduler. */
  function Tick(s: State, interval: Duration, now: int, gap: Duration): State {
    if interval !in s.schedulers then s
    else s.(schedulers := s.schedulers[interval := S.Iterate(s.schedulers[interval], now, gap)])
  }

  // ---------- Runs ----------

  datatype Event =
    | Register(cfg: Config)
    | Remove(id: Id)
    | Check(id: Id, success: bool, roundtrip: Duration)
    | Turn(interval: Duration, now: int, gap: Duration)

  /** Nothing happens after a panic. */
  function Step(env: Env, s: State, e: Event): State {
    if s.crashed then s
    else
      match e
      case Register(cfg) => RegisterService(env, s, cfg)
      case Remove(id) => RemoveService(env, s, id)
      case Check(id, success, roundtrip) => CheckResult(env, s, id, success, roundtrip)
      case Turn(interval, now, gap) => Tick(s, interval, now, gap)
  }

  /** Health results come from registered services, and configured priorities stay below MAX_INT. */
  predicate Allowed(s: State, e: Event) {
    match e
    case Register(cfg) => cfg.priority < MAX_INT
    case Check(id, _, _) => id in s.index
    case _ => true
  }
}
