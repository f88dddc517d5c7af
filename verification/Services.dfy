/** The health-checked service: its configuration, its hysteresis counter and the record it persists. */
module Services {
  import opened Basics

  type Id = string

  /** Nanoseconds, like Go's `time.Duration`. */
  type Duration = int

  /** `int(^uint(0) >> 1)` on a 64-bit platform. */
  const MAX_INT := 0x7FFF_FFFF_FFFF_FFFF

  /** The fields of a service object. `roundtrip` is what its checker currently averages;
      `baseInterval` is `GetBaseInterval`, a function of the priority and the default interval. */
  datatype ServiceData = ServiceData(
    id: Id,
    ip: string,
    port: string,
    fqdn: string,
    memberOf: string,
    datacenter: string,
    checkType: string,
    scheduledInterval: Duration,
    defaultInterval: Duration,
    baseInterval: Duration,
    priority: int,
    failureThreshold: int,
    failureCount: int,
    isHealthy: bool,
    roundtrip: Duration)

  /** The stored form of a service. */
  datatype Record = Record(
    id: Id,
    memberOf: string,
    fqdn: string,
    datacenter: string,
    ip: string,
    isHealthy: bool,
    failureCount: int,
    isActive: bool,
    hasOverride: bool)

  function GSLBService(s: ServiceData): Record {
    Record(s.id, s.memberOf, s.fqdn, s.datacenter, s.ip, s.isHealthy, s.failureCount, false, false)
  }

  // ---------- The hysteresis counter ----------

  /** New state and the health-change callback raised, if any. */
  datatype Checked = Checked(service: ServiceData, callback: Option<bool>)

  function OnSuccess(s: ServiceData): Checked {
    if s.isHealthy then
      Checked(s.(failureCount := 0), None)
    else
      var count := if s.failureCount > 0 then s.failureCount - 1 else s.failureCount;
      if count == 0 then
        Checked(s.(failureCount := 0, isHealthy := true), Some(true))
      else
        Checked(s.(failureCount := count), None)
  }

  function OnFailure(s: ServiceData): Checked {
    if !s.isHealthy then
      Checked(s.(failureCount := s.failureThreshold), None)
    else
      var count := if s.failureCount < s.failureThreshold then s.failureCount + 1 else s.failureCount;
      if count == s.failureThreshold then
        Checked(s.(failureCount := count, isHealthy := false), Some(false))
      else
        Checked(s.(failureCount := count), None)
  }

  function OnResult(s: ServiceData, success: bool): Checked {
    if success then OnSuccess(s) else OnFailure(s)
  }

  function Assign(s: ServiceData, n: ServiceData): ServiceData {
    s.(ip := n.ip, port := n.port, fqdn := n.fqdn, roundtrip := n.roundtrip, memberOf := n.memberOf,
       priority := n.priority, checkType := n.checkType, datacenter := n.datacenter,
       defaultInterval := n.defaultInterval, baseInterval := n.baseInterval,
       failureThreshold := n.failureThreshold)
  }

  predicate ConfigChanged(s: ServiceData, o: ServiceData) {
    || s.fqdn != o.fqdn
    || s.ip != o.ip
    || s.port != o.port
    || s.datacenter != o.datacenter
    || s.failureThreshold != o.failureThreshold
    || s.priority != o.priority
    || s.checkType != o.checkType
  }

  /** After an update that was not skipped nothing is pending, and only the identity, the schedule
      and the health of the old object survive. */
  lemma AssignSettlesConfig(s: ServiceData, n: ServiceData)
    requires s.id == n.id
    ensures !ConfigChanged(Assign(s, n), n)
    ensures Assign(s, n) == n.(scheduledInterval := s.scheduledInterval, failureCount := s.failureCount,
                               isHealthy := s.isHealthy)
  {
  }

  // ---------- Hysteresis over whole check sequences ----------

  datatype History = History(service: ServiceData, callbacks: seq<bool>)

  /** Replays check results, oldest first, collecting the callbacks. */
  function Replay(s: ServiceData, results: seq<bool>): History {
    if results == [] then History(s, [])
    else
      var before := Replay(s, results[..|results| - 1]);
      var step := OnResult(before.service, results[|results| - 1]);
      History(step.service, before.callbacks + if step.callback.Some? then [step.callback.value] else [])
  }

  /** Number of results equal to `v` at the end of the sequence. */
  function Trailing(results: seq<bool>, v: bool): (n: nat)
    ensures n <= |results|
    ensures forall k :: |results| - n <= k < |results| ==> results[k] == v
    ensures n < |results| ==> results[|results| - n - 1] != v
  {
    if results == [] || results[|results| - 1] != v then 0
    else 1 + Trailing(results[..|results| - 1], v)
  }

  /** Results [end - t, end) all equal `v`. */
  ghost predicate Window(results: seq<bool>, end: nat, t: nat, v: bool) {
    t <= end <= |results| && forall k :: end - t <= k < end ==> results[k] == v
  }

  /** `v` is the value of the most recent window of `t` equal results. */
  ghost predicate LatestWindow(results: seq<bool>, t: nat, v: bool) {
    exists end: nat :: Window(results, end, t, v) && NoWindowAfter(results, end, t, !v)
  }

  ghost predicate NoWindowAfter(results: seq<bool>, end: nat, t: nat, v: bool) {
    forall later: nat :: end < later <= |results| ==> !Window(results, later, t, v)
  }

  /** What the counter knows about the results seen so far. */
  ghost predicate Counts(s: ServiceData, results: seq<bool>, t: nat) {
    && s.failureThreshold == t
    && if s.isHealthy
       then s.failureCount == Trailing(results, false) < t
       else s.failureCount == t - Trailing(results, true) && Trailing(results, true) < t
  }

  lemma {:induction false} CounterInvariant(s: ServiceData, results: seq<bool>, t: nat)
    requires t >= 1 && s.failureThreshold == t && s.failureCount == t && !s.isHealthy
    ensures Counts(Replay(s, results).service, results, t)
    ensures Replay(s, results).service.isHealthy <==> |Replay(s, results).callbacks| % 2 == 1
    ensures forall k :: 0 <= k < |Replay(s, results).callbacks| ==>
                          Replay(s, results).callbacks[k] == (k % 2 == 0)
  {
    if results != [] {
      CounterInvariant(s, results[..|results| - 1], t);
    }
  }

  lemma TrailingIsLongest(results: seq<bool>, t: nat, v: bool)
    ensures Window(results, |results|, t, v) <==> t <= Trailing(results, v)
  {
  }

  lemma WindowsOfPrefix(results: seq<bool>, r: bool, end: nat, t: nat, v: bool)
    requires end <= |results|
    ensures Window(results + [r], end, t, v) <==> Window(results, end, t, v)
  {
    assert forall k :: 0 <= k < end ==> (results + [r])[k] == results[k];
  }

  /** One more result completes a window, or leaves the latest one where it was. */
  lemma LatestWindowGrows(before: seq<bool>, r: bool, t: nat)
    requires t >= 1
    ensures var results, n := before + [r], |before| + 1;
            LatestWindow(results, t, true) <==>
              Window(results, n, t, true) || (LatestWindow(before, t, true) && !Window(results, n, t, false))
  {
    var results, n := before + [r], |before| + 1;
    forall end: nat, v | end <= |before|
      ensures Window(results, end, t, v) <==> Window(before, end, t, v)
    {
      WindowsOfPrefix(before, r, end, t, v);
    }
    hide Window;
    if Window(results, n, t, true) {
      assert NoWindowAfter(results, n, t, false);
    }
    if LatestWindow(results, t, true) && !Window(results, n, t, true) {
      var end: nat :| Window(results, end, t, true) && NoWindowAfter(results, end, t, false);
      WindowEnds(results, end, t, true);
      assert Window(before, end, t, true) && NoWindowAfter(before, end, t, false);
    }
    if LatestWindow(before, t, true) && !Window(results, n, t, false) {
      var end: nat :| Window(before, end, t, true) && NoWindowAfter(before, end, t, false);
      WindowEnds(before, end, t, true);
      assert Window(results, end, t, true) && NoWindowAfter(results, end, t, false);
    }
  }

  lemma WindowEnds(results: seq<bool>, end: nat, t: nat, v: bool)
    requires Window(results, end, t, v)
    ensures end <= |results|
  {
  }

  /** Hysteresis, in the terms of an operator: a service is healthy exactly when, of the windows of
      `t` equal results, the most recent one was all successes. */
  lemma {:induction false} HealthyIffLatestWindowSucceeded(s: ServiceData, results: seq<bool>, t: nat)
    requires t >= 1 && s.failureThreshold == t && s.failureCount == t && !s.isHealthy
    ensures Replay(s, results).service.isHealthy <==> LatestWindow(results, t, true)
  {
    if results != [] {
      var n := |results| - 1;
      assert results == results[..n] + [results[n]];
      HealthyIffLatestWindowSucceeded(s, results[..n], t);
      LatestWindowGrows(results[..n], results[n], t);
      FlipMeetsWindow(s, results, t);
    }
  }

  lemma FlipMeetsWindow(s: ServiceData, results: seq<bool>, t: nat)
    requires t >= 1 && s.failureThreshold == t && s.failureCount == t && !s.isHealthy && results != []
    ensures var healthy := Replay(s, results[..|results| - 1]).service.isHealthy;
            Replay(s, results).service.isHealthy <==>
              Window(results, |results|, t, true) || (healthy && !Window(results, |results|, t, false))
  {
    var n := |results| - 1;
    CounterInvariant(s, results[..n], t);
    TrailingIsLongest(results, t, true);
    TrailingIsLongest(results, t, false);
  }

  /** `n` times the same result. */
  function Repeated(n: nat, v: bool): (r: seq<bool>)
    ensures |r| == n
  {
    if n == 0 then [] else Repeated(n - 1, v) + [v]
  }

  function Grown(h: History, v: bool): History {
    var step := OnResult(h.service, v);
    History(step.service, h.callbacks + if step.callback.Some? then [step.callback.value] else [])
  }

  lemma OnceMore(s: ServiceData, n: nat, v: bool)
    ensures Replay(s, Repeated(0, v)) == History(s, [])
    ensures n > 0 ==> Replay(s, Repeated(n, v)) == Grown(Replay(s, Repeated(n - 1, v)), v)
  {
    hide OnResult;
    assert n > 0 ==> Repeated(n, v)[..n - 1] == Repeated(n - 1, v);
  }

  /** After `n` failures of a service that was healthy: it is down when the counter has reached the threshold, which
      a counter already above the threshold never does. */
  ghost predicate Failed(s: ServiceData, n: nat, h: History) {
    var down := s.failureCount <= s.failureThreshold && n >= 1 && s.failureCount + n >= s.failureThreshold;
    && (!h.service.isHealthy <==> down) && h.callbacks == (if down then [false] else [])
    && h.service.failureThreshold == s.failureThreshold
    && h.service.failureCount == if down then s.failureThreshold
                                 else if s.failureCount > s.failureThreshold then s.failureCount
                                 else s.failureCount + n
  }

  /** After `n` successes of a service that was down: it is up when they have used up the counter, which they never
      do when it is negative. */
  ghost predicate Recovered(s: ServiceData, n: nat, h: History) {
    var up := s.failureCount >= 0 && n >= 1 && n >= s.failureCount;
    && (h.service.isHealthy <==> up) && h.callbacks == (if up then [true] else [])
    && h.service.failureCount == if up then 0 else if s.failureCount < 0 then s.failureCount else s.failureCount - n
  }

  lemma FailsOnceMore(s: ServiceData, n: nat, h: History)
    requires s.isHealthy && Failed(s, n, h)
    ensures Failed(s, n + 1, Grown(h, false))
  {
    assert [] + [false] == [false];
  }

  lemma SucceedsOnceMore(s: ServiceData, n: nat, h: History)
    requires !s.isHealthy && Recovered(s, n, h)
    ensures Recovered(s, n + 1, Grown(h, true))
  {
    assert [] + [true] == [true];
  }

  /** From any state, whatever thresholds were configured before, and with exactly one callback. */
  lemma {:induction false} FailuresTakeDown(s: ServiceData, n: nat)
    requires s.isHealthy
    ensures Failed(s, n, Replay(s, Repeated(n, false)))
  {
    OnceMore(s, n, false);
    hide Replay, Repeated, Grown;
    if n > 0 {
      FailuresTakeDown(s, n - 1);
      FailsOnceMore(s, n - 1, Replay(s, Repeated(n - 1, false)));
    }
  }

  lemma {:induction false} SuccessesBringUp(s: ServiceData, n: nat)
    requires !s.isHealthy
    ensures Recovered(s, n, Replay(s, Repeated(n, true)))
  {
    OnceMore(s, n, true);
    hide Replay, Repeated, Grown;
    if n > 0 {
      SuccessesBringUp(s, n - 1);
      SucceedsOnceMore(s, n - 1, Replay(s, Repeated(n - 1, true)));
    }
  }

  /** Results already counted towards the next flip. */
  function Progress(s: ServiceData): int {
    if s.isHealthy then s.failureCount else s.failureThreshold - s.failureCount
  }

  lemma {:induction false} CallbacksAndProgress(s: ServiceData, results: seq<bool>, t: nat)
    requires t >= 1 && s.failureThreshold == t && s.failureCount == t && !s.isHealthy
    ensures var h := Replay(s, results); t * |h.callbacks| + Progress(h.service) <= |results|
  {
    if results != [] {
      var n := |results| - 1;
      var h := Replay(s, results[..n]);
      CallbacksAndProgress(s, results[..n], t);
      CounterInvariant(s, results[..n], t);
      assert t * (|h.callbacks| + 1) == t * |h.callbacks| + t;
    }
  }

  /** Every callback consumes `t` results of its own: `n` checks raise at most `n / t` callbacks. */
  lemma CallbacksAreRare(s: ServiceData, results: seq<bool>, t: nat)
    requires t >= 1 && s.failureThreshold == t && s.failureCount == t && !s.isHealthy
    ensures |Replay(s, results).callbacks| <= |results| / t
  {
    var calls := |Replay(s, results).callbacks|;
    CallbacksAndProgress(s, results, t);
    CounterInvariant(s, results, t);
    QuotientBounds(t, calls, |results|);
  }

  lemma QuotientBounds(t: nat, k: nat, n: nat)
    requires t >= 1 && t * k <= n
    ensures k <= n / t
  {
    var q := n / t;
    assert t * (q + 1) == t * q + t > n;
    if k > q {
      ProductGrows(t, q + 1, k);
    }
  }

  lemma ProductGrows(t: nat, a: nat, b: nat)
    requires a <= b
    ensures t * a <= t * b
  {
  }

  // ---------- The service object ----------

  class Service {
    const id: Id
    var ip: string
    var port: string
    var Fqdn: string
    var MemberOf: string
    var Datacenter: string
    var checkType: string
    var ScheduledInterval: Duration
    var defaultInterval: Duration
    var baseInterval: Duration
    var priority: int
    var FailureThreshold: int
    var failureCount: int
    var isHealthy: bool
    var roundtrip: Duration

    ghost function Data(): ServiceData
      reads this
    {
      ServiceData(id, ip, port, Fqdn, MemberOf, Datacenter, checkType, ScheduledInterval, defaultInterval,
                  baseInterval, priority, FailureThreshold, failureCount, isHealthy, roundtrip)
    }

    constructor (d: ServiceData)
      ensures Data() == d
    {
      id, ip, port, Fqdn := d.id, d.ip, d.port, d.fqdn;
      MemberOf, Datacenter, checkType := d.memberOf, d.datacenter, d.checkType;
      ScheduledInterval, defaultInterval, baseInterval := d.scheduledInterval, d.defaultInterval, d.baseInterval;
      priority, FailureThreshold, failureCount := d.priority, d.failureThreshold, d.failureCount;
      isHealthy, roundtrip := d.isHealthy, d.roundtrip;
    }

    /** The callback the code would invoke is returned instead. */
    method OnSuccess() returns (callback: Option<bool>)
      modifies this`failureCount, this`isHealthy
      ensures Checked(Data(), callback) == OnResult(old(Data()), true)
    {
      callback := None;
      if isHealthy {
        failureCount := 0;
        return;
      }
      if failureCount > 0 {
        failureCount := failureCount - 1;
      }
      if failureCount == 0 {
        isHealthy := true;
        callback := Some(true);
      }
    }

    method OnFailure() returns (callback: Option<bool>)
      modifies this`failureCount, this`isHealthy
      ensures Checked(Data(), callback) == OnResult(old(Data()), false)
    {
      callback := None;
      if !isHealthy {
        failureCount := FailureThreshold;
        return;
      }
      if failureCount < FailureThreshold {
        failureCount := failureCount + 1;
      }
      if failureCount == FailureThreshold {
        isHealthy := false;
        callback := Some(false);
      }
    }

    method AssignFrom(n: Service)
      requires n != this
      modifies this
      ensures Data() == Assign(old(Data()), old(n.Data()))
    {
      ghost var was, given := Data(), n.Data();
      ip, port := n.ip, n.port;
      Fqdn := n.Fqdn;
      roundtrip := n.roundtrip;
      MemberOf := n.MemberOf;
      priority := n.priority;
      checkType := n.checkType;
      Datacenter := n.Datacenter;
      defaultInterval := n.defaultInterval;
      baseInterval := n.baseInterval;
      FailureThreshold := n.FailureThreshold;
      assert Data() == Assign(was, given);
    }
  }
}
