/** One scheduler: a heap of due services with lazily removed entries and jittered rescheduling. */
module Schedulers {
  import opened Basics
  import opened Services
  import opened Heaps

  const SECOND := 1_000_000_000
  const TENTH := SECOND / 10
  const OFFSET := SECOND / 2

  // ---------- Jitter arithmetic ----------

  /** `int(interval.Seconds() * 2)`: Go truncates toward zero. */
  function MaxOffsets(interval: Duration): int {
    if interval >= 0 then interval / OFFSET else -(-interval / OFFSET)
  }

  /** The intervals at which `ScheduleService` does not divide by zero. A configured interval may be
      anything, negative included. */
  predicate Schedulable(interval: Duration) {
    interval <= -OFFSET || OFFSET <= interval
  }

  lemma SchedulableMeans(interval: Duration)
    ensures Schedulable(interval) <==> MaxOffsets(interval) != 0
  {
  }

  function Abs(d: Duration): (a: Duration)
    ensures a >= 0 && (a == d || a == -d)
  {
    if d >= 0 then d else -d
  }

  /** Go's `Duration.Round` to a tenth of a second, halves away from zero. */
  function RoundTenth(d: Duration): (r: Duration)
    ensures r % 100_000_000 == 0 && 2 * Abs(r - d) <= 100_000_000
    ensures 2 * Abs(r - d) == 100_000_000 ==> Abs(r) > Abs(d)
  {
    var r := Abs(d) % TENTH;
    var rounded := if 2 * r < TENTH then Abs(d) - r else Abs(d) + TENTH - r;
    if d >= 0 then rounded else -rounded
  }

  /** A jitter drawn from plus or minus a tenth of the interval. */
  predicate Jitter(interval: Duration, jitter: int) {
    Abs(jitter) <= Abs(interval) / 10
  }

  function NewCheckInterval(interval: Duration, jitter: int): (gap: Duration)
    requires Schedulable(interval) && Jitter(interval, jitter)
    ensures 9 * Abs(interval) - 5 * TENTH <= 10 * Abs(gap) <= 11 * Abs(interval) + 5 * TENTH
    ensures (gap >= 0) == (interval >= 0)
    ensures gap % 100_000_000 == 0 && 2 * Abs(gap - (interval + jitter)) <= 100_000_000
    ensures 2 * Abs(gap - (interval + jitter)) == 100_000_000 ==> Abs(gap) > Abs(interval + jitter)
  {
    RoundTenth(interval + jitter)
  }

  /** Every gap is positive when the interval is, and within a tenth of it and 50 ms. */
  lemma GapBounds(interval: Duration, jitter: int)
    requires interval >= OFFSET && Jitter(interval, jitter)
    ensures Schedulable(interval) && Abs(interval) == interval
    ensures 9 * interval - 5 * TENTH <= 10 * NewCheckInterval(interval, jitter) <= 11 * interval + 5 * TENTH
  {
    hide RoundTenth;
  }

  // ---------- The scheduler ----------

  datatype Scheduler = Scheduler(
    interval: Duration,
    nextOffset: nat,
    heap: seq<Entry>,
    isRunning: bool,
    stopped: bool)

  function NewScheduler(interval: Duration): Scheduler {
    Scheduler(interval, 0, [], false, false)
  }

  /** The loop is started when the heap becomes non-empty; starting a running loop does nothing. */
  function Schedule(s: Scheduler, id: Id, tag: nat, now: int, gap: Duration): Scheduler
    requires Schedulable(s.interval)
  {
    SchedulableMeans(s.interval);
    var h := Push(s.heap, Entry(tag, id, now + OFFSET * s.nextOffset + gap, true));
    s.(heap := h, nextOffset := (s.nextOffset + 1) % MaxOffsets(s.interval),
       isRunning := s.isRunning || |h| == 1)
  }

  /** Removing the top entry only marks it; the flag says that no entry of another service is left. */
  function Remove(s: Scheduler, id: Id): (Scheduler, bool) {
    var i := IndexOfService(s.heap, id);
    if i == -1 then (s, s.heap == [])
    else if i == 0 then (s.(heap := s.heap[0 := s.heap[0].(live := false)]), |s.heap| == 1)
    else (s.(heap := RemoveAt(s.heap, i)), |RemoveAt(s.heap, i)| == 0)
  }

  function ReSchedule(s: Scheduler, now: int, gap: Duration): Scheduler
    requires s.heap != []
  {
    var (top, rest) := Pop(s.heap);
    if !top.live then s.(heap := rest)
    else s.(heap := Push(rest, top.(time := now + gap)))
  }

  /** One turn of the loop: it ends on a stop or an empty heap, and otherwise checks the top service
      and reschedules. */
  function Iterate(s: Scheduler, now: int, gap: Duration): Scheduler {
    if s.stopped || s.heap == [] then s.(isRunning := false)
    else ReSchedule(s, now, gap)
  }

  // ---------- What every operation keeps ----------

  ghost predicate WellFormed(s: Scheduler) {
    && Schedulable(s.interval)
    && s.nextOffset < Abs(MaxOffsets(s.interval))
    && IsHeap(s.heap)
    && (!s.stopped && s.heap != [] ==> s.isRunning)
  }

  lemma NewIsWellFormed(interval: Duration)
    requires Schedulable(interval)
    ensures WellFormed(NewScheduler(interval))
  {
    SchedulableMeans(interval);
  }

  lemma TombstoneKeepsHeap(h: seq<Entry>)
    requires IsHeap(h) && h != []
    ensures IsHeap(h[0 := h[0].(live := false)])
    ensures multiset(h[0 := h[0].(live := false)]) == multiset(h) - multiset{h[0]} + multiset{h[0].(live := false)}
  {
  }

  /** Scheduling adds exactly one live entry, within an interval of the plain gap. */
  lemma ScheduleAdds(s: Scheduler, id: Id, tag: nat, now: int, gap: Duration)
    requires WellFormed(s)
    ensures var s' := Schedule(s, id, tag, now, gap);
            && WellFormed(s') && (!s'.stopped ==> s'.isRunning) && (s'.isRunning <==> s.isRunning || s.heap == [])
            && s'.interval == s.interval && s'.stopped == s.stopped
            && exists e :: multiset(s'.heap) == multiset(s.heap) + multiset{e}
                 && e.tag == tag && e.id == id && e.live
                 && now + gap <= e.time <= now + gap + Abs(s.interval) - OFFSET
  {
    hide Push, IsHeap, MaxOffsets;
    var e := Entry(tag, id, now + OFFSET * s.nextOffset + gap, true);
    PushKeepsHeap(s.heap, e);
    PushAdds(s.heap, e);
    OffsetsFit(s.interval, s.nextOffset);
    var r := Schedule(s, id, tag, now, gap).heap;
    assert multiset(r) == multiset(s.heap) + multiset{e};
    assert |r| == |multiset(r)| == |s.heap| + 1;
  }

  /** The next offset stays in range, and every offset is at least half a second below the interval. */
  lemma OffsetsFit(interval: Duration, k: nat)
    requires Schedulable(interval) && k < Abs(MaxOffsets(interval))
    ensures MaxOffsets(interval) != 0 && 0 <= (k + 1) % MaxOffsets(interval) < Abs(MaxOffsets(interval))
    ensures 0 <= OFFSET * k <= Abs(interval) - OFFSET
  {
    assert OFFSET * (k + 1) <= OFFSET * Abs(MaxOffsets(interval)) <= Abs(interval);
  }

  /** Removing takes out one entry of the service, or marks it dead when it is the top; it never
      empties a non-empty heap, and it reports "last" exactly when no entry of another service is left
      and the heap holds at most one. */
  lemma RemoveTakesOut(s: Scheduler, id: Id)
    requires WellFormed(s)
    ensures var (s', last) := Remove(s, id); var i := IndexOfService(s.heap, id);
            && WellFormed(s') && s'.interval == s.interval && s'.stopped == s.stopped
            && (s.heap != [] ==> s'.heap != [])
            && (last <==> |s.heap| <= 1 && forall k :: 0 <= k < |s.heap| ==> s.heap[k].id == id)
            && (i == -1 ==> s'.heap == s.heap)
            && (i == 0 ==> multiset(s'.heap) ==
                             multiset(s.heap) - multiset{s.heap[0]} + multiset{s.heap[0].(live := false)})
            && (i > 0 ==> multiset(s'.heap) == multiset(s.heap) - multiset{s.heap[i]})
  {
    hide RemoveAt;
    var i := IndexOfService(s.heap, id);
    if i == 0 {
      TombstoneKeepsHeap(s.heap);
    } else if i > 0 {
      RemoveAtKeepsHeap(s.heap, i);
      RemoveAtTakes(s.heap, i);
    }
  }

  /** A turn of the loop on a non-empty heap pops an entry that no other is due before: it drops the
      entry if dead and otherwise puts it back under its new time. */
  lemma IterateReschedules(s: Scheduler, now: int, gap: Duration)
    requires WellFormed(s)
    ensures var s' := Iterate(s, now, gap);
            && WellFormed(s') && s'.interval == s.interval
            && (s.stopped || s.heap == [] ==> s'.heap == s.heap && !s'.isRunning)
            && (!s.stopped && s.heap != [] ==>
                  && (forall k :: 0 <= k < |s.heap| ==> s.heap[0].time <= s.heap[k].time)
                  && multiset(s'.heap) == multiset(s.heap) - multiset{s.heap[0]} +
                     (if s.heap[0].live then multiset{s.heap[0].(time := now + gap)} else multiset{}))
  {
    hide Pop, Push;
    if !s.stopped && s.heap != [] {
      PopKeepsHeap(s.heap);
      PopTakesTop(s.heap);
      var (top, rest) := Pop(s.heap);
      PushKeepsHeap(rest, top.(time := now + gap));
      PushAdds(rest, top.(time := now + gap));
      forall k | 0 <= k < |s.heap| ensures s.heap[0].time <= s.heap[k].time {
        TopIsDueFirst(s.heap, k);
      }
    }
  }

  // ---------- Live entries per service ----------

  ghost predicate HasLive(h: seq<Entry>, id: Id) {
    exists e :: e in multiset(h) && e.id == id && e.live
  }

  lemma ScheduleMakesLive(s: Scheduler, id: Id, tag: nat, now: int, gap: Duration)
    requires WellFormed(s)
    ensures var s' := Schedule(s, id, tag, now, gap);
            && WellFormed(s') && s'.interval == s.interval && s'.stopped == s.stopped
            && HasLive(s'.heap, id)
            && forall x :: x != id ==> (HasLive(s'.heap, x) <==> HasLive(s.heap, x))
  {
    ScheduleAdds(s, id, tag, now, gap);
    hide Schedule, WellFormed;
    var s' := Schedule(s, id, tag, now, gap);
    var n :| multiset(s'.heap) == multiset(s.heap) + multiset{n} && n.tag == tag && n.id == id && n.live;
    assert n in multiset(s'.heap);
    forall x | HasLive(s.heap, x) ensures HasLive(s'.heap, x) {
      var e :| e in multiset(s.heap) && e.id == x && e.live;
      assert e in multiset(s'.heap);
    }
  }

  /** Exchanging entries of one service leaves the others as live as they were. */
  lemma OthersStayLive(h: seq<Entry>, r: seq<Entry>, gone: Entry, back: multiset<Entry>, x: Id)
    requires gone in multiset(h) && gone.id != x && forall f :: f in back ==> f.id != x
    requires multiset(r) == multiset(h) - multiset{gone} + back
    ensures HasLive(r, x) <==> HasLive(h, x)
  {
    if HasLive(h, x) {
      var e :| e in multiset(h) && e.id == x && e.live;
      assert e in multiset(r);
    }
    if HasLive(r, x) {
      var e :| e in multiset(r) && e.id == x && e.live;
      assert e in multiset(h);
    }
  }

  lemma NoOthersLive(h: seq<Entry>, id: Id, x: Id)
    requires x != id && forall k :: 0 <= k < |h| ==> h[k].id == id
    ensures !HasLive(h, x)
  {
    forall e | e in multiset(h) ensures e.id == id {
      assert e in h;
    }
  }

  lemma RemoveSparesOthers(s: Scheduler, id: Id)
    requires WellFormed(s)
    ensures var (s', last) := Remove(s, id);
            && WellFormed(s') && s'.interval == s.interval && s'.stopped == s.stopped
            && (forall x :: x != id ==> (HasLive(s'.heap, x) <==> HasLive(s.heap, x)))
            && (last ==> forall x :: x != id ==> !HasLive(s.heap, x))
  {
    RemoveTakesOut(s, id);
    hide Remove, WellFormed, HasLive;
    var (s', last) := Remove(s, id);
    var i := IndexOfService(s.heap, id);
    forall x | x != id
      ensures HasLive(s'.heap, x) <==> HasLive(s.heap, x)
      ensures last ==> !HasLive(s.heap, x)
    {
      if i == 0 {
        OthersStayLive(s.heap, s'.heap, s.heap[0], multiset{s.heap[0].(live := false)}, x);
      } else if i > 0 {
        OthersStayLive(s.heap, s'.heap, s.heap[i], multiset{}, x);
      }
      if last {
        NoOthersLive(s.heap, id, x);
      }
    }
  }

  lemma IterateKeepsLive(s: Scheduler, now: int, gap: Duration, x: Id)
    requires WellFormed(s)
    ensures WellFormed(Iterate(s, now, gap))
    ensures HasLive(Iterate(s, now, gap).heap, x) <==> HasLive(s.heap, x)
  {
    IterateReschedules(s, now, gap);
    hide Iterate, WellFormed;
    var s' := Iterate(s, now, gap);
    if !s.stopped && s.heap != [] {
      var top := s.heap[0];
      var back := top.(time := now + gap);
      if HasLive(s.heap, x) {
        var e :| e in multiset(s.heap) && e.id == x && e.live;
        assert e != top ==> e in multiset(s'.heap);
        assert e == top ==> back in multiset(s'.heap);
      }
      if HasLive(s'.heap, x) {
        var e :| e in multiset(s'.heap) && e.id == x && e.live;
        assert e == back || e in multiset(s.heap);
        assert top in multiset(s.heap);
      }
    }
  }

  // ---------- At most one entry per service ----------

  ghost predicate OneEntryEach(h: seq<Entry>) {
    forall i, j :: 0 <= i < j < |h| ==> h[i].id != h[j].id
  }

  lemma OneEntryRearranged(h: seq<Entry>, r: seq<Entry>)
    requires multiset(h) == multiset(r)
    ensures OneEntryEach(h) <==> OneEntryEach(r)
  {
    OneEntryByCount(h);
    OneEntryByCount(r);
  }

  /** Scheduling a service keeps one entry per service exactly when the scheduler holds no entry of
      it, dead or alive. */
  lemma SecondEntryIffTombstoneLeft(s: Scheduler, id: Id, tag: nat, now: int, gap: Duration)
    requires WellFormed(s) && OneEntryEach(s.heap)
    ensures OneEntryEach(Schedule(s, id, tag, now, gap).heap) <==> IndexOfService(s.heap, id) == -1
  {
    hide Push, IndexOfService;
    var e := Entry(tag, id, now + OFFSET * s.nextOffset + gap, true);
    PushAdds(s.heap, e);
    assert multiset(s.heap + [e]) == multiset(Push(s.heap, e));
    OneEntryRearranged(s.heap + [e], Push(s.heap, e));
    OneMoreEntry(s.heap, e);
  }

  lemma OneMoreEntry(h: seq<Entry>, e: Entry)
    requires OneEntryEach(h)
    ensures OneEntryEach(h + [e]) <==> IndexOfService(h, e.id) == -1
  {
    hide IndexOfService;
    assert (h + [e])[|h|] == e;
    assert forall k :: 0 <= k < |h| ==> (h + [e])[k] == h[k];
    if IndexOfService(h, e.id) != -1 {
      assert (h + [e])[IndexOfService(h, e.id)].id == e.id;
    }
  }

  lemma {:induction false} OneEntryByCount(h: seq<Entry>)
    ensures OneEntryEach(h) <==>
            && (forall e :: multiset(h)[e] <= 1)
            && (forall e, f :: e in multiset(h) && f in multiset(h) && e.id == f.id ==> e == f)
  {
    NoDupIsCount(h);
    if OneEntryEach(h) {
      assert NoDup(h);
      forall e, f | e in multiset(h) && f in multiset(h) && e.id == f.id
        ensures e == f
      {
        assert e in h && f in h;
        var i :| 0 <= i < |h| && h[i] == e;
        var j :| 0 <= j < |h| && h[j] == f;
        assert i == j;
      }
    } else {
      var i, j :| 0 <= i < j < |h| && h[i].id == h[j].id;
      assert h[i] in multiset(h) && h[j] in multiset(h);
      assert h[i] == h[j] ==> !NoDup(h);
    }
  }
}
