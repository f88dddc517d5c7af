/** When a scheduler checks every service under a single heap entry. */
module SingleEntries {
  import opened Basics
  import opened Services
  import opened Heaps
  import opened Schedulers
  import opened Fairness

  lemma OneEntryFewer(h: seq<Entry>, r: seq<Entry>, e: Entry)
    requires OneEntryEach(h) && multiset(r) == multiset(h) - multiset{e}
    ensures OneEntryEach(r)
  {
    OneEntryByCount(h);
    OneEntryByCount(r);
  }

  lemma OneEntryReplaced(h: seq<Entry>, r: seq<Entry>, e: Entry, f: Entry)
    requires OneEntryEach(h) && e in multiset(h) && f.id == e.id
    requires multiset(r) == multiset(h) - multiset{e} + multiset{f}
    ensures OneEntryEach(r)
  {
    OneEntryByCount(h);
    OneEntryByCount(r);
    hide OneEntryEach;
    forall x, y | x in multiset(r) && y in multiset(r) && x.id == y.id ensures x == y {
      assert x == f || (x in multiset(h) && x != e);
      assert y == f || (y in multiset(h) && y != e);
    }
    forall x ensures multiset(r)[x] <= 1 {
      assert f != e ==> f !in multiset(h);
    }
  }

  lemma RemoveKeepsOneEntry(s: Scheduler, id: Id)
    requires WellFormed(s) && OneEntryEach(s.heap)
    ensures OneEntryEach(Remove(s, id).0.heap)
  {
    RemoveTakesOut(s, id);
    hide OneEntryEach, WellFormed, Remove;
    var i, s' := IndexOfService(s.heap, id), Remove(s, id).0;
    if i == 0 {
      OneEntryReplaced(s.heap, s'.heap, s.heap[0], s.heap[0].(live := false));
    } else if i > 0 {
      OneEntryFewer(s.heap, s'.heap, s.heap[i]);
    }
  }

  lemma IterateKeepsOneEntry(s: Scheduler, now: int, gap: Duration)
    requires WellFormed(s) && OneEntryEach(s.heap)
    ensures OneEntryEach(Iterate(s, now, gap).heap)
  {
    IterateReschedules(s, now, gap);
    hide OneEntryEach, WellFormed, Iterate;
    if !s.stopped && s.heap != [] {
      if s.heap[0].live {
        OneEntryReplaced(s.heap, Iterate(s, now, gap).heap, s.heap[0], s.heap[0].(time := now + gap));
      } else {
        OneEntryFewer(s.heap, Iterate(s, now, gap).heap, s.heap[0]);
      }
    }
  }

  lemma StepKeepsOneEntryIff(t: Timed, s: Step, t': Timed)
    requires WellFormed(t.sched) && StepTo(t, s, t') && OneEntryEach(t.sched.heap)
    ensures OneEntryEach(t'.sched.heap) <==> (s.Add? ==> IndexOfService(t.sched.heap, s.id) == -1)
  {
    hide OneEntryEach, WellFormed, Schedule, Remove, Iterate, NewCheckInterval;
    match s
    case Add(id, now, jitter) =>
      SecondEntryIffTombstoneLeft(t.sched, id, t.nextTag, now, NewCheckInterval(t.sched.interval, jitter));
    case Drop(id) => RemoveKeepsOneEntry(t.sched, id);
    case Turn(now, jitter) => IterateKeepsOneEntry(t.sched, now, NewCheckInterval(t.sched.interval, jitter));
    case Halt =>
  }

  /** No service is scheduled while the scheduler still holds an entry of it, dead or alive. */
  ghost predicate NoEarlyReturn(ts: seq<Timed>, steps: seq<Step>, n: nat)
    requires n <= |steps| < |ts|
  {
    forall k :: 0 <= k < n && steps[k].Add? ==> IndexOfService(ts[k].sched.heap, steps[k].id) == -1
  }

  /** Over any run, every service has at most one entry at every moment if and only if no service was
      scheduled while its tombstone, or a live entry of it, was still there. */
  lemma {:induction false} OneEntryIffNoEarlyReturn(interval: Duration, ts: seq<Timed>, steps: seq<Step>, n: nat)
    requires Run(interval, ts, steps) && n <= |steps|
    ensures (forall k :: 0 <= k <= n ==> OneEntryEach(ts[k].sched.heap)) <==> NoEarlyReturn(ts, steps, n)
  {
    hide OneEntryEach, IndexOfService, Next, Enabled;
    if n == 0 {
      StartsEmpty(ts[0]);
    } else {
      OneEntryIffNoEarlyReturn(interval, ts, steps, n - 1);
      RunKeeps(interval, ts, steps, n - 1);
      assert StepTo(ts[n - 1], steps[n - 1], ts[n - 1 + 1]);
      if OneEntryEach(ts[n - 1].sched.heap) {
        StepKeepsOneEntryIff(ts[n - 1], steps[n - 1], ts[n]);
      }
    }
  }

  lemma StartsEmpty(t: Timed)
    requires t.sched.heap == []
    ensures OneEntryEach(t.sched.heap)
  {
  }
}
