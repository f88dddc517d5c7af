/** The scheduler as the mutable object it is, over its heap object. */
module SchedulerObjects {
  import opened Basics
  import opened Services
  import opened Heaps
  import S = Schedulers

  class Scheduler {
    const interval: Duration
    const maxOffsets: int
    const heap: ServiceHeap
    var nextOffset: nat
    var isRunning: bool
    var stopped: bool

    ghost function State(): S.Scheduler
      reads this, heap
    {
      S.Scheduler(interval, nextOffset, heap.h, isRunning, stopped)
    }

    ghost predicate Valid()
      reads this, heap
    {
      S.WellFormed(State()) && maxOffsets == S.MaxOffsets(interval)
    }

    constructor (interval: Duration)
      requires S.Schedulable(interval)
      ensures Valid() && State() == S.NewScheduler(interval) && fresh(heap)
    {
      S.NewIsWellFormed(interval);
      this.interval := interval;
      maxOffsets := S.MaxOffsets(interval);
      heap := new ServiceHeap();
      nextOffset, isRunning, stopped := 0, false, false;
    }

    method Stop()
      requires Valid()
      modifies this`stopped
      ensures Valid() && State() == old(State()).(stopped := true)
    {
      stopped := true;
    }

    method ScheduleService(id: Id, tag: nat, now: int, jitter: int)
      requires Valid() && S.Jitter(interval, jitter)
      modifies this, heap
      ensures State() == S.Schedule(old(State()), id, tag, now, S.NewCheckInterval(interval, jitter))
      ensures Valid()
    {
      hide Push, IsHeap, S.NewCheckInterval, S.MaxOffsets, S.Jitter, S.RoundTenth, S.Abs;
      var gap := S.NewCheckInterval(interval, jitter);
      S.ScheduleAdds(State(), id, tag, now, gap);
      S.SchedulableMeans(interval);
      hide S.Schedulable;
      var offset := S.OFFSET * nextOffset;
      var scheduled := Entry(tag, id, now + offset + gap, true);
      nextOffset := (nextOffset + 1) % maxOffsets;
      heap.PushEntry(scheduled);
      if |heap.h| == 1 {
        StartLoop();
      }
    }

    method StartLoop()
      modifies this`isRunning
      ensures isRunning
    {
      if isRunning {
        return;
      }
      isRunning := true;
    }

    /** Whether the scheduler holds nothing but this service. */
    method RemoveService(id: Id) returns (last: bool)
      requires Valid()
      modifies heap
      ensures (State(), last) == S.Remove(old(State()), id)
      ensures Valid()
    {
      S.RemoveTakesOut(State(), id);
      var idx := IndexOfService(heap.h, id);
      if idx == -1 {
        return |heap.h| == 0;
      } else if idx == 0 {
        heap.h := heap.h[0 := heap.h[0].(live := false)];
        if |heap.h| == 1 {
          return true;
        }
      } else {
        heap.RemoveEntry(idx);
      }
      return |heap.h| == 0;
    }

    method ReSchedule(now: int, jitter: int)
      requires S.Schedulable(interval) && heap.h != [] && S.Jitter(interval, jitter)
      modifies heap
      ensures heap.h == S.ReSchedule(old(State()), now, S.NewCheckInterval(interval, jitter)).heap
    {
      hide Push, Pop, IsHeap, S.NewCheckInterval;
      var top := heap.PopEntry();
      if !top.live {
        return;
      }
      var back := top.(time := now + S.NewCheckInterval(interval, jitter));
      heap.PushEntry(back);
      // The code restarts the loop here if the heap is empty, which it never is.
      assert |heap.h| > 0;
    }

    /** One turn of the loop at a moment when the top service is due. */
    method LoopTurn(now: int, jitter: int) returns (ticked: Option<Id>)
      requires Valid() && S.Jitter(interval, jitter)
      modifies heap, this`isRunning
      ensures State() == S.Iterate(old(State()), now, S.NewCheckInterval(interval, jitter))
      ensures Valid()
      ensures ticked == if old(stopped) || old(heap.h) == [] then None else Some(old(heap.h)[0].id)
    {
      S.IterateReschedules(State(), now, S.NewCheckInterval(interval, jitter));
      if stopped || |heap.h| == 0 {
        isRunning := false;
        return None;
      }
      ticked := Some(heap.h[0].id);
      assert S.Schedulable(interval);
      hide S.WellFormed, Push, Pop, S.NewCheckInterval;
      ReSchedule(now, jitter);
    }
  }
}
