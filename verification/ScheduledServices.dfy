/** The index of registered services: one sorted queue of ids per interval, searched by bisection. */
module ScheduledServices {
  import opened Basics
  import opened Filters
  import opened Services
  import opened Sorting
  import opened Strings

  ghost predicate StrictlySorted(q: seq<Id>) {
    forall i, j :: 0 <= i < j < |q| ==> Below(q[i], q[j])
  }

  lemma SortedHasNoDup(q: seq<Id>)
    requires StrictlySorted(q)
    ensures NoDup(q)
  {
    forall i, j | 0 <= i < j < |q| ensures q[i] != q[j] {
      Trichotomy(q[i], q[j]);
    }
  }

  /** Sorting a queue of distinct ids leaves it strictly sorted, whatever the algorithm. */
  lemma SortedQueue(q: seq<Id>, r: seq<Id>)
    requires NoDup(q) && SortOf(Below, q, r)
    ensures StrictlySorted(r)
    ensures forall id :: id in r <==> id in q
  {
    Rearranged(q, r);
    forall i, j | 0 <= i < j < |r| ensures Below(r[i], r[j]) {
      Trichotomy(r[i], r[j]);
    }
  }

  lemma {:induction false} FilterStaysSorted(keep: Id -> bool, q: seq<Id>)
    ensures StrictlySorted(q) ==> StrictlySorted(Filter(keep, q))
  {
    hide Below;
    if q != [] && StrictlySorted(q) {
      var rest := Filter(keep, q[1..]);
      FilterStaysSorted(keep, q[1..]);
      FilterKeeps(keep, q[1..]);
      forall k | 0 <= k < |rest| ensures Below(q[0], rest[k]) {
        assert rest[k] in rest;
      }
    }
  }

  /** `slices.DeleteFunc` of everything with this id. */
  function Deleted(q: seq<Id>, id: Id): (r: seq<Id>)
    ensures forall x :: x in r <==> x in q && x != id
    ensures StrictlySorted(q) ==> StrictlySorted(r)
  {
    FilterKeeps(x => x != id, q);
    FilterStaysSorted(x => x != id, q);
    Filter(x => x != id, q)
  }

  type Queues = map<Duration, seq<Id>>

  /** The queues hold exactly the services of `contents`, each on the queue of its interval only. */
  ghost predicate Holds(queues: Queues, contents: map<Id, Duration>) {
    && (forall d :: d in queues ==> StrictlySorted(queues[d]))
    && (forall d, id :: d in queues && id in queues[d] ==> id in contents && contents[id] == d)
    && (forall id :: id in contents ==> contents[id] in queues && id in queues[contents[id]])
  }

  /** The queue of an interval, empty when there is none. */
  function QueueAt(queues: Queues, d: Duration): seq<Id> {
    if d in queues then queues[d] else []
  }

  lemma AddHolds(queues: Queues, contents: map<Id, Duration>, id: Id, d: Duration, q: seq<Id>)
    requires Holds(queues, contents) && id !in contents
    requires StrictlySorted(q) && forall x :: x in q <==> x == id || x in QueueAt(queues, d)
    ensures Holds(queues[d := q], contents[id := d])
  {
    hide StrictlySorted;
  }

  lemma DeleteHolds(queues: Queues, contents: map<Id, Duration>, id: Id, d: Duration, q: seq<Id>)
    requires Holds(queues, contents) && d in queues && (id in contents ==> contents[id] == d)
    requires StrictlySorted(q) && forall x :: x in q <==> x in queues[d] && x != id
    ensures Holds(queues[d := q], contents - {id})
  {
    hide StrictlySorted;
  }

  lemma EmptyQueueHolds(queues: Queues, contents: map<Id, Duration>, d: Duration)
    requires Holds(queues, contents) && (d in queues ==> queues[d] == [])
    ensures Holds(queues - {d}, contents)
  {
    hide StrictlySorted;
  }

  /** The objects behind the services carry the intervals of `contents`. */
  ghost predicate Agree(contents: map<Id, Duration>, scheduledInterval: map<Id, Duration>) {
    forall id :: id in contents ==> id in scheduledInterval && scheduledInterval[id] == contents[id]
  }

  lemma MovedContents(contents: map<Id, Duration>, id: Id, d: Duration)
    ensures (contents - {id})[id := d] == contents[id := d]
    ensures id !in contents ==> contents - {id} == contents
  {
  }

  /** Appending a new id to a sorted queue and sorting again gives the sorted queue with the id in it. */
  lemma Requeued(queue: seq<Id>, id: Id)
    requires StrictlySorted(queue) && id !in queue
    ensures var sorted := InsertionSort(Below, queue + [id]);
            && StrictlySorted(sorted)
            && forall x :: x in sorted <==> x == id || x in queue
  {
    SortedHasNoDup(queue);
    hide StrictlySorted;
    BelowIsStrictOrder();
    InsertionSortSorts(Below, queue + [id]);
    hide InsertionSort, StrictWeakOrder;
    SortedQueue(queue + [id], InsertionSort(Below, queue + [id]));
  }

  lemma AddKeeps(queues: Queues, contents: map<Id, Duration>, id: Id, d: Duration)
    requires Holds(queues, contents) && id !in contents
    ensures Holds(queues[d := InsertionSort(Below, QueueAt(queues, d) + [id])], contents[id := d])
  {
    var queue := QueueAt(queues, d);
    assert StrictlySorted(queue) && id !in queue;
    hide InsertionSort, Holds, QueueAt, StrictlySorted;
    Requeued(queue, id);
    AddHolds(queues, contents, id, d, InsertionSort(Below, queue + [id]));
  }

  /** Below one element of a sorted queue everything earlier is below the target; above it, nothing later is. */
  lemma Bisects(queue: seq<Id>, h: nat, id: Id)
    requires StrictlySorted(queue) && h < |queue|
    ensures Below(queue[h], id) ==> forall k :: 0 <= k < h ==> Below(queue[k], id)
    ensures !Below(queue[h], id) ==> forall k :: h < k < |queue| ==> !Below(queue[k], id)
  {
    hide Below;
    forall k | 0 <= k < h && Below(queue[h], id) ensures Below(queue[k], id) {
      Transitive(queue[k], queue[h], id);
    }
    forall k | h < k < |queue| && Below(queue[k], id) ensures Below(queue[h], id) {
      Transitive(queue[h], queue[k], id);
    }
  }

  /** Where a bisection ends, the target is, or it is nowhere in the queue. */
  lemma BisectionDecides(queue: seq<Id>, i: nat, id: Id)
    requires StrictlySorted(queue) && i <= |queue|
    requires forall k :: 0 <= k < i ==> Below(queue[k], id)
    requires forall k :: i <= k < |queue| ==> !Below(queue[k], id)
    ensures id in queue <==> i < |queue| && queue[i] == id
  {
    hide Below;
    if id in queue {
      var k :| 0 <= k < |queue| && queue[k] == id;
      Trichotomy(id, id);
    }
  }

  /** `slices.BinarySearchFunc`. */
  method BinarySearch(queue: seq<Id>, id: Id) returns (idx: nat, found: bool)
    requires StrictlySorted(queue)
    ensures found <==> id in queue
    ensures found ==> idx < |queue| && queue[idx] == id
  {
    hide Below;
    var i, j := 0, |queue|;
    while i < j
      invariant 0 <= i <= j <= |queue|
      invariant forall k :: 0 <= k < i ==> Below(queue[k], id)
      invariant forall k :: j <= k < |queue| ==> !Below(queue[k], id)
    {
      var h := (i + j) / 2;
      Bisects(queue, h, id);
      if Below(queue[h], id) {
        i := h + 1;
      } else {
        j := h;
      }
    }
    BisectionDecides(queue, i, id);
    return i, i < |queue| && queue[i] == id;
  }

  lemma ElementOf<T>(s: set<T>) returns (d: T)
    requires |s| > 0
    ensures d in s
  {
    d :| d in s;
  }

  class Index {
    /** The queues. A queue may stay behind empty. */
    var queues: Queues

    /** The `ScheduledInterval` field of the service objects handed to the index. */
    var scheduledInterval: map<Id, Duration>

    /** What the index means: the interval of every service in it. */
    ghost var contents: map<Id, Duration>

    ghost predicate Valid()
      reads this
    {
      && Holds(queues, contents)
      && Agree(contents, scheduledInterval)
    }

    constructor ()
      ensures Valid() && contents == map[]
    {
      queues, scheduledInterval, contents := map[], map[], map[];
    }

    /** Puts a service that is not in the index yet on the queue of its interval. */
    method Add(id: Id, interval: Duration)
      requires Valid() && id !in contents
      modifies this
      ensures Valid() && contents == old(contents)[id := interval]
      ensures scheduledInterval == old(scheduledInterval)[id := interval]
    {
      var queue := [];
      if interval in queues {
        queue := queues[interval];
      }
      assert queue == QueueAt(queues, interval);
      AddKeeps(queues, contents, id, interval);
      hide InsertionSort, Holds, QueueAt;
      var sorted := InsertionSort(Below, queue + [id]);
      queues := queues[interval := sorted];
      scheduledInterval := scheduledInterval[id := interval];
      contents := contents[id := interval];
    }

    /** Looks on one queue only. */
    method SearchInterval(id: Id, interval: Duration) returns (idx: int)
      requires Valid()
      ensures idx == -1 <==> !(interval in queues && id in queues[interval])
      ensures idx != -1 ==> 0 <= idx < |queues[interval]| && queues[interval][idx] == id
    {
      if interval !in queues {
        return -1;
      }
      var at, found := BinarySearch(queues[interval], id);
      return if found then at else -1;
    }

    /** Tries the intervals in an arbitrary order. */
    method Search(id: Id) returns (idx: int, interval: Duration)
      requires Valid()
      ensures idx == -1 <==> id !in contents
      ensures idx != -1 ==> interval == contents[id] && 0 <= idx < |queues[interval]| && queues[interval][idx] == id
    {
      var todo: set<Duration> := queues.Keys;
      while |todo| > 0
        invariant todo <= queues.Keys
        invariant forall d :: d in queues && d !in todo ==> id !in queues[d]
        decreases |todo|
      {
        ghost var some := ElementOf(todo);
        var d :| d in todo;
        interval := d;
        idx := SearchInterval(id, interval);
        if idx != -1 {
          return;
        }
        todo := todo - {interval};
      }
      return -1, 0;
    }

    method Delete(id: Id)
      requires Valid()
      modifies this`queues, this`contents
      ensures Valid() && contents == old(contents) - {id}
    {
      var idx, interval := Search(id);
      if idx != -1 {
        DeleteHolds(queues, contents, id, interval, Deleted(queues[interval], id));
        queues := queues[interval := Deleted(queues[interval], id)];
      } else {
        MovedContents(contents, id, 0);
      }
      contents := contents - {id};
    }

    /** Moves a service; nothing happens for one that is not in the index. */
    method MoveToInterval(id: Id, newInterval: Duration)
      requires Valid()
      modifies this
      ensures Valid()
      ensures id in old(contents) ==>
                && contents == old(contents)[id := newInterval]
                && scheduledInterval == old(scheduledInterval)[id := newInterval]
      ensures id !in old(contents) ==> contents == old(contents) && queues == old(queues)
                                       && scheduledInterval == old(scheduledInterval)
    {
      var idx, interval := Search(id);
      if idx == -1 {
        return;
      }
      var oldInterval := scheduledInterval[id];
      DeleteHolds(queues, contents, id, oldInterval, Deleted(queues[oldInterval], id));
      MovedContents(contents, id, newInterval);
      hide Holds, Deleted;
      queues := queues[oldInterval := Deleted(queues[oldInterval], id)];
      contents := contents - {id};
      Add(id, newInterval);
      if oldInterval !in queues || |queues[oldInterval]| == 0 {
        EmptyQueueHolds(queues, contents, oldInterval);
        queues := queues - {oldInterval};
      }
    }
  }
}
