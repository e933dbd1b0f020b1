/** The production queue: executions beyond the capacity wait in order of arrival. */
module ConcurrencyQueue {
  import opened Options

  /** A suspended `enqueue`: the execution, and the call that resolving it resumes. */
  datatype Waiter = Waiter(executionId: string, token: nat)

  datatype Queue = Queue(capacity: int, waiting: seq<Waiter>)

  /** The queue after an operation, and the waiter it resumes, if any. */
  datatype Outcome = Outcome(queue: Queue, resumed: Option<Waiter>)

  function Enqueued(q: Queue, w: Waiter): Queue {
    Queue(q.capacity - 1, if q.capacity - 1 < 0 then q.waiting + [w] else q.waiting)
  }

  function ResolvedNext(q: Queue): Outcome {
    if q.waiting == [] then Outcome(q, None)
    else Outcome(q.(waiting := q.waiting[1..]), Some(q.waiting[0]))
  }

  function Dequeued(q: Queue): Outcome {
    ResolvedNext(q.(capacity := q.capacity + 1))
  }

  /** Position of the first waiter of the execution; the length if there is none. */
  function IndexOf(waiting: seq<Waiter>, executionId: string): (i: nat)
    ensures i <= |waiting|
    ensures i < |waiting| ==> waiting[i].executionId == executionId
    ensures forall j :: 0 <= j < i ==> waiting[j].executionId != executionId
  {
    if waiting == [] || waiting[0].executionId == executionId then 0
    else 1 + IndexOf(waiting[1..], executionId)
  }

  /** The waiters without the one at position `i`. */
  function Without(waiting: seq<Waiter>, i: nat): (rest: seq<Waiter>)
    requires i < |waiting|
    ensures |rest| == |waiting| - 1
    ensures forall j :: 0 <= j < |rest| ==> rest[j] == waiting[if j < i then j else j + 1]
  {
    waiting[..i] + waiting[i + 1..]
  }

  function Removed(q: Queue, executionId: string): Outcome {
    var i := IndexOf(q.waiting, executionId);
    if i == |q.waiting| then Outcome(q, None)
    else ResolvedNext(Queue(q.capacity + 1, Without(q.waiting, i)))
  }

  /** The queue as the program holds it. */
  class ConcurrencyQueue {
    var capacity: int
    var waiting: seq<Waiter>

    ghost function Contents(): Queue
      reads this
    {
      Queue(capacity, waiting)
    }

    constructor (capacity: int)
      ensures Contents() == Queue(capacity, [])
    {
      this.capacity, this.waiting := capacity, [];
    }

    method Enqueue(w: Waiter) returns (throttled: bool)
      modifies this
      ensures Contents() == Enqueued(old(Contents()), w)
      ensures throttled <==> capacity < 0
    {
      capacity := capacity - 1;
      throttled := capacity < 0;
      if throttled {
        waiting := waiting + [w];
      }
    }

    method Dequeue() returns (resumed: Option<Waiter>)
      modifies this
      ensures Outcome(Contents(), resumed) == Dequeued(old(Contents()))
    {
      capacity := capacity + 1;
      resumed := ResolveNext();
    }

    method Remove(executionId: string) returns (removed: Option<Waiter>, resumed: Option<Waiter>)
      modifies this
      ensures Outcome(Contents(), resumed) == Removed(old(Contents()), executionId)
      ensures var i := IndexOf(old(waiting), executionId);
              removed == if i < |old(waiting)| then Some(old(waiting)[i]) else None
    {
      removed, resumed := None, None;
      var index := FindIndex(executionId);
      if index < |waiting| {
        removed := Some(waiting[index]);
        waiting := Without(waiting, index);
        capacity := capacity + 1;
        resumed := ResolveNext();
      }
    }

    method FindIndex(executionId: string) returns (index: nat)
      ensures index == IndexOf(waiting, executionId)
    {
      index := 0;
      while index < |waiting| && waiting[index].executionId != executionId
        invariant index <= |waiting|
        invariant index + IndexOf(waiting[index..], executionId) == IndexOf(waiting, executionId)
      {
        assert waiting[index..][1..] == waiting[index + 1..];
        index := index + 1;
      }
    }

    method ResolveNext() returns (resumed: Option<Waiter>)
      modifies this`waiting
      ensures Outcome(Contents(), resumed) == ResolvedNext(old(Contents()))
    {
      resumed := None;
      if waiting != [] {
        resumed := Some(waiting[0]);
        waiting := waiting[1..];
      }
    }
  }
}
