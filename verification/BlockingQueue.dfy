/** The queue behind the thread pool: what each call does while it holds the mutex. */
module BlockingQueue {
  import opened Basics

  // capacity 0 means unbounded.
  predicate Full(capacity: nat, size: nat) {
    capacity != 0 && size >= capacity
  }

  predicate Fits(capacity: nat, size: nat) {
    capacity != 0 ==> size <= capacity
  }

  // A blocking push either throws, has to wait for room, or stores the item.
  datatype PushOutcome = Threw | MustWait | Stored

  // A blocking pop gets an item, has to wait for one, or learns that the queue is closed and drained.
  datatype PopOutcome<T> = Got(item: T) | NothingYet | Drained

  // What the critical section of push and pop decides, for this class and for the threads of `Pool`.
  function PushResult(capacity: nat, closed: bool, size: nat): PushOutcome {
    if closed then Threw else if Full(capacity, size) then MustWait else Stored
  }

  function PopResult<T>(queue: seq<T>, closed: bool): PopOutcome<T> {
    if queue != [] then Got(queue[0]) else if closed then Drained else NothingYet
  }

  class BlockingQueue<T> {
    const capacity: nat
    var queue: seq<T>
    var closed: bool

    ghost predicate Valid()
      reads this
    {
      Fits(capacity, |queue|)
    }

    constructor (capacity: nat)
      ensures Valid() && queue == [] && !closed && this.capacity == capacity
    {
      this.capacity := capacity;
      queue, closed := [], false;
    }

    method Push(value: T) returns (r: PushOutcome)
      requires Valid()
      modifies this
      ensures Valid() && closed == old(closed)
      ensures r == PushResult(capacity, old(closed), |old(queue)|)
      ensures queue == if r.Stored? then old(queue) + [value] else old(queue)
    {
      if closed {
        return Threw;
      }
      if Full(capacity, |queue|) {
        return MustWait;
      }
      queue := queue + [value];
      r := Stored;
    }

    method TryPush(value: T) returns (ok: bool)
      requires Valid()
      modifies this
      ensures Valid() && closed == old(closed)
      ensures ok <==> !old(closed) && !Full(capacity, |old(queue)|)
      ensures queue == if ok then old(queue) + [value] else old(queue)
    {
      if closed || Full(capacity, |queue|) {
        return false;
      }
      queue := queue + [value];
      ok := true;
    }

    // A closed queue still gives out what it holds.
    method TryPop() returns (item: Option<T>)
      requires Valid()
      modifies this
      ensures Valid() && closed == old(closed)
      ensures if old(queue) == [] then item.None? && queue == [] else item.Some? && old(queue) == [item.value] + queue
    {
      if queue == [] {
        return None;
      }
      item := Some(queue[0]);
      queue := queue[1..];
    }

    method Pop() returns (r: PopOutcome<T>)
      requires Valid()
      modifies this
      ensures Valid() && closed == old(closed)
      ensures r == PopResult(old(queue), old(closed))
      ensures if r.Got? then old(queue) == [r.item] + queue else queue == old(queue)
    {
      if queue == [] && !closed {
        return NothingYet;
      }
      var item := TryPop();
      r := if item.None? then Drained else Got(item.value);
    }

    method Close()
      modifies this
      ensures closed && queue == old(queue)
    {
      closed := true;
    }
  }
}
