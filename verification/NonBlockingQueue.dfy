/** The mutex-protected queue between threads: every call is one atomic step. */
module NonBlockingQueue {
  import opened Basics

  class NonBlockingQueue<T> {
    var queue: seq<T>

    constructor ()
      ensures queue == []
    {
      queue := [];
    }

    method Push(item: T)
      modifies this
      ensures queue == old(queue) + [item]
    {
      queue := queue + [item];
    }

    method TryPop() returns (item: Option<T>)
      modifies this
      ensures old(queue) == [] ==> item.None? && queue == []
      ensures old(queue) != [] ==> item == Some(old(queue)[0]) && queue == old(queue)[1..]
    {
      if queue == [] {
        return None;
      }
      item := Some(queue[0]);
      queue := queue[1..];
    }
  }
}
