/**
  * The `LinkedBlockingQueue`s that connect the stages: unbounded, first in
  * first out. A `take` on an empty queue blocks; callers model that by
  * checking for emptiness first and treating the thread as parked.
  */
module Queues {
  import opened Events

  class Channel<T> {
    var items: seq<T>
    /** Where `put` and `clear` record themselves. */
    const log: EventLog

    constructor (log: EventLog)
      ensures items == [] && this.log == log
    {
      items := [];
      this.log := log;
    }

    /** `put` / `offer`: an unbounded queue always accepts the item at its tail. */
    method Put(x: T)
      modifies this, log
      ensures items == old(items) + [x]
      ensures log.events == old(log.events) + [ItemOffered(this)]
    {
      items := items + [x];
      log.events := log.events + [ItemOffered(this)];
    }

    /** `take` once an item is available: removes and returns the head. */
    method Take() returns (x: T)
      requires items != []
      modifies this
      ensures x == old(items)[0] && items == old(items)[1..]
      ensures old(items) == [x] + items
    {
      x := items[0];
      items := items[1..];
    }

    /** `clear`. */
    method Clear()
      modifies this, log
      ensures items == []
      ensures log.events == old(log.events) + [QueueCleared(this)]
    {
      items := [];
      log.events := log.events + [QueueCleared(this)];
    }
  }
}
