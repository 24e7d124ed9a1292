/** The bounded queue between threads: what one critical section does, and the object that does it. */
module BlockingQueue {
  import opened Wrappers

  datatype Queue<T> = Queue(capacity: nat, items: seq<T>, closed: bool)

  /** How a critical section of `push` or `pop` ends; `Waits` goes to sleep and tries again later. */
  datatype Outcome<T> = Waits | Refused | Pushed | Taken(value: T)

  function PushAttempt<T>(q: Queue<T>, v: T): (Queue<T>, Outcome<T>) {
    if q.closed then (q, Refused)
    else if |q.items| == q.capacity then (q, Waits)
    else (q.(items := q.items + [v]), Pushed)
  }

  function TryPush<T>(q: Queue<T>, v: T): (Queue<T>, bool) {
    if q.closed || |q.items| == q.capacity then (q, false) else (q.(items := q.items + [v]), true)
  }

  function PopAttempt<T>(q: Queue<T>): (Queue<T>, Outcome<T>) {
    if q.items != [] then (q.(items := q.items[1..]), Taken(q.items[0]))
    else (q, if q.closed then Refused else Waits)
  }

  function TryPop<T>(q: Queue<T>): (Queue<T>, Option<T>) {
    if q.items == [] then (q, None) else (q.(items := q.items[1..]), Some(q.items[0]))
  }

  function Close<T>(q: Queue<T>): Queue<T> {
    q.(closed := true)
  }

  /** The object. Each method is one critical section of the mutex; the notification that follows a
      successful one is a separate step. */
  class BoundedBlockingQueue<T> {
    const capacity: nat
    var items: seq<T>
    var closed: bool

    ghost function Value(): Queue<T>
      reads this
    {
      Queue(capacity, items, closed)
    }

    constructor (capacity: nat)
      requires capacity > 0
      ensures Value() == Queue(capacity, [], false)
    {
      this.capacity, items, closed := capacity, [], false;
    }

    method TryPushSection(v: T) returns (ok: bool, size: nat)
      modifies this
      ensures (Value(), ok) == TryPush(old(Value()), v) && size == |items|
    {
      if closed || |items| == capacity {
        return false, |items|;
      }
      items := items + [v];
      return true, |items|;
    }

    method PushSection(v: T) returns (outcome: Outcome<T>, size: nat)
      modifies this
      ensures (Value(), outcome) == PushAttempt(old(Value()), v) && size == |items|
    {
      size := |items|;
      if !closed && |items| == capacity {
        return Waits, size;
      }
      if closed {
        return Refused, size;
      }
      items := items + [v];
      return Pushed, |items|;
    }

    method PopSection() returns (outcome: Outcome<T>, size: nat)
      modifies this
      ensures (Value(), outcome) == PopAttempt(old(Value())) && size == |items|
    {
      if !closed && items == [] {
        return Waits, 0;
      }
      if items == [] {
        return Refused, 0;
      }
      var v := items[0];
      items := items[1..];
      return Taken(v), |items|;
    }

    method TryPopSection() returns (value: Option<T>, size: nat)
      modifies this
      ensures (Value(), value) == TryPop(old(Value())) && size == |items|
    {
      if items == [] {
        return None, 0;
      }
      var v := items[0];
      items := items[1..];
      return Some(v), |items|;
    }

    method CloseSection()
      modifies this
      ensures Value() == Close(old(Value()))
    {
      closed := true;
    }
  }
}
