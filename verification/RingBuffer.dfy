/**
 The in-memory queue backend (pkg/queue/ringbuffer.go): a fixed array with head, tail and
 count, proved to be the bounded FIFO of module `Fifo`, operation by operation.
 */
module Ring {
  import opened Core
  import opened Fifo

  class RingBuffer {
    const capacity: nat
    const policy: Policy
    const buf: array<Option<Event>>
    var head: nat
    var tail: nat
    var count: nat
    var closed: bool
    var overflows: nat  // what the metrics collector has counted

    /** The array index of the i-th oldest slot. */
    function Slot(i: nat): nat
      reads this`head
    {
      if head + i < capacity then head + i else head + i - capacity
    }

    /** The occupied slots, from `head` on, hold events. */
    ghost predicate Valid()
      reads this, buf
    {
      && capacity > 0
      && buf.Length == capacity
      && head < capacity
      && count <= capacity
      && tail == (if count == capacity then head else Slot(count))
      && (forall i :: 0 <= i < count ==> buf[Slot(i)].Some?)
    }

    ghost function Items(): seq<Event>
      requires Valid()
      reads this, buf
    {
      seq(count, i requires 0 <= i < count && Valid() reads this, buf => buf[Slot(i)].value)
    }

    /** The abstract queue this buffer represents. */
    ghost function Abs(): Queue
      requires Valid()
      reads this, buf
    {
      Queue(policy, capacity, Items(), closed, overflows)
    }

    constructor (capacity: nat, policy: Policy)
      requires capacity > 0
      ensures Valid() && Abs() == Fresh(policy, capacity)
      ensures fresh(buf)
    {
      this.capacity, this.policy := capacity, policy;
      buf := new Option<Event>[capacity](_ => None);
      head, tail, count, closed, overflows := 0, 0, 0, false, 0;
    }

    /** Writes at the tail and advances it. */
    method Push(ev: Event)
      requires Valid() && count < capacity
      modifies buf, this`tail, this`count
      ensures Valid() && Items() == old(Items()) + [ev]
    {
      Wraps(tail, capacity);
      assert forall i :: 0 <= i < capacity && i != count ==> Slot(i) != Slot(count);
      buf[tail] := Some(ev);
      tail := (tail + 1) % capacity;
      count := count + 1;
    }

    /** Enqueue, with the overflow policy applied at capacity. */
    method Enqueue(ev: Event) returns (reply: Reply)
      requires Valid()
      modifies this`head, this`tail, this`count, this`overflows, buf
      ensures Valid() && (Abs(), reply) == Step(old(Abs()), Fifo.Enqueue(ev))
    {
      if closed { return Returned(false); }
      if count < capacity {
        Push(ev);
        return Returned(false);
      }
      match policy {
        case DropNewest =>
          overflows := overflows + 1;
          assert Items() == old(Items());
          reply := Returned(true);
        case Block =>
          reply := MustWait;
        case DropOldest =>
          // The buffer is full, so the push reuses the slot of the evicted event.
          Evict();
          Push(ev);
          ghost var items := Items();
          overflows := overflows + 1;
          assert Items() == items;
          reply := Returned(true);
      }
    }

    /** Forgets the oldest event. */
    method Evict()
      requires Valid() && count > 0
      modifies this`head, this`count
      ensures Valid() && Items() == old(Items())[1..] && count == old(count) - 1
    {
      Wraps(head, capacity);
      head := (head + 1) % capacity;
      count := count - 1;
      assert forall i :: 0 <= i < count ==> Slot(i) == old(Slot(i + 1));
    }

    /** Takes the oldest event out and clears its slot. */
    method Pop() returns (ev: Event)
      requires Valid() && count > 0
      modifies this`head, this`count, buf
      ensures Valid() && ev == old(Items())[0] && Items() == old(Items())[1..]
    {
      assert Slot(0) == head;
      ev := buf[head].value;
      assert forall i :: 0 < i < capacity ==> Slot(i) != head;
      buf[head] := None;
      Wraps(head, capacity);
      head := (head + 1) % capacity;
      count := count - 1;
      assert forall i :: 0 <= i < count ==> Slot(i) == old(Slot(i + 1));
    }

    /** Dequeue; `cancelled` is whether the caller's context is already done. */
    method Dequeue(cancelled: bool) returns (reply: Reply)
      requires Valid()
      modifies this`head, this`count, buf
      ensures Valid() && (Abs(), reply) == Step(old(Abs()), Fifo.Dequeue(cancelled))
    {
      if count == 0 && !closed && !cancelled { return MustWait; }
      if count == 0 { return Ended; }
      var ev := Pop();
      reply := Delivered(ev);
    }

    method Depth() returns (n: nat)
      requires Valid()
      ensures n == |Abs().items| && n <= capacity
    {
      n := count;
    }

    method Close() returns (reply: Reply)
      requires Valid()
      modifies this`closed
      ensures Valid() && (Abs(), reply) == Step(old(Abs()), Fifo.Close)
    {
      closed := true;
      assert Items() == old(Items());
      reply := Shut;
    }
  }

  lemma Wraps(x: nat, n: nat)
    requires x < n
    ensures (x + 1) % n == if x + 1 == n then 0 else x + 1
  {
    if x + 1 < n { SmallMod(x + 1, n); }
  }

  lemma SmallMod(x: nat, n: nat)
    requires x < n
    ensures x % n == x
  {
  }
}
