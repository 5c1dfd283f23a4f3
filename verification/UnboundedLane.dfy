/**
 The lane buffer (pkg/replayer/unbounded_lane.go): an object guarded by its own lock. Each method is
 one section of that lock, and is what the corresponding step of module `Replay` does to its lane.
 */
module UnboundedLanes {
  import opened Core
  import Replay

  datatype Taken = Next(event: Event) | Ended | MustWait

  class UnboundedLane {
    var buf: seq<Event>
    var closed: bool

    /** This buffer as the lane `key` whose worker is at `w`. */
    ghost function Lane(key: string, w: Replay.Worker): Replay.Lane
      reads this
    {
      Replay.Lane(key, buf, closed, w)
    }

    constructor ()
      ensures forall key :: Lane(key, Replay.Idle) == Replay.Lane(key, [], false, Replay.Idle)
    {
      buf, closed := [], false;
    }

    /** Never blocks. */
    method Enqueue(ev: Event)
      modifies this
      ensures forall key, w :: Lane(key, w) == old(Lane(key, w)).(buf := old(buf) + [ev])
    {
      buf := buf + [ev];
    }

    /** One attempt to dequeue: `MustWait` leaves the caller asleep on the condition variable. What is
        buffered is handed out in order, also after `Close`. */
    method Dequeue() returns (r: Taken)
      modifies this
      ensures r.Next? <==> old(buf) != []
      ensures r.Ended? <==> old(buf) == [] && old(closed)
      ensures r.Next? ==> forall key ::
        Lane(key, Replay.Holding(r.event)) == Replay.Moved(Replay.Take(0), old(Lane(key, Replay.Idle)))
      ensures !r.Next? ==> buf == old(buf) && closed == old(closed)
    {
      if buf == [] {
        return if closed then Ended else MustWait;
      }
      r := Next(buf[0]);
      buf := buf[1..];
    }

    method Close()
      modifies this
      ensures forall key, w :: Lane(key, w) == old(Lane(key, w)).(closed := true)
    {
      closed := true;
    }

    method Len() returns (n: nat)
      ensures n == |buf|
    {
      return |buf|;
    }
  }
}
