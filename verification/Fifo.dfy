/**
 The bounded buffer queue as its callers see it (pkg/queue/queue.go): a FIFO with an
 overflow policy. Each operation is one atomic section of the queue's lock. An operation
 that would go to sleep on the condition variable replies `MustWait` and changes nothing;
 a woken caller repeats it. (A producer woken by the file queue does not encode its event again:
 module `QueueRefinement` says when that makes no difference.)
 */
module Fifo {
  import opened Core
  import opened Codec

  datatype Policy = DropOldest | DropNewest | Block

  datatype Op = Enqueue(ev: Event) | Dequeue(cancelled: bool) | Close

  datatype Reply =
    | Returned(dropped: bool)
    | Delivered(event: Event)
    | Ended
    | MustWait
    | Shut

  datatype Queue = Queue(policy: Policy, capacity: nat, items: seq<Event>, closed: bool, overflows: nat)

  function Step(q: Queue, op: Op): (Queue, Reply) {
    match op
    case Enqueue(ev) =>
      if q.closed then (q, Returned(false))
      else if |q.items| < q.capacity then (q.(items := q.items + [ev]), Returned(false))
      else (match q.policy
            case DropNewest => (q.(overflows := q.overflows + 1), Returned(true))
            case Block => (q, MustWait)
            case DropOldest =>
              (q.(items := (if q.items == [] then [] else q.items[1..]) + [ev], overflows := q.overflows + 1),
               Returned(true)))
    case Dequeue(cancelled) =>
      if q.items != [] then (q.(items := q.items[1..]), Delivered(q.items[0]))
      else if q.closed || cancelled then (q, Ended)
      else (q, MustWait)
    case Close => (q.(closed := true), Shut)
  }

  function Fresh(policy: Policy, capacity: nat): Queue {
    Queue(policy, capacity, [], false, 0)
  }

  /** The queue after a whole run, and the replies along the way. */
  function Run(q: Queue, ops: seq<Op>): (r: (Queue, seq<Reply>))
    ensures |r.1| == |ops|
    decreases |ops|
  {
    if ops == [] then (q, []) else
      var (q1, reply) := Step(q, ops[0]);
      var (q2, replies) := Run(q1, ops[1..]);
      (q2, [reply] + replies)
  }

  // ----- Conservation -------------------------------------------------------------

  /** An event leaving the queue: handed to a consumer, or evicted to make room. */
  datatype Departure = Departure(event: Event, evicted: bool)

  /** What one operation lets into the queue, and what it makes leave. */
  function Admits(q: Queue, op: Op): seq<Event> {
    if op.Enqueue? && !q.closed && (|q.items| < q.capacity || q.policy.DropOldest?) then [op.ev] else []
  }

  function Departs(q: Queue, op: Op): seq<Departure> {
    match op
    case Enqueue(ev) =>
      if !q.closed && |q.items| >= q.capacity && q.policy.DropOldest? && q.items != []
      then [Departure(q.items[0], true)] else []
    case Dequeue(_) => if q.items != [] then [Departure(q.items[0], false)] else []
    case Close => []
  }

  /** The same over a run, in order. */
  function Admitted(q: Queue, ops: seq<Op>): seq<Event>
    decreases |ops|
  {
    if ops == [] then [] else Admits(q, ops[0]) + Admitted(Step(q, ops[0]).0, ops[1..])
  }

  function Departed(q: Queue, ops: seq<Op>): seq<Departure>
    decreases |ops|
  {
    if ops == [] then [] else Departs(q, ops[0]) + Departed(Step(q, ops[0]).0, ops[1..])
  }

  function Events(ds: seq<Departure>): seq<Event> {
    seq(|ds|, i requires 0 <= i < |ds| => ds[i].event)
  }

  /** What consumers received: read off the departures, and read off the replies. */
  function Served(ds: seq<Departure>): seq<Event> {
    if ds == [] then [] else (if ds[0].evicted then [] else [ds[0].event]) + Served(ds[1..])
  }

  function Deliveries(replies: seq<Reply>): seq<Event> {
    if replies == [] then []
    else (if replies[0].Delivered? then [replies[0].event] else []) + Deliveries(replies[1..])
  }

  function CountDrops(replies: seq<Reply>): nat {
    if replies == [] then 0
    else (if replies[0] == Returned(true) then 1 else 0) + CountDrops(replies[1..])
  }

  /**
   Nothing is lost, duplicated or reordered: what was buffered at the start followed by what
   was admitted is what departed followed by what is buffered at the end. Consumers receive
   exactly the departures that were not evictions. The overflow counter moves by exactly the
   number of calls that reported a drop, and the capacity is respected.
   */
  lemma {:induction false} Conservation(q: Queue, ops: seq<Op>)
    requires q.capacity > 0 && |q.items| <= q.capacity
    ensures var (q', replies) := Run(q, ops);
      && q.items + Admitted(q, ops) == Events(Departed(q, ops)) + q'.items
      && Deliveries(replies) == Served(Departed(q, ops))
      && q'.overflows == q.overflows + CountDrops(replies)
      && |q'.items| <= q.capacity
    decreases |ops|
  {
    hide Step, Admits, Departs;
    if ops == [] {
      assert q.items + [] == [] + q.items;
      assert Events([]) == [];
    } else {
      var q1 := Step(q, ops[0]).0;
      StepConserves(q, ops[0]);
      Conservation(q1, ops[1..]);
      EventsConcat(Departs(q, ops[0]), Departed(q1, ops[1..]));
      Splice(q.items, Admits(q, ops[0]), Events(Departs(q, ops[0])), q1.items,
             Admitted(q1, ops[1..]), Events(Departed(q1, ops[1..])), Run(q1, ops[1..]).0.items);
      assert Run(q, ops).1[1..] == Run(q1, ops[1..]).1;
      if Departs(q, ops[0]) == [] {
        assert Departed(q, ops) == Departed(q1, ops[1..]);
      } else {
        assert Departed(q, ops)[1..] == Departed(q1, ops[1..]);
      }
    }
  }

  lemma StepConserves(q: Queue, op: Op)
    requires q.capacity > 0 && |q.items| <= q.capacity
    ensures q.items + Admits(q, op) == Events(Departs(q, op)) + Step(q, op).0.items
    ensures Step(q, op).0.capacity == q.capacity
    ensures |Departs(q, op)| <= 1
    ensures Step(q, op).1.Delivered? <==> Departs(q, op) != [] && !Departs(q, op)[0].evicted
    ensures Step(q, op).1.Delivered? ==> Step(q, op).1.event == Departs(q, op)[0].event
    ensures |Step(q, op).0.items| <= q.capacity
    ensures Step(q, op).0.overflows == q.overflows + if Step(q, op).1 == Returned(true) then 1 else 0
  {
    var items, items' := q.items, Step(q, op).0.items;
    if Departs(q, op) == [] {
      assert items + Admits(q, op) == items';
      assert Events([]) + items' == items';
    } else {
      assert Events(Departs(q, op)) == [items[0]];
      assert items == [items[0]] + items[1..];
      assert items + Admits(q, op) == [items[0]] + items';
    }
  }

  lemma EventsConcat(a: seq<Departure>, b: seq<Departure>)
    ensures Events(a + b) == Events(a) + Events(b)
  {
  }

  lemma Splice(i0: seq<Event>, a: seq<Event>, d: seq<Event>, i1: seq<Event>,
               a': seq<Event>, d': seq<Event>, i2: seq<Event>)
    requires i0 + a == d + i1 && i1 + a' == d' + i2
    ensures i0 + (a + a') == d + d' + i2
  {
    calc {
      i0 + (a + a');
      (i0 + a) + a';
      (d + i1) + a';
      d + (i1 + a');
      d + (d' + i2);
      d + d' + i2;
    }
  }

  // ----- What the callers are told ---------------------------------------------------

  /** An event was lost in a call: the queue was open, the caller was not told to wait, and yet the
      queue holds no more than before. Either the event or an older one is gone. */
  predicate Loses(q: Queue, q': Queue, reply: Reply) {
    !q.closed && !reply.MustWait? && |q'.items| <= |q.items|
  }

  /**
   What a producer is told, by what became of the queue: `Returned(true)` exactly when an event was
   lost, and the counter moves exactly then. At capacity the oldest event is lost, or the new one, or
   none and the producer waits, as the policy says; below capacity, and after closing, none is.
   */
  lemma LossIsReported(q: Queue, ev: Event)
    requires q.capacity > 0 && |q.items| <= q.capacity
    ensures var (q', reply) := Step(q, Enqueue(ev));
      && (reply == Returned(true) <==> Loses(q, q', reply))
      && (reply == Returned(false) <==> q.closed || q'.items == q.items + [ev])
      && (reply == MustWait <==> !q.closed && q.policy == Block && |q.items| == q.capacity)
      && q'.overflows == q.overflows + (if Loses(q, q', reply) then 1 else 0)
      && (Loses(q, q', reply) <==> !q.closed && q.policy != Block && |q.items| == q.capacity)
      && (Loses(q, q', reply) ==> q'.items == if q.policy == DropOldest then q.items[1..] + [ev] else q.items)
      && (!Loses(q, q', reply) && reply != Returned(false) ==> q' == q)
  {
  }

  /** What a consumer is told: the oldest event; without one, the end if the queue is closed or its
      context is cancelled, and to wait otherwise. Neither it nor closing loses anything. */
  lemma ConsumersAreTold(q: Queue, cancelled: bool)
    ensures var (q', reply) := Step(q, Dequeue(cancelled));
      && (reply.Delivered? <==> q.items != [])
      && (reply.Delivered? ==> [reply.event] + q'.items == q.items)
      && (reply == Ended <==> q.items == [] && (q.closed || cancelled))
      && (reply == MustWait <==> q.items == [] && !q.closed && !cancelled)
      && q'.overflows == q.overflows && q'.closed == q.closed
    ensures var (q', reply) := Step(q, Close); q' == q.(closed := true)
  {
    if q.items != [] { assert q.items == [q.items[0]] + q.items[1..]; }
  }

  function Evictions(ds: seq<Departure>): nat {
    if ds == [] then 0 else (if ds[0].evicted then 1 else 0) + Evictions(ds[1..])
  }

  /** The events offered to an open queue that did not get in: those turned away, and how often a
      producer was told to wait. */
  function TurnedAway(q: Queue, ops: seq<Op>): nat
    decreases |ops|
  {
    if ops == [] then 0 else
      var (q', reply) := Step(q, ops[0]);
      (if ops[0].Enqueue? && !q.closed && Admits(q, ops[0]) == [] && !reply.MustWait? then 1 else 0)
      + TurnedAway(q', ops[1..])
  }

  function Waits(q: Queue, ops: seq<Op>): nat
    decreases |ops|
  {
    if ops == [] then 0 else
      var (q', reply) := Step(q, ops[0]);
      (if ops[0].Enqueue? && reply.MustWait? then 1 else 0) + Waits(q', ops[1..])
  }

  function Offers(q: Queue, ops: seq<Op>): nat
    decreases |ops|
  {
    if ops == [] then 0
    else (if ops[0].Enqueue? && !q.closed then 1 else 0) + Offers(Step(q, ops[0]).0, ops[1..])
  }

  /**
   Every loss is counted and every offer accounted for. Over any run the overflow counter grows by the
   evicted departures and the events turned away, and the events offered to the open queue are those
   admitted, those turned away and those told to wait.
   */
  lemma {:induction false} LossesAreCounted(q: Queue, ops: seq<Op>)
    requires q.capacity > 0 && |q.items| <= q.capacity
    ensures Run(q, ops).0.overflows == q.overflows + Evictions(Departed(q, ops)) + TurnedAway(q, ops)
    ensures Offers(q, ops) == |Admitted(q, ops)| + TurnedAway(q, ops) + Waits(q, ops)
    decreases |ops|
  {
    if ops != [] {
      var (q1, reply) := Step(q, ops[0]);
      StepCounts(q, ops[0]);
      StepConserves(q, ops[0]);
      hide Step, Admits, Departs;
      LossesAreCounted(q1, ops[1..]);
      if Departs(q, ops[0]) == [] {
        assert Departed(q, ops) == Departed(q1, ops[1..]);
      } else {
        assert Departed(q, ops)[1..] == Departed(q1, ops[1..]);
      }
    }
  }

  lemma StepCounts(q: Queue, op: Op)
    requires q.capacity > 0 && |q.items| <= q.capacity
    ensures var (q', reply) := Step(q, op);
      && q'.overflows == q.overflows + (if Departs(q, op) != [] && Departs(q, op)[0].evicted then 1 else 0)
           + (if op.Enqueue? && !q.closed && Admits(q, op) == [] && !reply.MustWait? then 1 else 0)
      && |Admits(q, op)| <= 1 && (Admits(q, op) != [] ==> op.Enqueue? && !q.closed && !reply.MustWait?)
      && (op.Enqueue? && reply.MustWait? ==> !q.closed)
  {
  }

  /** Under the blocking policy nothing is ever evicted: a consumer sees every admitted event. */
  lemma {:induction false} BlockingLosesNothing(q: Queue, ops: seq<Op>)
    requires q.policy.Block?
    ensures forall d :: d in Departed(q, ops) ==> !d.evicted
    ensures CountDrops(Run(q, ops).1) == 0
    decreases |ops|
  {
    if ops != [] {
      var (q1, reply) := Step(q, ops[0]);
      BlockingLosesNothing(q1, ops[1..]);
      assert Run(q, ops).1[1..] == Run(q1, ops[1..]).1;
    }
  }

  // ----- The same queue behind a write-ahead log -----------------------------------

  const MAX_FRAME_PAYLOAD: nat := 0x400_0000

  /** Records over 64 MiB are skipped by the reader as if they were corrupt. */
  predicate Oversize(ev: Event) { |Encode(ev)| > MAX_FRAME_PAYLOAD }

  function SkipOversize(items: seq<Event>): seq<Event> {
    if items != [] && Oversize(items[0]) then SkipOversize(items[1..]) else items
  }

  /** The file queue: like `Step`, but a dequeue first skips oversize records, ends the
      stream if that empties the queue, and delivers what the codec carries. */
  function FileStep(q: Queue, op: Op): (Queue, Reply) {
    if op.Dequeue? && q.items != [] then
      var items := SkipOversize(q.items);
      if items == [] then (q.(items := []), Ended)
      else (q.(items := items[1..]), Delivered(Norm(items[0])))
    else Step(q, op)
  }

  function FileRun(q: Queue, ops: seq<Op>): (r: (Queue, seq<Reply>))
    ensures |r.1| == |ops|
    decreases |ops|
  {
    if ops == [] then (q, []) else
      var (q1, reply) := FileStep(q, ops[0]);
      var (q2, replies) := FileRun(q1, ops[1..]);
      (q2, [reply] + replies)
  }

  /** The file queue reports and counts its losses in the same way, whatever records it skips: each
      enqueue is the FIFO's, and over any run the counter moves by the calls that reported a loss. */
  lemma {:induction false} FileLossesAreCounted(q: Queue, ops: seq<Op>)
    requires q.capacity > 0 && |q.items| <= q.capacity
    ensures forall ev :: FileStep(q, Enqueue(ev)) == Step(q, Enqueue(ev))
    ensures FileRun(q, ops).0.overflows == q.overflows + CountDrops(FileRun(q, ops).1)
    ensures |FileRun(q, ops).0.items| <= q.capacity
    decreases |ops|
  {
    forall ev ensures FileStep(q, Enqueue(ev)) == Step(q, Enqueue(ev)) { }
    if ops != [] {
      hide FileStep, Step;
      var (q1, reply) := FileStep(q, ops[0]);
      FileStepCounts(q, ops[0]);
      FileLossesAreCounted(q1, ops[1..]);
      assert FileRun(q, ops).1[1..] == FileRun(q1, ops[1..]).1;
    }
  }

  lemma FileStepCounts(q: Queue, op: Op)
    requires q.capacity > 0 && |q.items| <= q.capacity
    ensures var (q', reply) := FileStep(q, op);
      && q'.overflows == q.overflows + (if reply == Returned(true) then 1 else 0)
      && q'.capacity == q.capacity && |q'.items| <= q.capacity
  {
    hide SkipOversize;
    SkipShrinks(q.items);
  }

  function NormReply(r: Reply): Reply {
    if r.Delivered? then Delivered(Norm(r.event)) else r
  }

  function NormReplies(rs: seq<Reply>): seq<Reply> {
    seq(|rs|, i requires 0 <= i < |rs| => NormReply(rs[i]))
  }

  /** One step of the two queues agrees exactly when no oversize record is at the front of a dequeue. */
  lemma StepsAgree(q: Queue, op: Op)
    ensures FileStep(q, op) == (Step(q, op).0, NormReply(Step(q, op).1))
        <==> !(op.Dequeue? && q.items != [] && Oversize(q.items[0]))
  {
    if op.Dequeue? && q.items != [] && Oversize(q.items[0]) {
      SkipShrinks(q.items[1..]);
    }
  }

  lemma {:induction false} SkipShrinks(items: seq<Event>)
    ensures |SkipOversize(items)| <= |items|
    ensures SkipOversize(items) == [] <==> forall ev :: ev in items ==> Oversize(ev)
  {
    if items != [] {
      SkipShrinks(items[1..]);
      assert items[0] in items;
    }
  }

  /** A dequeue ends the stream of a queue that is still open exactly when every buffered
      record is oversize. */
  lemma EarlyEnd(q: Queue)
    requires !q.closed
    ensures FileStep(q, Dequeue(false)).1 == Ended
        <==> q.items != [] && forall ev :: ev in q.items ==> Oversize(ev)
  {
    SkipShrinks(q.items);
  }

  /** For whole runs without oversize records, the file queue and the in-memory queue hold the
      same events, report the same drops, counters and ends, and deliver the same events up to
      what the codec carries. */
  lemma {:induction false} RunsAgree(q: Queue, ops: seq<Op>)
    requires forall ev :: ev in q.items ==> !Oversize(ev)
    requires forall op :: op in ops && op.Enqueue? ==> !Oversize(op.ev)
    ensures FileRun(q, ops).0 == Run(q, ops).0
    ensures FileRun(q, ops).1 == NormReplies(Run(q, ops).1)
    decreases |ops|
  {
    hide Step, FileStep, Oversize, Norm;
    if ops != [] {
      assert ops[0] in ops;
      StepsAgree(q, ops[0]);
      var (q1, reply) := Step(q, ops[0]);
      StepKeepsSmall(q, ops[0]);
      RunsAgree(q1, ops[1..]);
      assert NormReplies([reply] + Run(q1, ops[1..]).1) == [NormReply(reply)] + NormReplies(Run(q1, ops[1..]).1);
    }
  }

  lemma StepKeepsSmall(q: Queue, op: Op)
    requires forall ev :: ev in q.items ==> !Oversize(ev)
    requires op.Enqueue? ==> !Oversize(op.ev)
    ensures forall ev :: ev in Step(q, op).0.items ==> !Oversize(ev)
  {
  }
}
