/**
 Graceful shutdown (cmd/pgshadow/pipeline.go, `drainWithin`): the drain stops the producer, closes
 the queue, waits for the replayer and closes the connection pool, while producer, dispatcher and
 workers go on. Both waits may time out.
 */
module Drain {
  import opened Core
  import Fifo
  import Replay
  import Progress

  /** What the drain does next. */
  datatype Phase =
    | StopCapture | AwaitProducer | CloseQueue | AwaitConsumer | Decide | JoinConsumer | ClosePool | Finished

  /** `aborted`: the executor's abort policy cancelled the replayer. `atClose`: every event that had
      been delivered, and what the queue would deliver of those still queued, when it was closed. */
  datatype System = System(
    replay: Replay.State,
    phase: Phase,
    timedOut: bool,
    aborted: bool,
    producerDone: bool,
    atClose: Option<seq<Event>>)

  datatype Move =
    | Replayer(step: Replay.Step)
    | ProducerExits
    | Abort
    | Advance          // the drain's next action, or a wait that ends as it should
    | TimeOut          // a wait that gives up

  function Init(queue: Fifo.Queue): System {
    System(Replay.Init(queue), StopCapture, false, false, false, None)
  }

  predicate Enabled(cfg: Replay.Config, s: System, m: Move) {
    match m
    case Replayer(a) =>
      !a.CloseQueue? && !a.Cancel? && (a.Produce? ==> !s.producerDone) && Replay.Enabled(cfg, s.replay, a)
    case ProducerExits => true
    case Abort => true
    case Advance =>
      (match s.phase
       case AwaitProducer => s.producerDone
       case AwaitConsumer => s.replay.dispatcher.Done?
       case JoinConsumer => s.replay.dispatcher.Done?
       case Finished => false
       case _ => true)
    case TimeOut => s.phase.AwaitProducer? || s.phase.AwaitConsumer?
  }

  function Cancelled(cfg: Replay.Config, r: Replay.State): Replay.State {
    Replay.Next(cfg, r, Replay.Cancel)
  }

  function AfterWait(p: Phase): Phase { if p.AwaitProducer? then CloseQueue else Decide }

  function Next(cfg: Replay.Config, s: System, m: Move): System
    requires Enabled(cfg, s, m)
  {
    match m
    case Replayer(a) => s.(replay := Replay.Next(cfg, s.replay, a))
    case ProducerExits => s.(producerDone := true)
    case Abort => s.(replay := Cancelled(cfg, s.replay), aborted := true)
    case TimeOut => s.(phase := AfterWait(s.phase), timedOut := true)
    case Advance =>
      match s.phase
      case StopCapture => s.(phase := AwaitProducer)
      case AwaitProducer => s.(phase := AfterWait(s.phase))
      case CloseQueue =>
        s.(phase := AwaitConsumer, replay := Replay.Next(cfg, s.replay, Replay.CloseQueue),
           atClose := Some(Due(cfg, s.replay)))
      case AwaitConsumer => s.(phase := AfterWait(s.phase))
      case Decide =>
        s.(phase := JoinConsumer, replay := if s.timedOut then Cancelled(cfg, s.replay) else s.replay)
      case JoinConsumer => s.(phase := ClosePool)
      case ClosePool => s.(phase := Finished, replay := Cancelled(cfg, s.replay))
  }

  predicate CanRun(cfg: Replay.Config, s: System, moves: seq<Move>)
    decreases |moves|
  {
    moves == [] || (Enabled(cfg, s, moves[0]) && CanRun(cfg, Next(cfg, s, moves[0]), moves[1..]))
  }

  function Run(cfg: Replay.Config, s: System, moves: seq<Move>): System
    requires CanRun(cfg, s, moves)
    decreases |moves|
  {
    if moves == [] then s else Run(cfg, Next(cfg, s, moves[0]), moves[1..])
  }

  /** Whether the drain has closed the queue. */
  predicate PastClose(p: Phase) {
    !p.StopCapture? && !p.AwaitProducer? && !p.CloseQueue?
  }

  /** Delivered, or still to be delivered. */
  function Due(cfg: Replay.Config, r: Replay.State): seq<Event> {
    r.dequeued + Replay.StoredAll(cfg, r.queue.items)
  }

  predicate Order(cfg: Replay.Config, s: System) {
    && (s.phase.ClosePool? || s.phase.Finished? ==> s.replay.dispatcher.Done?)
    && (s.phase.JoinConsumer? && s.timedOut ==> s.replay.cancelled || s.replay.dispatcher.Done?)
    && (s.replay.cancelled ==> s.timedOut || s.aborted)
    && (s.phase.CloseQueue? || PastClose(s.phase) ==> s.timedOut || s.producerDone)
    && (s.replay.queue.closed <==> PastClose(s.phase))
    && (PastClose(s.phase) ==> s.atClose.Some? && (s.replay.skipped || s.atClose.value == Due(cfg, s.replay)))
  }

  ghost predicate Inv(cfg: Replay.Config, s: System) {
    Replay.Inv(cfg, s.replay) && Order(cfg, s)
  }

  /** A replayer step keeps what is due once the queue is closed, unless it skips a record. */
  lemma ReplayerOrder(cfg: Replay.Config, s: Replay.State, a: Replay.Step)
    requires Replay.Enabled(cfg, s, a) && !a.CloseQueue? && !a.Cancel?
    ensures var t := Replay.Next(cfg, s, a);
      && t.cancelled == s.cancelled && t.queue.closed == s.queue.closed && (s.skipped ==> t.skipped)
      && (s.dispatcher.Done? ==> t.dispatcher.Done?)
      && (s.queue.closed ==> t.skipped || Due(cfg, t) == Due(cfg, s))
  {
    hide Replay.QueueStep, Replay.Fetched, Replay.StoredAll, Replay.Skips;
    if a.Fetch? {
      Replay.FetchCases(cfg, s);
      FetchKeepsDue(cfg, s);
    } else {
      Replay.QueueCases(cfg, s.queue, a);
    }
  }

  lemma FetchKeepsDue(cfg: Replay.Config, s: Replay.State)
    requires s.dispatcher.Ready?
    ensures var t := Replay.Fetched(cfg, s); t.skipped || Due(cfg, t) == Due(cfg, s)
  {
    hide Replay.QueueStep, Replay.Fetched, Replay.StoredAll, Replay.Stored, Replay.Skips;
    if Replay.Skips(cfg, s.queue) {
      Replay.SkipMarks(cfg, s);
    } else {
      Replay.FetchOldest(cfg, s);
      var items := s.queue.items;
      if items != [] {
        assert items == [items[0]] + items[1..];
        Replay.StoredConcat(cfg, [items[0]], items[1..]);
        Replay.StoredOne(cfg, items[0]);
        Replay.Regroup(s.dequeued, [Replay.Stored(cfg, items[0])], Replay.StoredAll(cfg, items[1..]));
      }
    }
  }

  lemma CancelOrder(cfg: Replay.Config, r: Replay.State)
    ensures var t := Cancelled(cfg, r);
      t == r.(cancelled := t.cancelled) && (t.cancelled <==> r.cancelled || !r.dispatcher.Done?)
  {
  }

  lemma MoveKeepsInv(cfg: Replay.Config, s: System, m: Move)
    requires Inv(cfg, s) && Enabled(cfg, s, m)
    ensures Inv(cfg, Next(cfg, s, m))
  {
    hide Replay.Inv, Replay.Next, Replay.Enabled, Due;
    if m.Replayer? {
      Replay.StepKeepsInv(cfg, s.replay, m.step);
      ReplayerOrder(cfg, s.replay, m.step);
    } else {
      OwnMove(cfg, s, m);
    }
  }

  lemma OwnMove(cfg: Replay.Config, s: System, m: Move)
    requires Inv(cfg, s) && Enabled(cfg, s, m) && !m.Replayer?
    ensures Inv(cfg, Next(cfg, s, m))
  {
    hide Replay.Inv, Cancelled, Replay.QueueStep, Replay.StoredAll;
    CancelOrder(cfg, s.replay);
    Replay.QueueCases(cfg, s.replay.queue, Replay.CloseQueue);
    Replay.StepKeepsInv(cfg, s.replay, Replay.Cancel);
    CancelKeepsInv(cfg, s.replay);
    Replay.StepKeepsInv(cfg, s.replay, Replay.CloseQueue);
  }

  lemma CancelKeepsInv(cfg: Replay.Config, r: Replay.State)
    requires Replay.Inv(cfg, r)
    ensures Replay.Inv(cfg, Cancelled(cfg, r))
  {
    hide Replay.Inv;
    Replay.StepKeepsInv(cfg, r, Replay.Cancel);
  }

  lemma {:induction false} RunKeepsInv(cfg: Replay.Config, s: System, moves: seq<Move>)
    requires Inv(cfg, s) && CanRun(cfg, s, moves)
    ensures Inv(cfg, Run(cfg, s, moves))
    decreases |moves|
  {
    hide Inv, Next, Enabled;
    if moves != [] {
      MoveKeepsInv(cfg, s, moves[0]);
      RunKeepsInv(cfg, Next(cfg, s, moves[0]), moves[1..]);
    }
  }

  lemma InitInv(cfg: Replay.Config, queue: Fifo.Queue)
    requires !queue.closed
    ensures Inv(cfg, Init(queue))
  {
    hide Replay.Inv;
    Replay.InitInv(cfg, queue);
  }

  /** In every run the pool is closed only after the replayer has returned: no worker is inside the
      executor, nor will one be. */
  lemma PoolClosesLast(cfg: Replay.Config, queue: Fifo.Queue, moves: seq<Move>)
    requires !queue.closed && CanRun(cfg, Init(queue), moves)
    requires Run(cfg, Init(queue), moves).phase.Finished?
    ensures var r := Run(cfg, Init(queue), moves).replay;
      && r.dispatcher.Done?
      && forall i :: 0 <= i < |r.lanes| ==> r.lanes[i].worker.Retired?
  {
    hide Run, Init, Replay.Distinct, Replay.Own, Replay.Flow, Replay.Serially, Replay.Slots, Replay.Depth;
    InitInv(cfg, queue);
    RunKeepsInv(cfg, Init(queue), moves);
    var r := Run(cfg, Init(queue), moves).replay;
    forall i | 0 <= i < |r.lanes| ensures r.lanes[i].worker.Retired? {
      assert Replay.LaneLife(r, i);
    }
  }

  /**
   If the replayer was not cancelled while it ran, which takes a timed-out wait or an abort, then by
   the time the pool is closed every event delivered before the queue was closed or still queued then
   has been executed exactly once, each lane's in queue order; and unless the producer timed out,
   nothing was enqueued after that. The file queue must not have skipped an over-long record.
   */
  lemma DrainLosesNothing(cfg: Replay.Config, queue: Fifo.Queue, moves: seq<Move>)
    requires !queue.closed && CanRun(cfg, Init(queue), moves)
    requires Run(cfg, Init(queue), moves).phase.Finished?
    ensures var s := Run(cfg, Init(queue), moves);
      && (!s.timedOut && !s.aborted ==> !s.replay.cancelled)
      && (!s.timedOut ==> s.producerDone)
      && (!s.replay.cancelled && !s.replay.skipped ==>
            && s.atClose.Some?
            && (forall key :: Replay.Of(cfg, s.replay.finished, key) == Replay.Of(cfg, s.atClose.value, key))
            && multiset(s.replay.finished) == multiset(s.atClose.value))
  {
    hide Run, Init, Replay.Inv, Replay.Of, Replay.StoredAll;
    InitInv(cfg, queue);
    RunKeepsInv(cfg, Init(queue), moves);
    var s := Run(cfg, Init(queue), moves);
    if !s.replay.cancelled && !s.replay.skipped {
      Replay.AllStarted(cfg, s.replay);
      QueueEnded(cfg, s.replay);
      assert s.replay.dequeued + [] == s.replay.dequeued;
    }
  }

  lemma QueueEnded(cfg: Replay.Config, r: Replay.State)
    requires Replay.Inv(cfg, r) && r.dispatcher.Done? && !r.cancelled && !r.skipped
    ensures r.queue.items == [] && Replay.StoredAll(cfg, r.queue.items) == []
    ensures r.queue.policy.Block? ==> Replay.StoredAll(cfg, r.admitted) == r.dequeued
  {
    hide Replay.Distinct, Replay.Own, Replay.Flow, Replay.Serially, Replay.Slots, Replay.Depth;
    assert r.dequeued + [] == r.dequeued;
  }

  // ----- The shutdown ends ------------------------------------------------------------------------

  /** When a wait has timed out, the replayer is stopped before the drain waits for its end; when none
      has and nothing aborted it, it is left to finish. */
  lemma TimeoutStopsReplayer(cfg: Replay.Config, queue: Fifo.Queue, moves: seq<Move>)
    requires !queue.closed && CanRun(cfg, Init(queue), moves)
    requires Run(cfg, Init(queue), moves).phase.JoinConsumer? && !Run(cfg, Init(queue), moves).replay.dispatcher.Done?
    ensures var s := Run(cfg, Init(queue), moves);
      (s.timedOut ==> s.replay.cancelled) && (s.replay.cancelled ==> s.timedOut || s.aborted)
  {
    hide Run, Init, Replay.Inv;
    InitInv(cfg, queue);
    RunKeepsInv(cfg, Init(queue), moves);
  }

  lemma MoveKeepsListed(cfg: Replay.Config, s: System, m: Move)
    requires Enabled(cfg, s, m) && Progress.Listed(s.replay)
    ensures Progress.Listed(Next(cfg, s, m).replay)
  {
    hide Replay.Next, Progress.Listed;
    if m.Replayer? {
      Progress.StepKeepsListed(cfg, s.replay, m.step);
    } else {
      Progress.StepKeepsListed(cfg, s.replay, Replay.Cancel);
      Progress.StepKeepsListed(cfg, s.replay, Replay.CloseQueue);
    }
  }

  lemma {:induction false} RunKeepsListed(cfg: Replay.Config, s: System, moves: seq<Move>)
    requires CanRun(cfg, s, moves) && Progress.Listed(s.replay)
    ensures Progress.Listed(Run(cfg, s, moves).replay)
    decreases |moves|
  {
    hide Next, Enabled, Progress.Listed;
    if moves != [] {
      MoveKeepsListed(cfg, s, moves[0]);
      RunKeepsListed(cfg, Next(cfg, s, moves[0]), moves[1..]);
    }
  }

  /** The replayer goes on while the drain waits. */
  lemma {:induction false} ReplayerRuns(cfg: Replay.Config, s: System, steps: seq<Replay.Step>)
    returns (moves: seq<Move>)
    requires Replay.CanRun(cfg, s.replay, steps) && forall i :: 0 <= i < |steps| ==> Progress.OwnStep(steps[i])
    ensures CanRun(cfg, s, moves) && Run(cfg, s, moves) == s.(replay := Replay.Run(cfg, s.replay, steps))
    ensures forall i :: 0 <= i < |moves| ==> moves[i].Replayer?
    decreases |steps|
  {
    hide Replay.Next, Replay.Enabled;
    moves := [];
    if steps != [] {
      var m := Replayer(steps[0]);
      var rest := ReplayerRuns(cfg, Next(cfg, s, m), steps[1..]);
      moves := [m] + rest;
      assert moves[1..] == rest;
    }
  }

  function Left(p: Phase): nat {
    match p
    case StopCapture => 7 case AwaitProducer => 6 case CloseQueue => 5 case AwaitConsumer => 4
    case Decide => 3 case JoinConsumer => 2 case ClosePool => 1 case Finished => 0
  }

  /** No wait times out and nothing aborts. */
  predicate Calm(m: Move) { m.Replayer? || m.ProducerExits? || m.Advance? }

  lemma {:induction false} RunConcat(cfg: Replay.Config, s: System, a: seq<Move>, b: seq<Move>)
    requires CanRun(cfg, s, a) && CanRun(cfg, Run(cfg, s, a), b)
    ensures CanRun(cfg, s, a + b) && Run(cfg, s, a + b) == Run(cfg, Run(cfg, s, a), b)
    decreases |a|
  {
    hide Next, Enabled;
    if a == [] {
      assert a + b == b;
    } else {
      assert (a + b)[1..] == a[1..] + b;
      RunConcat(cfg, Next(cfg, s, a[0]), a[1..], b);
    }
  }

  /** What enables the drain's next action: the producer's exit, or the replayer's end. */
  lemma Await(cfg: Replay.Config, s: System) returns (moves: seq<Move>)
    requires Inv(cfg, s) && Progress.Listed(s.replay) && cfg.concurrency >= 1 && cfg.maxDepth >= 1 && !s.phase.Finished?
    ensures CanRun(cfg, s, moves) && forall i :: 0 <= i < |moves| ==> Calm(moves[i])
    ensures var t := Run(cfg, s, moves); t.phase == s.phase && Enabled(cfg, t, Advance)
  {
    hide Replay.Inv, Progress.Listed, Replay.CanRun, Replay.Run;
    moves := [];
    if s.phase.AwaitProducer? {
      moves := [ProducerExits];
      assert moves[1..] == [];
    } else if s.phase.AwaitConsumer? || s.phase.JoinConsumer? {
      var steps := Progress.CanFinishFrom(cfg, s.replay);
      moves := ReplayerRuns(cfg, s, steps);
    }
  }

  lemma CanEndFrom(cfg: Replay.Config, s: System) returns (moves: seq<Move>)
    requires Inv(cfg, s) && Progress.Listed(s.replay) && cfg.concurrency >= 1 && cfg.maxDepth >= 1
    ensures CanRun(cfg, s, moves) && Run(cfg, s, moves).phase.Finished?
    ensures forall i :: 0 <= i < |moves| ==> Calm(moves[i])
    decreases Left(s.phase)
  {
    hide Inv, Progress.Listed, Enabled;
    moves := [];
    if !s.phase.Finished? {
      var wait := Await(cfg, s);
      var t := Run(cfg, s, wait);
      RunKeepsInv(cfg, s, wait);
      RunKeepsListed(cfg, s, wait);
      MoveKeepsInv(cfg, t, Advance);
      MoveKeepsListed(cfg, t, Advance);
      Advances(cfg, t);
      var rest := CanEndFrom(cfg, Next(cfg, t, Advance));
      var go := [Advance] + rest;
      assert go[1..] == rest;
      RunConcat(cfg, s, wait, go);
      moves := wait + go;
    }
  }

  lemma Advances(cfg: Replay.Config, s: System)
    requires Enabled(cfg, s, Advance)
    ensures Left(Next(cfg, s, Advance).phase) < Left(s.phase)
  {
  }

  /** From every state that a run can reach, timed out, aborted or neither, the shutdown can be completed
      by the producer's exit, the replayer and the drain alone, with the executor returning. */
  lemma DrainCanEnd(cfg: Replay.Config, queue: Fifo.Queue, run: seq<Move>) returns (moves: seq<Move>)
    requires !queue.closed && cfg.concurrency >= 1 && cfg.maxDepth >= 1 && CanRun(cfg, Init(queue), run)
    ensures var s := Run(cfg, Init(queue), run);
      CanRun(cfg, s, moves) && Run(cfg, s, moves).phase.Finished? && forall i :: 0 <= i < |moves| ==> Calm(moves[i])
  {
    hide Inv, Run, CanRun;
    InitInv(cfg, queue);
    RunKeepsInv(cfg, Init(queue), run);
    RunKeepsListed(cfg, Init(queue), run);
    moves := CanEndFrom(cfg, Run(cfg, Init(queue), run));
  }

  // ----- When nothing is skipped ---------------------------------------------------------------

  predicate SmallMove(m: Move) { m.Replayer? && m.step.Produce? ==> !Fifo.Oversize(m.step.ev) }

  predicate NoneSkipped(cfg: Replay.Config, r: Replay.State) {
    !r.skipped && (cfg.backend.File? ==> forall ev :: ev in r.queue.items ==> !Fifo.Oversize(ev))
  }

  lemma FetchSkipsNothing(cfg: Replay.Config, r: Replay.State)
    requires NoneSkipped(cfg, r)
    ensures NoneSkipped(cfg, Replay.Fetched(cfg, r))
  {
    hide Fifo.Oversize, Replay.Fetched;
    if r.queue.items != [] { assert r.queue.items[0] in r.queue.items; }
    Replay.FetchOldest(cfg, r);
  }

  lemma ProduceSmall(cfg: Replay.Config, r: Replay.State, ev: Event)
    requires NoneSkipped(cfg, r) && (cfg.backend.File? ==> !Fifo.Oversize(ev))
    ensures NoneSkipped(cfg, Replay.Next(cfg, r, Replay.Produce(ev)))
  {
    hide Fifo.Oversize;
    if cfg.backend.File? { Fifo.StepKeepsSmall(r.queue, Fifo.Enqueue(ev)); }
  }

  lemma StepSkipsNothing(cfg: Replay.Config, r: Replay.State, a: Replay.Step)
    requires Replay.Enabled(cfg, r, a) && NoneSkipped(cfg, r)
    requires cfg.backend.File? && a.Produce? ==> !Fifo.Oversize(a.ev)
    ensures NoneSkipped(cfg, Replay.Next(cfg, r, a))
  {
    hide Fifo.Oversize, Replay.Fetched, Replay.QueueStep, NoneSkipped;
    if a.Fetch? {
      FetchSkipsNothing(cfg, r);
    } else if a.Produce? {
      ProduceSmall(cfg, r, a.ev);
    } else {
      Replay.QueueCases(cfg, r.queue, a);
      SameQueue(cfg, r, Replay.Next(cfg, r, a));
    }
  }

  lemma SameQueue(cfg: Replay.Config, r: Replay.State, t: Replay.State)
    requires NoneSkipped(cfg, r) && t.skipped == r.skipped && t.queue.items == r.queue.items
    ensures NoneSkipped(cfg, t)
  {
  }

  lemma MoveSkipsNothing(cfg: Replay.Config, s: System, m: Move)
    requires Enabled(cfg, s, m) && NoneSkipped(cfg, s.replay) && (cfg.backend.File? ==> SmallMove(m))
    ensures NoneSkipped(cfg, Next(cfg, s, m).replay)
  {
    hide Fifo.Oversize, Replay.Next, NoneSkipped;
    if m.Replayer? {
      StepSkipsNothing(cfg, s.replay, m.step);
    } else {
      StepSkipsNothing(cfg, s.replay, Replay.Cancel);
      StepSkipsNothing(cfg, s.replay, Replay.CloseQueue);
    }
  }

  /** The queue in memory never skips, nor does the file queue if no record over 64 MiB is put into it. */
  lemma {:induction false} SmallRunsSkipNothing(cfg: Replay.Config, s: System, moves: seq<Move>)
    requires CanRun(cfg, s, moves) && NoneSkipped(cfg, s.replay)
    requires cfg.backend.File? ==> forall i :: 0 <= i < |moves| ==> SmallMove(moves[i])
    ensures !Run(cfg, s, moves).replay.skipped
    decreases |moves|
  {
    hide Next, Enabled, SmallMove;
    if moves != [] {
      MoveSkipsNothing(cfg, s, moves[0]);
      SmallRunsSkipNothing(cfg, Next(cfg, s, moves[0]), moves[1..]);
    }
  }
}
