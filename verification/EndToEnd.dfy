/**
 The parts joined: what the stream processor enqueues for a connection is what the replayer executes
 for it, if the queue blocks rather than drops and the shutdown is not cut short
 (pkg/pipeline/processor.go, pkg/queue, pkg/replayer, cmd/pgshadow/pipeline.go).
 */
module EndToEnd {
  import opened Core
  import Framing
  import opened Processor
  import opened NonInterference
  import Pipeline
  import Fifo
  import Replay
  import Drain

  // ----- The queue, connection by connection ---------------------------------------------------

  ghost predicate OwnConn(c: ConnId, marks: seq<Mark>) {
    forall m :: m in marks && m.Stmt? ==> m.event.conn == c
  }

  lemma HandleOwn(cfg: Config, c: ConnId, fromClient: bool, l: Local, k: nat, msg: Message, ts: I64)
    ensures OwnConn(c, Handle(cfg, c, fromClient, l, k, msg, ts).marks)
  {
  }

  lemma {:induction false} HandleAllOwn(cfg: Config, c: ConnId, fromClient: bool, l: Local,
      k: nat, msgs: seq<Message>, ts: I64)
    ensures OwnConn(c, HandleAll(cfg, c, fromClient, l, k, msgs, ts).marks)
    decreases |msgs|
  {
    hide Handle;
    if msgs != [] {
      var o := Handle(cfg, c, fromClient, l, k, msgs[0], ts);
      HandleOwn(cfg, c, fromClient, l, k, msgs[0], ts);
      HandleAllOwn(cfg, c, fromClient, o.local, o.counter, msgs[1..], ts);
    }
  }

  lemma StepOwn(cfg: Config, g: Global, call: Call)
    ensures OwnConn(call.conn, StepMarks(cfg, g, call))
  {
    hide HandleAll;
    match call
    case OnClose(_) =>
    case OnBytes(conn, fromClient, data, ts) =>
      var l := LocalOf(g, conn);
      var fed := Framing.FeedStep(if fromClient then l.client else l.server, data);
      HandleAllOwn(cfg, conn, fromClient, SetParser(l, fromClient, fed.state), g.counter, fed.msgs, ts);
  }

  ghost predicate Tagged(log: seq<Entry>) {
    forall e :: e in log && e.mark.Stmt? ==> e.mark.event.conn == e.conn
  }

  /** A logged statement carries the connection whose callback it came from. */
  lemma {:induction false} LogTagged(cfg: Config, g: Global, calls: seq<Call>)
    ensures Tagged(Log(cfg, g, calls))
    decreases |calls|
  {
    hide Step, StepMarks;
    if calls != [] {
      var call := calls[0];
      StepOwn(cfg, g, call);
      LogTagged(cfg, Step(cfg, g, call), calls[1..]);
      forall e | e in Tag(call.conn, StepMarks(cfg, g, call)) && e.mark.Stmt? ensures e.mark.event.conn == e.conn {
        assert e.mark in StepMarks(cfg, g, call);
      }
    }
  }

  function KeptEvent(m: Mark): seq<Event> { if m.Stmt? && m.kept then [m.event] else [] }

  lemma EnqueuedStep(m: Mark, ms: seq<Mark>)
    ensures Enqueued([m] + ms) == KeptEvent(m) + Enqueued(ms)
  {
    assert ([m] + ms)[1..] == ms;
  }

  lemma OfConnOne(m: Mark, c: ConnId)
    ensures m.Stmt? ==> Replay.OfConn(KeptEvent(m), c) == if m.event.conn == c then KeptEvent(m) else []
    ensures !m.Stmt? ==> KeptEvent(m) == [] == Replay.OfConn(KeptEvent(m), c)
  {
    if m.Stmt? && m.kept { assert [m.event][..0] == []; }
  }

  /** The part of the queue that belongs to a connection is what its own log enqueues. */
  lemma {:induction false} QueueOfConn(log: seq<Entry>, c: ConnId)
    requires Tagged(log)
    ensures Replay.OfConn(Enqueued(Marks(log)), c) == Enqueued(Of(c, log))
  {
    hide Enqueued, Replay.OfConn, KeptEvent;
    if log == [] {
      Nothing(c);
      assert Marks(log) == [];
    } else {
      var e, rest := log[0], log[1..];
      assert e in log;
      QueueOfConn(rest, c);
      assert Marks(log) == [e.mark] + Marks(rest);
      EnqueuedStep(e.mark, Marks(rest));
      Replay.OfConnConcat(KeptEvent(e.mark), Enqueued(Marks(rest)), c);
      OfConnOne(e.mark, c);
      if e.conn == c {
        EnqueuedStep(e.mark, Of(c, rest));
        KeptOnly(e.mark);
      } else {
        KeptOnly(e.mark);
        assert [] + Of(c, rest) == Of(c, rest) && [] + Enqueued(Of(c, rest)) == Enqueued(Of(c, rest));
      }
    }
  }

  lemma KeptOnly(m: Mark)
    ensures !m.Stmt? ==> KeptEvent(m) == []
  {
  }

  lemma Nothing(c: ConnId)
    ensures Enqueued([]) == [] && Replay.OfConn([], c) == []
  {
  }

  /** Events that agree up to an order-preserving renaming of transaction ids fixing 0. */
  ghost predicate SameEvents(a: seq<Event>, b: seq<Event>) {
    && |a| == |b|
    && (forall i :: 0 <= i < |a| ==> a[i].(txId := 0) == b[i].(txId := 0) && (a[i].txId == 0 <==> b[i].txId == 0))
    && (forall i, j :: 0 <= i < |a| && 0 <= j < |a| ==> (a[i].txId < a[j].txId <==> b[i].txId < b[j].txId))
  }

  /** Where in two logs that keep the same statements the enqueued events stand. */
  lemma {:induction false} EnqueuedAt(a: seq<Mark>, b: seq<Mark>) returns (at: seq<nat>)
    requires |a| == |b| && forall i :: 0 <= i < |a| ==> SameButId(a[i], b[i])
    ensures |at| == |Enqueued(a)| == |Enqueued(b)|
    ensures forall i :: 0 <= i < |at| ==> at[i] < |a| && a[at[i]].Stmt? && b[at[i]].Stmt?
    ensures forall i :: 0 <= i < |at| ==> Enqueued(a)[i] == a[at[i]].event && Enqueued(b)[i] == b[at[i]].event
  {
    hide Enqueued;
    at := [];
    Nothing(ConnId(NoAddr, 0, NoAddr, 0));
    if a != [] {
      var n := |a| - 1;
      var init := EnqueuedAt(a[..n], b[..n]);
      assert a == a[..n] + [a[n]] && b == b[..n] + [b[n]];
      EnqueuedSnoc(a[..n], a[n]);
      EnqueuedSnoc(b[..n], b[n]);
      at := if a[n].Stmt? && a[n].kept then init + [n] else init;
    }
  }

  lemma EnqueuedSnoc(ms: seq<Mark>, m: Mark)
    ensures Enqueued(ms + [m]) == Enqueued(ms) + KeptEvent(m)
  {
    hide Enqueued;
    Pipeline.EnqueuedConcat(ms, [m]);
    EnqueuedStep(m, []);
    assert [m] + [] == [m];
    Nothing(ConnId(NoAddr, 0, NoAddr, 0));
    assert KeptEvent(m) + [] == KeptEvent(m);
  }

  lemma EnqueuedSame(a: seq<Mark>, b: seq<Mark>)
    requires SameUpToIds(a, b)
    ensures SameEvents(Enqueued(a), Enqueued(b))
  {
    hide Enqueued;
    var at := EnqueuedAt(a, b);
    forall i | 0 <= i < |at| ensures SameButId(a[at[i]], b[at[i]]) { }
  }

  /** On the queue: two runs with the same callbacks for a connection enqueue the same events for it,
      whatever the others do, up to the naming of transaction ids. */
  lemma QueuesDoNotInterfere(cfg: Config, c: ConnId, run1: seq<Call>, run2: seq<Call>)
    requires Project(c, run1) == Project(c, run2)
    ensures SameEvents(Replay.OfConn(Enqueued(Marks(Log(cfg, Fresh(), run1))), c),
                       Replay.OfConn(Enqueued(Marks(Log(cfg, Fresh(), run2))), c))
  {
    hide Log, Of, Enqueued, Marks, Replay.OfConn, Tagged, SameUpToIds;
    LogTagged(cfg, Fresh(), run1);
    LogTagged(cfg, Fresh(), run2);
    QueueOfConn(Log(cfg, Fresh(), run1), c);
    QueueOfConn(Log(cfg, Fresh(), run2), c);
    ConnectionsDoNotInterfere(cfg, c, run1, run2);
    EnqueuedSame(Of(c, Log(cfg, Fresh(), run1)), Of(c, Log(cfg, Fresh(), run2)));
  }

  // ----- The producer ----------------------------------------------------------------------------

  /** What is left to enqueue after a move. */
  function Left(s: Drain.System, todo: seq<Event>, m: Drain.Move): seq<Event> {
    if m.Replayer? && m.step.Produce? && todo != [] && Fifo.Admits(s.replay.queue, Fifo.Enqueue(m.step.ev)) != []
    then todo[1..] else todo
  }

  /** The producer offers its events one after the other, each until it is let in, and then exits. */
  predicate Works(cfg: Replay.Config, s: Drain.System, todo: seq<Event>, moves: seq<Drain.Move>)
    requires Drain.CanRun(cfg, s, moves)
    decreases |moves|
  {
    moves == [] ||
    (var m := moves[0];
     && (m.Replayer? && m.step.Produce? ==> todo != [] && m.step.ev == todo[0])
     && (m.ProducerExits? ==> todo == [])
     && Works(cfg, Drain.Next(cfg, s, m), Left(s, todo, m), moves[1..]))
  }

  lemma StepAdmits(cfg: Replay.Config, r: Replay.State, a: Replay.Step)
    requires Replay.Enabled(cfg, r, a)
    ensures var t := Replay.Next(cfg, r, a);
      && t.queue.policy == r.queue.policy
      && t.admitted == r.admitted + if a.Produce? then Fifo.Admits(r.queue, Fifo.Enqueue(a.ev)) else []
  {
    hide Replay.Fetched, Replay.QueueStep, Fifo.Admits;
    if a.Fetch? { Replay.FetchCases(cfg, r); }
    Replay.QueueCases(cfg, r.queue, a);
    assert r.admitted + [] == r.admitted;
  }

  lemma AdmitsOne(q: Fifo.Queue, ev: Event)
    ensures Fifo.Admits(q, Fifo.Enqueue(ev)) in {[], [ev]}
  {
  }

  lemma MoveAdmits(cfg: Replay.Config, s: Drain.System, todo: seq<Event>, m: Drain.Move)
    requires Drain.Enabled(cfg, s, m) && (m.Replayer? && m.step.Produce? ==> todo != [] && m.step.ev == todo[0])
    ensures var t := Drain.Next(cfg, s, m);
      && t.replay.admitted + Left(s, todo, m) == s.replay.admitted + todo
      && t.replay.queue.policy == s.replay.queue.policy
      && t.producerDone == (s.producerDone || m.ProducerExits?)
  {
    hide Replay.Next, Fifo.Admits, Drain.Due;
    var r := s.replay;
    if m.Replayer? {
      StepAdmits(cfg, r, m.step);
      if m.step.Produce? {
        AdmitsOne(r.queue, m.step.ev);
        assert [todo[0]] + todo[1..] == todo;
        assert r.admitted + ([todo[0]] + todo[1..]) == r.admitted + [todo[0]] + todo[1..];
      }
      assert r.admitted + [] == r.admitted;
    } else {
      StepAdmits(cfg, r, Replay.CloseQueue);
      StepAdmits(cfg, r, Replay.Cancel);
      assert r.admitted + [] == r.admitted;
    }
  }

  /** A producer that has finished has had all its events let in. */
  lemma {:induction false} ProducerFinishes(cfg: Replay.Config, s: Drain.System, todo: seq<Event>,
      moves: seq<Drain.Move>)
    requires Drain.CanRun(cfg, s, moves) && Works(cfg, s, todo, moves)
    requires s.producerDone ==> todo == []
    ensures var t := Drain.Run(cfg, s, moves);
      && t.replay.queue.policy == s.replay.queue.policy
      && (t.producerDone ==> t.replay.admitted == s.replay.admitted + todo)
    decreases |moves|
  {
    hide Drain.Next, Drain.Enabled, Left;
    if moves == [] {
      if s.producerDone { assert s.replay.admitted + [] == s.replay.admitted; }
    } else {
      MoveAdmits(cfg, s, todo, moves[0]);
      DoneOffersNothing(cfg, s, todo, moves[0]);
      ProducerFinishes(cfg, Drain.Next(cfg, s, moves[0]), Left(s, todo, moves[0]), moves[1..]);
    }
  }

  lemma DoneOffersNothing(cfg: Replay.Config, s: Drain.System, todo: seq<Event>, m: Drain.Move)
    requires Drain.Enabled(cfg, s, m) && (s.producerDone ==> todo == []) && (m.ProducerExits? ==> todo == [])
    ensures s.producerDone || m.ProducerExits? ==> Left(s, todo, m) == []
  {
  }

  // ----- What is enqueued is executed ----------------------------------------------------------------

  /**
   With a blocking queue, a producer that works through its events and a shutdown in which no wait
   times out, nothing aborts the replayer and the file queue skips nothing, what has been executed for
   a connection when the pool is closed is what was enqueued for it, in order, as the queue stores it.
   */
  lemma EnqueuedIsExecuted(cfg: Replay.Config, capacity: nat, events: seq<Event>, moves: seq<Drain.Move>, ev: Event)
    requires var s := Drain.Init(Fifo.Fresh(Fifo.Block, capacity));
      Drain.CanRun(cfg, s, moves) && Works(cfg, s, events, moves)
    requires var t := Drain.Run(cfg, Drain.Init(Fifo.Fresh(Fifo.Block, capacity)), moves);
      t.phase.Finished? && !t.timedOut && !t.aborted && !t.replay.skipped
    ensures var t := Drain.Run(cfg, Drain.Init(Fifo.Fresh(Fifo.Block, capacity)), moves);
      Replay.OfConn(t.replay.finished, ev.conn) == Replay.OfConn(Replay.StoredAll(cfg, events), ev.conn)
  {
    hide Drain.Run, Drain.CanRun, Works, Replay.StoredAll, Replay.OfConn, Replay.Inv, Replay.Of, Replay.LaneKey;
    var queue := Fifo.Fresh(Fifo.Block, capacity);
    var s := Drain.Init(queue);
    var t := Drain.Run(cfg, s, moves);
    Drain.InitInv(cfg, queue);
    Drain.RunKeepsInv(cfg, s, moves);
    ProducerFinishes(cfg, s, events, moves);
    assert [] + events == events;
    Drain.QueueEnded(cfg, t.replay);
    Replay.AllStarted(cfg, t.replay);
    var key := Replay.LaneKey(cfg, ev);
    assert Replay.Of(cfg, t.replay.finished, key) == Replay.Of(cfg, t.replay.dequeued, key);
    Replay.ConnWithinLane(cfg, t.replay.finished, ev);
    Replay.ConnWithinLane(cfg, t.replay.dequeued, ev);
  }

  lemma MemoryStores(cfg: Replay.Config, evs: seq<Event>)
    requires cfg.backend.Memory?
    ensures Replay.StoredAll(cfg, evs) == evs
  {
  }

  /** From the wire to the target: with the queue in memory, what has been executed for a connection is
      exactly what its own log enqueues. */
  lemma CapturedIsExecuted(pcfg: Config, calls: seq<Call>, cfg: Replay.Config, capacity: nat,
      moves: seq<Drain.Move>, ev: Event)
    requires var s := Drain.Init(Fifo.Fresh(Fifo.Block, capacity));
      && Drain.CanRun(cfg, s, moves)
      && Works(cfg, s, Enqueued(Marks(Log(pcfg, Fresh(), calls))), moves)
    requires var t := Drain.Run(cfg, Drain.Init(Fifo.Fresh(Fifo.Block, capacity)), moves);
      cfg.backend.Memory? && t.phase.Finished? && !t.timedOut && !t.aborted
    ensures var t := Drain.Run(cfg, Drain.Init(Fifo.Fresh(Fifo.Block, capacity)), moves);
      Replay.OfConn(t.replay.finished, ev.conn) == Enqueued(Of(ev.conn, Log(pcfg, Fresh(), calls)))
  {
    hide Drain.Run, Drain.CanRun, Works, Replay.StoredAll, Replay.OfConn, Log, Of, Enqueued, Marks;
    var s := Drain.Init(Fifo.Fresh(Fifo.Block, capacity));
    Drain.SmallRunsSkipNothing(cfg, s, moves);
    var events := Enqueued(Marks(Log(pcfg, Fresh(), calls)));
    EnqueuedIsExecuted(cfg, capacity, events, moves, ev);
    MemoryStores(cfg, events);
    LogTagged(pcfg, Fresh(), calls);
    QueueOfConn(Log(pcfg, Fresh(), calls), ev.conn);
  }
}
