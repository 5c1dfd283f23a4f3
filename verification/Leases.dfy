/**
 The replayer over the connection pool (pkg/replayer/replayer_impl.go over pkg/replayer/pool.go): an
 execution is one or more calls of `acquireFor`, one after the other, a lane that retires releases the
 connections it has seen, the shutdown closes the pool when the replayer has returned. Every
 interleaving of these is disciplined in the sense of module `Pool`, so it never releases a handle twice.
 */
module Leases {
  import opened Core
  import Fifo
  import Replay
  import Pool

  /** `seen`: the connections of the events a lane has taken. `leaving`: what a lane that is about to
      retire has still to release. The pool calls of a lane carry its index. */
  datatype State = State(
    replay: Replay.State,
    pool: Pool.State,
    seen: map<nat, set<ConnId>>,
    leaving: map<nat, set<ConnId>>)

  datatype Move =
    | Other(step: Replay.Step)              // everything but the four below
    | Take(lane: nat)                       // also notes the connection
    | StartExec(lane: nat)                  // the executor begins to acquire
    | AcquireAgain(lane: nat)               // a retry, or the ROLLBACK after a skipped statement
    | FinishExec(lane: nat)                 // when its call of the pool is over
    | Leave(lane: nat)                      // the worker is about to retire
    | ReleaseNext(lane: nat, conn: ConnId)  // and releases what it has seen, in any order
    | Retire(lane: nat)                     // and is gone
    | PoolStep(call: Pool.Step)             // progress of a call, or of closing
    | ClosePool

  function Init(queue: Fifo.Queue, affinity: bool): State {
    State(Replay.Init(queue), Pool.Init(affinity), map[], map[])
  }

  function Seen(s: State, i: nat): set<ConnId> { if i in s.seen then s.seen[i] else {} }

  /** How a worker that leaves retires: at the end of its lane, or giving up the event it holds. */
  function Parting(s: State, i: nat): Replay.Step
    requires i < |s.replay.lanes|
  {
    if s.replay.lanes[i].worker.Holding? then Replay.Abandon(i) else Replay.Retire(i)
  }

  predicate IsOther(a: Replay.Step) { !Replay.WorkerStep(a) }

  predicate Enabled(cfg: Replay.Config, s: State, m: Move) {
    match m
    case Other(a) => IsOther(a) && Replay.Enabled(cfg, s.replay, a)
    case Take(i) => i !in s.leaving && Replay.Enabled(cfg, s.replay, Replay.Take(i))
    case StartExec(i) => i !in s.leaving && i !in s.pool.calls && Replay.Enabled(cfg, s.replay, Replay.Start(i))
    case AcquireAgain(i) =>
      i < |s.replay.lanes| && s.replay.lanes[i].worker.Executing? && i !in s.pool.calls
    case FinishExec(i) => i !in s.pool.calls && Replay.Enabled(cfg, s.replay, Replay.Finish(i))
    case Leave(i) =>
      i < |s.replay.lanes| && i !in s.leaving && Replay.Enabled(cfg, s.replay, Parting(s, i))
    case ReleaseNext(i, c) => i in s.leaving && c in s.leaving[i] && i !in s.pool.calls
    case Retire(i) =>
      && i < |s.replay.lanes| && i in s.leaving && s.leaving[i] == {} && i !in s.pool.calls
      && Replay.Enabled(cfg, s.replay, Parting(s, i))
    case PoolStep(a) => (Pool.CallStep(a) || a.CloseRelease?) && Pool.Enabled(s.pool, a)
    case ClosePool => s.replay.dispatcher.Done?
  }

  /** The step of the pool in a move, if any. */
  function PoolMove(s: State, m: Move): Option<Pool.Step> {
    match m
    case StartExec(i) =>
      if i < |s.replay.lanes| && s.replay.lanes[i].worker.Holding?
      then Some(Pool.BeginAcquire(i, s.replay.lanes[i].worker.ev.conn)) else None
    case AcquireAgain(i) =>
      if i < |s.replay.lanes| && s.replay.lanes[i].worker.Executing?
      then Some(Pool.BeginAcquire(i, s.replay.lanes[i].worker.ev.conn)) else None
    case ReleaseNext(i, c) => Some(Pool.BeginRelease(i, c))
    case PoolStep(a) => Some(a)
    case ClosePool => Some(Pool.Close)
    case _ => None
  }

  /** The step of the replayer in a move, if any. */
  function ReplayMove(s: State, m: Move): Option<Replay.Step> {
    match m
    case Other(a) => Some(a)
    case Take(i) => Some(Replay.Take(i))
    case StartExec(i) => Some(Replay.Start(i))
    case FinishExec(i) => Some(Replay.Finish(i))
    case Retire(i) => if i < |s.replay.lanes| then Some(Parting(s, i)) else None
    case _ => None
  }

  function Next(cfg: Replay.Config, s: State, m: Move): State
    requires Enabled(cfg, s, m)
  {
    var r := if ReplayMove(s, m).Some? then Replay.Next(cfg, s.replay, ReplayMove(s, m).value) else s.replay;
    var p := if PoolMove(s, m).Some? then Pool.Next(s.pool, PoolMove(s, m).value) else s.pool;
    State(r, p,
          if m.Take? then s.seen[m.lane := Seen(s, m.lane) + {s.replay.lanes[m.lane].buf[0].conn}] else s.seen,
          if m.Leave? then s.leaving[m.lane := Seen(s, m.lane)]
          else if m.ReleaseNext? then s.leaving[m.lane := s.leaving[m.lane] - {m.conn}]
          else s.leaving)
  }

  // ----- The invariant -------------------------------------------------------------------------

  predicate KeyOf(cfg: Replay.Config, s: State, i: nat, conn: ConnId) {
    i < |s.replay.lanes| && Replay.ConnLane(cfg, conn) == s.replay.lanes[i].key
  }

  /** A call belongs to a lane that is executing or leaving, and is for one of its connections. */
  predicate CallOk(cfg: Replay.Config, s: State, i: nat)
    requires i in s.pool.calls
  {
    && KeyOf(cfg, s, i, s.pool.calls[i].conn)
    && !s.replay.lanes[i].worker.Retired?
    && (s.replay.lanes[i].worker.Executing? || i in s.leaving)
  }

  ghost predicate Coupled(cfg: Replay.Config, s: State) {
    && (forall i :: i in s.pool.calls ==> CallOk(cfg, s, i))
    && (forall i, c :: i in s.seen && c in s.seen[i] ==> KeyOf(cfg, s, i, c))
    && (forall i, c :: i in s.leaving && c in s.leaving[i] ==> KeyOf(cfg, s, i, c))
    && (forall i :: i in s.leaving ==> LeavingOk(s, i))
  }

  predicate LeavingOk(s: State, i: nat)
    requires i in s.leaving
  {
    && i < |s.replay.lanes| && !s.replay.lanes[i].worker.Executing?
    && (s.leaving[i] != {} ==> !s.replay.lanes[i].worker.Retired?)
  }

  ghost predicate Inv(cfg: Replay.Config, s: State) {
    Replay.Inv(cfg, s.replay) && Pool.Consistent(s.pool) && Coupled(cfg, s)
  }

  // ----- Moves are disciplined ------------------------------------------------------------------

  lemma KeysTell(cfg: Replay.Config, s: State, i: nat, j: nat, conn: ConnId)
    requires Replay.Distinct(s.replay.lanes) && KeyOf(cfg, s, i, conn) && KeyOf(cfg, s, j, conn)
    ensures i == j
  {
  }

  lemma HeldKey(cfg: Replay.Config, s: State, i: nat)
    requires Replay.Own(cfg, s.replay.lanes) && i < |s.replay.lanes|
    ensures s.replay.lanes[i].worker.Holding? || s.replay.lanes[i].worker.Executing?
      ==> KeyOf(cfg, s, i, s.replay.lanes[i].worker.ev.conn)
    ensures s.replay.lanes[i].buf != [] ==> KeyOf(cfg, s, i, s.replay.lanes[i].buf[0].conn)
  {
    assert Replay.OwnLane(cfg, s.replay.lanes[i]);
  }

  lemma InvParts(cfg: Replay.Config, s: State)
    requires Inv(cfg, s)
    ensures Replay.Distinct(s.replay.lanes) && Replay.Own(cfg, s.replay.lanes) && Replay.Life(s.replay)
  {
  }

  /** A lane that begins a call is the only one with its connection, and has no other call. */
  lemma NotInFlight(cfg: Replay.Config, s: State, i: nat, conn: ConnId)
    requires Coupled(cfg, s) && Replay.Distinct(s.replay.lanes) && KeyOf(cfg, s, i, conn) && i !in s.pool.calls
    ensures !Pool.InFlight(s.pool, conn)
  {
    forall j | j in s.pool.calls ensures s.pool.calls[j].conn != conn {
      assert CallOk(cfg, s, j);
      if s.pool.calls[j].conn == conn { KeysTell(cfg, s, i, j, conn); }
    }
  }

  lemma NoCallsWhenDone(cfg: Replay.Config, s: State)
    requires Coupled(cfg, s) && Replay.Life(s.replay) && s.replay.dispatcher.Done?
    ensures s.pool.calls == map[]
  {
    forall j: nat | j < |s.replay.lanes| ensures s.replay.lanes[j].worker.Retired? {
      assert Replay.LaneLife(s.replay, j);
    }
    assert forall j: nat :: j !in s.pool.calls;
  }

  /** Every step of the pool in every move keeps the callers' discipline. */
  lemma MovesAreDisciplined(cfg: Replay.Config, s: State, m: Move)
    requires Inv(cfg, s) && Enabled(cfg, s, m) && PoolMove(s, m).Some?
    ensures Pool.Enabled(s.pool, PoolMove(s, m).value) && Pool.Disciplined(s.pool, PoolMove(s, m).value)
  {
    hide Replay.Inv, Pool.Consistent, Coupled, Pool.InFlight;
    InvParts(cfg, s);
    match m
    case StartExec(i) =>
      HeldKey(cfg, s, i);
      NotInFlight(cfg, s, i, s.replay.lanes[i].worker.ev.conn);
    case AcquireAgain(i) =>
      HeldKey(cfg, s, i);
      NotInFlight(cfg, s, i, s.replay.lanes[i].worker.ev.conn);
    case ReleaseNext(i, c) =>
      LeavingKey(cfg, s, i, c);
      NotInFlight(cfg, s, i, c);
    case ClosePool => NoCallsWhenDone(cfg, s);
    case PoolStep(_) =>
  }

  lemma LeavingKey(cfg: Replay.Config, s: State, i: nat, c: ConnId)
    requires Coupled(cfg, s) && i in s.leaving && c in s.leaving[i]
    ensures KeyOf(cfg, s, i, c)
  {
  }

  // ----- Moves keep the invariant ---------------------------------------------------------------

  /** What a step of the replayer does to keys and workers. */
  lemma LanesAfter(cfg: Replay.Config, r: Replay.State, a: Replay.Step, i: nat)
    requires Replay.Enabled(cfg, r, a) && i < |r.lanes|
    ensures var t := Replay.Next(cfg, r, a);
      && i < |t.lanes| && t.lanes[i].key == r.lanes[i].key
      && (!(Replay.WorkerStep(a) && a.lane == i) ==> t.lanes[i].worker == r.lanes[i].worker)
      && (Replay.WorkerStep(a) && a.lane == i ==> t.lanes[i].worker == Replay.Moved(a, r.lanes[i]).worker)
  {
    hide Replay.Fetched, Replay.QueueStep;
    if a.Fetch? { Replay.FetchCases(cfg, r); }
  }

  /** What a step of the pool does to its calls. */
  lemma CallsAfter(p: Pool.State, a: Pool.Step, i: nat)
    requires Pool.Consistent(p) && Pool.Enabled(p, a) && i in Pool.Next(p, a).calls
    ensures if a.BeginAcquire? && a.id == i then Pool.Next(p, a).calls[i].conn == a.conn
            else if a.BeginRelease? && a.id == i then Pool.Next(p, a).calls[i].conn == a.conn
            else i in p.calls && Pool.Next(p, a).calls[i].conn == p.calls[i].conn
  {
    hide Pool.CallNext;
    if Pool.CallStep(a) {
      Pool.CallStaysOk(p, a);
      Pool.OtherCalls(p, a);
      if i == a.id { assert a.id in p.calls; }
    }
  }

  /** How the worker of lane `i` may change in a move. */
  predicate WorkerAfter(m: Move, i: nat, w: Replay.Worker, v: Replay.Worker) {
    if m.StartExec? && m.lane == i then v.Executing?
    else if m.Take? && m.lane == i then v.Holding? && w.Idle?
    else if m.FinishExec? && m.lane == i then v.Idle?
    else if m.Retire? && m.lane == i then v.Retired?
    else v == w
  }

  lemma ReplayAfter(cfg: Replay.Config, s: State, m: Move, t: State, i: nat)
    requires Enabled(cfg, s, m) && i < |s.replay.lanes| && t == Next(cfg, s, m)
    ensures i < |t.replay.lanes| && t.replay.lanes[i].key == s.replay.lanes[i].key
    ensures WorkerAfter(m, i, s.replay.lanes[i].worker, t.replay.lanes[i].worker)
  {
    hide Replay.Next, Pool.Next;
    if ReplayMove(s, m).Some? { LanesAfter(cfg, s.replay, ReplayMove(s, m).value, i); }
  }

  lemma CallStaysOk(cfg: Replay.Config, s: State, m: Move, i: nat)
    requires Inv(cfg, s) && Enabled(cfg, s, m) && i in Next(cfg, s, m).pool.calls
    ensures CallOk(cfg, Next(cfg, s, m), i)
  {
    hide Replay.Inv, Coupled, Replay.Next, Pool.Next, Pool.Consistent;
    var p := PoolMove(s, m);
    InvParts(cfg, s);
    if p.Some? {
      MovesAreDisciplined(cfg, s, m);
      CallsAfter(s.pool, p.value, i);
    }
    if (m.StartExec? || m.AcquireAgain?) && m.lane == i {
      HeldKey(cfg, s, i);
      ReplayAfter(cfg, s, m, Next(cfg, s, m), i);
    } else if m.ReleaseNext? && m.lane == i {
      LeavingKey(cfg, s, i, m.conn);
      LeavingIsOk(cfg, s, i);
      ReplayAfter(cfg, s, m, Next(cfg, s, m), i);
    } else {
      CallIsOk(cfg, s, i);
      ReplayAfter(cfg, s, m, Next(cfg, s, m), i);
    }
  }

  lemma CallIsOk(cfg: Replay.Config, s: State, i: nat)
    requires Coupled(cfg, s) && i in s.pool.calls
    ensures CallOk(cfg, s, i)
  {
  }

  lemma LeavingIsOk(cfg: Replay.Config, s: State, i: nat)
    requires Coupled(cfg, s) && i in s.leaving
    ensures LeavingOk(s, i)
  {
  }

  lemma LeavingStaysOk(cfg: Replay.Config, s: State, m: Move, i: nat)
    requires Inv(cfg, s) && Enabled(cfg, s, m) && i in Next(cfg, s, m).leaving
    ensures LeavingOk(Next(cfg, s, m), i)
  {
    hide Replay.Inv, Coupled, Replay.Next, Pool.Next, Pool.Consistent;
    if !(m.Leave? && m.lane == i) { LeavingIsOk(cfg, s, i); }
    ReplayAfter(cfg, s, m, Next(cfg, s, m), i);
  }

  lemma SeenStaysOk(cfg: Replay.Config, s: State, m: Move, i: nat, c: ConnId)
    requires Inv(cfg, s) && Enabled(cfg, s, m)
    requires var t := Next(cfg, s, m); (i in t.seen && c in t.seen[i]) || (i in t.leaving && c in t.leaving[i])
    ensures KeyOf(cfg, Next(cfg, s, m), i, c)
  {
    hide Replay.Inv, Coupled, Replay.Next, Pool.Next, Pool.Consistent;
    InvParts(cfg, s);
    if m.Take? && m.lane == i { HeldKey(cfg, s, i); }
    KnownKey(cfg, s, i, c);
    ReplayAfter(cfg, s, m, Next(cfg, s, m), i);
  }

  lemma KnownKey(cfg: Replay.Config, s: State, i: nat, c: ConnId)
    requires Coupled(cfg, s)
    ensures c in Seen(s, i) || (i in s.leaving && c in s.leaving[i]) ==> KeyOf(cfg, s, i, c)
  {
  }

  lemma MoveKeepsInv(cfg: Replay.Config, s: State, m: Move)
    requires Inv(cfg, s) && Enabled(cfg, s, m)
    ensures Inv(cfg, Next(cfg, s, m))
  {
    hide Replay.Inv, Replay.Next, Pool.Next, Pool.Consistent, CallOk, LeavingOk, KeyOf, Replay.Enabled, Pool.Enabled;
    var t := Next(cfg, s, m);
    if ReplayMove(s, m).Some? { Replay.StepKeepsInv(cfg, s.replay, ReplayMove(s, m).value); }
    if PoolMove(s, m).Some? {
      MovesAreDisciplined(cfg, s, m);
      Pool.StepKeepsConsistent(s.pool, PoolMove(s, m).value);
    }
    forall i | i in t.pool.calls ensures CallOk(cfg, t, i) { CallStaysOk(cfg, s, m, i); }
    forall i | i in t.leaving ensures LeavingOk(t, i) { LeavingStaysOk(cfg, s, m, i); }
    forall i, c | i in t.seen && c in t.seen[i] ensures KeyOf(cfg, t, i, c) { SeenStaysOk(cfg, s, m, i, c); }
    forall i, c | i in t.leaving && c in t.leaving[i] ensures KeyOf(cfg, t, i, c) { SeenStaysOk(cfg, s, m, i, c); }
  }

  // ----- Every run ---------------------------------------------------------------------------------

  predicate CanRun(cfg: Replay.Config, s: State, moves: seq<Move>)
    decreases |moves|
  {
    moves == [] || (Enabled(cfg, s, moves[0]) && CanRun(cfg, Next(cfg, s, moves[0]), moves[1..]))
  }

  function Run(cfg: Replay.Config, s: State, moves: seq<Move>): State
    requires CanRun(cfg, s, moves)
    decreases |moves|
  {
    if moves == [] then s else Run(cfg, Next(cfg, s, moves[0]), moves[1..])
  }

  lemma {:induction false} RunAccounts(cfg: Replay.Config, s: State, own: map<Pool.Handle, Pool.Place>,
      moves: seq<Move>)
    returns (own': map<Pool.Handle, Pool.Place>)
    requires Inv(cfg, s) && Pool.Accounted(s.pool, own) && CanRun(cfg, s, moves)
    ensures var t := Run(cfg, s, moves); Inv(cfg, t) && Pool.Accounted(t.pool, own')
    decreases |moves|
  {
    hide Coupled, Replay.Inv, Enabled, Pool.Accounted, Pool.Consistent, Pool.Next, Replay.Next;
    own' := own;
    if moves != [] {
      var m := moves[0];
      MoveKeepsInv(cfg, s, m);
      var next := own;
      if PoolMove(s, m).Some? {
        MovesAreDisciplined(cfg, s, m);
        Pool.StepAccounts(s.pool, own, PoolMove(s, m).value);
        next := Pool.Moved(s.pool, own, PoolMove(s, m).value);
      }
      own' := RunAccounts(cfg, Next(cfg, s, m), next, moves[1..]);
    }
  }

  lemma InitInv(cfg: Replay.Config, queue: Fifo.Queue, affinity: bool)
    ensures Inv(cfg, Init(queue, affinity))
  {
    hide Replay.Inv;
    Replay.InitInv(cfg, queue);
  }

  /** In every run of the replayer over the pool, cancelled or not, with or without session affinity: no
      handle is released twice and no two lanes use the same handle. */
  lemma ReplayerNeverReleasesTwice(cfg: Replay.Config, queue: Fifo.Queue, affinity: bool, moves: seq<Move>)
    requires CanRun(cfg, Init(queue, affinity), moves)
    ensures Pool.Proper(Run(cfg, Init(queue, affinity), moves).pool)
  {
    hide Run, CanRun, Inv, Pool.Proper;
    var none: map<Pool.Handle, Pool.Place> := map[];
    InitInv(cfg, queue, affinity);
    Pool.InitAccounted(Pool.Init(affinity), none);
    var s := Init(queue, affinity);
    assert s.pool == Pool.Init(affinity);
    var own := RunAccounts(cfg, s, none, moves);
    var t := Run(cfg, s, moves);
    InvConsistent(cfg, t);
    Pool.AccountedIsProper(t.pool, own);
  }

  lemma InvConsistent(cfg: Replay.Config, s: State)
    requires Inv(cfg, s)
    ensures Pool.Consistent(s.pool)
  {
  }
}
