/**
 Nothing is left behind (pkg/replayer/replayer_impl.go over pkg/replayer/pool.go): a lane that retires
 releases every connection it has seen, so when the replayer has returned no connection is leased and
 every handle that was ever acquired has been released.
 */
module Returns {
  import opened Core
  import Fifo
  import Replay
  import Pool
  import opened Leases

  /** Lane `i` answers for the lease of `c`: it has seen `c`, and if it is leaving it has `c` still to
      release or is doing so. */
  ghost predicate Charged(s: State, i: nat, c: ConnId) {
    && c in Seen(s, i)
    && (i in s.leaving ==> c in s.leaving[i] || (i in s.pool.calls && s.pool.calls[i] == Pool.Leaving(c)))
  }

  predicate Releases(c: Pool.Call) { c.Leaving? || c.Freeing? }

  /** The calls of a lane are for connections it has seen; a lane that is leaving only releases. */
  predicate CallSeen(s: State, i: nat)
    requires i in s.pool.calls
  {
    s.pool.calls[i].conn in Seen(s, i) && (i in s.leaving ==> Releases(s.pool.calls[i]))
  }

  /** So are the events of its worker; and a lane that has retired has released everything. */
  predicate LaneSeen(s: State, i: nat)
    requires i < |s.replay.lanes|
  {
    var w := s.replay.lanes[i].worker;
    && (w.Holding? || w.Executing? ==> w.ev.conn in Seen(s, i))
    && (w.Retired? ==> i in s.leaving && s.leaving[i] == {})
  }

  ghost predicate Watched(s: State) {
    && (forall i :: i in s.pool.calls ==> CallSeen(s, i))
    && (forall i :: 0 <= i < |s.replay.lanes| ==> LaneSeen(s, i))
    && (forall i :: i in s.leaving ==> s.leaving[i] <= Seen(s, i))
    && (forall c :: c in s.pool.leases ==> exists i: nat :: Charged(s, i, c))
    && s.pool.closing == {}
  }

  // ----- What a move changes -----------------------------------------------------------------------

  lemma SeenGrows(cfg: Replay.Config, s: State, m: Move, i: nat)
    requires Enabled(cfg, s, m)
    ensures Seen(s, i) <= Seen(Next(cfg, s, m), i)
  {
    hide Replay.Next, Pool.Next, Replay.Enabled, Pool.Enabled;
  }

  /** The worker of a lane, with its event. */
  lemma WorkerSeen(cfg: Replay.Config, s: State, m: Move, i: nat)
    requires Enabled(cfg, s, m) && Watched(s) && i < |Next(cfg, s, m).replay.lanes|
    requires i < |s.replay.lanes| ==> LaneSeen(s, i)
    ensures LaneSeen(Next(cfg, s, m), i)
  {
    hide Replay.Next, Pool.Next, Watched, Pool.Enabled;
    SeenGrows(cfg, s, m, i);
    var a := ReplayMove(s, m);
    if i < |s.replay.lanes| {
      if a.Some? { LanesAfter(cfg, s.replay, a.value, i); }
    } else {
      NewLane(cfg, s.replay, a.value, i);
    }
  }

  lemma NewLane(cfg: Replay.Config, r: Replay.State, a: Replay.Step, i: nat)
    requires Replay.Enabled(cfg, r, a) && |r.lanes| <= i < |Replay.Next(cfg, r, a).lanes|
    ensures Replay.Next(cfg, r, a).lanes[i].worker.Idle?
  {
    hide Replay.Fetched, Replay.QueueStep;
    if a.Fetch? { Replay.FetchCases(cfg, r); }
  }

  /** A call keeps its connection and whether it releases. */
  lemma CallAfter(p: Pool.State, a: Pool.Step, i: nat)
    requires Pool.Consistent(p) && Pool.Enabled(p, a) && i in Pool.Next(p, a).calls
    ensures var c := Pool.Next(p, a).calls[i];
      if a.BeginAcquire? && a.id == i then c == Pool.Entering(a.conn)
      else if a.BeginRelease? && a.id == i then c == Pool.Leaving(a.conn)
      else i in p.calls && c.conn == p.calls[i].conn && (Releases(c) <==> Releases(p.calls[i]))
  {
    CallsAfter(p, a, i);
    if Pool.CallStep(a) {
      if i != a.id { Pool.OtherCalls(p, a); }
      assert Pool.CallOk(p, p.calls[a.id]);
    }
  }

  /** A new lease is that of the call that installs it. */
  lemma LeaseAfter(p: Pool.State, a: Pool.Step, c: ConnId)
    requires Pool.Enabled(p, a) && c in Pool.Next(p, a).leases
    ensures c in p.leases || (a.Install? && a.id in p.calls && p.calls[a.id].conn == c && !Releases(p.calls[a.id])
                              && a.id in Pool.Next(p, a).calls)
  {
  }

  lemma CallStaysSeen(cfg: Replay.Config, s: State, m: Move, i: nat)
    requires Inv(cfg, s) && Watched(s) && Enabled(cfg, s, m) && i in Next(cfg, s, m).pool.calls
    ensures CallSeen(Next(cfg, s, m), i)
  {
    hide Replay.Inv, Coupled, Replay.Next, Pool.Next, Pool.Consistent;
    var p := PoolMove(s, m);
    SeenGrows(cfg, s, m, i);
    if p.Some? {
      MovesAreDisciplined(cfg, s, m);
      CallAfter(s.pool, p.value, i);
    }
    if (m.StartExec? || m.AcquireAgain?) && m.lane == i {
      assert LaneSeen(s, i);
      if i in s.leaving { LeavingIsOk(cfg, s, i); }
    } else if !(m.ReleaseNext? && m.lane == i) {
      assert CallSeen(s, i);
      CallIsOk(cfg, s, i);
    }
  }

  lemma LeaseStaysCharged(cfg: Replay.Config, s: State, m: Move, c: ConnId) returns (i: nat)
    requires Inv(cfg, s) && Watched(s) && Enabled(cfg, s, m) && c in Next(cfg, s, m).pool.leases
    ensures Charged(Next(cfg, s, m), i, c)
  {
    hide Replay.Inv, Coupled, Replay.Next, Pool.Next, Pool.Consistent, Pool.Enabled;
    var p, t := PoolMove(s, m), Next(cfg, s, m);
    if p.Some? {
      MovesAreDisciplined(cfg, s, m);
      LeaseAfter(s.pool, p.value, c);
    }
    if c in s.pool.leases {
      i :| Charged(s, i, c);
      if m.ReleaseNext? && m.lane == i { BeginsRelease(s.pool, i, m.conn); }
      if p.Some? && i in s.pool.calls && s.pool.calls[i] == Pool.Leaving(c) { StillLeaving(s.pool, p.value, i, c); }
    } else {
      i := p.value.id;
      assert CallSeen(s, i);
    }
    SeenGrows(cfg, s, m, i);
  }

  /** A call that is to drop a lease has not done so while the lease is there. */
  lemma StillLeaving(p: Pool.State, a: Pool.Step, i: nat, c: ConnId)
    requires Pool.Enabled(p, a) && i in p.calls && p.calls[i] == Pool.Leaving(c) && c in Pool.Next(p, a).leases
    ensures i in Pool.Next(p, a).calls && Pool.Next(p, a).calls[i] == Pool.Leaving(c)
  {
    if Pool.CallStep(a) { Pool.OtherCalls(p, a); }
  }

  lemma BeginsRelease(p: Pool.State, i: nat, c: ConnId)
    requires Pool.Enabled(p, Pool.BeginRelease(i, c))
    ensures var q := Pool.Next(p, Pool.BeginRelease(i, c)); i in q.calls && q.calls[i] == Pool.Leaving(c)
  {
  }

  lemma MoveKeepsWatched(cfg: Replay.Config, s: State, m: Move)
    requires Inv(cfg, s) && Watched(s) && Enabled(cfg, s, m)
    ensures Watched(Next(cfg, s, m))
  {
    hide Inv, Next, Enabled, CallSeen, LaneSeen, Charged, Seen;
    var t := Next(cfg, s, m);
    forall i | i in t.pool.calls ensures CallSeen(t, i) { CallStaysSeen(cfg, s, m, i); }
    forall i | 0 <= i < |t.replay.lanes| ensures LaneSeen(t, i) { WorkerSeen(cfg, s, m, i); }
    forall i | i in t.leaving ensures t.leaving[i] <= Seen(t, i) { LeavingSeen(cfg, s, m, i); }
    forall c | c in t.pool.leases ensures exists i: nat :: Charged(t, i, c) { var i := LeaseStaysCharged(cfg, s, m, c); }
    MoveKeepsClosing(cfg, s, m);
  }

  lemma LeavingSeen(cfg: Replay.Config, s: State, m: Move, i: nat)
    requires Enabled(cfg, s, m) && Watched(s) && i in Next(cfg, s, m).leaving
    ensures Next(cfg, s, m).leaving[i] <= Seen(Next(cfg, s, m), i)
  {
    hide Replay.Next, Pool.Next, Replay.Enabled, Pool.Enabled, CallSeen, LaneSeen, Charged;
    SeenGrows(cfg, s, m, i);
  }

  /** When the replayer has returned, all lanes have retired and nothing is leased. */
  lemma NothingLeased(cfg: Replay.Config, s: State)
    requires Inv(cfg, s) && Watched(s) && s.replay.dispatcher.Done?
    ensures s.pool.leases == map[] && s.pool.calls == map[]
  {
    hide Replay.Inv, Pool.Consistent, Charged;
    InvParts(cfg, s);
    NoCallsWhenDone(cfg, s);
    forall c ensures c !in s.pool.leases {
      if c in s.pool.leases {
        var i: nat :| Charged(s, i, c);
        Uncharged(cfg, s, i, c);
      }
    }
  }

  lemma Uncharged(cfg: Replay.Config, s: State, i: nat, c: ConnId)
    requires Watched(s) && Coupled(cfg, s) && Replay.Life(s.replay) && s.replay.dispatcher.Done? && s.pool.calls == map[]
    ensures !Charged(s, i, c)
  {
    if c in Seen(s, i) {
      KnownKey(cfg, s, i, c);
      assert Replay.LaneLife(s.replay, i) && LaneSeen(s, i);
    }
  }

  lemma MoveKeepsClosing(cfg: Replay.Config, s: State, m: Move)
    requires Inv(cfg, s) && Watched(s) && Enabled(cfg, s, m)
    ensures Next(cfg, s, m).pool.closing == {}
  {
    hide Inv, Pool.Next, Replay.Next, Pool.Enabled, Replay.Enabled, CallSeen, LaneSeen, Charged;
    if m.ClosePool? { NothingLeased(cfg, s); }
    if PoolMove(s, m).Some? {
      MovesAreDisciplined(cfg, s, m);
      ClosingAfter(s.pool, PoolMove(s, m).value);
    }
  }

  lemma ClosingAfter(p: Pool.State, a: Pool.Step)
    requires Pool.Enabled(p, a) && p.closing == {} && (a.Close? ==> p.leases == map[])
    ensures Pool.Next(p, a).closing == {}
  {
    if a.Close? { assert p.leases.Values == {}; }
  }

  // ----- Every run -----------------------------------------------------------------------------------

  lemma {:induction false} RunKeepsWatched(cfg: Replay.Config, s: State, moves: seq<Move>)
    requires Inv(cfg, s) && Watched(s) && CanRun(cfg, s, moves)
    ensures Inv(cfg, Run(cfg, s, moves)) && Watched(Run(cfg, s, moves))
    decreases |moves|
  {
    hide Inv, Watched, Next, Enabled;
    if moves != [] {
      MoveKeepsInv(cfg, s, moves[0]);
      MoveKeepsWatched(cfg, s, moves[0]);
      RunKeepsWatched(cfg, Next(cfg, s, moves[0]), moves[1..]);
    }
  }

  lemma StartsWatched(queue: Fifo.Queue, affinity: bool)
    ensures Watched(Init(queue, affinity))
  {
  }

  /**
   In every run of the replayer over the pool, cancelled or not: when the replayer has returned, and
   before the pool is closed, no connection is leased, no call is under way, and every handle that was
   ever acquired has been released, exactly once.
   */
  lemma NothingLeftBehind(cfg: Replay.Config, queue: Fifo.Queue, affinity: bool, moves: seq<Move>)
    requires CanRun(cfg, Init(queue, affinity), moves)
    requires Run(cfg, Init(queue, affinity), moves).replay.dispatcher.Done?
    ensures var p := Run(cfg, Init(queue, affinity), moves).pool;
      && p.leases == map[] && p.calls == map[] && p.closing == {}
      && (forall h: nat :: h < p.next ==> h in p.released)
      && forall i, j :: 0 <= i < j < |p.released| ==> p.released[i] != p.released[j]
  {
    hide Run, CanRun, Inv, Watched;
    var none: map<Pool.Handle, Pool.Place> := map[];
    var s := Init(queue, affinity);
    InitInv(cfg, queue, affinity);
    StartsWatched(queue, affinity);
    RunKeepsWatched(cfg, s, moves);
    var t := Run(cfg, s, moves);
    NothingLeased(cfg, t);
    NoneClosing(t);
    ReplayerNeverReleasesTwice(cfg, queue, affinity, moves);
    Pool.InitAccounted(Pool.Init(affinity), none);
    assert s.pool == Pool.Init(affinity);
    var own := RunAccounts(cfg, s, none, moves);
    AllGone(t.pool, own);
  }

  lemma NoneClosing(s: State)
    requires Watched(s)
    ensures s.pool.closing == {}
  {
  }

  lemma AllGone(p: Pool.State, own: map<Pool.Handle, Pool.Place>)
    requires Pool.Accounted(p, own) && p.leases == map[] && p.calls == map[] && p.closing == {}
    ensures forall h: nat :: h < p.next ==> h in p.released
  {
    forall h: nat | h < p.next ensures h in p.released {
      assert h in own && Pool.At(p, h, own[h]);
    }
  }
}
