/**
 Session affinity (pkg/replayer/pool.go): what `acquireFor` and `release` do for a caller. A connection
 keeps its handle until it is released, found dead, or the pool is closed; a dead handle is replaced; and
 a call that nobody disturbs ends with the handle it should.
 */
module Affinity {
  import opened Core
  import opened Pool

  // ----- A connection keeps its handle ----------------------------------------------------------

  /** The step does not end a lease of `conn`: no release of it begins, no ping of it fails, and the pool
      is not closed. */
  predicate Spares(s: State, a: Step, conn: ConnId) {
    match a
    case BeginRelease(_, c) => c != conn
    case Ping(id, ok) => ok || id !in s.calls || s.calls[id].conn != conn
    case Close => false
    case _ => true
  }

  predicate AllSpare(s: State, steps: seq<Step>, conn: ConnId)
    requires CanRun(s, steps, true)
    decreases |steps|
  {
    steps == [] || (Spares(s, steps[0], conn) && AllSpare(Next(s, steps[0]), steps[1..], conn))
  }

  /** `h` is leased to `conn`, and no call is about to end that. */
  predicate Settled(s: State, conn: ConnId, h: Handle) {
    && HasLease(s, conn, h)
    && forall id :: id in s.calls && s.calls[id].conn == conn ==> !s.calls[id].Dead? && !s.calls[id].Leaving?
  }

  lemma StepKeepsLease(s: State, a: Step, conn: ConnId, h: Handle)
    requires Consistent(s) && Settled(s, conn, h) && Enabled(s, a) && Spares(s, a, conn)
    ensures Settled(Next(s, a), conn, h)
  {
    if CallStep(a) {
      OtherCalls(s, a);
      CallStaysOk(s, a);
      assert CallOk(s, s.calls[a.id]);
      if s.calls[a.id].conn != conn { OtherLeases(s, a, conn); }
    }
  }

  /**
   In any run of callers that keep the discipline: while `conn` is spared, it keeps its handle, and every
   call for it that gets to use a handle uses that one.
   */
  lemma {:induction false} HandleIsKept(s: State, steps: seq<Step>, conn: ConnId, h: Handle)
    requires Consistent(s) && Settled(s, conn, h) && CanRun(s, steps, true) && AllSpare(s, steps, conn)
    ensures var t := Run(s, steps, true);
      && HasLease(t, conn, h)
      && forall id :: id in t.calls && t.calls[id].Using? && t.calls[id].conn == conn ==> t.calls[id].h == h
    decreases |steps|
  {
    hide Consistent, Enabled, Next, Settled, Spares;
    if steps == [] {
      UsesLease(s, conn, h);
    } else {
      StepKeepsLease(s, steps[0], conn, h);
      StepKeepsConsistent(s, steps[0]);
      HandleIsKept(Next(s, steps[0]), steps[1..], conn, h);
    }
  }

  lemma UsesLease(s: State, conn: ConnId, h: Handle)
    requires Consistent(s) && Settled(s, conn, h)
    ensures HasLease(s, conn, h)
    ensures forall id :: id in s.calls && s.calls[id].Using? && s.calls[id].conn == conn ==> s.calls[id].h == h
  {
    forall id | id in s.calls && s.calls[id].Using? && s.calls[id].conn == conn ensures s.calls[id].h == h {
      assert CallOk(s, s.calls[id]);
    }
  }

  // ----- A call that nobody disturbs --------------------------------------------------------------

  lemma First(s: State, a: Step, rest: seq<Step>)
    requires Enabled(s, a) && CanRun(Next(s, a), rest, false)
    ensures CanRun(s, [a] + rest, false) && Run(s, [a] + rest, false) == Run(Next(s, a), rest, false)
  {
    assert ([a] + rest)[1..] == rest;
  }

  /** The state after `acquireFor` has returned: the caller uses `h`, which is leased. */
  function Acquired(s: State, id: nat, conn: ConnId, h: Handle): State {
    s.(calls := s.calls[id := Using(conn, h)], leases := s.leases[conn := h])
  }

  lemma Fresh(s: State, id: nat, conn: ConnId) returns (steps: seq<Step>)
    requires s.affinity && !s.closed && conn !in s.leases && id in s.calls && s.calls[id] == Acquiring(conn)
    ensures CanRun(s, steps, false)
    ensures Run(s, steps, false) == Acquired(s.(next := s.next + 1), id, conn, s.next)
  {
    var a, b := Acquire(id, true), Install(id);
    var s1 := Next(s, a);
    var s2 := Next(s1, b);
    hide Next;
    Nothing(s2);
    First(s1, b, []);
    First(s, a, [b]);
    steps := [a, b];
    assert [b] + [] == [b] && [a] + [b] == steps;
    assert s2 == Acquired(s.(next := s.next + 1), id, conn, s.next) by { Installed(s, id, conn); }
  }

  lemma Installed(s: State, id: nat, conn: ConnId)
    requires s.affinity && !s.closed && conn !in s.leases && id in s.calls && s.calls[id] == Acquiring(conn)
    ensures var s1 := Next(s, Acquire(id, true));
      Enabled(s1, Install(id)) && Next(s1, Install(id)) == Acquired(s.(next := s.next + 1), id, conn, s.next)
  {
    var s2 := Next(Next(s, Acquire(id, true)), Install(id));
    assert s2.calls == s.calls[id := Using(conn, s.next)];
  }

  /**
   What `acquireFor` comes to, if its acquisition succeeds: without a lease a new handle, with a live one
   that handle, and with a dead one a new handle after the dead one has been released. Nothing else
   changes.
   */
  lemma AcquireAlone(s: State, id: nat, conn: ConnId, alive: bool) returns (steps: seq<Step>)
    requires s.affinity && !s.closed && id !in s.calls
    ensures CanRun(s, steps, false)
    ensures Run(s, steps, false) ==
      if conn !in s.leases then Acquired(s.(next := s.next + 1), id, conn, s.next)
      else if alive then Acquired(s, id, conn, s.leases[conn])
      else Acquired(s.(next := s.next + 1, released := s.released + [s.leases[conn]]), id, conn, s.next)
  {
    var a, b := BeginAcquire(id, conn), Enter(id);
    var s1 := Next(s, a);
    var s2 := Next(s1, b);
    if conn !in s.leases {
      steps := Fresh(s2, id, conn);
      assert s2.calls[id := Using(conn, s.next)] == s.calls[id := Using(conn, s.next)];
    } else if alive {
      steps := Live(s2, id, conn);
      var h := s.leases[conn];
      assert s2.calls[id := Using(conn, h)] == s.calls[id := Using(conn, h)];
    } else {
      steps := Replaced(s2, id, conn);
      assert s2.calls[id := Using(conn, s.next)] == s.calls[id := Using(conn, s.next)];
    }
    First(s1, b, steps);
    First(s, a, [b] + steps);
    steps := [a] + ([b] + steps);
  }

  lemma Live(s: State, id: nat, conn: ConnId) returns (steps: seq<Step>)
    requires conn in s.leases && id in s.calls && s.calls[id] == Pinging(conn, s.leases[conn])
    ensures CanRun(s, steps, false) && Run(s, steps, false) == Acquired(s, id, conn, s.leases[conn])
  {
    var a, b := Ping(id, true), Recheck(id);
    var s1 := Next(s, a);
    var s2 := Next(s1, b);
    assert s2.calls == s.calls[id := Using(conn, s.leases[conn])];
    assert s.leases[conn := s.leases[conn]] == s.leases;
    assert s2 == Acquired(s, id, conn, s.leases[conn]);
    Nothing(s2);
    First(s1, b, []);
    First(s, a, [b]);
    steps := [a, b];
    assert [b] + [] == [b] && [a] + [b] == steps;
  }

  lemma Replaced(s: State, id: nat, conn: ConnId) returns (steps: seq<Step>)
    requires s.affinity && !s.closed && conn in s.leases && id in s.calls
    requires s.calls[id] == Pinging(conn, s.leases[conn])
    ensures CanRun(s, steps, false)
    ensures Run(s, steps, false)
         == Acquired(s.(next := s.next + 1, released := s.released + [s.leases[conn]]), id, conn, s.next)
  {
    var h := s.leases[conn];
    var a, b, c := Ping(id, false), Delete(id), Release(id);
    var s1 := Next(s, a);
    var s2 := Next(s1, b);
    var s3 := Next(s2, c);
    Discarded(s, id, conn);
    steps := Fresh(s3, id, conn);
    assert s3.calls[id := Using(conn, s.next)] == s.calls[id := Using(conn, s.next)];
    assert s3.leases[conn := s.next] == s.leases[conn := s.next];
    First(s2, c, steps);
    First(s1, b, [c] + steps);
    First(s, a, [b] + ([c] + steps));
    steps := [a] + ([b] + ([c] + steps));
  }

  lemma Discarded(s: State, id: nat, conn: ConnId)
    requires conn in s.leases && id in s.calls && s.calls[id] == Pinging(conn, s.leases[conn])
    ensures var s1 := Next(s, Ping(id, false));
      var s2 := Next(s1, Delete(id));
      && Enabled(s1, Delete(id)) && Enabled(s2, Release(id))
      && Next(s2, Release(id)) == s.(calls := s.calls[id := Acquiring(conn)], leases := s.leases - {conn},
                                     released := s.released + [s.leases[conn]])
  {
    var s3 := Next(Next(Next(s, Ping(id, false)), Delete(id)), Release(id));
    assert s3.calls == s.calls[id := Acquiring(conn)];
  }

  /** What `release` comes to: the lease, if there is one, is dropped and its handle released. */
  lemma ReleaseAlone(s: State, id: nat, conn: ConnId) returns (steps: seq<Step>)
    requires id !in s.calls
    ensures CanRun(s, steps, false)
    ensures Run(s, steps, false) ==
      if conn !in s.leases then s
      else s.(leases := s.leases - {conn}, released := s.released + [s.leases[conn]])
  {
    var a, b, c := BeginRelease(id, conn), Unlease(id), Release(id);
    var s1 := Next(s, a);
    var s2 := Next(s1, b);
    steps := [b];
    if conn in s.leases {
      var s3 := Next(s2, c);
      assert s3.calls == s.calls;
      Nothing(s3);
      First(s2, c, []);
      steps := [b] + ([c] + []);
      First(s1, b, [c] + []);
    } else {
      assert s2.calls == s.calls;
      Nothing(s2);
      First(s1, b, []);
      assert [b] + [] == [b];
    }
    First(s, a, steps);
    steps := [a] + steps;
  }
}
