/**
 The session-affinity connection pool (pkg/replayer/pool.go). A call of `acquireFor` or `release`
 is several lock sections with a ping, an acquisition or a release between them; each of these is
 one step here and calls interleave freely. A handle is one acquisition from the underlying source.
 */
module Pool {
  import opened Core

  type Handle = nat

  /** Where a call is. The comment says what it does next. */
  datatype Call =
    | Entering(conn: ConnId)                                    // look up the lease
    | Pinging(conn: ConnId, h: Handle)                          // ping, outside the lock
    | Alive(conn: ConnId, h: Handle)                            // check the lease again
    | Dead(conn: ConnId, h: Handle)                             // drop the lease
    | Discarding(conn: ConnId, h: Handle)                       // release the dead handle
    | Acquiring(conn: ConnId)                                   // acquire from the source
    | Installing(conn: ConnId, h: Handle)                       // make it the lease
    | Surplus(conn: ConnId, h: Handle, result: Option<Handle>)  // release the extra handle
    | Using(conn: ConnId, h: Handle)                            // the caller executes
    | Owning(conn: ConnId, h: Handle)                           // the same without affinity; then release
    | Leaving(conn: ConnId)                                     // release: drop the lease
    | Freeing(conn: ConnId, h: Handle)                          // release: release the handle

  /** `next` counts acquisitions, `released` lists the releases, `closing` is what `close` has taken
      over and not yet released. */
  datatype State = State(
    affinity: bool,
    leases: map<ConnId, Handle>,
    closed: bool,
    calls: map<nat, Call>,
    next: Handle,
    closing: set<Handle>,
    released: seq<Handle>)

  function Init(affinity: bool): State { State(affinity, map[], false, map[], 0, {}, []) }

  datatype Step =
    | BeginAcquire(id: nat, conn: ConnId)
    | BeginRelease(id: nat, conn: ConnId)
    | Enter(id: nat)
    | Ping(id: nat, ok: bool)
    | Recheck(id: nat)
    | Delete(id: nat)
    | Acquire(id: nat, ok: bool)
    | Install(id: nat)
    | Unlease(id: nat)
    | Release(id: nat)
    | Finish(id: nat)
    | Close
    | CloseRelease(h: Handle)

  predicate InFlight(s: State, conn: ConnId) { exists id :: id in s.calls && s.calls[id].conn == conn }

  /** The callers' discipline: one call at a time for a connection, and no call during `close`. */
  predicate Disciplined(s: State, a: Step) {
    match a
    case BeginAcquire(_, conn) => !InFlight(s, conn)
    case BeginRelease(_, conn) => !InFlight(s, conn)
    case Close => s.calls == map[]
    case _ => true
  }

  predicate MustRelease(c: Call) { c.Discarding? || c.Surplus? || c.Owning? || c.Freeing? }

  predicate Enabled(s: State, a: Step) {
    match a
    case BeginAcquire(id, _) => id !in s.calls
    case BeginRelease(id, _) => id !in s.calls
    case Close => true
    case CloseRelease(h) => h in s.closing
    case _ =>
      && a.id in s.calls
      && var c := s.calls[a.id];
         match a
         case Enter(_) => c.Entering?
         case Ping(_, _) => c.Pinging?
         case Recheck(_) => c.Alive?
         case Delete(_) => c.Dead?
         case Acquire(_, _) => c.Acquiring?
         case Install(_) => c.Installing?
         case Unlease(_) => c.Leaving?
         case Release(_) => MustRelease(c)
         case Finish(_) => c.Using?
  }

  predicate HasLease(s: State, conn: ConnId, h: Handle) { conn in s.leases && s.leases[conn] == h }

  function Goto(s: State, id: nat, c: Call): State { s.(calls := s.calls[id := c]) }

  function End(s: State, id: nat): State { s.(calls := s.calls - {id}) }

  function Next(s: State, a: Step): State
    requires Enabled(s, a)
  {
    match a
    case BeginAcquire(id, conn) => Goto(s, id, Entering(conn))
    case BeginRelease(id, conn) => Goto(s, id, Leaving(conn))
    case Close =>
      if s.closed then s else s.(closed := true, closing := s.closing + s.leases.Values, leases := map[])
    case CloseRelease(h) => s.(closing := s.closing - {h}, released := s.released + [h])
    case _ => CallNext(s, a, s.calls[a.id])
  }

  predicate CallStep(a: Step) {
    !a.BeginAcquire? && !a.BeginRelease? && !a.Close? && !a.CloseRelease?
  }

  function CallNext(s: State, a: Step, c: Call): State
    requires CallStep(a) && Enabled(s, a) && c == s.calls[a.id]
  {
    var id, conn := a.id, c.conn;
    match a
    case Enter(_) =>
      if s.closed then End(s, id)
      else if s.affinity && conn in s.leases then Goto(s, id, Pinging(conn, s.leases[conn]))
      else Goto(s, id, Acquiring(conn))
    case Ping(_, ok) => Goto(s, id, if ok then Alive(conn, c.h) else Dead(conn, c.h))
    case Recheck(_) => Goto(s, id, if HasLease(s, conn, c.h) then Using(conn, c.h) else Acquiring(conn))
    case Delete(_) =>
      Goto(if HasLease(s, conn, c.h) then s.(leases := s.leases - {conn}) else s, id, Discarding(conn, c.h))
    case Acquire(_, ok) =>
      if !ok then End(s, id)
      else Goto(s.(next := s.next + 1), id, if s.affinity then Installing(conn, s.next) else Owning(conn, s.next))
    case Install(_) =>
      if s.closed then Goto(s, id, Surplus(conn, c.h, None))
      else if conn in s.leases then Goto(s, id, Surplus(conn, c.h, Some(s.leases[conn])))
      else Goto(s.(leases := s.leases[conn := c.h]), id, Using(conn, c.h))
    case Unlease(_) =>
      if conn in s.leases
      then Goto(s.(leases := s.leases - {conn}), id, Freeing(conn, s.leases[conn]))
      else End(s, id)
    case Release(_) =>
      var t := s.(released := s.released + [c.h]);
      if c.Discarding? then Goto(t, id, Acquiring(conn))
      else if c.Surplus? && c.result.Some? then Goto(t, id, Using(conn, c.result.value))
      else End(t, id)
    case Finish(_) => End(s, id)
  }

  /** Runs of callers that keep the discipline, and runs of any callers. */
  predicate CanRun(s: State, steps: seq<Step>, disciplined: bool)
    decreases |steps|
  {
    steps == [] ||
    (&& Enabled(s, steps[0])
     && (disciplined ==> Disciplined(s, steps[0]))
     && CanRun(Next(s, steps[0]), steps[1..], disciplined))
  }

  function Run(s: State, steps: seq<Step>, disciplined: bool): State
    requires CanRun(s, steps, disciplined)
    decreases |steps|
  {
    if steps == [] then s else Run(Next(s, steps[0]), steps[1..], disciplined)
  }

  // ----- Every handle is in one place ------------------------------------------------------------------

  /** Leased to a connection, held by a call that must still dispose of it, taken over by `close`, or
      released, as the n-th release. */
  datatype Place = Lease(conn: ConnId) | Hand(id: nat) | Closer | Gone(at: nat)

  predicate Holds(c: Call) { MustRelease(c) || c.Installing? }

  predicate HeldBy(s: State, id: nat, h: Handle) {
    id in s.calls && Holds(s.calls[id]) && s.calls[id].h == h
  }

  predicate At(s: State, h: Handle, p: Place) {
    match p
    case Lease(conn) => HasLease(s, conn, h)
    case Hand(id) => HeldBy(s, id, h)
    case Closer => h in s.closing
    case Gone(n) => n < |s.released| && s.released[n] == h
  }

  /** `own` gives each acquired handle the one place where it is. */
  ghost predicate Accounted(s: State, own: map<Handle, Place>) {
    && (forall h: Handle :: h in own <==> h < s.next)
    && (forall h: Handle :: h in own ==> At(s, h, own[h]))
    && (forall h, p :: At(s, h, p) ==> h in own && own[h] == p)
  }

  /** A call that refers to a lease without holding it. */
  predicate Refers(c: Call) { c.Pinging? || c.Alive? || c.Dead? || c.Using? }

  /** What the discipline buys: a call finds its connection's lease as it left it. */
  predicate CallOk(s: State, c: Call) {
    && (Refers(c) ==> HasLease(s, c.conn, c.h) && !s.closed)
    && (c.Installing? ==> s.affinity)
    && (c.Discarding? || c.Acquiring? || c.Installing? ==> c.conn !in s.leases && !s.closed)
    && !c.Surplus?
  }

  ghost predicate Consistent(s: State) {
    && (forall i, j :: i in s.calls && j in s.calls && s.calls[i].conn == s.calls[j].conn ==> i == j)
    && (forall i :: i in s.calls ==> CallOk(s, s.calls[i]))
    && (!s.affinity ==> s.leases == map[])
  }

  /** One handle moves to `p`, the others stay. */
  lemma Relocate(s: State, s': State, own: map<Handle, Place>, h: Handle, p: Place)
    requires Accounted(s, own) && ((h in own && s'.next == s.next) || (h == s.next && s'.next == s.next + 1))
    requires forall x, q :: At(s', x, q) <==> (if x == h then q == p else At(s, x, q))
    ensures Accounted(s', own[h := p])
  {
  }

  lemma Stay(s: State, s': State, own: map<Handle, Place>)
    requires Accounted(s, own) && s'.next == s.next
    requires s'.leases == s.leases && s'.closing == s.closing && s'.released == s.released
    requires forall id, h :: HeldBy(s', id, h) <==> HeldBy(s, id, h)
    ensures Accounted(s', own)
  {
    forall h, p ensures At(s', h, p) <==> At(s, h, p) { }
  }

  /** A call gives its handle away: to the lease table or to the releases. */
  lemma HandOver(s: State, s': State, own: map<Handle, Place>, id: nat, p: Place)
    requires Accounted(s, own) && id in s.calls && Holds(s.calls[id]) && s'.next == s.next
    requires s'.closing == s.closing
    requires id !in s'.calls || !Holds(s'.calls[id])
    requires forall i :: i != id ==> (i in s'.calls <==> i in s.calls) && (i in s.calls ==> s'.calls[i] == s.calls[i])
    requires var h := s.calls[id].h;
      (p == Gone(|s.released|) && s'.released == s.released + [h] && s'.leases == s.leases)
      || (p.Lease? && p.conn !in s.leases && s'.leases == s.leases[p.conn := h] && s'.released == s.released)
    ensures Accounted(s', own[s.calls[id].h := p])
  {
    var h := s.calls[id].h;
    assert At(s, h, Hand(id));
    forall x, q ensures At(s', x, q) <==> (if x == h then q == p else At(s, x, q)) {
      if At(s, x, q) { assert x in own && own[x] == q; }
      if q.Gone? && q.at < |s.released| { assert s'.released[q.at] == s.released[q.at]; }
    }
    Relocate(s, s', own, h, p);
  }

  /** A call takes the handle of a lease over. */
  lemma TakeOver(s: State, s': State, own: map<Handle, Place>, id: nat, conn: ConnId)
    requires Accounted(s, own) && conn in s.leases && s'.next == s.next
    requires id in s.calls && !Holds(s.calls[id])
    requires s'.leases == s.leases - {conn} && s'.closing == s.closing && s'.released == s.released
    requires id in s'.calls && Holds(s'.calls[id]) && s'.calls[id].h == s.leases[conn]
    requires forall i :: i != id ==> (i in s'.calls <==> i in s.calls) && (i in s.calls ==> s'.calls[i] == s.calls[i])
    ensures Accounted(s', own[s.leases[conn] := Hand(id)])
  {
    var h := s.leases[conn];
    assert At(s, h, Lease(conn));
    forall x, q ensures At(s', x, q) <==> (if x == h then q == Hand(id) else At(s, x, q)) {
      if At(s, x, q) { assert x in own && own[x] == q; }
    }
    Relocate(s, s', own, h, Hand(id));
  }

  lemma Acquired(s: State, own: map<Handle, Place>, id: nat)
    requires Accounted(s, own) && Enabled(s, Acquire(id, true))
    ensures Accounted(Next(s, Acquire(id, true)), own[s.next := Hand(id)])
  {
    var s' := Next(s, Acquire(id, true));
    forall x, q ensures At(s', x, q) <==> (if x == s.next then q == Hand(id) else At(s, x, q)) {
      if At(s, x, q) { assert x in own; }
    }
    Relocate(s, s', own, s.next, Hand(id));
  }

  function ToCloser(own: map<Handle, Place>): map<Handle, Place> {
    map h | h in own :: if own[h].Lease? then Closer else own[h]
  }

  lemma Closed(s: State, own: map<Handle, Place>)
    requires Accounted(s, own) && !s.closed
    ensures Accounted(Next(s, Close), ToCloser(own))
  {
    var s' := Next(s, Close);
    assert forall x :: x in ToCloser(own) <==> x in own;
    forall x ensures x in s.leases.Values <==> x in own && own[x].Lease? {
      if x in s.leases.Values {
        var c :| c in s.leases && s.leases[c] == x;
        assert At(s, x, Lease(c));
      }
    }
    forall x, q | At(s', x, q) ensures x in ToCloser(own) && ToCloser(own)[x] == q {
      if !q.Closer? || x in s.closing { assert At(s, x, q); }
    }
    forall x | x in own ensures At(s', x, ToCloser(own)[x]) {
      assert At(s, x, own[x]);
    }
  }

  lemma CloserReleases(s: State, own: map<Handle, Place>, h: Handle)
    requires Accounted(s, own) && h in s.closing
    ensures Accounted(Next(s, CloseRelease(h)), own[h := Gone(|s.released|)])
  {
    var s', p := Next(s, CloseRelease(h)), Gone(|s.released|);
    assert At(s, h, Closer);
    forall x, q ensures At(s', x, q) <==> (if x == h then q == p else At(s, x, q)) {
      if At(s, x, q) { assert x in own && own[x] == q; }
      if q.Gone? && q.at < |s.released| { assert s'.released[q.at] == s.released[q.at]; }
    }
    Relocate(s, s', own, h, p);
  }

  // ----- Every step ------------------------------------------------------------------------------------------

  /** Where the handles are after a step. */
  ghost function Moved(s: State, own: map<Handle, Place>, a: Step): map<Handle, Place>
    requires Enabled(s, a) && Consistent(s)
  {
    match a
    case Delete(id) => own[s.calls[id].h := Hand(id)]
    case Acquire(id, ok) => if ok then own[s.next := Hand(id)] else own
    case Install(id) => own[s.calls[id].h := Lease(s.calls[id].conn)]
    case Unlease(id) =>
      var conn := s.calls[id].conn;
      if conn in s.leases then own[s.leases[conn] := Hand(id)] else own
    case Release(id) => own[s.calls[id].h := Gone(|s.released|)]
    case Close => if s.closed then own else ToCloser(own)
    case CloseRelease(h) => own[h := Gone(|s.released|)]
    case _ => own
  }

  /** Steps after which everything is where it was. */
  predicate Quiet(a: Step) {
    a.BeginAcquire? || a.BeginRelease? || a.Enter? || a.Ping? || a.Recheck? || a.Finish?
  }

  lemma QuietAccounts(s: State, own: map<Handle, Place>, a: Step)
    requires Accounted(s, own) && Enabled(s, a) && Quiet(a)
    ensures Accounted(Next(s, a), own)
  {
    hide Accounted;
    Stay(s, Next(s, a), own);
  }

  lemma DeleteAccounts(s: State, own: map<Handle, Place>, id: nat)
    requires Accounted(s, own) && Consistent(s) && Enabled(s, Delete(id))
    ensures Accounted(Next(s, Delete(id)), own[s.calls[id].h := Hand(id)])
  {
    hide Accounted;
    assert CallOk(s, s.calls[id]);
    TakeOver(s, Next(s, Delete(id)), own, id, s.calls[id].conn);
  }

  lemma UnleaseAccounts(s: State, own: map<Handle, Place>, id: nat)
    requires Accounted(s, own) && Consistent(s) && Enabled(s, Unlease(id))
    ensures Accounted(Next(s, Unlease(id)), Moved(s, own, Unlease(id)))
  {
    hide Accounted;
    var conn, s' := s.calls[id].conn, Next(s, Unlease(id));
    if conn in s.leases { TakeOver(s, s', own, id, conn); } else { Stay(s, s', own); }
  }

  lemma InstallAccounts(s: State, own: map<Handle, Place>, id: nat)
    requires Accounted(s, own) && Consistent(s) && Enabled(s, Install(id))
    ensures Accounted(Next(s, Install(id)), own[s.calls[id].h := Lease(s.calls[id].conn)])
  {
    hide Accounted;
    assert CallOk(s, s.calls[id]);
    HandOver(s, Next(s, Install(id)), own, id, Lease(s.calls[id].conn));
  }

  lemma ReleaseAccounts(s: State, own: map<Handle, Place>, id: nat)
    requires Accounted(s, own) && Consistent(s) && Enabled(s, Release(id))
    ensures Accounted(Next(s, Release(id)), own[s.calls[id].h := Gone(|s.released|)])
  {
    hide Accounted;
    assert CallOk(s, s.calls[id]);
    HandOver(s, Next(s, Release(id)), own, id, Gone(|s.released|));
  }

  lemma StepAccounts(s: State, own: map<Handle, Place>, a: Step)
    requires Accounted(s, own) && Consistent(s) && Enabled(s, a)
    ensures Accounted(Next(s, a), Moved(s, own, a))
  {
    hide Accounted, Consistent, CallNext;
    if Quiet(a) {
      QuietAccounts(s, own, a);
    } else if a.Delete? {
      DeleteAccounts(s, own, a.id);
    } else if a.Acquire? && a.ok {
      Acquired(s, own, a.id);
    } else if a.Acquire? {
      FailedAcquire(s, own, a.id);
    } else if a.Install? {
      InstallAccounts(s, own, a.id);
    } else if a.Unlease? {
      UnleaseAccounts(s, own, a.id);
    } else if a.Release? {
      ReleaseAccounts(s, own, a.id);
    } else if a.CloseRelease? {
      CloserReleases(s, own, a.h);
    } else if !s.closed {
      Closed(s, own);
    }
  }

  lemma FailedAcquire(s: State, own: map<Handle, Place>, id: nat)
    requires Accounted(s, own) && Enabled(s, Acquire(id, false))
    ensures Accounted(Next(s, Acquire(id, false)), own)
  {
    hide Accounted;
    Stay(s, Next(s, Acquire(id, false)), own);
  }

  /** Leases of connections without a call in the step do not change. */
  lemma OtherLeases(s: State, a: Step, conn: ConnId)
    requires Consistent(s) && CallStep(a) && Enabled(s, a) && conn != s.calls[a.id].conn
    ensures var s' := Next(s, a);
      && (conn in s'.leases <==> conn in s.leases) && (conn in s.leases ==> s'.leases[conn] == s.leases[conn])
      && s'.closed == s.closed
  {
  }

  lemma CallStaysOk(s: State, a: Step)
    requires Consistent(s) && CallStep(a) && Enabled(s, a)
    ensures var s' := Next(s, a);
      a.id in s'.calls ==> CallOk(s', s'.calls[a.id]) && s'.calls[a.id].conn == s.calls[a.id].conn
    ensures !s.affinity ==> Next(s, a).leases == map[]
  {
    assert CallOk(s, s.calls[a.id]);
  }

  lemma OtherCalls(s: State, a: Step)
    requires CallStep(a) && Enabled(s, a)
    ensures var s' := Next(s, a);
      forall i :: i != a.id ==> (i in s'.calls <==> i in s.calls) && (i in s.calls ==> s'.calls[i] == s.calls[i])
  {
  }

  lemma CallKeepsConsistent(s: State, a: Step)
    requires Consistent(s) && CallStep(a) && Enabled(s, a)
    ensures Consistent(Next(s, a))
  {
    hide Next, CallOk;
    var s' := Next(s, a);
    CallStaysOk(s, a);
    OtherCalls(s, a);
    AffinityFixed(s, a);
    forall i | i in s'.calls ensures CallOk(s', s'.calls[i]) {
      if i != a.id {
        OtherLeases(s, a, s.calls[i].conn);
        StaysOk(s, s', s.calls[i]);
      }
    }
  }

  lemma StaysOk(s: State, s': State, c: Call)
    requires CallOk(s, c) && s'.closed == s.closed && s'.affinity == s.affinity
    requires c.conn in s'.leases <==> c.conn in s.leases
    requires c.conn in s.leases ==> s'.leases[c.conn] == s.leases[c.conn]
    ensures CallOk(s', c)
  {
  }

  lemma AffinityFixed(s: State, a: Step)
    requires Enabled(s, a)
    ensures Next(s, a).affinity == s.affinity
  {
  }

  lemma StepKeepsConsistent(s: State, a: Step)
    requires Consistent(s) && Enabled(s, a) && Disciplined(s, a)
    ensures Consistent(Next(s, a))
  {
    if CallStep(a) {
      CallKeepsConsistent(s, a);
    } else {
      var s' := Next(s, a);
      forall i | i in s'.calls ensures CallOk(s', s'.calls[i]) {
        if i in s.calls { assert CallOk(s, s.calls[i]); }
      }
    }
  }

  /**
   For every run of disciplined callers there is one place for every acquired handle: leased to one
   connection, held by one call, taken over by `close`, or released once.
   */
  lemma {:induction false} LeaseConservation(s: State, own: map<Handle, Place>, steps: seq<Step>)
    returns (own': map<Handle, Place>)
    requires Accounted(s, own) && Consistent(s) && CanRun(s, steps, true)
    ensures var t := Run(s, steps, true); Accounted(t, own') && Consistent(t)
    decreases |steps|
  {
    hide Accounted, Consistent, Next, Enabled, Disciplined;
    own' := own;
    if steps != [] {
      var a := steps[0];
      StepAccounts(s, own, a);
      StepKeepsConsistent(s, a);
      own' := LeaseConservation(Next(s, a), Moved(s, own, a), steps[1..]);
    }
  }

  lemma InitAccounted(s: State, own: map<Handle, Place>)
    requires s == Init(s.affinity) && own == map[]
    ensures Accounted(s, own)
  {
    forall h, p ensures !At(s, h, p) { }
  }

  /** No handle is released twice, no two calls use the same handle, and a handle in use under affinity is
      its connection's lease and not released. */
  ghost predicate Proper(s: State) {
    && (forall i, j :: 0 <= i < j < |s.released| ==> s.released[i] != s.released[j])
    && (forall i, j :: i in s.calls && j in s.calls && s.calls[i].Using? && s.calls[j].Using? && i != j
          ==> s.calls[i].h != s.calls[j].h)
    && (forall i :: i in s.calls && s.calls[i].Using?
          ==> HasLease(s, s.calls[i].conn, s.calls[i].h) && s.calls[i].h !in s.released)
  }

  lemma AccountedIsProper(s: State, own: map<Handle, Place>)
    requires Accounted(s, own) && Consistent(s)
    ensures Proper(s)
  {
    forall i, j | 0 <= i < j < |s.released| ensures s.released[i] != s.released[j] {
      assert At(s, s.released[i], Gone(i)) && At(s, s.released[j], Gone(j));
    }
    forall i | i in s.calls && s.calls[i].Using?
      ensures s.calls[i].h in own && own[s.calls[i].h] == Lease(s.calls[i].conn)
      ensures HasLease(s, s.calls[i].conn, s.calls[i].h) && s.calls[i].h !in s.released
    {
      assert CallOk(s, s.calls[i]);
      assert At(s, s.calls[i].h, Lease(s.calls[i].conn));
      forall n | 0 <= n < |s.released| ensures s.released[n] != s.calls[i].h {
        assert At(s, s.released[n], Gone(n));
      }
    }
  }

  /** So it is in every run of disciplined callers from an empty pool. */
  lemma NoSharingNoDoubleRelease(affinity: bool, steps: seq<Step>)
    requires CanRun(Init(affinity), steps, true)
    ensures Proper(Run(Init(affinity), steps, true))
  {
    hide Run, CanRun, Proper;
    var none: map<Handle, Place> := map[];
    InitAccounted(Init(affinity), none);
    var own := LeaseConservation(Init(affinity), none, steps);
    AccountedIsProper(Run(Init(affinity), steps, true), own);
  }

  /**
   In any state in which every handle has one place, whatever the callers do: dropping a dead lease
   keeps it so if and only if the lease is still the one that was found dead. The code releases the
   handle in both cases.
   */
  lemma DeadLeaseIff(s: State, own: map<Handle, Place>, id: nat)
    requires Accounted(s, own) && Enabled(s, Delete(id)) && s.calls[id].h < s.next
    ensures (exists own' :: Accounted(Next(s, Delete(id)), own')) <==> HasLease(s, s.calls[id].conn, s.calls[id].h)
  {
    var s', h, conn := Next(s, Delete(id)), s.calls[id].h, s.calls[id].conn;
    if HasLease(s, conn, h) {
      TakeOver(s, s', own, id, conn);
    } else {
      assert At(s, h, own[h]) && own[h] != Hand(id);
      assert At(s', h, own[h]) && At(s', h, Hand(id));
    }
  }

  lemma Then(s: State, a: Step, t: State, more: seq<Step>)
    requires Enabled(s, a) && Next(s, a) == t && CanRun(t, more, false)
    ensures CanRun(s, [a] + more, false) && Run(s, [a] + more, false) == Run(t, more, false)
  {
    assert ([a] + more)[1..] == more;
  }

  // The states on the way.

  function Empty(): State {
    State(true, map[], false, map[], 0, {}, [])
  }

  function Leased(c: ConnId): State {
    State(true, map[c := 0], false, map[], 1, {}, [])
  }

  function FoundDead(c: ConnId): State {
    State(true, map[c := 0], false, map[0 := Dead(c, 0), 1 := Dead(c, 0)], 1, {}, [])
  }

  function ReleasedTwice(c: ConnId): State {
    State(true, map[], false, map[0 := Acquiring(c), 1 := Acquiring(c)], 1, {}, [0, 0])
  }

  /** A first call leases handle 0. */
  lemma LeaseOnce(c: ConnId, more: seq<Step>) returns (steps: seq<Step>)
    requires CanRun(Leased(c), more, false)
    ensures CanRun(Empty(), steps, false) && Run(Empty(), steps, false) == Run(Leased(c), more, false)
  {
    hide CanRun, Run;
    var t1 := State(true, map[], false, map[0 := Entering(c)], 0, {}, []);
    var t2 := State(true, map[], false, map[0 := Acquiring(c)], 0, {}, []);
    var t3 := State(true, map[], false, map[0 := Installing(c, 0)], 1, {}, []);
    var t4 := State(true, map[c := 0], false, map[0 := Using(c, 0)], 1, {}, []);
    steps := more;
    Then(t4, Finish(0), Leased(c), steps);
    steps := [Finish(0)] + steps;
    Then(t3, Install(0), t4, steps);
    steps := [Install(0)] + steps;
    Then(t2, Acquire(0, true), t3, steps);
    steps := [Acquire(0, true)] + steps;
    Then(t1, Enter(0), t2, steps);
    steps := [Enter(0)] + steps;
    Then(Empty(), BeginAcquire(0, c), t1, steps);
    steps := [BeginAcquire(0, c)] + steps;
  }

  /** Two calls look the lease up and find it dead. */
  lemma BothFindItDead(c: ConnId, more: seq<Step>) returns (steps: seq<Step>)
    requires CanRun(FoundDead(c), more, false)
    ensures CanRun(Leased(c), steps, false) && Run(Leased(c), steps, false) == Run(FoundDead(c), more, false)
  {
    hide CanRun, Run;
    var t6 := State(true, map[c := 0], false, map[0 := Entering(c)], 1, {}, []);
    var t7 := State(true, map[c := 0], false, map[0 := Entering(c), 1 := Entering(c)], 1, {}, []);
    var t8 := State(true, map[c := 0], false, map[0 := Pinging(c, 0), 1 := Entering(c)], 1, {}, []);
    var t9 := State(true, map[c := 0], false, map[0 := Pinging(c, 0), 1 := Pinging(c, 0)], 1, {}, []);
    var t10 := State(true, map[c := 0], false, map[0 := Dead(c, 0), 1 := Pinging(c, 0)], 1, {}, []);
    steps := more;
    Then(t10, Ping(1, false), FoundDead(c), steps);
    steps := [Ping(1, false)] + steps;
    Then(t9, Ping(0, false), t10, steps);
    steps := [Ping(0, false)] + steps;
    Then(t8, Enter(1), t9, steps);
    steps := [Enter(1)] + steps;
    Then(t7, Enter(0), t8, steps);
    steps := [Enter(0)] + steps;
    Then(t6, BeginAcquire(1, c), t7, steps);
    steps := [BeginAcquire(1, c)] + steps;
    Then(Leased(c), BeginAcquire(0, c), t6, steps);
    steps := [BeginAcquire(0, c)] + steps;
  }

  /** The first drops the lease; both release the handle. */
  lemma BothRelease(c: ConnId, more: seq<Step>) returns (steps: seq<Step>)
    requires CanRun(ReleasedTwice(c), more, false)
    ensures CanRun(FoundDead(c), steps, false) && Run(FoundDead(c), steps, false) == Run(ReleasedTwice(c), more, false)
  {
    hide CanRun, Run;
    var t12 := State(true, map[], false, map[0 := Discarding(c, 0), 1 := Dead(c, 0)], 1, {}, []);
    var t13 := State(true, map[], false, map[0 := Discarding(c, 0), 1 := Discarding(c, 0)], 1, {}, []);
    var t14 := State(true, map[], false, map[0 := Acquiring(c), 1 := Discarding(c, 0)], 1, {}, [0]);
    steps := more;
    Then(t14, Release(1), ReleasedTwice(c), steps);
    steps := [Release(1)] + steps;
    Then(t13, Release(0), t14, steps);
    steps := [Release(0)] + steps;
    Then(t12, Delete(1), t13, steps);
    steps := [Delete(1)] + steps;
    Then(FoundDead(c), Delete(0), t12, steps);
    steps := [Delete(0)] + steps;
  }

  /**
   Without the discipline it fails: two calls for one connection that both find its handle dead both
   release it.
   */
  lemma UndisciplinedDoubleRelease(c: ConnId) returns (steps: seq<Step>)
    ensures CanRun(Init(true), steps, false) && Run(Init(true), steps, false).released == [0, 0]
  {
    hide CanRun, Run;
    Nothing(ReleasedTwice(c));
    steps := BothRelease(c, []);
    steps := BothFindItDead(c, steps);
    steps := LeaseOnce(c, steps);
  }

  lemma Nothing(s: State)
    ensures CanRun(s, [], false) && Run(s, [], false) == s
  {
  }
}
