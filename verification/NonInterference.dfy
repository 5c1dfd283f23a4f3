/**
 Connections do not interfere (pkg/pipeline/processor.go): in any interleaving, what the processor
 emits for a connection is what a new processor emits when given that connection's callbacks alone,
 except that transaction ids are renamed by an order-preserving renaming that fixes 0.

 The renaming is explicit: `ids` lists the ids the shared counter gave to the connection, in
 order, and `Rename(ids, n)` is the n-th of them.
 */
module NonInterference {
  import opened Core
  import opened Processor
  import Framing
  import Bind
  import Copy

  ghost predicate Increasing(ids: seq<nat>) {
    && (forall i :: 0 <= i < |ids| ==> ids[i] > 0)
    && (forall i, j :: 0 <= i < j < |ids| ==> ids[i] < ids[j])
  }

  function Rename(ids: seq<nat>, n: nat): nat {
    if 0 < n <= |ids| then ids[n - 1] else 0
  }

  function RenameMark(ids: seq<nat>, m: Mark): Mark {
    if m.Stmt? then m.(event := m.event.(txId := Rename(ids, m.event.txId))) else m
  }

  function RenameAll(ids: seq<nat>, ms: seq<Mark>): seq<Mark> {
    seq(|ms|, i requires 0 <= i < |ms| => RenameMark(ids, ms[i]))
  }

  /** All ids in the marks have been handed out. */
  ghost predicate Known(n: nat, ms: seq<Mark>) {
    forall m :: m in ms && m.Stmt? ==> m.event.txId <= n
  }

  lemma RenameConcat(ids: seq<nat>, a: seq<Mark>, b: seq<Mark>)
    ensures RenameAll(ids, a + b) == RenameAll(ids, a) + RenameAll(ids, b)
  {
  }

  /** Handing out further ids does not rename what was already emitted. */
  lemma RenameStable(ids: seq<nat>, more: seq<nat>, ms: seq<Mark>)
    requires Known(|ids|, ms)
    ensures RenameAll(ids + more, ms) == RenameAll(ids, ms)
  {
    forall i | 0 <= i < |ms| ensures RenameMark(ids + more, ms[i]) == RenameMark(ids, ms[i]) {
      assert ms[i] in ms;
    }
  }

  /** The connection alone (`l`, ids 1..k) and the same connection inside a busy processor
      (`l'`, shared counter `k'`) are in step. */
  ghost predicate InStep(ids: seq<nat>, l: Local, k: nat, l': Local, k': nat) {
    && Increasing(ids)
    && |ids| == k
    && (forall i :: 0 <= i < k ==> ids[i] <= k')
    && l.tx <= k
    && l' == l.(tx := Rename(ids, l.tx))
  }

  /** Two outcomes in step, with the busy one's marks renamed. */
  ghost predicate OutInStep(ids: seq<nat>, o: Out, o': Out) {
    && InStep(ids, o.local, o.counter, o'.local, o'.counter)
    && Known(o.counter, o.marks)
    && o'.marks == RenameAll(ids, o.marks)
  }

  lemma DispatchInStep(cfg: Config, ids: seq<nat>, l: Local, k: nat, l': Local, k': nat, ev: Event)
      returns (more: seq<nat>)
    requires InStep(ids, l, k, l', k')
    ensures OutInStep(ids + more, Dispatch(cfg, l, k, ev), Dispatch(cfg, l', k', ev))
  {
    more := if Opens(cfg.classify(ev.sql), l.tx) then [k' + 1] else [];
    assert Rename(ids + more, l.tx) == Rename(ids, l.tx);
    assert l'.tx == 0 <==> l.tx == 0;
  }

  /** The common shape of the message handlers: nothing but the connection's own fields change. */
  lemma QuietInStep(ids: seq<nat>, l: Local, k: nat, l': Local, k': nat, ms: seq<Mark>)
    requires InStep(ids, l, k, l', k')
    requires forall m :: m in ms ==> !m.Stmt?
    ensures OutInStep(ids + [], Out(l, k, ms), Out(l', k', ms))
  {
    assert ids + [] == ids;
    assert RenameAll(ids, ms) == ms;
  }

  lemma TimedInStep(cfg: Config, ids: seq<nat>, l: Local, k: nat, l': Local, k': nat, ev: Event, ts: I64)
      returns (more: seq<nat>)
    requires InStep(ids, l, k, l', k')
    ensures OutInStep(ids + more, DispatchTimed(cfg, l, k, ev, ts), DispatchTimed(cfg, l', k', ev, ts))
  {
    more := DispatchInStep(cfg, ids, l, k, l', k', ev);
  }

  lemma ClientInStep(cfg: Config, conn: ConnId, ids: seq<nat>, l: Local, k: nat,
      l': Local, k': nat, msg: Message, ts: I64)
      returns (more: seq<nat>)
    requires InStep(ids, l, k, l', k')
    ensures OutInStep(ids + more, HandleClient(cfg, conn, l, k, msg, ts), HandleClient(cfg, conn, l', k', msg, ts))
  {
    hide Dispatch, DispatchTimed, Rename, Bind.Correlate, Bind.DecodeParse;
    more := [];
    var o, o' := HandleClient(cfg, conn, l, k, msg, ts), HandleClient(cfg, conn, l', k', msg, ts);
    if o.marks == [] && o.counter == k && InStep(ids, o.local, k, o'.local, k') && o'.marks == [] && o'.counter == k' {
      QuietInStep(ids, o.local, k, o'.local, k', []);
    } else if msg.kind == MSG_BIND {
      var r := Bind.Correlate(l.stmts, msg.payload).value;
      more := TimedInStep(cfg, ids, l, k, l', k',
        NewEvent(conn, r.sql, ts).(stmtName := r.stmt, params := r.params, extended := true), ts);
    } else if msg.kind == MSG_COPY_DONE {
      var (sql, data) := Copy.Finished(l.copy).value;
      more := DispatchInStep(cfg, ids, l.(copy := Copy.NoCopy), k, l'.(copy := Copy.NoCopy), k',
        NewEvent(conn, sql, ts).(copyData := data));
    } else {
      more := TimedInStep(cfg, ids, l, k, l', k', BuildQuery(cfg, conn, msg, ts).value, ts);
    }
  }

  lemma HandleInStep(cfg: Config, conn: ConnId, fromClient: bool, ids: seq<nat>, l: Local, k: nat, l': Local, k': nat,
                     msg: Message, ts: I64)
      returns (more: seq<nat>)
    requires InStep(ids, l, k, l', k')
    ensures OutInStep(ids + more,
                      Handle(cfg, conn, fromClient, l, k, msg, ts), Handle(cfg, conn, fromClient, l', k', msg, ts))
  {
    if fromClient {
      hide HandleClient;
      more := ClientInStep(cfg, conn, ids, l, k, l', k', msg, ts);
    } else {
      more := [];
      var o, o' := HandleServer(l, k, msg, ts), HandleServer(l', k', msg, ts);
      QuietInStep(ids, o.local, k, o'.local, k', o.marks);
    }
  }

  lemma {:induction false} AllInStep(cfg: Config, conn: ConnId, fromClient: bool, ids: seq<nat>,
                  l: Local, k: nat, l': Local, k': nat, msgs: seq<Message>, ts: I64)
      returns (more: seq<nat>)
    requires InStep(ids, l, k, l', k')
    ensures OutInStep(ids + more, HandleAll(cfg, conn, fromClient, l, k, msgs, ts),
                                  HandleAll(cfg, conn, fromClient, l', k', msgs, ts))
    decreases |msgs|
  {
    hide Handle;
    if msgs == [] {
      more := [];
      QuietInStep(ids, l, k, l', k', []);
    } else {
      var first := HandleInStep(cfg, conn, fromClient, ids, l, k, l', k', msgs[0], ts);
      var o := Handle(cfg, conn, fromClient, l, k, msgs[0], ts);
      var o' := Handle(cfg, conn, fromClient, l', k', msgs[0], ts);
      var rest := AllInStep(cfg, conn, fromClient, ids + first, o.local, o.counter, o'.local, o'.counter,
                            msgs[1..], ts);
      more := first + rest;
      Chain(ids + first, rest, o, o',
            HandleAll(cfg, conn, fromClient, o.local, o.counter, msgs[1..], ts),
            HandleAll(cfg, conn, fromClient, o'.local, o'.counter, msgs[1..], ts));
      assert ids + more == ids + first + rest;
    }
  }

  /** Outcomes in step, one after the other, are in step. */
  lemma Chain(ids: seq<nat>, more: seq<nat>, o: Out, o': Out, p: Out, p': Out)
    requires OutInStep(ids, o, o') && OutInStep(ids + more, p, p')
    ensures OutInStep(ids + more, p.(marks := o.marks + p.marks), p'.(marks := o'.marks + p'.marks))
  {
    RenameStable(ids, more, o.marks);
    RenameConcat(ids + more, o.marks, p.marks);
  }

  lemma LocalInStep(cfg: Config, ids: seq<nat>, l: Local, k: nat, l': Local, k': nat, call: Call)
      returns (more: seq<nat>)
    requires InStep(ids, l, k, l', k')
    ensures OutInStep(ids + more, LocalStep(cfg, l, k, call), LocalStep(cfg, l', k', call))
  {
    hide HandleAll, Framing.FeedStep;
    match call {
      case OnClose(_) =>
        more := [];
        QuietInStep(ids, FreshLocal(), k, FreshLocal(), k', [Closed]);
      case OnBytes(conn, fromClient, data, ts) =>
        var fed := Framing.FeedStep(if fromClient then l.client else l.server, data);
        more := AllInStep(cfg, conn, fromClient, ids, SetParser(l, fromClient, fed.state), k,
                          SetParser(l', fromClient, fed.state), k', fed.msgs, ts);
    }
  }

  lemma StepOther(cfg: Config, g: Global, call: Call, c: ConnId)
    ensures call.conn != c ==> LocalOf(Step(cfg, g, call), c) == LocalOf(g, c)
    ensures call.conn == c ==>
      LocalOf(Step(cfg, g, call), c) == LocalStep(cfg, LocalOf(g, c), g.counter, call).local
  {
    hide HandleAll;
  }

  lemma {:induction false} CounterGrows(cfg: Config, g: Global, call: Call)
    ensures Step(cfg, g, call).counter >= g.counter
  {
    hide Handle;
    if call.OnBytes? {
      var l := LocalOf(g, call.conn);
      var fed := Framing.FeedStep(if call.fromClient then l.client else l.server, call.data);
      HandleAllGrows(cfg, call.conn, call.fromClient, SetParser(l, call.fromClient, fed.state), g.counter,
                     fed.msgs, call.ts);
    }
  }

  lemma HandleGrows(cfg: Config, conn: ConnId, fromClient: bool, l: Local, k: nat, msg: Message, ts: I64)
    ensures Handle(cfg, conn, fromClient, l, k, msg, ts).counter >= k
  {
  }

  lemma {:induction false} HandleAllGrows(cfg: Config, conn: ConnId, fromClient: bool, l: Local,
      k: nat, msgs: seq<Message>, ts: I64)
    ensures HandleAll(cfg, conn, fromClient, l, k, msgs, ts).counter >= k
    decreases |msgs|
  {
    if msgs != [] {
      HandleGrows(cfg, conn, fromClient, l, k, msgs[0], ts);
      hide Handle;
      var o := Handle(cfg, conn, fromClient, l, k, msgs[0], ts);
      HandleAllGrows(cfg, conn, fromClient, o.local, o.counter, msgs[1..], ts);
    }
  }

  /**
   The simulation over whole runs: from in-step states, the busy processor's log for `c` is the
   lone processor's log with ids renamed.
   */
  lemma {:induction false} RunInStep(cfg: Config, ids: seq<nat>, solo: Global, busy: Global,
      c: ConnId, calls: seq<Call>)
      returns (more: seq<nat>)
    requires InStep(ids, LocalOf(solo, c), solo.counter, LocalOf(busy, c), busy.counter)
    ensures Increasing(ids + more)
    ensures Of(c, Log(cfg, busy, calls)) == RenameAll(ids + more, Of(c, Log(cfg, solo, Project(c, calls))))
    ensures Known(|ids + more|, Of(c, Log(cfg, solo, Project(c, calls))))
    decreases |calls|
  {
    hide LocalStep, Log, Of;
    if calls == [] {
      more := [];
      assert ids + more == ids;
      EmptyLog(cfg, busy, c);
      EmptyLog(cfg, solo, c);
    } else {
      var call, rest := calls[0], calls[1..];
      LogStep(cfg, busy, calls, c);
      StepOther(cfg, busy, call, c);
      if call.conn != c {
        CounterGrows(cfg, busy, call);
        assert Project(c, calls) == Project(c, rest);
        more := RunInStep(cfg, ids, solo, Step(cfg, busy, call), c, rest);
        assert [] + Of(c, Log(cfg, Step(cfg, busy, call), rest)) == Of(c, Log(cfg, Step(cfg, busy, call), rest));
      } else {
        var solo', busy' := Step(cfg, solo, call), Step(cfg, busy, call);
        StepOther(cfg, solo, call, c);
        var mine := Project(c, calls);
        assert mine[0] == call && mine[1..] == Project(c, rest);
        LogStep(cfg, solo, mine, c);
        var first := LocalInStep(cfg, ids, LocalOf(solo, c), solo.counter, LocalOf(busy, c), busy.counter, call);
        var later := RunInStep(cfg, ids + first, solo', busy', c, rest);
        more := first + later;
        assert ids + more == ids + first + later;
        var a, b := StepMarks(cfg, solo, call), Of(c, Log(cfg, solo', mine[1..]));
        RenameStable(ids + first, later, a);
        RenameConcat(ids + more, a, b);
      }
    }
  }

  lemma EmptyLog(cfg: Config, g: Global, c: ConnId)
    ensures Of(c, Log(cfg, g, [])) == []
  {
  }

  /** Marks of two runs that agree up to an order-preserving renaming of transaction ids fixing 0. */
  ghost predicate SameUpToIds(a: seq<Mark>, b: seq<Mark>) {
    && |a| == |b|
    && (forall i :: 0 <= i < |a| ==> SameButId(a[i], b[i]))
    && (forall i, j :: 0 <= i < |a| && 0 <= j < |a| && a[i].Stmt? && a[j].Stmt? ==>
          (a[i].event.txId < a[j].event.txId <==> b[i].event.txId < b[j].event.txId))
  }

  predicate SameButId(m: Mark, n: Mark) {
    if m.Stmt? && n.Stmt? then
      m.(event := m.event.(txId := 0)) == n.(event := n.event.(txId := 0)) &&
      (m.event.txId == 0 <==> n.event.txId == 0)
    else m == n
  }

  lemma RenameMonotone(ids: seq<nat>, m: nat, n: nat)
    requires Increasing(ids) && m <= |ids| && n <= |ids|
    ensures Rename(ids, m) < Rename(ids, n) <==> m < n
    ensures Rename(ids, m) == 0 <==> m == 0
  {
    if 0 < m < n { assert ids[m - 1] < ids[n - 1]; }
    if 0 < n < m { assert ids[n - 1] < ids[m - 1]; }
  }

  lemma RenamingsAgree(ids: seq<nat>, ids': seq<nat>, ms: seq<Mark>)
    requires Increasing(ids) && Increasing(ids') && Known(|ids|, ms) && Known(|ids'|, ms)
    ensures SameUpToIds(RenameAll(ids, ms), RenameAll(ids', ms))
  {
    var a, b := RenameAll(ids, ms), RenameAll(ids', ms);
    forall i, j | 0 <= i < |ms| && 0 <= j < |ms| && ms[i].Stmt? && ms[j].Stmt?
      ensures a[i].event.txId < a[j].event.txId <==> b[i].event.txId < b[j].event.txId
      ensures SameButId(a[i], b[i])
    {
      var m, n := ms[i].event.txId, ms[j].event.txId;
      assert ms[i] in ms && ms[j] in ms;
      RenameMonotone(ids, m, n);
      RenameMonotone(ids', m, n);
    }
    forall i | 0 <= i < |ms| ensures SameButId(a[i], b[i]) {
      if ms[i].Stmt? { assert SameButId(a[i], b[i]); }
    }
  }

  /** In step with a new processor: after nothing, or after a close, whatever happened before. */
  lemma FreshInStep(g: Global, c: ConnId)
    requires LocalOf(g, c) == FreshLocal()
    ensures InStep([], LocalOf(Fresh(), c), 0, LocalOf(g, c), g.counter)
  {
  }

  /**
   Non-interference. Two runs of the processor whose callbacks on `c` are the same (chunks,
   directions, timestamps) emit the same statements, decisions and timings for `c`, with the same
   sequence numbers, parameters and COPY data, up to the naming of transaction ids; and both are
   what a new processor emits from `c`'s callbacks alone.
   */
  lemma ConnectionsDoNotInterfere(cfg: Config, c: ConnId, run1: seq<Call>, run2: seq<Call>)
    requires Project(c, run1) == Project(c, run2)
    ensures SameUpToIds(Of(c, Log(cfg, Fresh(), run1)), Of(c, Log(cfg, Fresh(), run2)))
    ensures SameUpToIds(Of(c, Log(cfg, Fresh(), run1)), Of(c, Log(cfg, Fresh(), Project(c, run1))))
  {
    hide Log, Of;
    FreshInStep(Fresh(), c);
    ProjectTwice(c, run1);
    var ids1 := RunInStep(cfg, [], Fresh(), Fresh(), c, run1);
    var ids2 := RunInStep(cfg, [], Fresh(), Fresh(), c, run2);
    var ids3 := RunInStep(cfg, [], Fresh(), Fresh(), c, Project(c, run1));
    var solo := Of(c, Log(cfg, Fresh(), Project(c, run1)));
    assert [] + ids1 == ids1 && [] + ids2 == ids2 && [] + ids3 == ids3;
    RenamingsAgree(ids1, ids2, solo);
    RenamingsAgree(ids1, ids3, solo);
  }

  lemma {:induction false} ProjectTwice(c: ConnId, calls: seq<Call>)
    ensures Project(c, Project(c, calls)) == Project(c, calls)
  {
    if calls != [] {
      ProjectTwice(c, calls[1..]);
      if calls[0].conn == c {
        assert Project(c, calls)[1..] == Project(c, calls[1..]);
      } else {
        assert Project(c, calls) == Project(c, calls[1..]);
      }
    }
  }

  lemma {:induction false} ProjectConcat(c: ConnId, a: seq<Call>, b: seq<Call>)
    ensures Project(c, a + b) == Project(c, a) + Project(c, b)
  {
    if a == [] {
      assert a + b == b && [] + Project(c, b) == Project(c, b);
    } else {
      assert (a + b)[1..] == a[1..] + b;
      ProjectConcat(c, a[1..], b);
      var head := if a[0].conn == c then [a[0]] else [];
      assert head + (Project(c, a[1..]) + Project(c, b)) == head + Project(c, a[1..]) + Project(c, b);
    }
  }

  /**
   Freshness after close. Whatever happened before, once `c` is closed everything later emitted
   for `c` is what a new processor emits given the same later callbacks.
   */
  lemma ClosedIsFresh(cfg: Config, c: ConnId, before: seq<Call>, later: seq<Call>)
    ensures var g := Step(cfg, Run(cfg, Fresh(), before), OnClose(c));
      SameUpToIds(Of(c, Log(cfg, g, later)), Of(c, Log(cfg, Fresh(), later)))
  {
    hide Log, Of, Run;
    var g := Step(cfg, Run(cfg, Fresh(), before), OnClose(c));
    FreshInStep(g, c);
    FreshInStep(Fresh(), c);
    var ids1 := RunInStep(cfg, [], Fresh(), g, c, later);
    var ids2 := RunInStep(cfg, [], Fresh(), Fresh(), c, later);
    assert [] + ids1 == ids1 && [] + ids2 == ids2;
    RenamingsAgree(ids1, ids2, Of(c, Log(cfg, Fresh(), Project(c, later))));
  }

  /** Closing `c` changes nothing for any other connection: its whole log, with and without the
      close, is the same up to the naming of ids. */
  lemma CloseLeavesOthersAlone(cfg: Config, c: ConnId, d: ConnId, before: seq<Call>, later: seq<Call>)
    requires c != d
    ensures SameUpToIds(Of(d, Log(cfg, Fresh(), before + [OnClose(c)] + later)),
                        Of(d, Log(cfg, Fresh(), before + later)))
  {
    hide Log, Of;
    ProjectConcat(d, before + [OnClose(c)], later);
    ProjectConcat(d, before, [OnClose(c)]);
    ProjectConcat(d, before, later);
    assert Project(d, [OnClose(c)]) == [];
    assert Project(d, before) + [] == Project(d, before);
    ConnectionsDoNotInterfere(cfg, d, before + [OnClose(c)] + later, before + later);
  }
}
