/**
 The stream processor as an object (pkg/pipeline/processor.go): collaborators with per-connection
 maps, shared by all connections. Every callback is proved to do, on its own connection, what
 `Processor.LocalStep` says, and nothing on any other.
 */
module Pipeline {
  import opened Core
  import opened Framing
  import opened Bind
  import opened Copy
  import opened Processor

  /** Transaction ids (pkg/protocol/txid.go): one counter, one current group per connection. */
  class TxIdGenerator {
    var counter: nat
    var current: map<ConnId, nat>

    constructor ()
      ensures counter == 0 && current == map[]
    {
      counter, current := 0, map[];
    }

    function Current(c: ConnId): nat
      reads this
    {
      if c in current then current[c] else 0
    }

    method Advance(c: ConnId)
      modifies this
      ensures counter == old(counter) + 1 && Current(c) == counter
      ensures forall d :: d != c ==> Current(d) == old(Current(d))
    {
      counter := counter + 1;
      current := current[c := counter];
    }

    method Reset(c: ConnId)
      modifies this
      ensures counter == old(counter) && Current(c) == 0
      ensures forall d :: d != c ==> Current(d) == old(Current(d))
    {
      current := current - {c};
    }
  }

  /** Transaction status (pkg/filter/state.go). */
  class TxStateMachine {
    var states: map<ConnId, TxStatus>

    constructor ()
      ensures states == map[]
    {
      states := map[];
    }

    function State(c: ConnId): TxStatus
      reads this
    {
      if c in states then states[c] else TxIdle
    }

    method OnReadyForQuery(c: ConnId, status: Byte)
      modifies this
      ensures State(c) == StatusOf(old(State(c)), status)
      ensures forall d :: d != c ==> State(d) == old(State(d))
    {
      if status == 73 { states := states[c := TxIdle]; }
      else if status == 84 { states := states[c := TxInTx]; }
      else if status == 69 { states := states[c := TxFailed]; }
    }

    method OnStatement(c: ConnId, cls: StmtClass)
      modifies this
      ensures State(c) == NextStatus(old(State(c)), cls)
      ensures forall d :: d != c ==> State(d) == old(State(d))
    {
      match cls {
        case ClassBegin => states := states[c := TxInTx];
        case ClassCommitRollback => states := states[c := TxIdle];
        case _ =>
      }
    }

    method Forget(c: ConnId)
      modifies this
      ensures State(c) == TxIdle
      ensures forall d :: d != c ==> State(d) == old(State(d))
    {
      states := states - {c};
    }
  }

  /** Source execution timing (pkg/protocol/sourceexectimer.go). */
  class SourceExecTimer {
    var starts: map<ConnId, I64>

    constructor ()
      ensures starts == map[]
    {
      starts := map[];
    }

    function Pending(c: ConnId): Option<I64>
      reads this
    {
      if c in starts then Some(starts[c]) else None
    }

    method OnClientQuery(c: ConnId, ts: I64)
      modifies this
      ensures Pending(c) == Some(ts)
      ensures forall d :: d != c ==> Pending(d) == old(Pending(d))
    {
      starts := starts[c := ts];
    }

    method OnBackendComplete(c: ConnId, ts: I64) returns (elapsed: Option<int>)
      modifies this
      ensures elapsed == match old(Pending(c)) case None => None case Some(t) => Some(ts as int - t as int)
      ensures Pending(c) == None
      ensures forall d :: d != c ==> Pending(d) == old(Pending(d))
    {
      elapsed := if c in starts then Some(ts as int - starts[c] as int) else None;
      starts := starts - {c};
    }

    method Forget(c: ConnId)
      modifies this
      ensures Pending(c) == None
      ensures forall d :: d != c ==> Pending(d) == old(Pending(d))
    {
      starts := starts - {c};
    }
  }

  /** SQL extraction (pkg/protocol/eventbuilder.go). Its own sequence counters outlive a connection
      but are overwritten before an event leaves the processor. */
  class EventBuilder {
    var seqNos: map<ConnId, nat>

    constructor ()
    {
      seqNos := map[];
    }

    method Advance(c: ConnId) returns (n: nat)
      modifies this
      ensures n > 0
    {
      n := (if c in seqNos then seqNos[c] else 0) + 1;
      seqNos := seqNos[c := n];
    }

    method BuildQueryEvent(cfg: Config, c: ConnId, msg: Message, ts: I64) returns (r: Option<Event>)
      modifies this
      ensures r.None? <==> BuildQuery(cfg, c, msg, ts).None?
      ensures r.Some? ==> r.value.(seqNo := 0) == BuildQuery(cfg, c, msg, ts).value
    {
      if msg.kind != MSG_QUERY { return None; }
      var sql := ExtractSimpleQuerySql(msg.payload);
      if Oversized(cfg, sql) { return None; }
      var n := Advance(c);
      r := Some(NewEvent(c, sql, ts).(seqNo := n));
    }

    method BuildParseEvent(cfg: Config, c: ConnId, msg: Message) returns (r: Option<ParseMessage>)
      modifies this
      ensures r == BuildParse(cfg, msg)
    {
      if !cfg.extendedQuery { return None; }
      var m := ParseParseMessage(msg.payload);
      if m.None? || Oversized(cfg, m.value.sql) { return None; }
      var _ := Advance(c);
      r := m;
    }
  }

  datatype ConnParsers = ConnParsers(client: StreamParser, server: StreamParser)

  class StreamProcessor {
    const cfg: Config
    const sm: TxStateMachine
    const eb: EventBuilder
    const txGen: TxIdGenerator
    const binder: BindCorrelator
    const copies: CopyTracker
    const timer: SourceExecTimer
    var parsers: map<ConnId, ConnParsers>
    var seqNos: map<ConnId, nat>
    var lastSql: map<ConnId, Bytes>
    var queue: seq<Event>              // what has been enqueued
    ghost var owned: set<StreamParser> // every framing parser ever created

    /** The parsers in use are distinct objects, two per connection. */
    ghost predicate Shape()
      reads this, copies
    {
      && copies.Valid() && copies.cap == cfg.copyCap
      && (forall c :: c in parsers ==> parsers[c].client in owned && parsers[c].server in owned)
      && (forall c :: c in parsers ==> parsers[c].client != parsers[c].server)
      && (forall c, d :: c in parsers && d in parsers && c != d ==>
            && parsers[c].client != parsers[d].client && parsers[c].client != parsers[d].server
            && parsers[c].server != parsers[d].client && parsers[c].server != parsers[d].server)
    }

    /** All that the maps hold about one connection. */
    ghost function At(c: ConnId): Local
      requires Shape()
      reads this, sm, txGen, binder, copies, timer, owned
    {
      Local(if c in parsers then parsers[c].client.State() else NewParser(true),
            if c in parsers then parsers[c].server.State() else NewParser(false),
            if c in seqNos then seqNos[c] else 0,
            if c in lastSql then lastSql[c] else [],
            sm.State(c),
            StmtsOf(binder.parsed, c),
            copies.At(c),
            txGen.Current(c),
            timer.Pending(c))
    }

    /** The object stands for the abstract processor `g`. */
    ghost predicate Represents(g: Global)
      reads this, sm, txGen, binder, copies, timer, owned
    {
      && Shape()
      && txGen.counter == g.counter
      && forall c :: At(c) == LocalOf(g, c)
    }

    constructor (cfg: Config)
      ensures this.cfg == cfg && queue == [] && Represents(Fresh())
      ensures fresh({sm, eb, txGen, binder, copies, timer}) && owned == {}
    {
      this.cfg := cfg;
      sm := new TxStateMachine();
      eb := new EventBuilder();
      txGen := new TxIdGenerator();
      binder := new BindCorrelator();
      copies := new CopyTracker(cfg.copyCap);
      timer := new SourceExecTimer();
      parsers, seqNos, lastSql, queue := map[], map[], map[], [];
      owned := {};
    }

    // ----- One field of one connection at a time -----------------------------------------

    /** A new transaction group. */
    method AdvanceTx(c: ConnId)
      requires Shape()
      modifies txGen
      ensures Shape() && At(c) == old(At(c)).(tx := txGen.counter)
      ensures txGen.counter == old(txGen.counter) + 1
      ensures forall d :: d != c ==> At(d) == old(At(d))
    {
      txGen.Advance(c);
    }

    /** The group ends. */
    method ResetTx(c: ConnId)
      requires Shape()
      modifies txGen
      ensures Shape() && At(c) == old(At(c)).(tx := 0)
      ensures txGen.counter == old(txGen.counter)
      ensures forall d :: d != c ==> At(d) == old(At(d))
    {
      txGen.Reset(c);
    }

    /** The next sequence number, and the statement remembered for timing. */
    method Stamp(c: ConnId, sql: Bytes) returns (n: nat)
      requires Shape()
      modifies this`seqNos, this`lastSql
      ensures Shape() && At(c) == old(At(c)).(seqNo := n, lastSql := sql)
      ensures n == old(At(c)).seqNo + 1
      ensures forall d :: d != c ==> At(d) == old(At(d))
    {
      n := (if c in seqNos then seqNos[c] else 0) + 1;
      seqNos := seqNos[c := n];
      lastSql := lastSql[c := sql];
    }

    method EnqueueEvent(ev: Event)
      requires Shape()
      modifies this`queue
      ensures Shape() && queue == old(queue) + [ev]
      ensures forall d :: At(d) == old(At(d))
    {
      queue := queue + [ev];
    }

    /** Transaction inference from the statement. */
    method InferStatus(c: ConnId, cls: StmtClass)
      requires Shape()
      modifies sm
      ensures Shape() && At(c) == old(At(c)).(status := NextStatus(old(At(c)).status, cls))
      ensures forall d :: d != c ==> At(d) == old(At(d))
    {
      sm.OnStatement(c, cls);
    }

    /** The authoritative status from the backend. */
    method ReportStatus(c: ConnId, status: Byte)
      requires Shape()
      modifies sm
      ensures Shape() && At(c) == old(At(c)).(status := StatusOf(old(At(c)).status, status))
      ensures forall d :: d != c ==> At(d) == old(At(d))
    {
      sm.OnReadyForQuery(c, status);
    }

    method ForgetStatus(c: ConnId)
      requires Shape()
      modifies sm
      ensures Shape() && At(c) == old(At(c)).(status := TxIdle)
      ensures forall d :: d != c ==> At(d) == old(At(d))
    {
      sm.Forget(c);
    }

    method ForgetStmts(c: ConnId)
      requires Shape()
      modifies binder
      ensures Shape() && At(c) == old(At(c)).(stmts := map[])
      ensures forall d :: d != c ==> At(d) == old(At(d))
    {
      binder.Forget(c);
    }

    method DefineStmt(c: ConnId, stmt: Bytes, info: ParseInfo)
      requires Shape()
      modifies binder
      ensures Shape() && At(c) == old(At(c)).(stmts := old(At(c)).stmts[stmt := info])
      ensures forall d :: d != c ==> At(d) == old(At(d))
    {
      binder.OnParse(c, stmt, info);
    }

    method ClearCopy(c: ConnId)
      requires Shape()
      modifies copies
      ensures Shape() && At(c) == old(At(c)).(copy := NoCopy)
      ensures forall d :: d != c ==> At(d) == old(At(d))
    {
      copies.Clear(c);
    }

    method StartCopy(c: ConnId, sql: Bytes)
      requires Shape()
      modifies copies
      ensures Shape() && At(c) == old(At(c)).(copy := Copying(sql, [], 0))
      ensures forall d :: d != c ==> At(d) == old(At(d))
    {
      copies.Start(c, sql);
    }

    method CopySegment(c: ConnId, payload: Bytes)
      requires Shape()
      modifies copies
      ensures Shape() && At(c) == old(At(c)).(copy := AddSegment(cfg.copyCap, old(At(c)).copy, payload))
      ensures forall d :: d != c ==> At(d) == old(At(d))
    {
      var _ := copies.Data(c, payload);
    }

    method FinishCopy(c: ConnId) returns (r: Option<(Bytes, seq<Bytes>)>)
      requires Shape()
      modifies copies
      ensures Shape() && At(c) == old(At(c)).(copy := NoCopy)
      ensures r == Finished(old(At(c)).copy)
      ensures forall d :: d != c ==> At(d) == old(At(d))
    {
      r := copies.Done(c);
    }

    method StartTimer(c: ConnId, ts: I64)
      requires Shape()
      modifies timer
      ensures Shape() && At(c) == old(At(c)).(pending := Some(ts))
      ensures forall d :: d != c ==> At(d) == old(At(d))
    {
      timer.OnClientQuery(c, ts);
    }

    method StopTimer(c: ConnId, ts: I64) returns (elapsed: Option<int>)
      requires Shape()
      modifies timer
      ensures Shape() && At(c) == old(At(c)).(pending := None)
      ensures elapsed == match old(At(c)).pending case None => None case Some(t) => Some(ts as int - t as int)
      ensures forall d :: d != c ==> At(d) == old(At(d))
    {
      elapsed := timer.OnBackendComplete(c, ts);
    }

    method ForgetTimer(c: ConnId)
      requires Shape()
      modifies timer
      ensures Shape() && At(c) == old(At(c)).(pending := None)
      ensures forall d :: d != c ==> At(d) == old(At(d))
    {
      timer.Forget(c);
    }

    method DropParsers(c: ConnId)
      requires Shape()
      modifies this`parsers, this`seqNos, this`lastSql
      ensures Shape()
      ensures At(c)
           == old(At(c)).(client := NewParser(true), server := NewParser(false), seqNo := 0, lastSql := [])
      ensures forall d :: d != c ==> At(d) == old(At(d))
    {
      parsers, seqNos, lastSql := parsers - {c}, seqNos - {c}, lastSql - {c};
    }

    // ----- The message handlers -------------------------------------------------------------

    /** Stamps, decides, enqueues, and advances the transaction state. */
    method DispatchEvent(c: ConnId, ev: Event) returns (ghost marks: seq<Mark>)
      requires Shape()
      modifies this`seqNos, this`lastSql, this`queue, sm, txGen, binder, copies, timer
      ensures Shape()
      ensures var o := Dispatch(cfg, old(At(c)), old(txGen.counter), ev.(seqNo := 0));
        At(c) == o.local && txGen.counter == o.counter && marks == o.marks
      ensures queue == old(queue) + Enqueued(marks)
      ensures forall d :: d != c ==> At(d) == old(At(d))
    {
      hide At, Shape, Opens, Ends, NextStatus;
      ghost var l, k := At(c), txGen.counter;
      var cls := cfg.classify(ev.sql);
      var state := StatusNow(c);
      var tx := OpenGroup(c, cls);
      var n := Stamp(c, ev.sql);
      assert At(c) == l.(seqNo := n, lastSql := ev.sql, tx := tx);
      var stamped := ev.(txId := tx, seqNo := n);
      var kept := cfg.keep(ev.sql, state);
      var reset;
      marks, reset := MarkStatement(stamped, cls, kept);
      CloseGroup(c, cls, reset);
    }

    /** Enqueues the statement if it is kept. */
    method MarkStatement(stamped: Event, cls: StmtClass, kept: bool) returns (ghost marks: seq<Mark>, reset: bool)
      requires Shape()
      modifies this`queue
      ensures Shape() && reset == (cfg.pooler && cls.ClassUtility? && cfg.isReset(stamped.sql))
      ensures marks == [Stmt(stamped, cls, kept, reset)]
      ensures queue == old(queue) + Enqueued(marks)
      ensures forall d :: At(d) == old(At(d))
    {
      hide At, Shape;
      reset := cfg.pooler && cls.ClassUtility? && cfg.isReset(stamped.sql);
      marks := [Stmt(stamped, cls, kept, reset)];
      assert marks[1..] == [];
      if kept { EnqueueEvent(stamped); }
    }

    method StatusNow(c: ConnId) returns (status: TxStatus)
      requires Shape()
      ensures status == At(c).status
    {
      status := sm.State(c);
    }

    /** BEGIN, or the first write outside a group, starts a new group. */
    method OpenGroup(c: ConnId, cls: StmtClass) returns (tx: nat)
      requires Shape()
      modifies txGen
      ensures Shape() && At(c) == old(At(c)).(tx := tx)
      ensures Opens(cls, old(At(c)).tx) ==> tx == txGen.counter == old(txGen.counter) + 1
      ensures !Opens(cls, old(At(c)).tx) ==> tx == old(At(c)).tx && txGen.counter == old(txGen.counter)
      ensures forall d :: d != c ==> At(d) == old(At(d))
    {
      tx := txGen.Current(c);
      assert At(c).tx == tx;
      hide At, Shape;
      if cls.ClassBegin? {
        AdvanceTx(c);
        tx := txGen.counter;
      } else if tx == 0 && (cls.ClassDML? || cls.ClassDDL? || cls.ClassCopyFrom?) {
        AdvanceTx(c);
        tx := txGen.counter;
      }
    }

    /** The statement's effect on the transaction, and the pooler's session boundary. */
    method CloseGroup(c: ConnId, cls: StmtClass, reset: bool)
      requires Shape()
      modifies sm, txGen, binder, copies, timer
      ensures Shape() && txGen.counter == old(txGen.counter)
      ensures var l := old(At(c)).(status := NextStatus(old(At(c)).status, cls),
                                   tx := if Ends(cls, reset) then 0 else old(At(c)).tx);
        At(c) == if reset then l.(stmts := map[], copy := NoCopy, pending := None) else l
      ensures forall d :: d != c ==> At(d) == old(At(d))
    {
      hide At, Shape;
      InferStatus(c, cls);
      if cls.ClassCommitRollback? { ResetTx(c); }
      if reset { ResetPoolerSession(c); }
    }

    /** A pooler hands the connection to another client. */
    method ResetPoolerSession(c: ConnId)
      requires Shape()
      modifies binder, copies, txGen, timer
      ensures Shape() && At(c) == old(At(c)).(stmts := map[], copy := NoCopy, tx := 0, pending := None)
      ensures txGen.counter == old(txGen.counter)
      ensures forall d :: d != c ==> At(d) == old(At(d))
    {
      hide At, Shape;
      ForgetStmts(c);
      ClearCopy(c);
      ResetTx(c);
      ForgetTimer(c);
    }

    method HandleClientMessage(c: ConnId, msg: Message, ts: I64) returns (ghost marks: seq<Mark>)
      requires Shape()
      modifies this`seqNos, this`lastSql, this`queue, sm, eb, txGen, binder, copies, timer
      ensures Shape()
      ensures var o := HandleClient(cfg, c, old(At(c)), old(txGen.counter), msg, ts);
        At(c) == o.local && txGen.counter == o.counter && marks == o.marks
      ensures queue == old(queue) + Enqueued(marks)
      ensures forall d :: d != c ==> At(d) == old(At(d))
    {
      hide At, Shape, Dispatch, Bind.DecodeParse, Correlate;
      marks := [];
      assert queue + [] == queue;
      if IsCancelRequest(msg) { return; }
      if msg.kind == MSG_PARSE {
        HandleParse(c, msg);
      } else if msg.kind == MSG_BIND {
        var r := Correlated(c, msg.payload);
        if r.Some? {
          var ev := NewEvent(c, r.value.sql, ts).(stmtName := r.value.stmt, params := r.value.params, extended := true);
          marks := DispatchEvent(c, ev);
          StartTimer(c, ts);
        }
      } else if msg.kind == MSG_COPY_DATA {
        CopySegment(c, msg.payload);
      } else if msg.kind == MSG_COPY_DONE {
        var r := FinishCopy(c);
        if r.Some? {
          marks := DispatchEvent(c, NewEvent(c, r.value.0, ts).(copyData := r.value.1));
        }
      } else if msg.kind == MSG_COPY_FAIL {
        ClearCopy(c);
      } else {
        marks := HandleQuery(c, msg, ts);
      }
    }

    method Correlated(c: ConnId, payload: Bytes) returns (r: Option<BindResult>)
      requires Shape()
      ensures r == Correlate(At(c).stmts, payload)
    {
      r := binder.OnBind(c, payload);
    }

    method HandleParse(c: ConnId, msg: Message)
      requires Shape()
      modifies eb, binder
      ensures Shape()
      ensures At(c) == match BuildParse(cfg, msg)
                       case None => old(At(c))
                       case Some(m) => old(At(c)).(stmts := old(At(c)).stmts[m.stmt := ParseInfo(m.sql, m.oids)])
      ensures forall d :: d != c ==> At(d) == old(At(d))
    {
      var m := BuiltParse(c, msg);
      hide At, Shape, BuildParse;
      if m.Some? { DefineStmt(c, m.value.stmt, ParseInfo(m.value.sql, m.value.oids)); }
    }

    method BuiltParse(c: ConnId, msg: Message) returns (r: Option<ParseMessage>)
      requires Shape()
      modifies eb
      ensures Shape() && r == BuildParse(cfg, msg)
      ensures forall d :: At(d) == old(At(d))
    {
      hide BuildParse;
      r := eb.BuildParseEvent(cfg, c, msg);
    }

    method BuiltQuery(c: ConnId, msg: Message, ts: I64) returns (r: Option<Event>)
      requires Shape()
      modifies eb
      ensures Shape()
      ensures r.None? <==> BuildQuery(cfg, c, msg, ts).None?
      ensures r.Some? ==> r.value.(seqNo := 0) == BuildQuery(cfg, c, msg, ts).value
      ensures forall d :: At(d) == old(At(d))
    {
      hide BuildQuery;
      r := eb.BuildQueryEvent(cfg, c, msg, ts);
    }

    /** A Simple Query: COPY FROM STDIN waits for its data, anything else is dispatched. */
    method HandleQuery(c: ConnId, msg: Message, ts: I64) returns (ghost marks: seq<Mark>)
      requires Shape() && !IsCancelRequest(msg)
      requires msg.kind !in {MSG_PARSE, MSG_BIND, MSG_COPY_DATA, MSG_COPY_DONE, MSG_COPY_FAIL}
      modifies this`seqNos, this`lastSql, this`queue, sm, eb, txGen, binder, copies, timer
      ensures Shape()
      ensures var o := HandleClient(cfg, c, old(At(c)), old(txGen.counter), msg, ts);
        At(c) == o.local && txGen.counter == o.counter && marks == o.marks
      ensures queue == old(queue) + Enqueued(marks)
      ensures forall d :: d != c ==> At(d) == old(At(d))
    {
      hide At, Shape, Dispatch, BuildQuery;
      marks := [];
      assert queue + [] == queue;
      var ev := BuiltQuery(c, msg, ts);
      if ev.None? { return; }
      assert ev.value.sql == BuildQuery(cfg, c, msg, ts).value.sql;
      if cfg.classify(ev.value.sql).ClassCopyFrom? {
        StartCopy(c, ev.value.sql);
        StartTimer(c, ts);
        return;
      }
      marks := DispatchEvent(c, ev.value);
      StartTimer(c, ts);
    }

    method LastSqlOf(c: ConnId) returns (sql: Bytes)
      requires Shape()
      ensures sql == At(c).lastSql
    {
      sql := if c in lastSql then lastSql[c] else [];
    }

    method HandleServerMessage(c: ConnId, msg: Message, ts: I64) returns (ghost marks: seq<Mark>)
      requires Shape()
      modifies sm, timer
      ensures Shape()
      ensures var o := HandleServer(old(At(c)), old(txGen.counter), msg, ts);
        At(c) == o.local && txGen.counter == o.counter && marks == o.marks
      ensures Enqueued(marks) == []
      ensures forall d :: d != c ==> At(d) == old(At(d))
    {
      hide At, Shape;
      marks := [];
      if msg.kind != MSG_READY_FOR_QUERY && msg.kind != MSG_COMMAND_COMPLETE { return; }
      if msg.kind == MSG_READY_FOR_QUERY && |msg.payload| >= 1 {
        ReportStatus(c, msg.payload[0]);
      }
      var elapsed := StopTimer(c, ts);
      var sql := LastSqlOf(c);
      if elapsed.Some? && elapsed.value > 0 {
        marks := [Exec(sql, elapsed.value)];
        assert marks[1..] == [];
      }
    }

    /** The framing parsers of a connection, created on first use. */
    method ParsersFor(c: ConnId) returns (cp: ConnParsers)
      requires Shape()
      modifies this`parsers, this`owned
      ensures Shape() && c in parsers && cp == parsers[c]
      ensures forall d :: At(d) == old(At(d))
      ensures fresh(owned - old(owned)) && old(owned) <= owned
    {
      if c !in parsers {
        var client := new StreamParser(true);
        var server := new StreamParser(false);
        owned := owned + {client, server};
        parsers := parsers[c := ConnParsers(client, server)];
      }
      cp := parsers[c];
    }

    method HandleMessages(c: ConnId, fromClient: bool, msgs: seq<Message>, ts: I64) returns (ghost marks: seq<Mark>)
      requires Shape()
      modifies this`seqNos, this`lastSql, this`queue, sm, eb, txGen, binder, copies, timer
      ensures Shape()
      ensures var o := HandleAll(cfg, c, fromClient, old(At(c)), old(txGen.counter), msgs, ts);
        At(c) == o.local && txGen.counter == o.counter && marks == o.marks
      ensures queue == old(queue) + Enqueued(marks)
      ensures forall d :: d != c ==> At(d) == old(At(d))
    {
      hide HandleClient, HandleServer, At, Shape;
      marks := [];
      assert queue + [] == queue;
      ghost var goal := HandleAll(cfg, c, fromClient, At(c), txGen.counter, msgs, ts);
      assert [] + goal.marks == goal.marks && msgs[0..] == msgs;
      for i := 0 to |msgs|
        invariant Shape()
        invariant var o := HandleAll(cfg, c, fromClient, At(c), txGen.counter, msgs[i..], ts);
          goal == o.(marks := marks + o.marks)
        invariant queue == old(queue) + Enqueued(marks)
        invariant forall d :: d != c ==> At(d) == old(At(d))
      {
        ghost var o := Handle(cfg, c, fromClient, At(c), txGen.counter, msgs[i], ts);
        ghost var rest := HandleAll(cfg, c, fromClient, o.local, o.counter, msgs[i + 1..], ts).marks;
        assert msgs[i..][1..] == msgs[i + 1..];
        ghost var more;
        if fromClient {
          more := HandleClientMessage(c, msgs[i], ts);
        } else {
          more := HandleServerMessage(c, msgs[i], ts);
        }
        assert marks + (o.marks + rest) == marks + o.marks + rest;
        EnqueuedConcat(marks, more);
        marks := marks + more;
      }
      assert marks + [] == marks;
    }

    /** Bytes of one direction of one connection. */
    method OnBytes(c: ConnId, fromClient: bool, data: Bytes, ts: I64, ghost g: Global)
      requires Represents(g)
      modifies this, sm, eb, txGen, binder, copies, timer, owned
      ensures Represents(Step(cfg, g, Processor.OnBytes(c, fromClient, data, ts)))
      ensures queue == old(queue) + Enqueued(StepMarks(cfg, g, Processor.OnBytes(c, fromClient, data, ts)))
      ensures fresh(owned - old(owned))
    {
      hide At, Shape, HandleAll, FeedStep, LocalOf;
      ghost var marks := Process(c, fromClient, data, ts);
      ghost var g' := Step(cfg, g, Processor.OnBytes(c, fromClient, data, ts));
      StepLocals(cfg, g, Processor.OnBytes(c, fromClient, data, ts));
      assert forall d :: At(d) == LocalOf(g', d);
    }

    method Process(c: ConnId, fromClient: bool, data: Bytes, ts: I64) returns (ghost marks: seq<Mark>)
      requires Shape()
      modifies this, sm, eb, txGen, binder, copies, timer, owned
      ensures Shape() && fresh(owned - old(owned))
      ensures var o := LocalStep(cfg, old(At(c)), old(txGen.counter), Processor.OnBytes(c, fromClient, data, ts));
        At(c) == o.local && txGen.counter == o.counter && marks == o.marks
      ensures queue == old(queue) + Enqueued(marks)
      ensures forall d :: d != c ==> At(d) == old(At(d))
    {
      hide At, Shape, HandleAll, FeedStep;
      var msgs := FeedParser(c, fromClient, data);
      marks := HandleMessages(c, fromClient, msgs, ts);
    }

    method FeedParser(c: ConnId, fromClient: bool, data: Bytes) returns (msgs: seq<Message>)
      requires Shape()
      modifies this`parsers, this`owned, owned
      ensures Shape()
      ensures var fed := FeedStep(if fromClient then old(At(c)).client else old(At(c)).server, data);
        msgs == fed.msgs && At(c) == SetParser(old(At(c)), fromClient, fed.state)
      ensures forall d :: d != c ==> At(d) == old(At(d))
      ensures fresh(owned - old(owned))
    {
      hide FeedStep;
      var cp := ParsersFor(c);
      var err;
      if fromClient {
        msgs, err := cp.client.Feed(data);
      } else {
        msgs, err := cp.server.Feed(data);
      }
    }

    /** Forgets everything about a connection. */
    method OnClose(c: ConnId, ghost g: Global)
      requires Represents(g)
      modifies this, sm, txGen, binder, copies, timer
      ensures Represents(Step(cfg, g, Processor.OnClose(c)))
      ensures queue == old(queue) && owned == old(owned)
    {
      hide At, Shape;
      ForgetStatus(c);
      ForgetStmts(c);
      ClearCopy(c);
      ForgetTimer(c);
      ResetTx(c);
      DropParsers(c);
      assert At(c) == FreshLocal();
    }

    /** Any sequence of callbacks, in one call: the object realizes the run, and the queue receives
        the kept statements of its log, in order. */
    method Drive(calls: seq<Call>, ghost g: Global)
      requires Represents(g)
      modifies this, sm, eb, txGen, binder, copies, timer, owned
      ensures Represents(Run(cfg, g, calls))
      ensures queue == old(queue) + Enqueued(Marks(Log(cfg, g, calls)))
    {
      hide Represents, Step, StepMarks, Enqueued, Log, Run;
      ghost var cur, sent := g, [];
      assert queue + [] == queue;
      assert calls[0..] == calls && [] + Enqueued(Marks(Log(cfg, g, calls))) == Enqueued(Marks(Log(cfg, g, calls)));
      for i := 0 to |calls|
        invariant Represents(cur) && fresh(owned - old(owned))
        invariant Run(cfg, g, calls) == Run(cfg, cur, calls[i..])
        invariant queue == old(queue) + sent
        invariant Enqueued(Marks(Log(cfg, g, calls))) == sent + Enqueued(Marks(Log(cfg, cur, calls[i..])))
      {
        ghost var now := Enqueued(StepMarks(cfg, cur, calls[i]));
        match calls[i] {
          case OnBytes(c, fromClient, data, ts) => OnBytes(c, fromClient, data, ts, cur);
          case OnClose(c) =>
            CloseSendsNothing(cfg, cur, c);
            OnClose(c, cur);
            assert queue + [] == queue;
        }
        DriveStep(cfg, cur, calls[i..]);
        assert calls[i..][1..] == calls[i + 1..];
        cur := Step(cfg, cur, calls[i]);
        assert old(queue) + sent + now == old(queue) + (sent + now);
        ghost var rest := Enqueued(Marks(Log(cfg, cur, calls[i + 1..])));
        assert sent + (now + rest) == sent + now + rest;
        sent := sent + now;
      }
      assert calls[|calls|..] == [];
      NoCalls(cfg, cur);
      assert sent + [] == sent;
    }
  }

  lemma CloseSendsNothing(cfg: Config, g: Global, c: ConnId)
    ensures Enqueued(StepMarks(cfg, g, Processor.OnClose(c))) == []
  {
  }

  lemma DriveStep(cfg: Config, g: Global, calls: seq<Call>)
    requires calls != []
    ensures var g' := Step(cfg, g, calls[0]);
      && Run(cfg, g, calls) == Run(cfg, g', calls[1..])
      && Enqueued(Marks(Log(cfg, g, calls)))
           == Enqueued(StepMarks(cfg, g, calls[0])) + Enqueued(Marks(Log(cfg, g', calls[1..])))
  {
    hide Step, StepMarks, Enqueued;
    var g', now := Step(cfg, g, calls[0]), StepMarks(cfg, g, calls[0]);
    var more := Log(cfg, g', calls[1..]);
    assert Marks(Tag(calls[0].conn, now) + more) == now + Marks(more);
    EnqueuedConcat(now, Marks(more));
  }

  lemma NoCalls(cfg: Config, g: Global)
    ensures Run(cfg, g, []) == g && Enqueued(Marks(Log(cfg, g, []))) == []
  {
  }

  lemma StepLocals(cfg: Config, g: Global, call: Call)
    ensures var o := LocalStep(cfg, LocalOf(g, call.conn), g.counter, call);
      && LocalOf(Step(cfg, g, call), call.conn) == o.local
      && Step(cfg, g, call).counter == o.counter && StepMarks(cfg, g, call) == o.marks
    ensures forall d :: d != call.conn ==> LocalOf(Step(cfg, g, call), d) == LocalOf(g, d)
  {
    hide HandleAll, FeedStep;
  }

  lemma {:induction false} EnqueuedConcat(a: seq<Mark>, b: seq<Mark>)
    ensures Enqueued(a + b) == Enqueued(a) + Enqueued(b)
  {
    if a == [] {
      assert a + b == b && [] + Enqueued(b) == Enqueued(b);
    } else {
      assert (a + b)[1..] == a[1..] + b;
      EnqueuedConcat(a[1..], b);
      var head := if a[0].Stmt? && a[0].kept then [a[0].event] else [];
      assert head + (Enqueued(a[1..]) + Enqueued(b)) == head + Enqueued(a[1..]) + Enqueued(b);
    }
  }
}
