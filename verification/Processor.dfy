/**
 What the stream processor does (pkg/pipeline/processor.go), as a function of one connection's
 state, the shared transaction-id counter and one callback. Module `Pipeline` holds the object
 with its shared maps; modules `NonInterference` and `Grouping` hold the theorems.
 */
module Processor {
  import opened Core
  import opened Framing
  import opened Bind
  import opened Copy

  const MSG_QUERY := 81            // 'Q'
  const MSG_PARSE := 80            // 'P'
  const MSG_BIND := 66             // 'B'
  const MSG_COPY_DATA := 100       // 'd'
  const MSG_COPY_DONE := 99        // 'c'
  const MSG_COPY_FAIL := 102       // 'f'
  const MSG_COMMAND_COMPLETE := 67 // 'C'
  const MSG_READY_FOR_QUERY := 90  // 'Z'

  /** Configuration. Classification, the keep decision and the recognition of pooler reset
      statements are arbitrary functions of the statement text (and transaction state). */
  datatype Config = Config(
    maxSql: nat,
    extendedQuery: bool,
    pooler: bool,
    copyCap: nat,
    classify: Bytes -> StmtClass,
    keep: (Bytes, TxStatus) -> bool,
    isReset: Bytes -> bool)

  /** Everything the processor remembers about one connection. */
  datatype Local = Local(
    client: ParserState,
    server: ParserState,
    seqNo: nat,
    lastSql: Bytes,
    status: TxStatus,
    stmts: map<Bytes, ParseInfo>,
    copy: CopyState,
    tx: nat,                 // current transaction group; 0 is none
    pending: Option<I64>)    // start of the statement being timed

  function FreshLocal(): Local {
    Local(NewParser(true), NewParser(false), 0, [], TxIdle, map[], NoCopy, 0, None)
  }

  /** What leaves the processor: a dispatched statement with its keep decision (kept ones are
      enqueued), a source execution time, or the end of the connection. */
  datatype Mark =
    | Stmt(event: Event, cls: StmtClass, kept: bool, reset: bool)
    | Exec(sql: Bytes, elapsed: int)
    | Closed

  /** The connection afterwards, the id counter afterwards, and the marks produced. */
  datatype Out = Out(local: Local, counter: nat, marks: seq<Mark>)

  function NewEvent(conn: ConnId, sql: Bytes, ts: I64): Event {
    Event(conn, sql, ts, 0, 0, false, [], [], [], 0, [])
  }

  // ----- Extracting SQL ---------------------------------------------------------------

  function ExtractSimpleQuerySql(payload: Bytes): Bytes {
    if |payload| > 0 && payload[|payload| - 1] == 0 then payload[..|payload| - 1] else payload
  }

  predicate Oversized(cfg: Config, sql: Bytes) { |sql| > cfg.maxSql }

  /** The statement a client message carries, if any. */
  function BuildQuery(cfg: Config, conn: ConnId, msg: Message, ts: I64): Option<Event> {
    if msg.kind != MSG_QUERY then None else
      var sql := ExtractSimpleQuerySql(msg.payload);
      if Oversized(cfg, sql) then None else Some(NewEvent(conn, sql, ts))
  }

  function BuildParse(cfg: Config, msg: Message): Option<ParseMessage> {
    if !cfg.extendedQuery then None else
      var m :- DecodeParse(msg.payload);
      if Oversized(cfg, m.sql) then None else Some(m)
  }

  // ----- One statement ------------------------------------------------------------------

  predicate Opens(cls: StmtClass, tx: nat) {
    cls.ClassBegin? || (tx == 0 && (cls.ClassDML? || cls.ClassDDL? || cls.ClassCopyFrom?))
  }

  predicate Ends(cls: StmtClass, reset: bool) { cls.ClassCommitRollback? || reset }

  function NextStatus(status: TxStatus, cls: StmtClass): TxStatus {
    if cls.ClassBegin? then TxInTx else if cls.ClassCommitRollback? then TxIdle else status
  }

  /** Stamps the statement with its transaction group and sequence number, decides whether it is
      kept, and moves the connection on. */
  function Dispatch(cfg: Config, l: Local, k: nat, ev: Event): Out {
    var cls := cfg.classify(ev.sql);
    var reset := cfg.pooler && cls.ClassUtility? && cfg.isReset(ev.sql);
    var k' := if Opens(cls, l.tx) then k + 1 else k;
    var tx := if Opens(cls, l.tx) then k + 1 else l.tx;
    var l1 := l.(
      seqNo := l.seqNo + 1,
      lastSql := ev.sql,
      status := NextStatus(l.status, cls),
      tx := if Ends(cls, reset) then 0 else tx);
    Out(if reset then l1.(stmts := map[], copy := NoCopy, pending := None) else l1,
        k',
        [Stmt(ev.(txId := tx, seqNo := l.seqNo + 1), cls, cfg.keep(ev.sql, l.status), reset)])
  }

  /** Dispatch, then start timing the statement. */
  function DispatchTimed(cfg: Config, l: Local, k: nat, ev: Event, ts: I64): Out {
    var o := Dispatch(cfg, l, k, ev);
    o.(local := o.local.(pending := Some(ts)))
  }

  // ----- One message ----------------------------------------------------------------------

  predicate IsCancelRequest(msg: Message) {
    msg.kind == 0 && |msg.payload| >= 4 && FromBe32(msg.payload[0..4]) == CANCEL_REQUEST
  }

  function HandleClient(cfg: Config, conn: ConnId, l: Local, k: nat, msg: Message, ts: I64): Out {
    if IsCancelRequest(msg) then Out(l, k, [])
    else if msg.kind == MSG_PARSE then
      (match BuildParse(cfg, msg)
       case None => Out(l, k, [])
       case Some(m) => Out(l.(stmts := l.stmts[m.stmt := ParseInfo(m.sql, m.oids)]), k, []))
    else if msg.kind == MSG_BIND then
      (match Correlate(l.stmts, msg.payload)
       case None => Out(l, k, [])
       case Some(r) =>
         var ev := NewEvent(conn, r.sql, ts).(stmtName := r.stmt, params := r.params, extended := true);
         DispatchTimed(cfg, l, k, ev, ts))
    else if msg.kind == MSG_COPY_DATA then
      Out(l.(copy := AddSegment(cfg.copyCap, l.copy, msg.payload)), k, [])
    else if msg.kind == MSG_COPY_DONE then
      (match Finished(l.copy)
       case None => Out(l.(copy := NoCopy), k, [])
       case Some((sql, data)) => Dispatch(cfg, l.(copy := NoCopy), k, NewEvent(conn, sql, ts).(copyData := data)))
    else if msg.kind == MSG_COPY_FAIL then
      Out(l.(copy := NoCopy), k, [])
    else
      match BuildQuery(cfg, conn, msg, ts)
      case None => Out(l, k, [])
      case Some(ev) =>
        if cfg.classify(ev.sql).ClassCopyFrom? then
          Out(l.(copy := Copying(ev.sql, [], 0), pending := Some(ts)), k, [])
        else DispatchTimed(cfg, l, k, ev, ts)
  }

  function StatusOf(status: TxStatus, b: Byte): TxStatus {
    if b == 73 then TxIdle          // 'I'
    else if b == 84 then TxInTx     // 'T'
    else if b == 69 then TxFailed   // 'E'
    else status
  }

  function RecordExec(l: Local, k: nat, ts: I64): Out {
    match l.pending
    case None => Out(l, k, [])
    case Some(start) =>
      var elapsed := ts as int - start as int;
      Out(l.(pending := None), k, if elapsed > 0 then [Exec(l.lastSql, elapsed)] else [])
  }

  function HandleServer(l: Local, k: nat, msg: Message, ts: I64): Out {
    if msg.kind == MSG_READY_FOR_QUERY then
      RecordExec(if |msg.payload| >= 1 then l.(status := StatusOf(l.status, msg.payload[0])) else l, k, ts)
    else if msg.kind == MSG_COMMAND_COMPLETE then RecordExec(l, k, ts)
    else Out(l, k, [])
  }

  // ----- One callback ------------------------------------------------------------------------

  function Handle(cfg: Config, conn: ConnId, fromClient: bool, l: Local, k: nat, msg: Message, ts: I64): Out {
    if fromClient then HandleClient(cfg, conn, l, k, msg, ts) else HandleServer(l, k, msg, ts)
  }

  function HandleAll(cfg: Config, conn: ConnId, fromClient: bool, l: Local, k: nat, msgs: seq<Message>, ts: I64): Out
    decreases |msgs|
  {
    if msgs == [] then Out(l, k, []) else
      var o := Handle(cfg, conn, fromClient, l, k, msgs[0], ts);
      var o' := HandleAll(cfg, conn, fromClient, o.local, o.counter, msgs[1..], ts);
      o'.(marks := o.marks + o'.marks)
  }

  function SetParser(l: Local, fromClient: bool, p: ParserState): Local {
    if fromClient then l.(client := p) else l.(server := p)
  }

  datatype Call =
    | OnBytes(conn: ConnId, fromClient: bool, data: Bytes, ts: I64)
    | OnClose(conn: ConnId)

  function LocalStep(cfg: Config, l: Local, k: nat, call: Call): Out {
    match call
    case OnClose(_) => Out(FreshLocal(), k, [Closed])
    case OnBytes(conn, fromClient, data, ts) =>
      var fed := FeedStep(if fromClient then l.client else l.server, data);
      HandleAll(cfg, conn, fromClient, SetParser(l, fromClient, fed.state), k, fed.msgs, ts)
  }

  // ----- Many connections -----------------------------------------------------------------------

  /** The processor: every connection it remembers, and the shared id counter. */
  datatype Global = Global(locals: map<ConnId, Local>, counter: nat)

  datatype Entry = Entry(conn: ConnId, mark: Mark)

  function LocalOf(g: Global, c: ConnId): Local {
    if c in g.locals then g.locals[c] else FreshLocal()
  }

  function Tag(c: ConnId, marks: seq<Mark>): seq<Entry> {
    seq(|marks|, i requires 0 <= i < |marks| => Entry(c, marks[i]))
  }

  function Step(cfg: Config, g: Global, call: Call): Global {
    var o := LocalStep(cfg, LocalOf(g, call.conn), g.counter, call);
    Global(if call.OnClose? then g.locals - {call.conn} else g.locals[call.conn := o.local], o.counter)
  }

  function StepMarks(cfg: Config, g: Global, call: Call): seq<Mark> {
    LocalStep(cfg, LocalOf(g, call.conn), g.counter, call).marks
  }

  function Fresh(): Global { Global(map[], 0) }

  function Run(cfg: Config, g: Global, calls: seq<Call>): Global
    decreases |calls|
  {
    if calls == [] then g else Run(cfg, Step(cfg, g, calls[0]), calls[1..])
  }

  /** Everything a run emits, on all connections. */
  function Log(cfg: Config, g: Global, calls: seq<Call>): seq<Entry>
    decreases |calls|
  {
    if calls == [] then []
    else Tag(calls[0].conn, StepMarks(cfg, g, calls[0])) + Log(cfg, Step(cfg, g, calls[0]), calls[1..])
  }

  /** All the marks of a log, whatever their connection. */
  function Marks(log: seq<Entry>): seq<Mark> {
    seq(|log|, i requires 0 <= i < |log| => log[i].mark)
  }

  /** What one connection emits, read off the log. */
  function Of(c: ConnId, log: seq<Entry>): seq<Mark> {
    if log == [] then []
    else (if log[0].conn == c then [log[0].mark] else []) + Of(c, log[1..])
  }

  /** The callbacks of one connection. */
  function Project(c: ConnId, calls: seq<Call>): seq<Call> {
    if calls == [] then []
    else (if calls[0].conn == c then [calls[0]] else []) + Project(c, calls[1..])
  }

  /** The events that reach the queue. */
  function Enqueued(marks: seq<Mark>): seq<Event> {
    if marks == [] then []
    else (if marks[0].Stmt? && marks[0].kept then [marks[0].event] else []) + Enqueued(marks[1..])
  }

  // ----- Facts about logs ----------------------------------------------------------------------

  lemma {:induction false} OfConcat(c: ConnId, a: seq<Entry>, b: seq<Entry>)
    ensures Of(c, a + b) == Of(c, a) + Of(c, b)
  {
    if a == [] {
      assert a + b == b;
      assert [] + Of(c, b) == Of(c, b);
    } else {
      assert (a + b)[1..] == a[1..] + b;
      OfConcat(c, a[1..], b);
      var head := if a[0].conn == c then [a[0].mark] else [];
      assert head + (Of(c, a[1..]) + Of(c, b)) == head + Of(c, a[1..]) + Of(c, b);
    }
  }

  lemma {:induction false} OfTag(c: ConnId, d: ConnId, marks: seq<Mark>)
    ensures Of(c, Tag(d, marks)) == if c == d then marks else []
  {
    if marks != [] {
      assert Tag(d, marks)[1..] == Tag(d, marks[1..]);
      OfTag(c, d, marks[1..]);
    }
  }

  /** One callback adds to its own connection's log only. */
  lemma LogStep(cfg: Config, g: Global, calls: seq<Call>, c: ConnId)
    requires calls != []
    ensures Of(c, Log(cfg, g, calls)) ==
      (if calls[0].conn == c then StepMarks(cfg, g, calls[0]) else [])
      + Of(c, Log(cfg, Step(cfg, g, calls[0]), calls[1..]))
  {
    hide Step, StepMarks;
    OfConcat(c, Tag(calls[0].conn, StepMarks(cfg, g, calls[0])), Log(cfg, Step(cfg, g, calls[0]), calls[1..]));
    OfTag(c, calls[0].conn, StepMarks(cfg, g, calls[0]));
  }
}
