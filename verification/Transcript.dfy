/**
 Decisions and times (pkg/pipeline/processor.go, pkg/filter/state.go, pkg/protocol/sourceexectimer.go):
 what the processor emits for a message of a connection, read off the messages and statements before
 it. A transcript is the connection's log with the messages of both sides that led to it.
 */
module Transcript {
  import opened Core
  import opened Framing
  import opened Bind
  import opened Copy
  import opened Processor
  import opened NonInterference

  /** A message, with the time of its callback and what the processor emitted for it; or the close of
      the connection. */
  datatype Turn = Heard(fromClient: bool, msg: Message, ts: I64, marks: seq<Mark>) | Gone

  function MessageTurns(cfg: Config, conn: ConnId, fromClient: bool, l: Local, k: nat, msgs: seq<Message>,
                        ts: I64): seq<Turn>
    decreases |msgs|
  {
    if msgs == [] then [] else
      var o := Handle(cfg, conn, fromClient, l, k, msgs[0], ts);
      [Heard(fromClient, msgs[0], ts, o.marks)]
      + MessageTurns(cfg, conn, fromClient, o.local, o.counter, msgs[1..], ts)
  }

  function CallTurns(cfg: Config, l: Local, k: nat, call: Call): seq<Turn> {
    match call
    case OnClose(_) => [Gone]
    case OnBytes(conn, fromClient, data, ts) =>
      var fed := FeedStep(if fromClient then l.client else l.server, data);
      MessageTurns(cfg, conn, fromClient, SetParser(l, fromClient, fed.state), k, fed.msgs, ts)
  }

  /** The transcript of connection `c` in a run. */
  function Turns(cfg: Config, g: Global, c: ConnId, calls: seq<Call>): seq<Turn>
    decreases |calls|
  {
    if calls == [] then []
    else (if calls[0].conn == c then CallTurns(cfg, LocalOf(g, c), g.counter, calls[0]) else [])
         + Turns(cfg, Step(cfg, g, calls[0]), c, calls[1..])
  }

  function MarksOf(turns: seq<Turn>): seq<Mark> {
    if turns == [] then []
    else (if turns[0].Gone? then [Closed] else turns[0].marks) + MarksOf(turns[1..])
  }

  // ----- What earlier turns say ----------------------------------------------------------------

  /** What the last turn before `i` that says anything says; `start` if there is none. */
  function Latest<T>(turns: seq<Turn>, i: nat, says: Turn -> Option<T>, start: T): T
    requires i <= |turns|
  {
    if i == 0 then start
    else match says(turns[i - 1])
         case Some(v) => v
         case None => Latest(turns, i - 1, says, start)
  }

  /** The transaction state: a close and a COMMIT or ROLLBACK say idle, a BEGIN says in transaction, and
      the server's ReadyForQuery says what its status byte says. */
  function StatusSaid(t: Turn): Option<TxStatus> {
    match t
    case Gone => Some(TxIdle)
    case Heard(true, _, _, marks) =>
      if marks == [] || !marks[0].Stmt? then None
      else if marks[0].cls == ClassBegin then Some(TxInTx)
      else if marks[0].cls == ClassCommitRollback then Some(TxIdle)
      else None
    case Heard(false, msg, _, _) =>
      if msg.kind != 'Z' as int || msg.payload == [] then None
      else if msg.payload[0] == 'I' as int then Some(TxIdle)
      else if msg.payload[0] == 'T' as int then Some(TxInTx)
      else if msg.payload[0] == 'E' as int then Some(TxFailed)
      else None
  }

  /** The text a completion is attributed to: that of the latest statement. */
  function TextSaid(t: Turn): Option<Bytes> {
    match t
    case Gone => Some([])
    case Heard(_, _, _, marks) => if marks != [] && marks[0].Stmt? then Some(marks[0].event.sql) else None
  }

  /** A client message that starts the clock: a simple query that is not too long, be it a COPY whose
      rows are still to come, or a Bind that gave a statement. */
  predicate StartsClock(cfg: Config, t: Turn) {
    && t.Heard? && t.fromClient
    && ((t.msg.kind == 'Q' as int && |ExtractSimpleQuerySql(t.msg.payload)| <= cfg.maxSql)
        || (t.msg.kind == 'B' as int && t.marks != []))
  }

  predicate Completes(msg: Message) { msg.kind == 'Z' as int || msg.kind == 'C' as int }

  /** When the statement in flight began; a completion, a close and a pooler reset say that none is. */
  function ClockSaid(cfg: Config, t: Turn): Option<Option<I64>> {
    if StartsClock(cfg, t) then Some(Some(t.ts))
    else match t
         case Gone => Some(None)
         case Heard(true, _, _, marks) =>
           if marks != [] && marks[0].Stmt? && marks[0].reset then Some(None) else None
         case Heard(false, msg, _, _) => if Completes(msg) then Some(None) else None
  }

  /** `Latest` without recursion. */
  lemma {:induction false} LatestIff<T>(turns: seq<Turn>, i: nat, says: Turn -> Option<T>, start: T, v: T)
    requires i <= |turns|
    ensures Latest(turns, i, says, start) == v <==>
      || (v == start && forall k :: 0 <= k < i ==> says(turns[k]) == None)
      || (exists j :: 0 <= j < i && says(turns[j]) == Some(v) && forall k :: j < k < i ==> says(turns[k]) == None)
    decreases i
  {
    if i > 0 {
      LatestIff(turns, i - 1, says, start, v);
      if says(turns[i - 1]).None? {
        if j :| 0 <= j < i && says(turns[j]) == Some(v) && forall k :: j < k < i ==> says(turns[k]) == None {
          assert j < i - 1;
        }
      }
    }
  }

  lemma {:induction false} LatestTail<T>(turns: seq<Turn>, i: nat, says: Turn -> Option<T>, start: T)
    requires 0 < i <= |turns|
    ensures Latest(turns, i, says, start)
         == Latest(turns[1..], i - 1, says, if says(turns[0]).Some? then says(turns[0]).value else start)
    decreases i
  {
    if i > 1 {
      LatestTail(turns, i - 1, says, start);
      assert turns[i - 1] == turns[1..][i - 2];
    }
  }

  // ----- One turn --------------------------------------------------------------------------------

  /** What the processor remembers that its decisions and times depend on. */
  datatype Memory = Memory(status: TxStatus, clock: Option<I64>, text: Bytes)

  function MemoryOf(l: Local): Memory { Memory(l.status, l.pending, l.lastSql) }

  function Or<T>(o: Option<T>, v: T): T { if o.Some? then o.value else v }

  function Moved(cfg: Config, t: Turn, m: Memory): Memory {
    Memory(Or(StatusSaid(t), m.status), Or(ClockSaid(cfg, t), m.clock), Or(TextSaid(t), m.text))
  }

  /** A statement is classified, decided on and stamped by its text, the state and the callback. */
  predicate Decides(cfg: Config, c: ConnId, ts: I64, status: TxStatus, m: Mark) {
    && m.Stmt?
    && m.kept == cfg.keep(m.event.sql, status)
    && m.cls == cfg.classify(m.event.sql)
    && m.reset == (cfg.pooler && m.cls == ClassUtility && cfg.isReset(m.event.sql))
    && m.event.conn == c && m.event.timestamp == ts
  }

  function Times(msg: Message, ts: I64, m: Memory): seq<Mark> {
    if Completes(msg) && m.clock.Some? && ts as int > m.clock.value as int
    then [Exec(m.text, ts as int - m.clock.value as int)] else []
  }

  predicate TurnOk(cfg: Config, c: ConnId, t: Turn, m: Memory) {
    t.Heard? ==>
      if t.fromClient then |t.marks| <= 1 && (t.marks != [] ==> Decides(cfg, c, t.ts, m.status, t.marks[0]))
      else t.marks == Times(t.msg, t.ts, m)
  }

  lemma DispatchOk(cfg: Config, conn: ConnId, l: Local, k: nat, ev: Event, ts: I64)
    requires ev.conn == conn && ev.timestamp == ts
    ensures var o := Dispatch(cfg, l, k, ev);
      && |o.marks| == 1 && Decides(cfg, conn, ts, l.status, o.marks[0])
      && o.local.lastSql == o.marks[0].event.sql == ev.sql
      && o.local.pending == (if o.marks[0].reset then None else l.pending)
      && o.local.status == (if o.marks[0].cls == ClassBegin then TxInTx
                            else if o.marks[0].cls == ClassCommitRollback then TxIdle else l.status)
  {
  }

  lemma ClientTurn(cfg: Config, conn: ConnId, l: Local, k: nat, msg: Message, ts: I64)
    ensures var o := HandleClient(cfg, conn, l, k, msg, ts);
      var t := Heard(true, msg, ts, o.marks);
      TurnOk(cfg, conn, t, MemoryOf(l)) && MemoryOf(o.local) == Moved(cfg, t, MemoryOf(l))
  {
    hide Dispatch, Decides, Correlate, DecodeParse, AddSegment;
    if msg.kind == MSG_BIND && Correlate(l.stmts, msg.payload).Some? {
      var r := Correlate(l.stmts, msg.payload).value;
      DispatchOk(cfg, conn, l, k,
        NewEvent(conn, r.sql, ts).(stmtName := r.stmt, params := r.params, extended := true), ts);
    } else if msg.kind == MSG_COPY_DONE && Finished(l.copy).Some? {
      var (sql, data) := Finished(l.copy).value;
      DispatchOk(cfg, conn, l.(copy := NoCopy), k, NewEvent(conn, sql, ts).(copyData := data), ts);
    } else if BuildQuery(cfg, conn, msg, ts).Some? {
      DispatchOk(cfg, conn, l, k, BuildQuery(cfg, conn, msg, ts).value, ts);
    }
  }

  lemma ServerTurn(cfg: Config, conn: ConnId, l: Local, k: nat, msg: Message, ts: I64)
    ensures var o := HandleServer(l, k, msg, ts);
      var t := Heard(false, msg, ts, o.marks);
      TurnOk(cfg, conn, t, MemoryOf(l)) && MemoryOf(o.local) == Moved(cfg, t, MemoryOf(l))
  {
  }

  // ----- Whole transcripts -----------------------------------------------------------------------

  predicate AllOk(cfg: Config, c: ConnId, turns: seq<Turn>, m: Memory)
    decreases |turns|
  {
    turns == [] || (TurnOk(cfg, c, turns[0], m) && AllOk(cfg, c, turns[1..], Moved(cfg, turns[0], m)))
  }

  function After(cfg: Config, turns: seq<Turn>, m: Memory): Memory
    decreases |turns|
  {
    if turns == [] then m else After(cfg, turns[1..], Moved(cfg, turns[0], m))
  }

  lemma {:induction false} OkConcat(cfg: Config, c: ConnId, a: seq<Turn>, b: seq<Turn>, m: Memory)
    requires AllOk(cfg, c, a, m) && AllOk(cfg, c, b, After(cfg, a, m))
    ensures AllOk(cfg, c, a + b, m)
    decreases |a|
  {
    hide TurnOk, Moved;
    if a == [] {
      assert a + b == b;
    } else {
      assert (a + b)[1..] == a[1..] + b;
      OkConcat(cfg, c, a[1..], b, Moved(cfg, a[0], m));
    }
  }

  lemma {:induction false} MessagesOk(cfg: Config, conn: ConnId, fromClient: bool, l: Local, k: nat,
                                      msgs: seq<Message>, ts: I64)
    ensures var turns := MessageTurns(cfg, conn, fromClient, l, k, msgs, ts);
      var o := HandleAll(cfg, conn, fromClient, l, k, msgs, ts);
      && AllOk(cfg, conn, turns, MemoryOf(l)) && After(cfg, turns, MemoryOf(l)) == MemoryOf(o.local)
      && MarksOf(turns) == o.marks
    decreases |msgs|
  {
    hide HandleClient, HandleServer, TurnOk, Moved;
    if msgs != [] {
      var o := Handle(cfg, conn, fromClient, l, k, msgs[0], ts);
      var turns := MessageTurns(cfg, conn, fromClient, l, k, msgs, ts);
      if fromClient {
        ClientTurn(cfg, conn, l, k, msgs[0], ts);
      } else {
        ServerTurn(cfg, conn, l, k, msgs[0], ts);
      }
      MessagesOk(cfg, conn, fromClient, o.local, o.counter, msgs[1..], ts);
      assert turns[1..] == MessageTurns(cfg, conn, fromClient, o.local, o.counter, msgs[1..], ts);
    }
  }

  lemma CallOk(cfg: Config, l: Local, k: nat, call: Call)
    ensures var turns := CallTurns(cfg, l, k, call);
      var o := LocalStep(cfg, l, k, call);
      && AllOk(cfg, call.conn, turns, MemoryOf(l)) && After(cfg, turns, MemoryOf(l)) == MemoryOf(o.local)
      && MarksOf(turns) == o.marks
  {
    hide HandleAll, MessageTurns, FeedStep;
    match call
    case OnClose(_) =>
      assert [Gone][1..] == [];
    case OnBytes(conn, fromClient, data, ts) =>
      var fed := FeedStep(if fromClient then l.client else l.server, data);
      MessagesOk(cfg, conn, fromClient, SetParser(l, fromClient, fed.state), k, fed.msgs, ts);
  }

  lemma {:induction false} MarksConcat(a: seq<Turn>, b: seq<Turn>)
    ensures MarksOf(a + b) == MarksOf(a) + MarksOf(b)
  {
    if a == [] {
      assert a + b == b;
    } else {
      assert (a + b)[1..] == a[1..] + b;
      MarksConcat(a[1..], b);
    }
  }

  /** A transcript is the log of its connection, with the messages. */
  lemma {:induction false} TurnsAreLog(cfg: Config, g: Global, c: ConnId, calls: seq<Call>)
    ensures MarksOf(Turns(cfg, g, c, calls)) == Of(c, Log(cfg, g, calls))
    decreases |calls|
  {
    hide LocalStep, Of, Log, CallTurns, MarksOf, Step, AllOk, After;
    if calls == [] {
      EmptyLog(cfg, g, c);
      NoMarks();
    } else {
      var call, g' := calls[0], Step(cfg, g, calls[0]);
      var turns := Turns(cfg, g', c, calls[1..]);
      LogStep(cfg, g, calls, c);
      TurnsAreLog(cfg, g', c, calls[1..]);
      if call.conn == c {
        CallOk(cfg, LocalOf(g, c), g.counter, call);
        MarksConcat(CallTurns(cfg, LocalOf(g, c), g.counter, call), turns);
      } else {
        assert [] + turns == turns;
      }
    }
  }

  lemma NoMarks()
    ensures MarksOf([]) == []
  {
  }

  lemma {:induction false} RunOk(cfg: Config, g: Global, c: ConnId, calls: seq<Call>)
    ensures AllOk(cfg, c, Turns(cfg, g, c, calls), MemoryOf(LocalOf(g, c)))
    decreases |calls|
  {
    hide LocalStep, CallTurns, AllOk, After, Step;
    if calls == [] {
      NoTurns(cfg, c, MemoryOf(LocalOf(g, c)));
    } else {
      var call, g' := calls[0], Step(cfg, g, calls[0]);
      var turns := Turns(cfg, g', c, calls[1..]);
      StepOther(cfg, g, call, c);
      RunOk(cfg, g', c, calls[1..]);
      if call.conn == c {
        CallOk(cfg, LocalOf(g, c), g.counter, call);
        OkConcat(cfg, c, CallTurns(cfg, LocalOf(g, c), g.counter, call), turns, MemoryOf(LocalOf(g, c)));
      } else {
        assert [] + turns == turns;
      }
    }
  }

  lemma NoTurns(cfg: Config, c: ConnId, m: Memory)
    ensures AllOk(cfg, c, [], m)
  {
  }

  /** What is remembered at a turn is what the latest turns before it said. */
  function MemoryAt(cfg: Config, turns: seq<Turn>, i: nat, m: Memory): Memory
    requires i <= |turns|
  {
    Memory(Latest(turns, i, StatusSaid, m.status), Latest(turns, i, t => ClockSaid(cfg, t), m.clock),
           Latest(turns, i, TextSaid, m.text))
  }

  lemma MemoryTail(cfg: Config, turns: seq<Turn>, i: nat, m: Memory)
    requires 0 < i <= |turns|
    ensures MemoryAt(cfg, turns, i, m) == MemoryAt(cfg, turns[1..], i - 1, Moved(cfg, turns[0], m))
  {
    hide StatusSaid, ClockSaid, TextSaid, Latest;
    LatestTail(turns, i, StatusSaid, m.status);
    LatestTail(turns, i, t => ClockSaid(cfg, t), m.clock);
    LatestTail(turns, i, TextSaid, m.text);
  }

  lemma {:induction false} OkAt(cfg: Config, c: ConnId, turns: seq<Turn>, i: nat, m: Memory)
    requires i < |turns| && AllOk(cfg, c, turns, m)
    ensures TurnOk(cfg, c, turns[i], MemoryAt(cfg, turns, i, m))
    decreases i
  {
    hide TurnOk, Moved, StatusSaid, ClockSaid, TextSaid;
    if i > 0 {
      MemoryTail(cfg, turns, i, m);
      hide MemoryAt;
      OkAt(cfg, c, turns[1..], i - 1, Moved(cfg, turns[0], m));
    }
  }

  /**
   Every statement is decided on in the state of its transaction. In any run, a client message gives at
   most one statement, and that is kept exactly if the filter keeps its text in the state that the
   latest of these has left: a status byte of the server, a BEGIN, a COMMIT or ROLLBACK, a close.
   */
  lemma KeptByState(cfg: Config, calls: seq<Call>, c: ConnId, i: nat)
    requires i < |Turns(cfg, Fresh(), c, calls)|
    ensures var turns := Turns(cfg, Fresh(), c, calls);
      turns[i].Heard? && turns[i].fromClient ==>
        && |turns[i].marks| <= 1
        && (turns[i].marks != [] ==>
              Decides(cfg, c, turns[i].ts, Latest(turns, i, StatusSaid, TxIdle), turns[i].marks[0]))
  {
    hide AllOk, StatusSaid, ClockSaid, TextSaid, Latest, Decides, Times, Turns;
    RunOk(cfg, Fresh(), c, calls);
    OkAt(cfg, c, Turns(cfg, Fresh(), c, calls), i, MemoryOf(FreshLocal()));
  }

  /**
   Every time is that of the statement in flight. In any run, a server message gives a time exactly if it
   completes a statement and the clock was started before and not stopped since; the time is the
   difference, if positive, and goes with the text of the latest statement.
   */
  lemma TimedByClock(cfg: Config, calls: seq<Call>, c: ConnId, i: nat)
    requires i < |Turns(cfg, Fresh(), c, calls)|
    ensures var turns := Turns(cfg, Fresh(), c, calls);
      turns[i].Heard? && !turns[i].fromClient ==>
        var start := Latest(turns, i, t => ClockSaid(cfg, t), None);
        if Completes(turns[i].msg) && start.Some? && turns[i].ts as int > start.value as int
        then turns[i].marks == [Exec(Latest(turns, i, TextSaid, []), turns[i].ts as int - start.value as int)]
        else turns[i].marks == []
  {
    hide AllOk, StatusSaid, ClockSaid, TextSaid, Latest, Decides, Turns;
    RunOk(cfg, Fresh(), c, calls);
    OkAt(cfg, c, Turns(cfg, Fresh(), c, calls), i, MemoryOf(FreshLocal()));
  }
}
