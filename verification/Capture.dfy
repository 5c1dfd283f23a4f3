/**
 From bytes to captured statements (pkg/pipeline/processor.go with pkg/protocol): what is captured of a
 connection is a function of the bytes its client sent, however they were cut, timed and interleaved.
 Module `Session` says what that is for a client that follows the protocol.
 */
module Capture {
  import opened Core
  import opened Framing
  import opened Bind
  import opened Copy
  import opened Processor
  import opened NonInterference

  /** What a statement says: everything but its time, transaction group and sequence number. */
  datatype Content = Content(sql: Bytes, stmtName: Bytes, params: seq<Param>, copyData: seq<Bytes>, extended: bool)

  /** The part of a connection's state that content depends on. */
  datatype Kept = Kept(stmts: map<Bytes, ParseInfo>, copy: CopyState)

  datatype Said = Said(kept: Kept, contents: seq<Content>)

  function KeptOf(l: Local): Kept { Kept(l.stmts, l.copy) }

  function ContentOf(ev: Event): Content {
    Content(ev.sql, ev.stmtName, ev.params, ev.copyData, ev.extended)
  }

  function Contents(marks: seq<Mark>): seq<Content> {
    if marks == [] then []
    else (if marks[0].Stmt? then [ContentOf(marks[0].event)] else []) + Contents(marks[1..])
  }

  /** A dispatched statement may be a pooler reset. */
  function Dispatched(cfg: Config, kept: Kept, c: Content): Said {
    var reset := cfg.pooler && cfg.classify(c.sql).ClassUtility? && cfg.isReset(c.sql);
    Said(if reset then Kept(map[], NoCopy) else kept, [c])
  }

  /** One client message, as far as content goes. */
  function Hear(cfg: Config, kept: Kept, msg: Message): Said {
    if IsCancelRequest(msg) then Said(kept, [])
    else if msg.kind == MSG_PARSE then
      (match BuildParse(cfg, msg)
       case None => Said(kept, [])
       case Some(m) => Said(kept.(stmts := kept.stmts[m.stmt := ParseInfo(m.sql, m.oids)]), []))
    else if msg.kind == MSG_BIND then
      (match Correlate(kept.stmts, msg.payload)
       case None => Said(kept, [])
       case Some(r) => Dispatched(cfg, kept, Content(r.sql, r.stmt, r.params, [], true)))
    else if msg.kind == MSG_COPY_DATA then
      Said(kept.(copy := AddSegment(cfg.copyCap, kept.copy, msg.payload)), [])
    else if msg.kind == MSG_COPY_DONE then
      (match Finished(kept.copy)
       case None => Said(kept.(copy := NoCopy), [])
       case Some((sql, data)) => Dispatched(cfg, kept.(copy := NoCopy), Content(sql, [], [], data, false)))
    else if msg.kind == MSG_COPY_FAIL then Said(kept.(copy := NoCopy), [])
    else if msg.kind != MSG_QUERY || Oversized(cfg, ExtractSimpleQuerySql(msg.payload)) then Said(kept, [])
    else
      var sql := ExtractSimpleQuerySql(msg.payload);
      if cfg.classify(sql).ClassCopyFrom? then Said(kept.(copy := Copying(sql, [], 0)), [])
      else Dispatched(cfg, kept, Content(sql, [], [], [], false))
  }

  function HearAll(cfg: Config, kept: Kept, msgs: seq<Message>): Said
    decreases |msgs|
  {
    if msgs == [] then Said(kept, []) else
      var s := Hear(cfg, kept, msgs[0]);
      var t := HearAll(cfg, s.kept, msgs[1..]);
      Said(t.kept, s.contents + t.contents)
  }

  // ----- The processor captures what is heard ----------------------------------------------------

  lemma ContentsOne(m: Mark)
    ensures Contents([m]) == if m.Stmt? then [ContentOf(m.event)] else []
  {
    assert [m][1..] == [];
  }

  lemma {:induction false} ContentsConcat(a: seq<Mark>, b: seq<Mark>)
    ensures Contents(a + b) == Contents(a) + Contents(b)
  {
    if a == [] {
      assert a + b == b;
    } else {
      assert (a + b)[1..] == a[1..] + b;
      ContentsConcat(a[1..], b);
    }
  }

  lemma DispatchSays(cfg: Config, l: Local, k: nat, ev: Event)
    ensures var o := Dispatch(cfg, l, k, ev);
      Said(KeptOf(o.local), Contents(o.marks)) == Dispatched(cfg, KeptOf(l), ContentOf(ev))
  {
    ContentsOne(Dispatch(cfg, l, k, ev).marks[0]);
  }

  lemma ClientSays(cfg: Config, conn: ConnId, l: Local, k: nat, msg: Message, ts: I64)
    ensures var o := HandleClient(cfg, conn, l, k, msg, ts);
      Said(KeptOf(o.local), Contents(o.marks)) == Hear(cfg, KeptOf(l), msg)
  {
    hide Dispatch, Dispatched, Contents, Correlate, DecodeParse, AddSegment;
    NothingSaid();
    if msg.kind == MSG_BIND && Correlate(l.stmts, msg.payload).Some? {
      var r := Correlate(l.stmts, msg.payload).value;
      DispatchSays(cfg, l, k, NewEvent(conn, r.sql, ts).(stmtName := r.stmt, params := r.params, extended := true));
    } else if msg.kind == MSG_COPY_DONE && Finished(l.copy).Some? {
      var (sql, data) := Finished(l.copy).value;
      DispatchSays(cfg, l.(copy := NoCopy), k, NewEvent(conn, sql, ts).(copyData := data));
    } else if BuildQuery(cfg, conn, msg, ts).Some? {
      DispatchSays(cfg, l, k, BuildQuery(cfg, conn, msg, ts).value);
    }
  }

  lemma NothingSaid()
    ensures Contents([]) == []
  {
  }

  lemma ServerSaysNothing(l: Local, k: nat, msg: Message, ts: I64)
    ensures var o := HandleServer(l, k, msg, ts); KeptOf(o.local) == KeptOf(l) && Contents(o.marks) == []
    ensures HandleServer(l, k, msg, ts).local.client == l.client
  {
    forall m: Mark | m.Exec? ensures Contents([m]) == [] { ContentsOne(m); }
  }

  lemma ClientKeepsParsers(cfg: Config, conn: ConnId, l: Local, k: nat, msg: Message, ts: I64)
    ensures HandleClient(cfg, conn, l, k, msg, ts).local.client == l.client
  {
    hide Correlate, DecodeParse, AddSegment;
  }

  lemma {:induction false} AllSay(cfg: Config, conn: ConnId, fromClient: bool, l: Local,
      k: nat, msgs: seq<Message>, ts: I64)
    ensures var o := HandleAll(cfg, conn, fromClient, l, k, msgs, ts);
      && o.local.client == l.client
      && Said(KeptOf(o.local), Contents(o.marks))
           == if fromClient then HearAll(cfg, KeptOf(l), msgs) else Said(KeptOf(l), [])
    decreases |msgs|
  {
    hide Hear, HandleClient, HandleServer, Contents;
    NothingSaid();
    if msgs != [] {
      var o := Handle(cfg, conn, fromClient, l, k, msgs[0], ts);
      var o' := HandleAll(cfg, conn, fromClient, o.local, o.counter, msgs[1..], ts);
      if fromClient {
        ClientSays(cfg, conn, l, k, msgs[0], ts);
        ClientKeepsParsers(cfg, conn, l, k, msgs[0], ts);
      } else {
        ServerSaysNothing(l, k, msgs[0], ts);
      }
      AllSay(cfg, conn, fromClient, o.local, o.counter, msgs[1..], ts);
      ContentsConcat(o.marks, o'.marks);
    }
  }

  // ----- Whole runs -----------------------------------------------------------------------------------

  /** The chunks a run delivers for the client side of `c`. */
  function ClientChunks(c: ConnId, calls: seq<Call>): seq<Bytes> {
    if calls == [] then []
    else (if FromClient(c, calls[0]) then [calls[0].data] else []) + ClientChunks(c, calls[1..])
  }

  predicate FromClient(c: ConnId, call: Call) { call.conn == c && call.OnBytes? && call.fromClient }

  lemma {:induction false} HearConcat(cfg: Config, kept: Kept, a: seq<Message>, b: seq<Message>)
    ensures var s := HearAll(cfg, kept, a); var t := HearAll(cfg, s.kept, b);
      HearAll(cfg, kept, a + b) == Said(t.kept, s.contents + t.contents)
    decreases |a|
  {
    hide Hear;
    if a == [] {
      assert a + b == b;
    } else {
      assert (a + b)[1..] == a[1..] + b;
      HearConcat(cfg, Hear(cfg, kept, a[0]).kept, a[1..], b);
    }
  }

  lemma StepSays(cfg: Config, l: Local, k: nat, call: Call)
    requires call.OnBytes?
    ensures var o := LocalStep(cfg, l, k, call); var fed := FeedStep(l.client, call.data);
      if call.fromClient
      then o.local.client == fed.state && Said(KeptOf(o.local), Contents(o.marks)) == HearAll(cfg, KeptOf(l), fed.msgs)
      else o.local.client == l.client && KeptOf(o.local) == KeptOf(l) && Contents(o.marks) == []
  {
    hide HandleAll, HearAll, FeedStep, Contents;
    var fed := FeedStep(if call.fromClient then l.client else l.server, call.data);
    AllSay(cfg, call.conn, call.fromClient, SetParser(l, call.fromClient, fed.state), k, fed.msgs, call.ts);
  }

  /** In any run that does not close `c`, what is captured of `c` is what its client parser heard. */
  lemma {:induction false} RunSays(cfg: Config, g: Global, c: ConnId, calls: seq<Call>)
    requires forall call :: call in calls && call.conn == c ==> call.OnBytes?
    ensures var l := LocalOf(g, c);
      Contents(Of(c, Log(cfg, g, calls))) == HearAll(cfg, KeptOf(l), Emitted(l.client, ClientChunks(c, calls))).contents
    decreases |calls|
  {
    hide LocalStep, Log, Of, HearAll, Contents, FeedStep, KeptOf;
    var l := LocalOf(g, c);
    if calls == [] {
      EmptyLog(cfg, g, c);
      NothingSaid();
      NothingHeard(cfg, KeptOf(l));
    } else {
      var call, g' := calls[0], Step(cfg, g, calls[0]);
      LogStep(cfg, g, calls, c);
      StepOther(cfg, g, call, c);
      RunSays(cfg, g', c, calls[1..]);
      var chunks := ClientChunks(c, calls[1..]);
      if call.conn == c {
        StepSays(cfg, l, g.counter, call);
        ContentsConcat(StepMarks(cfg, g, call), Of(c, Log(cfg, g', calls[1..])));
        if call.fromClient {
          assert ClientChunks(c, calls)[1..] == chunks;
          var fed := FeedStep(l.client, call.data);
          HearConcat(cfg, KeptOf(l), fed.msgs, Emitted(fed.state, chunks));
        } else {
          assert ClientChunks(c, calls) == chunks;
        }
      } else {
        assert ClientChunks(c, calls) == chunks;
        assert [] + Of(c, Log(cfg, g', calls[1..])) == Of(c, Log(cfg, g', calls[1..]));
      }
    }
  }

  lemma NothingHeard(cfg: Config, kept: Kept)
    ensures HearAll(cfg, kept, []) == Said(kept, [])
  {
  }

  const NOTHING_KEPT := Kept(map[], NoCopy)

  /**
   In any run, what is captured of a connection is a function of the concatenated bytes of its client:
   cutting, timing, the server's side and all other connections make no difference.
   */
  lemma CapturedFromBytes(cfg: Config, c: ConnId, calls: seq<Call>)
    requires forall call :: call in calls && call.conn == c ==> call.OnBytes?
    requires Within(Greedy(true, Concat(ClientChunks(c, calls))).msgs)
    ensures Contents(Of(c, Log(cfg, Fresh(), calls)))
         == HearAll(cfg, NOTHING_KEPT, Greedy(true, Concat(ClientChunks(c, calls))).msgs).contents
  {
    hide Log, Of, HearAll, Contents, Greedy, Within;
    RunSays(cfg, Fresh(), c, calls);
    EveryChunking(true, ClientChunks(c, calls));
  }
}
