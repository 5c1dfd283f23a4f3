/**
 Transaction grouping and sequence numbers over whole runs of the stream processor
 (pkg/pipeline/processor.go, pkg/protocol/txid.go).
 */
module Grouping {
  import opened Core
  import opened Processor
  import opened NonInterference
  import Framing
  import Bind
  import Copy

  // ----- What a single connection's log looks like ---------------------------------------------

  /** The log of one connection, starting in group `cur`, after ids up to `bound`, and after `n`
      statements: a statement that opens a group carries an id above every earlier one; any other
      carries the current group's id. */
  ghost predicate Grouped(ms: seq<Mark>, cur: nat, bound: nat, n: nat)
    requires cur <= bound
    decreases |ms|
  {
    ms == [] ||
    match ms[0]
    case Exec(_, _) => Grouped(ms[1..], cur, bound, n)
    case Closed => Grouped(ms[1..], 0, bound, 0)
    case Stmt(ev, cls, _, reset) =>
      && ev.seqNo == n + 1
      && (if Opens(cls, cur) then ev.txId > bound else ev.txId == cur)
      && Grouped(ms[1..], if Ends(cls, reset) then 0 else ev.txId, Above(bound, ev.txId), n + 1)
  }

  function Above(a: nat, b: nat): nat { if a < b then b else a }

  /** The group, bound and statement count at the end of such a log. */
  ghost function GroupAfter(ms: seq<Mark>, cur: nat): nat
    decreases |ms|
  {
    if ms == [] then cur else
      match ms[0]
      case Exec(_, _) => GroupAfter(ms[1..], cur)
      case Closed => GroupAfter(ms[1..], 0)
      case Stmt(ev, cls, _, reset) => GroupAfter(ms[1..], if Ends(cls, reset) then 0 else ev.txId)
  }

  ghost function CountAfter(ms: seq<Mark>, n: nat): nat
    decreases |ms|
  {
    if ms == [] then n else
      CountAfter(ms[1..], if ms[0].Stmt? then n + 1 else if ms[0].Closed? then 0 else n)
  }

  lemma {:induction false} GroupedWeaken(ms: seq<Mark>, cur: nat, bound: nat, bound': nat, n: nat)
    requires cur <= bound' <= bound && Grouped(ms, cur, bound, n)
    ensures Grouped(ms, cur, bound', n)
    decreases |ms|
  {
    if ms != [] {
      match ms[0] {
        case Exec(_, _) => GroupedWeaken(ms[1..], cur, bound, bound', n);
        case Closed => GroupedWeaken(ms[1..], 0, bound, bound', 0);
        case Stmt(ev, cls, _, reset) =>
          GroupedWeaken(ms[1..], if Ends(cls, reset) then 0 else ev.txId,
                        Above(bound, ev.txId), Above(bound', ev.txId), n + 1);
      }
    }
  }

  /** Logs chain: the second starts where the first stopped. `top` bounds the ids of the first. */
  lemma {:induction false} GroupedChain(a: seq<Mark>, b: seq<Mark>, cur: nat, bound: nat, n: nat, top: nat)
    requires cur <= bound <= top && Grouped(a, cur, bound, n) && Known(top, a)
    requires GroupAfter(a, cur) <= top
    requires Grouped(b, GroupAfter(a, cur), top, CountAfter(a, n))
    ensures Grouped(a + b, cur, bound, n)
    decreases |a|
  {
    if a == [] {
      assert a + b == b;
      GroupedWeaken(b, cur, top, bound, n);
    } else {
      assert (a + b)[0] == a[0] && (a + b)[1..] == a[1..] + b;
      assert a[0] in a;
      match a[0] {
        case Exec(_, _) => GroupedChain(a[1..], b, cur, bound, n, top);
        case Closed => GroupedChain(a[1..], b, 0, bound, 0, top);
        case Stmt(ev, cls, _, reset) =>
          GroupedChain(a[1..], b, if Ends(cls, reset) then 0 else ev.txId, Above(bound, ev.txId), n + 1, top);
      }
    }
  }

  lemma {:induction false} AfterChain(a: seq<Mark>, b: seq<Mark>, cur: nat, n: nat)
    ensures GroupAfter(a + b, cur) == GroupAfter(b, GroupAfter(a, cur))
    ensures CountAfter(a + b, n) == CountAfter(b, CountAfter(a, n))
    decreases |a|
  {
    if a == [] {
      assert a + b == b;
    } else {
      assert (a + b)[0] == a[0] && (a + b)[1..] == a[1..] + b;
      var n' := if a[0].Stmt? then n + 1 else if a[0].Closed? then 0 else n;
      var cur' := match a[0] case Exec(_, _) => cur case Closed => 0
                  case Stmt(ev, cls, _, reset) => if Ends(cls, reset) then 0 else ev.txId;
      AfterChain(a[1..], b, cur', n');
    }
  }

  // ----- The processor produces such logs -----------------------------------------------------------

  /** One outcome is a grouped log that ends in the connection's new state. */
  ghost predicate OutGrouped(l: Local, k: nat, o: Out) {
    && l.tx <= k <= o.counter
    && o.local.tx <= o.counter
    && Grouped(o.marks, l.tx, k, l.seqNo)
    && Known(o.counter, o.marks)
    && GroupAfter(o.marks, l.tx) == o.local.tx
    && CountAfter(o.marks, l.seqNo) == o.local.seqNo
  }

  lemma DispatchGrouped(cfg: Config, l: Local, k: nat, ev: Event)
    requires l.tx <= k
    ensures OutGrouped(l, k, Dispatch(cfg, l, k, ev))
  {
    var o := Dispatch(cfg, l, k, ev);
    assert o.marks[1..] == [];
  }

  lemma QuietGrouped(l: Local, k: nat, o: Out)
    requires l.tx <= k && o.counter == k && o.local.tx == l.tx && o.local.seqNo == l.seqNo
    requires o.marks == [] || (|o.marks| == 1 && o.marks[0].Exec?)
    ensures OutGrouped(l, k, o)
  {
    if o.marks != [] { assert o.marks[1..] == []; }
  }

  lemma HandleGrouped(cfg: Config, conn: ConnId, fromClient: bool, l: Local, k: nat, msg: Message, ts: I64)
    requires l.tx <= k
    ensures OutGrouped(l, k, Handle(cfg, conn, fromClient, l, k, msg, ts))
  {
    hide Dispatch, OutGrouped, Bind.Correlate, Bind.DecodeParse;
    var o := Handle(cfg, conn, fromClient, l, k, msg, ts);
    if
      && (o.marks == [] || (|o.marks| == 1 && o.marks[0].Exec?))
      && o.counter == k && o.local.tx == l.tx && o.local.seqNo == l.seqNo
    {
      QuietGrouped(l, k, o);
    } else if msg.kind == MSG_BIND {
      var r := Bind.Correlate(l.stmts, msg.payload).value;
      var ev := NewEvent(conn, r.sql, ts).(stmtName := r.stmt, params := r.params, extended := true);
      DispatchGrouped(cfg, l, k, ev);
      TimedGrouped(cfg, l, k, ev, ts);
    } else if msg.kind == MSG_COPY_DONE {
      var (sql, data) := Copy.Finished(l.copy).value;
      var ev := NewEvent(conn, sql, ts).(copyData := data);
      var l1 := l.(copy := Copy.NoCopy);
      DispatchGrouped(cfg, l1, k, ev);
      SameGroup(l, l1, k, Dispatch(cfg, l1, k, ev));
    } else {
      TimedGrouped(cfg, l, k, BuildQuery(cfg, conn, msg, ts).value, ts);
    }
  }

  lemma SameGroup(l: Local, l1: Local, k: nat, o: Out)
    requires l.tx == l1.tx && l.seqNo == l1.seqNo && OutGrouped(l1, k, o)
    ensures OutGrouped(l, k, o)
  {
  }

  lemma TimedGrouped(cfg: Config, l: Local, k: nat, ev: Event, ts: I64)
    requires l.tx <= k
    ensures OutGrouped(l, k, DispatchTimed(cfg, l, k, ev, ts))
  {
    DispatchGrouped(cfg, l, k, ev);
  }

  lemma OutGroupedChain(l: Local, k: nat, o: Out, p: Out)
    requires OutGrouped(l, k, o) && OutGrouped(o.local, o.counter, p)
    ensures OutGrouped(l, k, p.(marks := o.marks + p.marks))
  {
    GroupedChain(o.marks, p.marks, l.tx, k, l.seqNo, o.counter);
    AfterChain(o.marks, p.marks, l.tx, l.seqNo);
  }

  lemma {:induction false} AllGrouped(cfg: Config, conn: ConnId, fromClient: bool, l: Local,
      k: nat, msgs: seq<Message>, ts: I64)
    requires l.tx <= k
    ensures OutGrouped(l, k, HandleAll(cfg, conn, fromClient, l, k, msgs, ts))
    decreases |msgs|
  {
    if msgs == [] {
      QuietGrouped(l, k, Out(l, k, []));
    } else {
      hide Handle, Grouped, GroupAfter, CountAfter;
      HandleGrouped(cfg, conn, fromClient, l, k, msgs[0], ts);
      var o := Handle(cfg, conn, fromClient, l, k, msgs[0], ts);
      AllGrouped(cfg, conn, fromClient, o.local, o.counter, msgs[1..], ts);
      OutGroupedChain(l, k, o, HandleAll(cfg, conn, fromClient, o.local, o.counter, msgs[1..], ts));
    }
  }

  lemma LocalGrouped(cfg: Config, l: Local, k: nat, call: Call)
    requires l.tx <= k
    ensures OutGrouped(l, k, LocalStep(cfg, l, k, call))
  {
    hide HandleAll;
    match call {
      case OnClose(_) =>
        assert [Closed][1..] == [];
      case OnBytes(conn, fromClient, data, ts) =>
        var fed := Framing.FeedStep(if fromClient then l.client else l.server, data);
        var l1 := SetParser(l, fromClient, fed.state);
        AllGrouped(cfg, conn, fromClient, l1, k, fed.msgs, ts);
        SameGroup(l, l1, k, HandleAll(cfg, conn, fromClient, l1, k, fed.msgs, ts));
    }
  }

  /** Every current group's id has been handed out. */
  ghost predicate Sane(g: Global) {
    forall c :: LocalOf(g, c).tx <= g.counter
  }

  lemma StepSane(cfg: Config, g: Global, call: Call)
    requires Sane(g)
    ensures Sane(Step(cfg, g, call)) && Step(cfg, g, call).counter >= g.counter
  {
    hide LocalStep;
    LocalGrouped(cfg, LocalOf(g, call.conn), g.counter, call);
    forall c ensures LocalOf(Step(cfg, g, call), c).tx <= Step(cfg, g, call).counter {
      StepOther(cfg, g, call, c);
      assert LocalOf(g, c).tx <= g.counter;
    }
  }

  /** In every run of the processor, every connection's log is grouped. */
  lemma {:induction false} LogGrouped(cfg: Config, g: Global, calls: seq<Call>, c: ConnId)
    requires Sane(g)
    ensures Grouped(Of(c, Log(cfg, g, calls)), LocalOf(g, c).tx, g.counter, LocalOf(g, c).seqNo)
    decreases |calls|
  {
    hide LocalStep, Of, Log, LocalOf;
    if calls == [] {
      EmptyLog(cfg, g, c);
      assert LocalOf(g, c).tx <= g.counter;
    } else {
      var call, g' := calls[0], Step(cfg, g, calls[0]);
      LogStep(cfg, g, calls, c);
      StepOther(cfg, g, call, c);
      StepSane(cfg, g, call);
      LogGrouped(cfg, g', calls[1..], c);
      var rest := Of(c, Log(cfg, g', calls[1..]));
      if call.conn == c {
        var o := LocalStep(cfg, LocalOf(g, c), g.counter, call);
        LocalGrouped(cfg, LocalOf(g, c), g.counter, call);
        GroupedChain(o.marks, rest, LocalOf(g, c).tx, g.counter, LocalOf(g, c).seqNo, o.counter);
      } else {
        assert LocalOf(g, c).tx <= g.counter;
        GroupedWeaken(rest, LocalOf(g, c).tx, g'.counter, g.counter, LocalOf(g, c).seqNo);
        assert [] + rest == rest;
      }
    }
  }

  // ----- What grouped logs mean ---------------------------------------------------------------------

  /** The end of a transaction: COMMIT or ROLLBACK, or a pooler reset. */
  predicate Finishes(m: Mark) { m.Stmt? && (m.cls.ClassCommitRollback? || m.reset) }

  /** A transaction boundary lies between statement `i` and statement `j`: a BEGIN after `i` and up
      to `j`, a COMMIT, ROLLBACK or pooler reset from `i` and before `j`, or a close in between. */
  ghost predicate Separated(ms: seq<Mark>, i: int, j: int)
    requires -1 <= i < j < |ms|
  {
    || (exists k :: i < k <= j && ms[k].Stmt? && ms[k].cls.ClassBegin?)
    || (exists k :: 0 <= k && i <= k < j && Finishes(ms[k]))
    || (exists k :: i < k < j && ms[k].Closed?)
  }

  /** A group that is no longer current never comes back. */
  lemma {:induction false} GoneForGood(ms: seq<Mark>, cur: nat, bound: nat, n: nat, t: nat, j: nat)
    requires cur <= bound && Grouped(ms, cur, bound, n) && 0 < t <= bound && cur != t
    requires j < |ms| && ms[j].Stmt?
    ensures ms[j].event.txId != t
    decreases |ms|
  {
    if j > 0 {
      match ms[0] {
        case Exec(_, _) => GoneForGood(ms[1..], cur, bound, n, t, j - 1);
        case Closed => GoneForGood(ms[1..], 0, bound, 0, t, j - 1);
        case Stmt(ev, cls, _, reset) =>
          GoneForGood(ms[1..], if Ends(cls, reset) then 0 else ev.txId, Above(bound, ev.txId), n + 1, t, j - 1);
      }
    }
  }

  lemma SeparatedTail(ms: seq<Mark>, j: nat)
    requires 0 < j < |ms|
    requires !(ms[0].Stmt? && (ms[0].cls.ClassBegin? || Ends(ms[0].cls, ms[0].reset))) && !ms[0].Closed?
    ensures Separated(ms, -1, j) <==> Separated(ms[1..], -1, j - 1)
  {
    var tail := ms[1..];
    if Separated(ms, -1, j) {
      if k :| -1 < k <= j && ms[k].Stmt? && ms[k].cls.ClassBegin? { assert tail[k - 1] == ms[k]; }
      else if k :| 0 <= k < j && Finishes(ms[k]) { assert tail[k - 1] == ms[k]; }
      else { var k :| -1 < k < j && ms[k].Closed?; assert tail[k - 1] == ms[k]; }
    }
    if Separated(tail, -1, j - 1) {
      if k :| -1 < k <= j - 1 && tail[k].Stmt? && tail[k].cls.ClassBegin? { assert ms[k + 1] == tail[k]; }
      else if k :| 0 <= k < j - 1 && Finishes(tail[k]) { assert ms[k + 1] == tail[k]; }
      else { var k :| -1 < k < j - 1 && tail[k].Closed?; assert ms[k + 1] == tail[k]; }
    }
  }

  /** While group `t` is current, a later statement is in it exactly when no boundary comes first. */
  lemma {:induction false} InGroup(ms: seq<Mark>, t: nat, bound: nat, n: nat, j: nat)
    requires 0 < t <= bound && Grouped(ms, t, bound, n)
    requires j < |ms| && ms[j].Stmt?
    ensures ms[j].event.txId == t <==> !Separated(ms, -1, j)
    decreases |ms|
  {
    var m := ms[0];
    if m.Stmt? && m.cls.ClassBegin? {
      assert Separated(ms, -1, j);
      if j > 0 {
        var cur' := if Ends(m.cls, m.reset) then 0 else m.event.txId;
        GoneForGood(ms[1..], cur', Above(bound, m.event.txId), n + 1, t, j - 1);
      }
    } else if j > 0 {
      if m.Stmt? && Ends(m.cls, m.reset) {
        assert Separated(ms, -1, j);
        GoneForGood(ms[1..], 0, Above(bound, m.event.txId), n + 1, t, j - 1);
      } else if m.Closed? {
        assert Separated(ms, -1, j);
        GoneForGood(ms[1..], 0, bound, 0, t, j - 1);
      } else {
        SeparatedTail(ms, j);
        InGroup(ms[1..], t, bound, if m.Stmt? then n + 1 else n, j - 1);
      }
    }
  }

  lemma {:induction false} GroupedSuffix(ms: seq<Mark>, cur: nat, bound: nat, n: nat, i: nat)
    returns (bound': nat, n': nat)
    requires cur <= bound && Grouped(ms, cur, bound, n) && i < |ms| && ms[i].Stmt?
    ensures var ev := ms[i].event;
      var cur' := if Ends(ms[i].cls, ms[i].reset) then 0 else ev.txId;
      && ev.txId <= bound' && ev.seqNo <= n'
      && Grouped(ms[i + 1..], cur', bound', n')
    decreases |ms|
  {
    if i == 0 {
      bound', n' := Above(bound, ms[0].event.txId), n + 1;
    } else {
      var tail := ms[1..];
      match ms[0] {
        case Exec(_, _) => bound', n' := GroupedSuffix(tail, cur, bound, n, i - 1);
        case Closed => bound', n' := GroupedSuffix(tail, 0, bound, 0, i - 1);
        case Stmt(ev, cls, _, reset) =>
          var cur' := if Ends(cls, reset) then 0 else ev.txId;
          bound', n' := GroupedSuffix(tail, cur', Above(bound, ev.txId), n + 1, i - 1);
      }
      assert ms[i + 1..] == tail[i..];
    }
  }

  lemma SeparatedShift(ms: seq<Mark>, i: nat, j: nat)
    requires i < j < |ms| && ms[i].Stmt? && !Ends(ms[i].cls, ms[i].reset)
    ensures Separated(ms, i, j) <==> Separated(ms[i + 1..], -1, j - i - 1)
  {
    var tail, d := ms[i + 1..], i + 1;
    if Separated(ms, i, j) {
      if k :| i < k <= j && ms[k].Stmt? && ms[k].cls.ClassBegin? { assert tail[k - d] == ms[k]; }
      else if k :| i <= k < j && Finishes(ms[k]) { assert tail[k - d] == ms[k]; }
      else { var k :| i < k < j && ms[k].Closed?; assert tail[k - d] == ms[k]; }
    }
    if Separated(tail, -1, j - d) {
      if k :| -1 < k <= j - d && tail[k].Stmt? && tail[k].cls.ClassBegin? { assert ms[k + d] == tail[k]; }
      else if k :| 0 <= k < j - d && Finishes(tail[k]) { assert ms[k + d] == tail[k]; }
      else { var k :| -1 < k < j - d && tail[k].Closed?; assert ms[k + d] == tail[k]; }
    }
  }

  /**
   Transaction grouping. In any run, two statements of a connection, the first of which is in a
   group, carry the same transaction id exactly when no BEGIN, COMMIT or ROLLBACK, pooler reset or
   close separates them. In particular a COMMIT or ROLLBACK carries the id of the group it ends.
   */
  lemma TransactionsAreGrouped(cfg: Config, calls: seq<Call>, c: ConnId, i: nat, j: nat)
    requires var ms := Of(c, Log(cfg, Fresh(), calls));
      i < j < |ms| && ms[i].Stmt? && ms[j].Stmt? && ms[i].event.txId != 0
    ensures var ms := Of(c, Log(cfg, Fresh(), calls));
      ms[i].event.txId == ms[j].event.txId <==> !Separated(ms, i, j)
  {
    hide Of, Log;
    var ms := Of(c, Log(cfg, Fresh(), calls));
    LogGrouped(cfg, Fresh(), calls, c);
    var bound, n := GroupedSuffix(ms, 0, 0, 0, i);
    var t, tail := ms[i].event.txId, ms[i + 1..];
    assert tail[j - i - 1] == ms[j];
    if Ends(ms[i].cls, ms[i].reset) {
      assert Separated(ms, i, j);
      GoneForGood(tail, 0, bound, n, t, j - i - 1);
    } else {
      SeparatedShift(ms, i, j);
      InGroup(tail, t, bound, n, j - i - 1);
    }
  }

  // ----- Which statements are in a group ---------------------------------------------------------------

  /** A statement after which a group is open: BEGIN, or a write. */
  predicate Begins(m: Mark) {
    m.Stmt? && (m.cls.ClassBegin? || m.cls.ClassDML? || m.cls.ClassDDL? || m.cls.ClassCopyFrom?)
  }

  /** After which none is: COMMIT or ROLLBACK, a pooler reset, a close. */
  predicate Over(m: Mark) {
    m.Closed? || Finishes(m)
  }

  predicate OpenSince(ms: seq<Mark>, i: nat, j: nat)
    requires j < |ms|
  {
    i <= j && Begins(ms[i]) && forall k :: i <= k < j ==> !Over(ms[k])
  }

  ghost predicate Opened(ms: seq<Mark>, j: nat)
    requires j < |ms|
  {
    exists i: nat :: OpenSince(ms, i, j)
  }

  predicate StillOpen(ms: seq<Mark>, j: nat)
    requires j < |ms|
  {
    forall k :: 0 <= k < j ==> !Over(ms[k])
  }

  lemma OpenTail(ms: seq<Mark>, j: nat)
    requires 0 < j < |ms|
    ensures Opened(ms, j) <==> Opened(ms[1..], j - 1) || (Begins(ms[0]) && StillOpen(ms, j))
    ensures StillOpen(ms, j) <==> !Over(ms[0]) && StillOpen(ms[1..], j - 1)
  {
    var tail, p := ms[1..], j - 1;
    assert forall k :: 0 < k <= j ==> ms[k] == tail[k - 1];
    if Opened(ms, j) {
      var i: nat :| OpenSince(ms, i, j);
      if i > 0 {
        assert forall k :: i - 1 <= k < j - 1 ==> !Over(tail[k]) by {
          assert forall k :: i - 1 <= k < j - 1 ==> tail[k] == ms[k + 1];
        }
        assert OpenSince(tail, i - 1, p);
      }
    }
    if Opened(tail, p) {
      var i: nat :| OpenSince(tail, i, p);
      assert OpenSince(ms, i + 1, j);
    }
    if Begins(ms[0]) && StillOpen(ms, j) { assert OpenSince(ms, 0, j); }
    if StillOpen(ms, j) { assert forall k :: 0 <= k < j - 1 ==> tail[k] == ms[k + 1]; }
  }

  lemma {:induction false} InSomeGroup(ms: seq<Mark>, cur: nat, bound: nat, n: nat, j: nat)
    requires cur <= bound && Grouped(ms, cur, bound, n) && j < |ms| && ms[j].Stmt?
    ensures ms[j].event.txId != 0
      <==> Opened(ms, j) || (cur != 0 && StillOpen(ms, j))
    decreases |ms|
  {
    if j == 0 {
      assert OpenSince(ms, 0, 0) <==> Begins(ms[0]);
      assert StillOpen(ms, 0);
    } else {
      OpenTail(ms, j);
      match ms[0] {
        case Exec(_, _) => InSomeGroup(ms[1..], cur, bound, n, j - 1);
        case Closed => InSomeGroup(ms[1..], 0, bound, 0, j - 1);
        case Stmt(ev, cls, _, reset) =>
          InSomeGroup(ms[1..], if Ends(cls, reset) then 0 else ev.txId, Above(bound, ev.txId), n + 1, j - 1);
      }
    }
  }

  /**
   Which statements are in a group. In any run, a statement of a connection carries a nonzero
   transaction id exactly when it is, or follows, a BEGIN, DML, DDL or COPY FROM statement with no COMMIT
   or ROLLBACK, pooler reset or close after that one and before it.
   */
  lemma GroupedIff(cfg: Config, calls: seq<Call>, c: ConnId, j: nat)
    requires var ms := Of(c, Log(cfg, Fresh(), calls)); j < |ms| && ms[j].Stmt?
    ensures var ms := Of(c, Log(cfg, Fresh(), calls));
      ms[j].event.txId != 0 <==> exists i: nat :: OpenSince(ms, i, j)
  {
    hide Of, Log;
    LogGrouped(cfg, Fresh(), calls, c);
    InSomeGroup(Of(c, Log(cfg, Fresh(), calls)), 0, 0, 0, j);
  }

  /** Later statements of an unclosed stretch have larger sequence numbers. */
  lemma {:induction false} SeqAbove(ms: seq<Mark>, cur: nat, bound: nat, n: nat, j: nat)
    requires cur <= bound && Grouped(ms, cur, bound, n) && j < |ms| && ms[j].Stmt?
    requires forall k :: 0 <= k < j ==> !ms[k].Closed?
    ensures ms[j].event.seqNo > n
    decreases |ms|
  {
    if j > 0 {
      match ms[0] {
        case Exec(_, _) => SeqAbove(ms[1..], cur, bound, n, j - 1);
        case Stmt(ev, cls, _, reset) =>
          SeqAbove(ms[1..], if Ends(cls, reset) then 0 else ev.txId, Above(bound, ev.txId), n + 1, j - 1);
      }
    }
  }

  /** Sequence numbers strictly increase on a connection between closes, kept or not. */
  lemma SequenceNumbersIncrease(cfg: Config, calls: seq<Call>, c: ConnId, i: nat, j: nat)
    requires var ms := Of(c, Log(cfg, Fresh(), calls));
      && i < j < |ms| && ms[i].Stmt? && ms[j].Stmt?
      && forall k :: i < k < j ==> !ms[k].Closed?
    ensures var ms := Of(c, Log(cfg, Fresh(), calls));
      ms[i].event.seqNo < ms[j].event.seqNo
  {
    hide Of, Log;
    var ms := Of(c, Log(cfg, Fresh(), calls));
    LogGrouped(cfg, Fresh(), calls, c);
    var bound, n := GroupedSuffix(ms, 0, 0, 0, i);
    var tail := ms[i + 1..];
    assert tail[j - i - 1] == ms[j];
    assert forall k :: 0 <= k < j - i - 1 ==> tail[k] == ms[k + i + 1];
    SeqAbove(tail, if Ends(ms[i].cls, ms[i].reset) then 0 else ms[i].event.txId, bound, n, j - i - 1);
  }

  // ----- Ids of different connections ----------------------------------------------------------------

  /** Who owns each id handed out so far. */
  type Owners = map<nat, ConnId>

  ghost predicate Owned(g: Global, owners: Owners) {
    && (forall n :: n in owners <==> 0 < n <= g.counter)
    && (forall c :: LocalOf(g, c).tx == 0 || (LocalOf(g, c).tx in owners && owners[LocalOf(g, c).tx] == c))
  }

  ghost predicate LogOwned(log: seq<Entry>, owners: Owners) {
    forall e :: e in log && e.mark.Stmt? && e.mark.event.txId != 0 ==>
      e.mark.event.txId in owners && owners[e.mark.event.txId] == e.conn
  }

  /** In a grouped log every id is the current group or a new one. */
  lemma {:induction false} IdsNewOrCurrent(ms: seq<Mark>, cur: nat, bound: nat, n: nat, base: nat, start: nat)
    requires cur <= bound && start <= base <= bound && Grouped(ms, cur, bound, n)
    requires cur == 0 || cur == start || cur > base
    ensures forall m :: m in ms && m.Stmt? ==> m.event.txId == 0 || m.event.txId == start || m.event.txId > base
    ensures var t := GroupAfter(ms, cur); t == 0 || t == start || t > base
    decreases |ms|
  {
    if ms != [] {
      match ms[0] {
        case Exec(_, _) => IdsNewOrCurrent(ms[1..], cur, bound, n, base, start);
        case Closed => IdsNewOrCurrent(ms[1..], 0, bound, 0, base, start);
        case Stmt(ev, cls, _, reset) =>
          IdsNewOrCurrent(ms[1..], if Ends(cls, reset) then 0 else ev.txId, Above(bound, ev.txId), n + 1, base, start);
      }
    }
  }

  lemma StepOwned(cfg: Config, g: Global, call: Call, owners: Owners) returns (owners': Owners)
    requires Owned(g, owners)
    ensures Owned(Step(cfg, g, call), owners')
    ensures forall n :: n in owners ==> n in owners' && owners'[n] == owners[n]
    ensures LogOwned(Tag(call.conn, StepMarks(cfg, g, call)), owners')
  {
    hide LocalStep, LocalOf, GroupAfter;
    var g', c := Step(cfg, g, call), call.conn;
    var l, o := LocalOf(g, c), LocalStep(cfg, LocalOf(g, c), g.counter, call);
    LocalGrouped(cfg, l, g.counter, call);
    IdsNewOrCurrent(o.marks, l.tx, g.counter, l.seqNo, g.counter, l.tx);
    owners' := map n | 0 < n <= g'.counter :: if n <= g.counter then owners[n] else c;
    forall d ensures LocalOf(g', d).tx == 0 || (LocalOf(g', d).tx in owners' && owners'[LocalOf(g', d).tx] == d) {
      StepOther(cfg, g, call, d);
    }
    var log := Tag(c, o.marks);
    forall e | e in log && e.mark.Stmt? && e.mark.event.txId != 0
      ensures e.mark.event.txId in owners' && owners'[e.mark.event.txId] == e.conn
    {
      var i :| 0 <= i < |log| && log[i] == e;
      assert e.mark == o.marks[i] && o.marks[i] in o.marks;
    }
  }

  lemma {:induction false} RunOwned(cfg: Config, g: Global, calls: seq<Call>, owners: Owners) returns (owners': Owners)
    requires Owned(g, owners)
    ensures forall n :: n in owners ==> n in owners' && owners'[n] == owners[n]
    ensures LogOwned(Log(cfg, g, calls), owners')
    decreases |calls|
  {
    if calls == [] {
      owners' := owners;
    } else {
      hide Step, StepMarks;
      var mid := StepOwned(cfg, g, calls[0], owners);
      owners' := RunOwned(cfg, Step(cfg, g, calls[0]), calls[1..], mid);
    }
  }

  /** No two connections ever share a nonzero transaction id. */
  lemma IdsAreNotShared(cfg: Config, calls: seq<Call>, i: nat, j: nat)
    requires var log := Log(cfg, Fresh(), calls);
      && i < |log| && j < |log| && log[i].mark.Stmt? && log[j].mark.Stmt?
      && log[i].mark.event.txId == log[j].mark.event.txId != 0
    ensures var log := Log(cfg, Fresh(), calls); log[i].conn == log[j].conn
  {
    var owners := RunOwned(cfg, Fresh(), calls, map[]);
    hide Log;
    var log := Log(cfg, Fresh(), calls);
    assert log[i] in log && log[j] in log;
  }
}
