/**
 Whole client sessions (pkg/pipeline/processor.go): what is captured of a client that follows the
 protocol, what it said, and when the two are the same. They differ around COPY: the processor decides
 by the class of a simple query alone whether rows will follow.
 */
module Session {
  import opened Core
  import opened Framing
  import opened Bind
  import opened Copy
  import opened Processor
  import opened Capture

  // ----- What a client sends ---------------------------------------------------------------------

  /** Rows, with any messages among them that carry no statement, and an ending: the COPY is completed
      or given up. */
  datatype Rows = Rows(parts: seq<Part>, done: bool, reason: Bytes)

  datatype Part = Row(data: Bytes) | Aside(kind: Byte, payload: Bytes)

  /** A statement, simple or bound, may be followed by rows. `Other` is any message of a kind that
      carries no statement: Execute, Sync, Describe, Flush, Close, a password, Terminate. */
  datatype Utterance =
    | Simple(sql: Bytes, rows: Option<Rows>)
    | Prepare(parse: ParseMessage)
    | Bound(portal: Bytes, bind: BindMessage, trailer: Bytes, rows: Option<Rows>)
    | Other(kind: Byte, payload: Bytes)

  predicate NoStatement(kind: Byte) {
    kind !in {0, 'Q' as int, 'P' as int, 'B' as int, 'd' as int, 'c' as int, 'f' as int}
  }

  predicate Short(payload: Bytes) { 4 + |payload| <= MAX_FRAME_LENGTH }

  predicate ShortPart(p: Part) {
    match p case Row(data) => Short(data) case Aside(kind, payload) => NoStatement(kind) && Short(payload)
  }

  predicate ShortRows(r: Option<Rows>) {
    r.Some? ==> Short(r.value.reason) && forall i :: 0 <= i < |r.value.parts| ==> ShortPart(r.value.parts[i])
  }

  /** Texts are free of NUL where the protocol ends them with one, and messages within the length limit. */
  ghost predicate Sayable(u: Utterance) {
    match u
    case Simple(sql, rows) => Short(sql + [0]) && ShortRows(rows)
    case Prepare(m) => 0 !in m.stmt && 0 !in m.sql && |m.oids| < 0x1_0000 && Short(WireParse(m))
    case Bound(portal, m, trailer, rows) =>
      0 !in portal && BindFits(m) && Short(WireBind(portal, m, trailer)) && ShortRows(rows)
    case Other(kind, payload) => NoStatement(kind) && Short(payload)
  }

  ghost predicate AllSayable(us: seq<Utterance>) {
    forall i :: 0 <= i < |us| ==> Sayable(us[i])
  }

  function Typed(kind: Byte, payload: Bytes): Message
    requires Short(payload)
  {
    Message(kind, 4 + |payload|, payload)
  }

  function PartMessage(p: Part): Message
    requires ShortPart(p)
  {
    match p case Row(data) => Typed('d' as int, data) case Aside(kind, payload) => Typed(kind, payload)
  }

  function PartMessages(parts: seq<Part>): seq<Message>
    requires forall i :: 0 <= i < |parts| ==> ShortPart(parts[i])
  {
    if parts == [] then [] else [PartMessage(parts[0])] + PartMessages(parts[1..])
  }

  function Data(parts: seq<Part>): seq<Bytes> {
    if parts == [] then [] else (if parts[0].Row? then [parts[0].data] else []) + Data(parts[1..])
  }

  function Ending(r: Rows): Message
    requires Short(r.reason)
  {
    Typed(if r.done then 'c' as int else 'f' as int, r.reason)
  }

  function RowMessages(r: Option<Rows>): seq<Message>
    requires ShortRows(r)
  {
    if r.None? then [] else PartMessages(r.value.parts) + [Ending(r.value)]
  }

  /** The message an utterance begins with. */
  ghost function First(u: Utterance): Message
    requires Sayable(u)
  {
    match u
    case Simple(sql, _) => Typed('Q' as int, sql + [0])
    case Prepare(m) => Typed('P' as int, WireParse(m))
    case Bound(portal, m, trailer, _) => Typed('B' as int, WireBind(portal, m, trailer))
    case Other(kind, payload) => Typed(kind, payload)
  }

  function RowsOf(u: Utterance): Option<Rows> {
    if u.Simple? || u.Bound? then u.rows else None
  }

  lemma RowsAreShort(u: Utterance)
    requires Sayable(u)
    ensures ShortRows(RowsOf(u))
  {
  }

  ghost function Messages(u: Utterance): seq<Message>
    requires Sayable(u)
  {
    RowsAreShort(u);
    [First(u)] + RowMessages(RowsOf(u))
  }

  ghost function Wired(us: seq<Utterance>): seq<Message>
    requires AllSayable(us)
  {
    if us == [] then [] else Messages(us[0]) + Wired(us[1..])
  }

  // ----- What is captured ------------------------------------------------------------------------

  type Stmts = map<Bytes, ParseInfo>

  /** The COPY that is open, with every row since it was opened. */
  type Open = Option<(Bytes, seq<Bytes>)>

  datatype Outcome = Outcome(stmts: Stmts, open: Open, contents: seq<Content>)

  predicate Forgets(cfg: Config, sql: Bytes) {
    cfg.pooler && cfg.classify(sql).ClassUtility? && cfg.isReset(sql)
  }

  /** A statement goes out; it may be a pooler reset. */
  function Goes(cfg: Config, stmts: Stmts, open: Open, c: Content): Outcome {
    if Forgets(cfg, c.sql) then Outcome(map[], None, [c]) else Outcome(stmts, open, [c])
  }

  function Learned(cfg: Config, stmts: Stmts, m: ParseMessage): Stmts {
    if cfg.extendedQuery && |m.sql| <= cfg.maxSql then stmts[m.stmt := ParseInfo(m.sql, m.oids)] else stmts
  }

  function BoundContent(info: ParseInfo, m: BindMessage): Content {
    Content(info.sql, m.stmt, Zip(info.oids, m.formats, m.values), [], true)
  }

  /** The first message: a simple query of the COPY class opens a COPY instead of going out. */
  function Begins(cfg: Config, stmts: Stmts, open: Open, u: Utterance): Outcome {
    match u
    case Simple(sql, _) =>
      if |sql| > cfg.maxSql then Outcome(stmts, open, [])
      else if cfg.classify(sql).ClassCopyFrom? then Outcome(stmts, Some((sql, [])), [])
      else Goes(cfg, stmts, open, Content(sql, [], [], [], false))
    case Prepare(m) => Outcome(Learned(cfg, stmts, m), open, [])
    case Bound(_, m, _, _) =>
      if m.stmt !in stmts then Outcome(stmts, open, []) else Goes(cfg, stmts, open, BoundContent(stmts[m.stmt], m))
    case Other(_, _) => Outcome(stmts, open, [])
  }

  /** The rows go to the COPY that is open, whichever statement they followed; the ending closes it. */
  function Ends(cfg: Config, stmts: Stmts, open: Open, r: Option<Rows>): Outcome {
    if r.None? then Outcome(stmts, open, [])
    else if open.None? || !r.value.done then Outcome(stmts, None, [])
    else
      var data := open.value.1 + Data(r.value.parts);
      if Total(data) > cfg.copyCap then Outcome(stmts, None, [])
      else Goes(cfg, stmts, None, Content(open.value.0, [], [], data, false))
  }

  function Captures(cfg: Config, stmts: Stmts, open: Open, u: Utterance): Outcome {
    var a := Begins(cfg, stmts, open, u);
    var b := Ends(cfg, a.stmts, a.open, RowsOf(u));
    b.(contents := a.contents + b.contents)
  }

  /** What is captured of a session. */
  function Captured(cfg: Config, stmts: Stmts, open: Open, us: seq<Utterance>): seq<Content>
    decreases |us|
  {
    if us == [] then [] else
      var o := Captures(cfg, stmts, open, us[0]);
      o.contents + Captured(cfg, o.stmts, o.open, us[1..])
  }

  // ----- The processor captures that -------------------------------------------------------------

  /** The buffer of the processor holds the open COPY, or has given up on it. */
  predicate Buffers(cap: nat, st: CopyState, open: Open) {
    match st
    case NoCopy => open.None?
    case Copying(sql, data, size) => open == Some((sql, data)) && size == Total(data) <= cap
    case Overflowed(sql) => open.Some? && Total(open.value.1) > cap
  }

  function More(open: Open, data: seq<Bytes>): Open {
    if open.None? then None else Some((open.value.0, open.value.1 + data))
  }

  lemma AddOne(cap: nat, st: CopyState, open: Open, p: Bytes)
    requires Buffers(cap, st, open)
    ensures Buffers(cap, AddSegment(cap, st, p), More(open, [p]))
  {
    if open.Some? { TotalSnoc(open.value.1, p); }
  }

  lemma OtherSaysNothing(cfg: Config, kept: Kept, m: Message)
    requires NoStatement(m.kind) || m.kind == 0
    ensures Hear(cfg, kept, m) == Said(kept, [])
  {
  }

  lemma HearPart(cfg: Config, kept: Kept, open: Open, p: Part)
    requires ShortPart(p) && Buffers(cfg.copyCap, kept.copy, open)
    ensures var s := Hear(cfg, kept, PartMessage(p));
      && s.contents == [] && s.kept.stmts == kept.stmts
      && Buffers(cfg.copyCap, s.kept.copy, More(open, Data([p])))
  {
    hide Buffers, AddSegment;
    assert [p][1..] == [];
    if p.Row? {
      AddOne(cfg.copyCap, kept.copy, open, p.data);
      assert Data([p]) == [p.data] + [] == [p.data];
    } else {
      OtherSaysNothing(cfg, kept, PartMessage(p));
      assert Data([p]) == [];
      if open.Some? { assert open.value.1 + [] == open.value.1; }
    }
  }

  lemma {:induction false} HearParts(cfg: Config, kept: Kept, open: Open, parts: seq<Part>)
    requires Buffers(cfg.copyCap, kept.copy, open) && forall i :: 0 <= i < |parts| ==> ShortPart(parts[i])
    ensures var s := HearAll(cfg, kept, PartMessages(parts));
      && s.contents == [] && s.kept.stmts == kept.stmts
      && Buffers(cfg.copyCap, s.kept.copy, More(open, Data(parts)))
    decreases |parts|
  {
    hide Hear, HearAll, Buffers, Data, PartMessage, More;
    if parts == [] {
      NothingHeard(cfg, kept);
      MoreNothing(open);
    } else {
      var p, rest := parts[0], parts[1..];
      var s := Hear(cfg, kept, PartMessage(p));
      HearPart(cfg, kept, open, p);
      HearParts(cfg, s.kept, More(open, Data([p])), rest);
      HearConcat(cfg, kept, [PartMessage(p)], PartMessages(rest));
      HearOne(cfg, kept, PartMessage(p));
      DataStep(p, rest);
      assert parts == [p] + rest;
      MoreTwice(open, Data([p]), Data(rest));
    }
  }

  lemma MoreNothing(open: Open)
    ensures More(open, Data([])) == open
  {
    if open.Some? { assert open.value.1 + [] == open.value.1; }
  }

  lemma MoreTwice(open: Open, a: seq<Bytes>, b: seq<Bytes>)
    ensures More(More(open, a), b) == More(open, a + b)
  {
    if open.Some? { assert open.value.1 + a + b == open.value.1 + (a + b); }
  }

  lemma DataStep(p: Part, parts: seq<Part>)
    ensures Data([p] + parts) == Data([p]) + Data(parts)
  {
    assert ([p] + parts)[1..] == parts && [p][1..] == [];
  }

  lemma QueryText(sql: Bytes)
    ensures ExtractSimpleQuerySql(sql + [0]) == sql
  {
    assert (sql + [0])[..|sql|] == sql;
  }

  lemma HearOne(cfg: Config, kept: Kept, m: Message)
    ensures HearAll(cfg, kept, [m]) == Hear(cfg, kept, m)
  {
    hide Hear;
    assert [m][1..] == [];
    NothingHeard(cfg, Hear(cfg, kept, m).kept);
  }

  /** The state and the contents of a hearing are those of an outcome. */
  predicate Matches(cfg: Config, s: Said, o: Outcome) {
    s.kept.stmts == o.stmts && Buffers(cfg.copyCap, s.kept.copy, o.open) && s.contents == o.contents
  }

  lemma GoesMatches(cfg: Config, kept: Kept, open: Open, c: Content)
    requires Buffers(cfg.copyCap, kept.copy, open)
    ensures Matches(cfg, Dispatched(cfg, kept, c), Goes(cfg, kept.stmts, open, c))
  {
  }

  lemma HearFirst(cfg: Config, kept: Kept, open: Open, u: Utterance)
    requires Sayable(u) && Buffers(cfg.copyCap, kept.copy, open)
    ensures Matches(cfg, Hear(cfg, kept, First(u)), Begins(cfg, kept.stmts, open, u))
  {
    hide Buffers, Goes, Dispatched, WireBind, WireParse, DecodeBind, DecodeParse, Zip, BindFits;
    match u
    case Simple(sql, _) =>
      QueryText(sql);
      GoesMatches(cfg, kept, open, Content(sql, [], [], [], false));
      Opened(cfg.copyCap, sql);
    case Prepare(m) =>
      ParseRoundTrip(m);
    case Bound(portal, m, trailer, _) =>
      BindRoundTrip(portal, m, trailer);
      if m.stmt in kept.stmts { GoesMatches(cfg, kept, open, BoundContent(kept.stmts[m.stmt], m)); }
    case Other(_, _) =>
      OtherSaysNothing(cfg, kept, First(u));
  }

  lemma Opened(cap: nat, sql: Bytes)
    ensures Buffers(cap, Copying(sql, [], 0), Some((sql, [])))
  {
  }

  lemma HearEnding(cfg: Config, kept: Kept, open: Open, r: Rows)
    requires Short(r.reason) && Buffers(cfg.copyCap, kept.copy, open)
    ensures var o := if open.None? || !r.done || Total(open.value.1) > cfg.copyCap then Outcome(kept.stmts, None, [])
                     else Goes(cfg, kept.stmts, None, Content(open.value.0, [], [], open.value.1, false));
      Matches(cfg, Hear(cfg, kept, Ending(r)), o)
  {
  }

  lemma HearRows(cfg: Config, kept: Kept, open: Open, r: Option<Rows>)
    requires ShortRows(r) && Buffers(cfg.copyCap, kept.copy, open)
    ensures Matches(cfg, HearAll(cfg, kept, RowMessages(r)), Ends(cfg, kept.stmts, open, r))
  {
    hide Buffers, HearAll, Hear, Goes, PartMessages, Total;
    if r.None? {
      NothingHeard(cfg, kept);
    } else {
      var ps, e := PartMessages(r.value.parts), Ending(r.value);
      HearParts(cfg, kept, open, r.value.parts);
      var k := HearAll(cfg, kept, ps).kept;
      HearEnding(cfg, k, More(open, Data(r.value.parts)), r.value);
      HearOne(cfg, k, e);
      HearConcat(cfg, kept, ps, [e]);
      Nothing(HearAll(cfg, k, [e]).contents);
    }
  }

  lemma Nothing(cs: seq<Content>)
    ensures [] + cs == cs
  {
  }

  lemma HearUtterance(cfg: Config, kept: Kept, open: Open, u: Utterance)
    requires Sayable(u) && Buffers(cfg.copyCap, kept.copy, open)
    ensures Matches(cfg, HearAll(cfg, kept, Messages(u)), Captures(cfg, kept.stmts, open, u))
  {
    hide Buffers, HearAll, Hear, First, RowMessages, Begins, Ends, Sayable;
    RowsAreShort(u);
    var m, a := First(u), Begins(cfg, kept.stmts, open, u);
    HearFirst(cfg, kept, open, u);
    HearOne(cfg, kept, m);
    HearRows(cfg, Hear(cfg, kept, m).kept, a.open, RowsOf(u));
    HearConcat(cfg, kept, [m], RowMessages(RowsOf(u)));
  }

  /** Of every session, the processor captures what `Captured` says, whatever COPY was open before. */
  lemma {:induction false} HearSession(cfg: Config, kept: Kept, open: Open, us: seq<Utterance>)
    requires AllSayable(us) && Buffers(cfg.copyCap, kept.copy, open)
    ensures HearAll(cfg, kept, Wired(us)).contents == Captured(cfg, kept.stmts, open, us)
    decreases |us|
  {
    hide Buffers, HearAll, Messages, Sayable, Captures;
    if us == [] {
      NothingHeard(cfg, kept);
    } else {
      var s := HearAll(cfg, kept, Messages(us[0]));
      var o := Captures(cfg, kept.stmts, open, us[0]);
      HearUtterance(cfg, kept, open, us[0]);
      HearSession(cfg, s.kept, o.open, us[1..]);
      HearConcat(cfg, kept, Messages(us[0]), Wired(us[1..]));
    }
  }

  // ----- What was said -----------------------------------------------------------------------------

  /** A statement with its rows: nothing if they were given up or exceed the cap. */
  function Whole(cfg: Config, c: Content, r: Option<Rows>): seq<Content> {
    if r.None? then [c]
    else if !r.value.done || Total(Data(r.value.parts)) > cfg.copyCap then []
    else [c.(copyData := Data(r.value.parts))]
  }

  /** What an utterance says: its statement with the rows that follow it, whatever its class. Over-long
      texts and unknown statement names say nothing. */
  function Means(cfg: Config, stmts: Stmts, u: Utterance): seq<Content> {
    match u
    case Simple(sql, rows) => if |sql| > cfg.maxSql then [] else Whole(cfg, Content(sql, [], [], [], false), rows)
    case Bound(_, m, _, rows) => if m.stmt !in stmts then [] else Whole(cfg, BoundContent(stmts[m.stmt], m), rows)
    case _ => []
  }

  /** The prepared statements known afterwards. */
  function Knows(cfg: Config, stmts: Stmts, u: Utterance): Stmts {
    match u
    case Simple(sql, _) => if |sql| <= cfg.maxSql && Forgets(cfg, sql) then map[] else stmts
    case Bound(_, m, _, _) => if m.stmt in stmts && Forgets(cfg, stmts[m.stmt].sql) then map[] else stmts
    case Prepare(m) => Learned(cfg, stmts, m)
    case Other(_, _) => stmts
  }

  function Meant(cfg: Config, stmts: Stmts, us: seq<Utterance>): seq<Content>
    decreases |us|
  {
    if us == [] then [] else Means(cfg, stmts, us[0]) + Meant(cfg, Knows(cfg, stmts, us[0]), us[1..])
  }

  predicate Empty(r: Rows) { r.done && Data(r.parts) == [] }

  /** Where the two part: a simple query of the COPY class without rows, such as a COPY from a file or one
      that the server rejects; or rows after any other statement, such as a batch that only ends in a COPY
      or a bound COPY. */
  predicate Offends(cfg: Config, stmts: Stmts, u: Utterance) {
    match u
    case Simple(sql, rows) =>
      && |sql| <= cfg.maxSql
      && (if rows.None? then cfg.classify(sql).ClassCopyFrom?
          else !cfg.classify(sql).ClassCopyFrom? && !Empty(rows.value))
    case Bound(_, m, _, rows) => m.stmt in stmts && rows.Some? && !Empty(rows.value)
    case _ => false
  }

  predicate Clean(cfg: Config, stmts: Stmts, us: seq<Utterance>)
    decreases |us|
  {
    us == [] || (!Offends(cfg, stmts, us[0]) && Clean(cfg, Knows(cfg, stmts, us[0]), us[1..]))
  }

  lemma NoTotal()
    ensures Total([]) == 0
  {
  }

  /** One utterance, with no COPY open. */
  lemma MeansIff(cfg: Config, stmts: Stmts, u: Utterance)
    ensures var o := Captures(cfg, stmts, None, u);
      && (o.contents == Means(cfg, stmts, u) <==> !Offends(cfg, stmts, u))
      && (!Offends(cfg, stmts, u) ==> o.open.None? && o.stmts == Knows(cfg, stmts, u))
  {
    hide Total, Data, Zip;
    NoTotal();
    var r := RowsOf(u);
    if r.Some? { assert [] + Data(r.value.parts) == Data(r.value.parts); }
    var a := Begins(cfg, stmts, None, u);
    var b := Ends(cfg, a.stmts, a.open, r);
    assert a.contents + [] == a.contents && [] + b.contents == b.contents;
    if u.Simple? && |u.sql| <= cfg.maxSql {
      WholeIff(cfg, Content(u.sql, [], [], [], false), r);
    } else if u.Bound? && u.bind.stmt in stmts {
      WholeIff(cfg, BoundContent(stmts[u.bind.stmt], u.bind), r);
    }
  }

  /** A statement captured on its own is the whole exactly if it has no rows. */
  lemma WholeIff(cfg: Config, c: Content, r: Option<Rows>)
    requires c.copyData == []
    ensures Whole(cfg, c, r) == [c] <==> r.None? || Empty(r.value)
  {
    hide Total, Data;
    NoTotal();
    if r.Some? && Whole(cfg, c, r) == [c] { assert Whole(cfg, c, r)[0] == c; }
  }

  lemma {:induction false} CleanIsCaptured(cfg: Config, stmts: Stmts, us: seq<Utterance>)
    requires Clean(cfg, stmts, us)
    ensures Captured(cfg, stmts, None, us) == Meant(cfg, stmts, us)
    decreases |us|
  {
    hide Captures, Means, Offends, Knows;
    if us != [] {
      MeansIff(cfg, stmts, us[0]);
      CleanIsCaptured(cfg, Knows(cfg, stmts, us[0]), us[1..]);
    }
  }

  /** What has been captured is what has been said, at every point of the session. */
  ghost predicate AlwaysCaptured(cfg: Config, stmts: Stmts, us: seq<Utterance>) {
    forall n :: 0 <= n <= |us| ==> Captured(cfg, stmts, None, us[..n]) == Meant(cfg, stmts, us[..n])
  }

  lemma {:induction false} CleanPrefix(cfg: Config, stmts: Stmts, us: seq<Utterance>, n: nat)
    requires n <= |us| && Clean(cfg, stmts, us)
    ensures Clean(cfg, stmts, us[..n])
    decreases |us|
  {
    hide Offends, Knows;
    if n > 0 {
      CleanPrefix(cfg, Knows(cfg, stmts, us[0]), us[1..], n - 1);
      assert us[..n][1..] == us[1..][..n - 1];
    }
  }

  /** Up to and including the first offending utterance. */
  lemma {:induction false} FirstOffence(cfg: Config, stmts: Stmts, us: seq<Utterance>) returns (n: nat)
    requires !Clean(cfg, stmts, us)
    ensures n <= |us| && Captured(cfg, stmts, None, us[..n]) != Meant(cfg, stmts, us[..n])
    decreases |us|
  {
    hide Captures, Means, Offends, Knows;
    MeansIff(cfg, stmts, us[0]);
    var o, m := Captures(cfg, stmts, None, us[0]), Means(cfg, stmts, us[0]);
    if Offends(cfg, stmts, us[0]) {
      n := 1;
      assert us[..1][1..] == [];
      assert o.contents + [] == o.contents && m + [] == m;
    } else {
      var k := FirstOffence(cfg, Knows(cfg, stmts, us[0]), us[1..]);
      n := k + 1;
      assert us[..n][1..] == us[1..][..k];
      var a, b := Captured(cfg, o.stmts, None, us[1..][..k]), Meant(cfg, o.stmts, us[1..][..k]);
      assert a == (m + a)[|m|..] && b == (m + b)[|m|..];
    }
  }

  /**
   The exact condition: what is captured is what was said, at every point of a session, if and only if no
   utterance offends: rows follow exactly the simple queries of the COPY class.
   */
  lemma CapturedIff(cfg: Config, stmts: Stmts, us: seq<Utterance>)
    ensures AlwaysCaptured(cfg, stmts, us) <==> Clean(cfg, stmts, us)
  {
    hide Captured, Meant, Clean;
    if Clean(cfg, stmts, us) {
      forall n | 0 <= n <= |us| ensures Captured(cfg, stmts, None, us[..n]) == Meant(cfg, stmts, us[..n]) {
        CleanPrefix(cfg, stmts, us, n);
        CleanIsCaptured(cfg, stmts, us[..n]);
      }
    } else {
      var n := FirstOffence(cfg, stmts, us);
    }
  }

  // ----- Instances -----------------------------------------------------------------------------------

  lemma TwoUtterances(cfg: Config, stmts: Stmts, u: Utterance, v: Utterance)
    ensures var o := Captures(cfg, stmts, None, u);
      Captured(cfg, stmts, None, [u, v]) == o.contents + Captures(cfg, o.stmts, o.open, v).contents
    ensures Meant(cfg, stmts, [u, v]) == Means(cfg, stmts, u) + Means(cfg, Knows(cfg, stmts, u), v)
    ensures Clean(cfg, stmts, [u, v]) ==> !Offends(cfg, stmts, u)
  {
    hide Captures, Means, Knows, Offends;
    assert [u, v][1..] == [v] && [v][1..] == [];
    var o := Captures(cfg, stmts, None, u);
    var p := Captures(cfg, o.stmts, o.open, v);
    assert Captured(cfg, o.stmts, o.open, [v]) == p.contents + Captured(cfg, p.stmts, p.open, []) == p.contents;
    var k := Knows(cfg, stmts, u);
    assert Meant(cfg, k, [v]) == Means(cfg, k, v) + Meant(cfg, Knows(cfg, k, v), []) == Means(cfg, k, v);
  }

  predicate Opens(cfg: Config, sql: Bytes) { |sql| <= cfg.maxSql && cfg.classify(sql).ClassCopyFrom? }

  predicate GoesOut(cfg: Config, sql: Bytes) {
    |sql| <= cfg.maxSql && !cfg.classify(sql).ClassCopyFrom? && !Forgets(cfg, sql)
  }

  /** A COPY from a file: it is never captured. */
  lemma FileCopyIsLost(cfg: Config, copy: Bytes, other: Bytes)
    requires Opens(cfg, copy) && GoesOut(cfg, other)
    ensures Captured(cfg, map[], None, [Simple(copy, None), Simple(other, None)])
         == [Content(other, [], [], [], false)]
  {
    TwoUtterances(cfg, map[], Simple(copy, None), Simple(other, None));
  }

  /** A batch that is not of the COPY class and ends in a COPY: its rows are lost. */
  lemma BatchLosesRows(cfg: Config, batch: Bytes, rows: Rows)
    requires GoesOut(cfg, batch)
    ensures Captured(cfg, map[], None, [Simple(batch, Some(rows))]) == [Content(batch, [], [], [], false)]
  {
    var us := [Simple(batch, Some(rows))];
    assert us[1..] == [];
  }

  /** A COPY from a file and then a bound COPY: the rows of the second are captured under the first. */
  lemma RowsUnderWrongCopy(cfg: Config, copy: Bytes, portal: Bytes, m: BindMessage, trailer: Bytes, rows: Rows,
      stmts: Stmts)
    requires Opens(cfg, copy) && m.stmt in stmts && GoesOut(cfg, stmts[m.stmt].sql)
    requires rows.done && Total(Data(rows.parts)) <= cfg.copyCap
    ensures Captured(cfg, stmts, None, [Simple(copy, None), Bound(portal, m, trailer, Some(rows))])
         == [BoundContent(stmts[m.stmt], m), Content(copy, [], [], Data(rows.parts), false)]
  {
    hide Total, Data, Zip;
    TwoUtterances(cfg, stmts, Simple(copy, None), Bound(portal, m, trailer, Some(rows)));
    assert [] + Data(rows.parts) == Data(rows.parts);
  }

  /** Two offences that cancel out in the end: the ending of rows that follow an over-long text completes
      the COPY from a file. */
  lemma OffencesCanCancel(cfg: Config, copy: Bytes, long: Bytes, rows: Rows)
    requires Opens(cfg, copy) && |long| > cfg.maxSql && Empty(rows)
    ensures var us := [Simple(copy, None), Simple(long, Some(rows))];
      !Clean(cfg, map[], us) && Captured(cfg, map[], None, us) == Meant(cfg, map[], us)
  {
    hide Total, Data;
    NoTotal();
    TwoUtterances(cfg, map[], Simple(copy, None), Simple(long, Some(rows)));
    assert [] + Data(rows.parts) == [];
  }

  // ----- From the bytes --------------------------------------------------------------------------------

  /** Requests for encryption and cancellations, after which the client still starts a connection. */
  predicate AreRequests(ps: seq<Bytes>) {
    && (forall i :: 0 <= i < |ps| ==> Short(ps[i]))
    && (forall i :: 0 <= i < |ps| ==> !TransitionToTyped(Typed(0, ps[i])))
  }

  /** The untyped message that opens a connection. */
  predicate IsStartup(payload: Bytes) {
    Short(payload) && TransitionToTyped(Typed(0, payload))
  }

  function Packet(payload: Bytes): Bytes
    requires Short(payload)
  {
    Be32(4 + |payload|) + payload
  }

  function Packets(ps: seq<Bytes>): Bytes
    requires forall i :: 0 <= i < |ps| ==> Short(ps[i])
  {
    if ps == [] then [] else Packet(ps[0]) + Packets(ps[1..])
  }

  function Untyped(ps: seq<Bytes>): seq<Message>
    requires forall i :: 0 <= i < |ps| ==> Short(ps[i])
  {
    if ps == [] then [] else [Typed(0, ps[0])] + Untyped(ps[1..])
  }

  lemma GreedyPacket(payload: Bytes, rest: Bytes)
    requires Short(payload)
    ensures var m := Typed(0, payload);
      Greedy(true, Packet(payload) + rest).msgs == [m] + Greedy(NextPhase(true, m), rest).msgs
  {
    hide TransitionToTyped, Be32, FromBe32;
    var s, n := Packet(payload) + rest, 4 + |payload|;
    assert s[0..4] == Be32(n) && s[4..n] == payload && s[n..] == rest;
    assert FrameOne(true, s) == Framed(Typed(0, payload), n);
    GreedyStep(true, s);
  }

  lemma {:induction false} GreedyOpening(requests: seq<Bytes>, payload: Bytes, ms: seq<Message>)
    requires IsStartup(payload) && AreRequests(requests)
    requires forall m :: m in ms ==> m.length as int == 4 + |m.payload| <= MAX_FRAME_LENGTH
    ensures Greedy(true, Packets(requests) + (Packet(payload) + Wire(ms))).msgs
         == Untyped(requests) + ([Typed(0, payload)] + ms)
    decreases |requests|
  {
    hide Greedy, Packet, Wire, TransitionToTyped;
    var rest := Packet(payload) + Wire(ms);
    if requests == [] {
      assert Packets(requests) + rest == rest;
      GreedyPacket(payload, Wire(ms));
      GreedyOfWire(ms);
      assert Untyped(requests) + ([Typed(0, payload)] + ms) == [Typed(0, payload)] + ms;
    } else {
      var more := Packets(requests[1..]) + rest;
      GreedyOpening(requests[1..], payload, ms);
      GreedyPacket(requests[0], more);
      assert Packets(requests) + rest == Packet(requests[0]) + more;
      assert [Typed(0, requests[0])] + (Untyped(requests[1..]) + ([Typed(0, payload)] + ms))
          == Untyped(requests) + ([Typed(0, payload)] + ms);
    }
  }

  lemma {:induction false} HearUntyped(cfg: Config, kept: Kept, ps: seq<Bytes>)
    requires forall i :: 0 <= i < |ps| ==> Short(ps[i])
    ensures HearAll(cfg, kept, Untyped(ps)) == Said(kept, [])
    decreases |ps|
  {
    if ps != [] {
      OtherSaysNothing(cfg, kept, Typed(0, ps[0]));
      assert Untyped(ps)[1..] == Untyped(ps[1..]);
      HearUntyped(cfg, kept, ps[1..]);
    }
  }

  predicate InLimit(m: Message) { m.length as int == 4 + |m.payload| <= MAX_FRAME_LENGTH }

  lemma {:induction false} PartsShort(parts: seq<Part>)
    requires forall i :: 0 <= i < |parts| ==> ShortPart(parts[i])
    ensures forall m :: m in PartMessages(parts) ==> InLimit(m)
  {
    if parts != [] { PartsShort(parts[1..]); }
  }

  lemma MessagesShort(u: Utterance)
    requires Sayable(u)
    ensures forall m :: m in Messages(u) ==> InLimit(m)
  {
    hide WireBind, WireParse, PartMessages;
    var r := RowsOf(u);
    if r.Some? { PartsShort(r.value.parts); }
  }

  lemma {:induction false} WiredShort(us: seq<Utterance>)
    requires AllSayable(us)
    ensures forall m :: m in Wired(us) ==> InLimit(m)
    decreases |us|
  {
    hide Messages, Sayable, InLimit;
    if us != [] {
      MessagesShort(us[0]);
      WiredShort(us[1..]);
    }
  }

  lemma {:induction false} UntypedShort(ps: seq<Bytes>)
    requires forall i :: 0 <= i < |ps| ==> Short(ps[i])
    ensures forall m :: m in Untyped(ps) ==> InLimit(m)
  {
    if ps != [] { UntypedShort(ps[1..]); }
  }

  /** What a client sends on a connection that it keeps open. */
  ghost function Sent(requests: seq<Bytes>, payload: Bytes, us: seq<Utterance>): Bytes
    requires IsStartup(payload) && AreRequests(requests) && AllSayable(us)
  {
    Packets(requests) + (Packet(payload) + Wire(Wired(us)))
  }

  /**
   End to end: whenever the bytes a run delivers for a client are any requests for encryption, a startup
   packet and a session, cut, timed and interleaved in any way, the statements captured of it are those of
   `Captured`, in order; and if no utterance offends they are what the client said.
   */
  lemma SessionIsCaptured(cfg: Config, c: ConnId, calls: seq<Call>, requests: seq<Bytes>, payload: Bytes,
      us: seq<Utterance>)
    requires forall call :: call in calls && call.conn == c ==> call.OnBytes?
    requires IsStartup(payload) && AreRequests(requests) && AllSayable(us)
    requires Concat(ClientChunks(c, calls)) == Sent(requests, payload, us)
    ensures Contents(Of(c, Log(cfg, Fresh(), calls))) == Captured(cfg, map[], None, us)
    ensures Clean(cfg, map[], us) ==> Contents(Of(c, Log(cfg, Fresh(), calls))) == Meant(cfg, map[], us)
  {
    hide Log, Of, Contents, Greedy, Wire, Captured, Meant, Clean, Hear, HearAll, Packet, Packets, Untyped,
      Sayable, Wired, Within;
    var ms, m := Wired(us), Typed(0, payload);
    WiredShort(us);
    assert forall x :: x in ms ==> InLimit(x);
    GreedyOpening(requests, payload, ms);
    UntypedShort(requests);
    WithinLimit(Untyped(requests), m, ms);
    CapturedFromBytes(cfg, c, calls);
    HearUntyped(cfg, NOTHING_KEPT, requests);
    HearConcat(cfg, NOTHING_KEPT, Untyped(requests), [m] + ms);
    HearConcat(cfg, NOTHING_KEPT, [m], ms);
    HearOne(cfg, NOTHING_KEPT, m);
    OtherSaysNothing(cfg, NOTHING_KEPT, m);
    HearSession(cfg, NOTHING_KEPT, None, us);
    Nothing(Captured(cfg, map[], None, us));
    Nothing([] + Captured(cfg, map[], None, us));
    if Clean(cfg, map[], us) { CleanIsCaptured(cfg, map[], us); }
  }

  lemma WithinLimit(a: seq<Message>, m: Message, b: seq<Message>)
    requires InLimit(m) && (forall x :: x in a ==> InLimit(x)) && forall x :: x in b ==> InLimit(x)
    ensures Within(a + ([m] + b))
  {
  }
}
