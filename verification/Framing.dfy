/**
 Wire-protocol framing (pkg/protocol/framing.go): from a byte stream cut into arbitrary chunks
 to messages. `Greedy` is the meaning of a stream; `StreamParser` is the incremental parser.
 The main result is `ChunkInvariance`.
 */
module Framing {
  import opened Core

  const MAX_FRAME_LENGTH: nat := 0x1000_0000
  const MAX_STALLED_BUFFER: nat := 0x10_0000
  const CANCEL_REQUEST := 80877102
  const SSL_REQUEST := 80877103
  const GSS_ENC_REQUEST := 80877104

  datatype Frame = Need | Bad | Framed(msg: Message, consumed: nat)

  /** One typed message: type byte, length that counts itself, payload. */
  function FrameTyped(buf: Bytes): Frame {
    if |buf| < 5 then Need else
      var length := FromBe32(buf[1..5]);
      if length < 4 || length > MAX_FRAME_LENGTH then Bad
      else if |buf| < 1 + length as int then Need
      else Framed(Message(buf[0], length, buf[5..1 + length as int]), 1 + length as int)
  }

  /** One untyped startup-phase message. */
  function FrameStartup(buf: Bytes): Frame {
    if |buf| < 4 then Need else
      var length := FromBe32(buf[0..4]);
      if length < 4 then Bad
      else if |buf| < length then Need
      else Framed(Message(0, length, buf[4..length]), length)
  }

  predicate TransitionToTyped(msg: Message) {
    |msg.payload| < 4 ||
    FromBe32(msg.payload[0..4]) !in {SSL_REQUEST, GSS_ENC_REQUEST, CANCEL_REQUEST}
  }

  function FrameOne(inStartup: bool, buf: Bytes): (f: Frame)
    ensures f.Framed? ==> 4 <= f.consumed <= |buf| && f.msg.length <= f.consumed
    ensures f.Framed? && f.msg.length > MAX_FRAME_LENGTH ==> inStartup
  {
    if inStartup then FrameStartup(buf) else FrameTyped(buf)
  }

  function NextPhase(inStartup: bool, msg: Message): bool {
    inStartup && !TransitionToTyped(msg)
  }

  /** The frames of a whole stream: all of them, up to the first bad header. */
  datatype Parse = Parse(msgs: seq<Message>, inStartup: bool, rest: Bytes, bad: bool)

  function Greedy(inStartup: bool, buf: Bytes): Parse
    decreases |buf|
  {
    match FrameOne(inStartup, buf)
    case Need => Parse([], inStartup, buf, false)
    case Bad => Parse([], inStartup, buf, true)
    case Framed(m, n) =>
      var p := Greedy(NextPhase(inStartup, m), buf[n..]);
      p.(msgs := [m] + p.msgs)
  }

  predicate ValidPendingFrame(inStartup: bool, buf: Bytes) {
    if inStartup then |buf| >= 4 && 4 <= FromBe32(buf[0..4]) <= MAX_FRAME_LENGTH
    else |buf| >= 5 && 4 <= FromBe32(buf[1..5]) <= MAX_FRAME_LENGTH
  }

  datatype ParserState = ParserState(inStartup: bool, buf: Bytes, stalled: bool)

  datatype Fed = Fed(state: ParserState, msgs: seq<Message>, err: bool)

  function NewParser(fromClient: bool): ParserState { ParserState(fromClient, [], false) }

  /** What one Feed call does. */
  function FeedStep(p: ParserState, data: Bytes): Fed {
    if p.stalled then Fed(p, [], false) else
      var g := Greedy(p.inStartup, p.buf + data);
      if g.bad then Fed(ParserState(g.inStartup, g.rest, false), g.msgs, true)
      else if g.msgs == [] && |g.rest| > MAX_STALLED_BUFFER && !ValidPendingFrame(g.inStartup, g.rest)
      then Fed(ParserState(g.inStartup, [], true), [], false)
      else Fed(ParserState(g.inStartup, g.rest, false), g.msgs, false)
  }

  /** Everything a parser emits over a sequence of chunks. */
  function Emitted(p: ParserState, chunks: seq<Bytes>): seq<Message>
    decreases |chunks|
  {
    if chunks == [] then [] else
      var f := FeedStep(p, chunks[0]);
      f.msgs + Emitted(f.state, chunks[1..])
  }

  function ParserAfter(p: ParserState, chunks: seq<Bytes>): ParserState
    decreases |chunks|
  {
    if chunks == [] then p else ParserAfter(FeedStep(p, chunks[0]).state, chunks[1..])
  }

  function Concat(chunks: seq<Bytes>): Bytes {
    if chunks == [] then [] else chunks[0] + Concat(chunks[1..])
  }

  // ----- Greedy framing undoes the wire encoding ---------------------------------------

  /** The wire form of typed messages: type, length including itself, payload. */
  function Wire(ms: seq<Message>): Bytes {
    if ms == [] then [] else [ms[0].kind] + Be32(ms[0].length) + ms[0].payload + Wire(ms[1..])
  }

  lemma {:induction false} GreedyOfWire(ms: seq<Message>)
    requires forall m :: m in ms ==> m.length as int == 4 + |m.payload| <= MAX_FRAME_LENGTH
    ensures Greedy(false, Wire(ms)) == Parse(ms, false, [], false)
  {
    if ms != [] {
      var m, s := ms[0], Wire(ms);
      assert m in ms;
      assert s[1..5] == Be32(m.length) && s[5..1 + m.length as int] == m.payload;
      assert s[1 + m.length as int..] == Wire(ms[1..]);
      GreedyOfWire(ms[1..]);
      assert ms == [m] + ms[1..];
    }
  }

  // ----- Greedy framing is compositional --------------------------------------------

  lemma FrameOneExtends(inStartup: bool, a: Bytes, b: Bytes)
    ensures FrameOne(inStartup, a).Framed? ==> FrameOne(inStartup, a + b) == FrameOne(inStartup, a)
    ensures FrameOne(inStartup, a).Bad? ==> FrameOne(inStartup, a + b).Bad?
  {
    if |a| >= 4 { assert (a + b)[0..4] == a[0..4]; }
    if |a| >= 5 { assert (a + b)[1..5] == a[1..5]; }
    var f := FrameOne(inStartup, a);
    if f.Framed? {
      var lo := if inStartup then 4 else 5;
      assert (a + b)[lo..f.consumed] == a[lo..f.consumed];
    }
  }

  /** Parsing a longer stream resumes exactly where parsing the shorter one stopped. */
  lemma {:induction false} GreedyExtends(inStartup: bool, a: Bytes, b: Bytes)
    ensures var g := Greedy(inStartup, a);
      var h := Greedy(inStartup, a + b);
      if g.bad then h == Parse(g.msgs, g.inStartup, g.rest + b, true)
      else var k := Greedy(g.inStartup, g.rest + b);
           h == k.(msgs := g.msgs + k.msgs)
    decreases |a|
  {
    hide FrameOne;
    FrameOneExtends(inStartup, a, b);
    match FrameOne(inStartup, a) {
      case Need =>
        var k := Greedy(inStartup, a + b);
        assert [] + k.msgs == k.msgs;
      case Bad =>
      case Framed(m, n) =>
        var next := NextPhase(inStartup, m);
        assert (a + b)[n..] == a[n..] + b;
        GreedyExtends(next, a[n..], b);
        var g := Greedy(next, a[n..]);
        if !g.bad {
          var k := Greedy(g.inStartup, g.rest + b);
          assert [m] + (g.msgs + k.msgs) == ([m] + g.msgs) + k.msgs;
        }
    }
  }

  /** Where parsing stops there is nothing left to frame. */
  lemma {:induction false} GreedyStops(inStartup: bool, a: Bytes)
    ensures var g := Greedy(inStartup, a);
      FrameOne(g.inStartup, g.rest) == if g.bad then Bad else Need
    ensures !inStartup ==> !Greedy(inStartup, a).inStartup
    decreases |a|
  {
    match FrameOne(inStartup, a) {
      case Need =>
      case Bad =>
      case Framed(m, n) => GreedyStops(NextPhase(inStartup, m), a[n..]);
    }
  }

  // ----- What every stream consists of ----------------------------------------------

  /** A request for encryption or cancellation; any other startup message is the last one. */
  predicate Asks(m: Message) {
    |m.payload| >= 4 && FromBe32(m.payload[0..4]) in {80877102, 80877103, 80877104}
  }

  /** The bytes of messages, the first ones without a type byte if the stream is in its startup phase. */
  function Flat(inStartup: bool, ms: seq<Message>): Bytes {
    if ms == [] then []
    else (if inStartup then [] else [ms[0].kind]) + Be32(ms[0].length) + ms[0].payload
         + Flat(inStartup && Asks(ms[0]), ms[1..])
  }

  predicate WellMade(inStartup: bool, ms: seq<Message>) {
    ms == [] ||
    (&& ms[0].length as int == 4 + |ms[0].payload|
     && (if inStartup then ms[0].kind == 0 else ms[0].length <= 0x1000_0000)
     && WellMade(inStartup && Asks(ms[0]), ms[1..]))
  }

  /** What stands where parsing stops, after `skip` bytes of type: a length field that is too small, or
      in the typed phase too large; or less than a whole message. */
  predicate BadHeader(inStartup: bool, rest: Bytes) {
    var skip := if inStartup then 0 else 1;
    |rest| >= skip + 4 &&
    (FromBe32(rest[skip..skip + 4]) < 4 || (!inStartup && FromBe32(rest[skip..skip + 4]) > 0x1000_0000))
  }

  predicate Incomplete(inStartup: bool, rest: Bytes) {
    var skip := if inStartup then 0 else 1;
    |rest| < skip + 4 || (!BadHeader(inStartup, rest) && |rest| < skip + FromBe32(rest[skip..skip + 4]) as int)
  }

  /** Every stream is the bytes of its messages, then a bad header or an incomplete message. */
  lemma {:induction false} StreamIsMessages(inStartup: bool, buf: Bytes)
    ensures var g := Greedy(inStartup, buf);
      && buf == Flat(inStartup, g.msgs) + g.rest && WellMade(inStartup, g.msgs)
      && (if g.bad then BadHeader(g.inStartup, g.rest) else Incomplete(g.inStartup, g.rest))
      && (g.inStartup <==> inStartup && forall m :: m in g.msgs ==> Asks(m))
    decreases |buf|
  {
    hide FrameOne, BadHeader, Incomplete, Asks, Flat, WellMade, NextPhase;
    match FrameOne(inStartup, buf) {
      case Need =>
        StopsThere(inStartup, buf);
        NoMessages(inStartup, buf);
      case Bad =>
        StopsThere(inStartup, buf);
        NoMessages(inStartup, buf);
      case Framed(m, n) =>
        FramedBytes(inStartup, buf);
        var next := inStartup && Asks(m);
        StreamIsMessages(next, buf[n..]);
        var h := Greedy(next, buf[n..]);
        OneMessageMore(inStartup, buf[..n], m, h.msgs, h.rest);
        assert buf == buf[..n] + buf[n..];
    }
  }

  lemma NoMessages(inStartup: bool, buf: Bytes)
    ensures buf == Flat(inStartup, []) + buf && WellMade(inStartup, [])
  {
  }

  lemma OneMessageMore(inStartup: bool, b: Bytes, m: Message, ms: seq<Message>, rest: Bytes)
    requires b == (if inStartup then [] else [m.kind]) + Be32(m.length) + m.payload
    requires m.length as int == 4 + |m.payload| && (if inStartup then m.kind == 0 else m.length <= 0x1000_0000)
    requires WellMade(inStartup && Asks(m), ms)
    ensures b + (Flat(inStartup && Asks(m), ms) + rest) == Flat(inStartup, [m] + ms) + rest
    ensures WellMade(inStartup, [m] + ms)
    ensures (forall x :: x in [m] + ms ==> Asks(x)) <==> Asks(m) && forall x :: x in ms ==> Asks(x)
  {
    hide Asks;
    assert ([m] + ms)[1..] == ms;
  }

  lemma StopsThere(inStartup: bool, buf: Bytes)
    ensures FrameOne(inStartup, buf).Bad? ==> BadHeader(inStartup, buf)
    ensures FrameOne(inStartup, buf).Need? ==> Incomplete(inStartup, buf)
  {
  }

  lemma FramedBytes(inStartup: bool, buf: Bytes)
    requires FrameOne(inStartup, buf).Framed?
    ensures var f := FrameOne(inStartup, buf);
      && buf[..f.consumed] == (if inStartup then [] else [f.msg.kind]) + Be32(f.msg.length) + f.msg.payload
      && f.msg.length as int == 4 + |f.msg.payload|
      && (if inStartup then f.msg.kind == 0 else f.msg.length <= 0x1000_0000)
      && NextPhase(inStartup, f.msg) == (inStartup && Asks(f.msg))
  {
    var f := FrameOne(inStartup, buf);
    var lo := if inStartup then 0 else 1;
    Be32Of(buf[lo..lo + 4]);
    assert buf[..f.consumed] == buf[..lo] + buf[lo..lo + 4] + buf[lo + 4..f.consumed];
  }

  lemma Be32Of(b: Bytes)
    requires |b| == 4
    ensures Be32(FromBe32(b)) == b
  {
    assert FromBe32(b) / 0x1_0000 == FromBe16(b[..2]) && FromBe32(b) % 0x1_0000 == FromBe16(b[2..]);
    assert b == [b[0], b[1], b[2], b[3]];
  }

  // ----- The incremental parser ---------------------------------------------------

  /** A stream on which the stalled branch is final: it waits for a startup message longer than
      the frame limit. */
  ghost predicate Stuck(g: Parse) {
    !g.bad && g.inStartup && |g.rest| >= 4 && FromBe32(g.rest[0..4]) > MAX_FRAME_LENGTH
  }

  ghost predicate Within(msgs: seq<Message>) {
    forall m :: m in msgs ==> m.length <= MAX_FRAME_LENGTH
  }

  /** The parser has seen `sofar`. */
  ghost predicate Tracks(fromClient: bool, p: ParserState, sofar: Bytes) {
    var g := Greedy(fromClient, sofar);
    if p.stalled then Stuck(g) else p == ParserState(g.inStartup, g.rest, false)
  }

  lemma HugeFrame(inStartup: bool, buf: Bytes)
    ensures var f := FrameOne(inStartup, buf);
      f.Framed? && f.msg.length > MAX_FRAME_LENGTH ==> !Within(Greedy(inStartup, buf).msgs)
  {
    var f := FrameOne(inStartup, buf);
    if f.Framed? { assert f.msg in Greedy(inStartup, buf).msgs; }
  }

  /** A waiting header that is not a valid pending frame is an over-long startup header. */
  lemma InvalidPending(inStartup: bool, buf: Bytes)
    requires FrameOne(inStartup, buf).Need? && |buf| >= 5 && !ValidPendingFrame(inStartup, buf)
    ensures inStartup && FromBe32(buf[0..4]) > MAX_FRAME_LENGTH
  {
  }

  lemma NothingYet(inStartup: bool)
    ensures Greedy(inStartup, []) == Parse([], inStartup, [], false)
  {
  }

  /** A stream that waits for an over-long startup message goes on waiting, unless it completes one. */
  lemma StuckStays(rest: Bytes, data: Bytes)
    requires |rest| >= 4 && FromBe32(rest[0..4]) > MAX_FRAME_LENGTH
    requires Within(Greedy(true, rest + data).msgs)
    ensures Greedy(true, rest + data) == Parse([], true, rest + data, false)
    ensures FromBe32((rest + data)[0..4]) > MAX_FRAME_LENGTH
  {
    assert (rest + data)[0..4] == rest[0..4];
    HugeFrame(true, rest + data);
  }

  lemma FeedTracks(fromClient: bool, p: ParserState, sofar: Bytes, data: Bytes)
    requires Tracks(fromClient, p, sofar)
    requires Within(Greedy(fromClient, sofar + data).msgs)
    ensures Tracks(fromClient, FeedStep(p, data).state, sofar + data)
    ensures Greedy(fromClient, sofar).msgs + FeedStep(p, data).msgs == Greedy(fromClient, sofar + data).msgs
    ensures !p.stalled ==> FeedStep(p, data).err == Greedy(fromClient, sofar + data).bad
  {
    hide FrameOne, Greedy, ValidPendingFrame;
    var g := Greedy(fromClient, sofar);
    var h := Greedy(fromClient, sofar + data);
    GreedyExtends(fromClient, sofar, data);
    if p.stalled {
      var k := Greedy(true, g.rest + data);
      assert forall m :: m in k.msgs ==> m in h.msgs;
      StuckStays(g.rest, data);
      assert g.msgs + [] == g.msgs;
    } else if g.bad {
      BadStays(fromClient, sofar, data);
      assert g.msgs + [] == g.msgs;
    } else {
      GreedyStops(fromClient, sofar + data);
      if FeedStep(p, data).state.stalled { InvalidPending(h.inStartup, h.rest); }
    }
  }

  lemma BadStays(fromClient: bool, sofar: Bytes, data: Bytes)
    requires Greedy(fromClient, sofar).bad
    ensures var g := Greedy(fromClient, sofar);
      Greedy(g.inStartup, g.rest + data) == Parse([], g.inStartup, g.rest + data, true)
  {
    hide FrameOne;
    GreedyStops(fromClient, sofar);
    FrameOneExtends(Greedy(fromClient, sofar).inStartup, Greedy(fromClient, sofar).rest, data);
  }

  lemma PrefixWithin(fromClient: bool, a: Bytes, b: Bytes)
    requires Within(Greedy(fromClient, a + b).msgs)
    ensures Within(Greedy(fromClient, a).msgs)
  {
    GreedyExtends(fromClient, a, b);
    assert forall m :: m in Greedy(fromClient, a).msgs ==> m in Greedy(fromClient, a + b).msgs;
  }

  lemma {:induction false} ConcatAll(fromClient: bool, p: ParserState, sofar: Bytes, chunks: seq<Bytes>)
    requires Tracks(fromClient, p, sofar)
    requires Within(Greedy(fromClient, sofar + Concat(chunks)).msgs)
    ensures Greedy(fromClient, sofar).msgs + Emitted(p, chunks)
         == Greedy(fromClient, sofar + Concat(chunks)).msgs
    ensures Tracks(fromClient, ParserAfter(p, chunks), sofar + Concat(chunks))
    decreases |chunks|
  {
    hide FrameOne, FeedStep, Greedy, Tracks, Within;
    if chunks == [] {
      assert sofar + [] == sofar;
      assert Greedy(fromClient, sofar).msgs + [] == Greedy(fromClient, sofar).msgs;
    } else {
      var mid := sofar + chunks[0];
      assert sofar + Concat(chunks) == mid + Concat(chunks[1..]);
      PrefixWithin(fromClient, mid, Concat(chunks[1..]));
      FeedTracks(fromClient, p, sofar, chunks[0]);
      var f := FeedStep(p, chunks[0]);
      ConcatAll(fromClient, f.state, mid, chunks[1..]);
      var g := Greedy(fromClient, sofar).msgs;
      assert g + (f.msgs + Emitted(f.state, chunks[1..])) == g + f.msgs + Emitted(f.state, chunks[1..]);
    }
  }

  /** When a call stalls the parser for good: it completes no message, no bad header is in the way, and
      more than 1 MiB waits for a startup message that is announced as longer than 256 MiB. */
  lemma StallIff(p: ParserState, data: Bytes)
    requires !p.stalled
    ensures FeedStep(p, data).state.stalled <==>
      var g := Greedy(p.inStartup, p.buf + data);
      !g.bad && g.msgs == [] && g.inStartup && |g.rest| > 0x10_0000 && FromBe32(g.rest[0..4]) > 0x1000_0000
    ensures FeedStep(p, data).state.stalled ==> FeedStep(p, data).msgs == [] && FeedStep(p, data).state.buf == []
    ensures forall more :: FeedStep(p, data).state.stalled ==> FeedStep(FeedStep(p, data).state, more).msgs == []
  {
    hide FrameOne, Greedy;
    var g := Greedy(p.inStartup, p.buf + data);
    GreedyStops(p.inStartup, p.buf + data);
    if !g.bad && |g.rest| >= 5 && !ValidPendingFrame(g.inStartup, g.rest) { InvalidPending(g.inStartup, g.rest); }
  }

  /** However a stream without over-long startup messages is cut, the messages are its greedy frames. */
  lemma EveryChunking(fromClient: bool, chunks: seq<Bytes>)
    requires Within(Greedy(fromClient, Concat(chunks)).msgs)
    ensures Emitted(NewParser(fromClient), chunks) == Greedy(fromClient, Concat(chunks)).msgs
    ensures Tracks(fromClient, ParserAfter(NewParser(fromClient), chunks), Concat(chunks))
  {
    assert [] + Concat(chunks) == Concat(chunks);
    assert Greedy(fromClient, []).msgs == [];
    ConcatAll(fromClient, NewParser(fromClient), [], chunks);
    assert [] + Emitted(NewParser(fromClient), chunks) == Emitted(NewParser(fromClient), chunks);
  }

  lemma {:induction false} ServerFramesAreShort(buf: Bytes)
    ensures Within(Greedy(false, buf).msgs)
    decreases |buf|
  {
    var f := FrameOne(false, buf);
    if f.Framed? { ServerFramesAreShort(buf[f.consumed..]); }
  }

  /** The server direction: unconditional, and never stalled. Each call reports an error exactly when
      the bytes received so far contain a bad header, and from then on emits nothing. */
  lemma ServerDirection(chunks: seq<Bytes>, data: Bytes)
    ensures Emitted(NewParser(false), chunks) == Greedy(false, Concat(chunks)).msgs
    ensures var p := ParserAfter(NewParser(false), chunks);
      && !p.stalled
      && FeedStep(p, data).err == Greedy(false, Concat(chunks) + data).bad
      && (Greedy(false, Concat(chunks)).bad ==> FeedStep(p, data).err && FeedStep(p, data).msgs == [])
  {
    var s := Concat(chunks);
    ServerFramesAreShort(s);
    ServerFramesAreShort(s + data);
    EveryChunking(false, chunks);
    GreedyStops(false, s);
    var p := ParserAfter(NewParser(false), chunks);
    FeedTracks(false, p, s, data);
    GreedyExtends(false, s, data);
    if Greedy(false, s).bad {
      assert |Greedy(false, s).msgs + FeedStep(p, data).msgs| == |Greedy(false, s).msgs|;
    }
  }

  /** The client direction, without over-long startup messages: unless the parser has stalled waiting for
      more of one, each call reports an error exactly when the bytes so far contain a bad header; and
      after a bad header every call reports the error and emits nothing. */
  lemma ClientDirection(chunks: seq<Bytes>, data: Bytes)
    requires Within(Greedy(true, Concat(chunks) + data).msgs)
    ensures Emitted(NewParser(true), chunks) == Greedy(true, Concat(chunks)).msgs
    ensures var p := ParserAfter(NewParser(true), chunks);
      && (!p.stalled ==> FeedStep(p, data).err == Greedy(true, Concat(chunks) + data).bad)
      && (p.stalled ==> !Greedy(true, Concat(chunks)).bad)
      && (Greedy(true, Concat(chunks)).bad ==> FeedStep(p, data).err && FeedStep(p, data).msgs == [])
  {
    var s := Concat(chunks);
    PrefixWithin(true, s, data);
    EveryChunking(true, chunks);
    GreedyStops(true, s);
    var p := ParserAfter(NewParser(true), chunks);
    FeedTracks(true, p, s, data);
    GreedyExtends(true, s, data);
    if Greedy(true, s).bad {
      assert |Greedy(true, s).msgs + FeedStep(p, data).msgs| == |Greedy(true, s).msgs|;
    }
  }

  // ----- When chunking matters ------------------------------------------------------

  /** The offset of the first over-long message of a stream. */
  lemma {:induction false} FirstHuge(inStartup: bool, s: Bytes) returns (o: nat)
    requires !Within(Greedy(inStartup, s).msgs)
    ensures o <= |s| && FrameOne(true, s[o..]).Framed? && FrameOne(true, s[o..]).msg.length > MAX_FRAME_LENGTH
    ensures Greedy(inStartup, s[..o]).rest == [] && !Greedy(inStartup, s[..o]).bad
    ensures Greedy(inStartup, s[..o]).inStartup && Within(Greedy(inStartup, s[..o]).msgs)
    decreases |s|
  {
    hide FrameOne;
    var f := FrameOne(inStartup, s);
    var next := NextPhase(inStartup, f.msg);
    if f.msg.length > MAX_FRAME_LENGTH {
      o := 0;
      assert s[0..] == s && s[..0] == [];
      NothingYet(inStartup);
    } else {
      var o' := FirstHuge(next, s[f.consumed..]);
      o := f.consumed + o';
      assert s[o..] == s[f.consumed..][o'..];
      var a, b := s[..f.consumed], s[f.consumed..][..o'];
      assert s[..o] == a + b && a + s[f.consumed..] == s;
      FrameOfPrefix(inStartup, s, f);
      FrameOneExtends(inStartup, a, b);
      assert (a + b)[f.consumed..] == b;
    }
  }

  lemma FrameOfPrefix(inStartup: bool, s: Bytes, f: Frame)
    requires f == FrameOne(inStartup, s) && f.Framed?
    ensures FrameOne(inStartup, s[..f.consumed]) == f
  {
    var a := s[..f.consumed];
    assert a[0..4] == s[0..4];
    if !inStartup { assert a[1..5] == s[1..5]; }
    var lo := if inStartup then 4 else 5;
    assert a[lo..f.consumed] == s[lo..f.consumed];
  }

  /** A stream cut just past the stall limit inside its first over-long message. */
  lemma PendingHuge(fromClient: bool, s: Bytes, o: nat, x: Bytes, g: Parse)
    requires o + MAX_STALLED_BUFFER + 1 <= |s| && x == s[o..o + MAX_STALLED_BUFFER + 1]
    requires FrameOne(true, s[o..]).Framed? && FrameOne(true, s[o..]).msg.length > MAX_FRAME_LENGTH
    requires g == Greedy(fromClient, s[..o]) && g.rest == [] && !g.bad && g.inStartup
    ensures !ValidPendingFrame(true, x)
    ensures Greedy(true, x) == Parse([], true, x, false)
    ensures Greedy(fromClient, s[..o] + x) == Parse(g.msgs, true, x, false)
  {
    assert x[0..4] == s[o..][0..4];
    GreedyExtends(fromClient, s[..o], x);
    assert g.rest + x == x;
    assert g.msgs + [] == g.msgs;
  }

  lemma MoreToCome(fromClient: bool, s: Bytes, o: nat)
    requires o <= |s| && FrameOne(true, s[o..]).Framed?
    requires var g := Greedy(fromClient, s[..o]); g.rest == [] && !g.bad && g.inStartup
    ensures |Greedy(fromClient, s).msgs| > |Greedy(fromClient, s[..o]).msgs|
  {
    hide FrameOne;
    var g := Greedy(fromClient, s[..o]);
    assert s == s[..o] + s[o..];
    GreedyExtends(fromClient, s[..o], s[o..]);
    assert g.rest + s[o..] == s[o..];
  }

  /** A cut that loses an over-long message: just past the stall limit, then an empty chunk. */
  lemma HugeIsLost(fromClient: bool, s: Bytes) returns (chunks: seq<Bytes>)
    requires !Within(Greedy(fromClient, s).msgs)
    ensures Concat(chunks) == s && Emitted(NewParser(fromClient), chunks) != Greedy(fromClient, s).msgs
  {
    var o := FirstHuge(fromClient, s);
    chunks := LosingCut(fromClient, s, o);
  }

  lemma LosingCut(fromClient: bool, s: Bytes, o: nat) returns (chunks: seq<Bytes>)
    requires o <= |s| && FrameOne(true, s[o..]).Framed? && FrameOne(true, s[o..]).msg.length > MAX_FRAME_LENGTH
    requires var g := Greedy(fromClient, s[..o]); g.rest == [] && !g.bad && g.inStartup
    ensures Concat(chunks) == s && Emitted(NewParser(fromClient), chunks) != Greedy(fromClient, s).msgs
  {
    hide Greedy, FrameOne, ValidPendingFrame, Emitted, Concat;
    var cut := o + MAX_STALLED_BUFFER + 1;
    assert cut <= |s|;
    var g := Greedy(fromClient, s[..o]);
    var x := s[o..cut];
    assert s[..cut] == s[..o] + x;
    PendingHuge(fromClient, s, o, x, g);
    LostAfterCut(fromClient, g.msgs, s[..cut], x, s[cut..]);
    MoreToCome(fromClient, s, o);
    chunks := [s[..cut], [], s[cut..]];
    ThreeChunks(s[..cut], [], s[cut..]);
    assert s[..cut] + ([] + s[cut..]) == s;
  }

  lemma ThreeChunks(a: Bytes, b: Bytes, c: Bytes)
    ensures Concat([a, b, c]) == a + (b + c)
  {
    assert [a, b, c][1..] == [b, c] && [b, c][1..] == [c] && [c][1..] == [];
    assert Concat([c]) == c + [] == c;
    assert Concat([b, c]) == b + Concat([c]);
  }

  lemma LostAfterCut(fromClient: bool, msgs: seq<Message>, first: Bytes, x: Bytes, last: Bytes)
    requires Greedy(fromClient, first) == Parse(msgs, true, x, false)
    requires Greedy(true, x) == Parse([], true, x, false)
    requires |x| > MAX_STALLED_BUFFER && !ValidPendingFrame(true, x)
    ensures Emitted(NewParser(fromClient), [first, [], last]) == msgs
  {
    var p := NewParser(fromClient);
    assert p.buf + first == first;
    var f := FeedStep(p, first);
    assert f.msgs == msgs;
    assert x + [] == x;
    var f2 := FeedStep(f.state, []);
    assert f2.state.stalled && f2.msgs == [];
    var chunks := [first, [], last];
    assert chunks[1..] == [[], last] && chunks[1..][1..] == [last];
    var f3 := FeedStep(f2.state, last);
    assert Emitted(f2.state, [last]) == f3.msgs + Emitted(f3.state, [last][1..]);
    assert [last][1..] == [];
    assert Emitted(f.state, chunks[1..]) == f2.msgs + Emitted(f2.state, chunks[1..][1..]);
    assert Emitted(p, chunks) == f.msgs + Emitted(f.state, chunks[1..]);
  }

  /**
   Framing does not depend on how a stream is cut into chunks, in either direction, exactly when no
   message of the stream is longer than the frame limit; only an untyped startup message can be.
   */
  lemma ChunkInvariance(fromClient: bool, s: Bytes)
    ensures (forall chunks :: Concat(chunks) == s ==>
               Emitted(NewParser(fromClient), chunks) == Greedy(fromClient, s).msgs)
        <==> Within(Greedy(fromClient, s).msgs)
  {
    if Within(Greedy(fromClient, s).msgs) {
      forall chunks | Concat(chunks) == s
        ensures Emitted(NewParser(fromClient), chunks) == Greedy(fromClient, s).msgs
      {
        EveryChunking(fromClient, chunks);
      }
    } else {
      var chunks := HugeIsLost(fromClient, s);
    }
  }

  // ----- The running code -------------------------------------------------------------

  lemma GreedyStep(inStartup: bool, buf: Bytes)
    ensures var f := FrameOne(inStartup, buf);
      if f.Framed? then
        var p := Greedy(NextPhase(inStartup, f.msg), buf[f.consumed..]);
        Greedy(inStartup, buf) == p.(msgs := [f.msg] + p.msgs)
      else Greedy(inStartup, buf) == Parse([], inStartup, buf, f.Bad?)
  {
  }

  /** The framing parser of one direction of one connection. */
  class StreamParser {
    var inStartup: bool
    var buf: Bytes
    var stalled: bool

    function State(): ParserState
      reads this
    {
      ParserState(inStartup, buf, stalled)
    }

    constructor (fromClient: bool)
      ensures State() == NewParser(fromClient)
    {
      inStartup, buf, stalled := fromClient, [], false;
    }

    method Feed(data: Bytes) returns (msgs: seq<Message>, err: bool)
      modifies this
      ensures Fed(State(), msgs, err) == FeedStep(old(State()), data)
    {
      hide Greedy, FrameOne, ValidPendingFrame, TransitionToTyped;
      msgs, err := [], false;
      if stalled { return; }
      buf := buf + data;
      ghost var g := Greedy(inStartup, buf);
      assert [] + g.msgs == g.msgs;
      while true
        invariant !stalled
        invariant var k := Greedy(inStartup, buf); g == k.(msgs := msgs + k.msgs)
        decreases |buf|
      {
        var f := FrameOne(inStartup, buf);
        GreedyStep(inStartup, buf);
        match f {
          case Bad =>
            assert msgs + [] == msgs;
            err := true;
            return;
          case Need =>
            assert msgs + [] == msgs;
            break;
          case Framed(msg, consumed) =>
            ghost var k := Greedy(NextPhase(inStartup, msg), buf[consumed..]);
            assert msgs + ([msg] + k.msgs) == msgs + [msg] + k.msgs;
            msgs := msgs + [msg];
            buf := buf[consumed..];
            if inStartup && TransitionToTyped(msg) { inStartup := false; }
        }
      }
      if |msgs| == 0 && |buf| > MAX_STALLED_BUFFER && !ValidPendingFrame(inStartup, buf) {
        buf := [];
        stalled := true;
      }
    }
  }
}
