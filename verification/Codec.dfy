/**
 The binary record codec of the on-disk queue (pkg/queue/filequeue_codec.go).

 `Encode` and `Decode` are the meaning of the format; `EncodeBinary` and `DecodeBinary`
 are the buffer-appending encoder and the offset-advancing decoder, proved against them.
 The main result is `RoundTrip`.
 */
module Codec {
  import opened Core

  // ----- Little-endian integers -------------------------------------------------

  function Pow256(k: nat): (r: nat)
    ensures r > 0
  {
    if k == 0 then 1 else 256 * Pow256(k - 1)
  }

  /** The low `k` bytes of `n`, least significant first. */
  function Le(n: nat, k: nat): (r: Bytes)
    ensures |r| == k
  {
    if k == 0 then [] else [n % 256] + Le(n / 256, k - 1)
  }

  function FromLe(b: Bytes): (r: nat)
  {
    if b == [] then 0 else b[0] + 256 * FromLe(b[1..])
  }

  lemma {:induction false} LeRoundTrip(n: nat, k: nat)
    requires n < Pow256(k)
    ensures FromLe(Le(n, k)) == n
  {
    if k != 0 {
      LeRoundTrip(n / 256, k - 1);
      assert Le(n, k)[1..] == Le(n / 256, k - 1);
    }
  }

  lemma {:induction false} FromLeBound(b: Bytes)
    ensures FromLe(b) < Pow256(|b|)
  {
    if b != [] { FromLeBound(b[1..]); }
  }

  lemma Widths()
    ensures Pow256(1) == 0x100 && Pow256(2) == 0x1_0000 && Pow256(4) == 0x1_0000_0000
    ensures Pow256(8) == 0x1_0000_0000_0000_0000
  {
    assert Pow256(3) == 256 * Pow256(2);
    assert Pow256(5) == 256 * Pow256(4);
    assert Pow256(6) == 256 * Pow256(5);
    assert Pow256(7) == 256 * Pow256(6);
  }

  /** Two's complement of a signed value at the given modulus, and back. */
  function Wrap(x: int, modulus: nat): (r: nat)
    requires 0 - modulus <= x < modulus
  {
    if x < 0 then x + modulus else x
  }

  function Unwrap(n: nat, modulus: nat): (r: int)
    requires n < modulus
    ensures r == n || r == n - modulus
    ensures modulus % 2 == 0 ==> -(modulus / 2) <= r < modulus / 2
  {
    if n >= modulus / 2 then n - modulus else n
  }

  // ----- The format -------------------------------------------------------------

  function EncAddr(a: Addr): (r: Bytes)
    ensures |r| == if a.V4? then 5 else 17
  {
    match a
    case NoAddr => [16] + [0, 0, 0, 0, 0, 0, 0, 0, 0, 0, 0, 0, 0, 0, 0, 0]
    case V4(o) => [4] + o
    case V6(o, _) => [16] + o
  }

  function EncText(t: Bytes): (r: Bytes)
    ensures |r| == 4 + |t|
  {
    Le(|t|, 4) + t
  }

  function ValueBytes(v: Option<Bytes>): Bytes {
    if v.Some? then v.value else []
  }

  function EncParam(p: Param): (r: Bytes)
    ensures |r| == 10 + |ValueBytes(p.value)|
  {
    Le(p.oid, 4) + (Le(Wrap(p.format, 0x1_0000), 2) + EncText(ValueBytes(p.value)))
  }

  function EncParams(ps: seq<Param>): Bytes {
    if ps == [] then [] else EncParam(ps[0]) + EncParams(ps[1..])
  }

  function EncChunks(cs: seq<Bytes>): Bytes {
    if cs == [] then [] else EncText(cs[0]) + EncChunks(cs[1..])
  }

  function EncFlag(b: bool): Bytes { if b then [1] else [0] }

  function U64(x: I64): (r: nat)
    ensures r < 0x1_0000_0000_0000_0000
  {
    Wrap(x, 0x1_0000_0000_0000_0000)
  }

  function EncConn(c: ConnId): Bytes {
    EncAddr(c.srcIp) + (Le(c.srcPort, 2) + (EncAddr(c.dstIp) + Le(c.dstPort, 2)))
  }

  function EncStamp(ev: Event): Bytes {
    Le(U64(ev.timestamp), 8) + (Le(ev.txId, 8) + (Le(ev.seqNo, 8) + EncFlag(ev.extended)))
  }

  function EncCountedParams(ps: seq<Param>): Bytes { Le(|ps|, 4) + EncParams(ps) }

  function EncCountedChunks(cs: seq<Bytes>): Bytes { Le(|cs|, 4) + EncChunks(cs) }

  function EncHead(ev: Event): Bytes {
    EncConn(ev.conn) + (EncText(ev.sql) + EncStamp(ev))
  }

  function EncBody(ev: Event): Bytes {
    EncText(ev.stmtName) + (EncCountedParams(ev.params) +
    (EncCountedChunks(ev.copyData) + Le(U64(ev.sourceExecTime), 8)))
  }

  /** The serialized form of an event, field by field. */
  function Encode(ev: Event): Bytes { EncHead(ev) + EncBody(ev) }

  /** Every length, count and counter is representable in its field. */
  ghost predicate Fits(ev: Event) {
    && |ev.sql| < 0x1_0000_0000
    && |ev.stmtName| < 0x1_0000_0000
    && |ev.params| < 0x1_0000_0000
    && |ev.copyData| < 0x1_0000_0000
    && ev.txId < 0x1_0000_0000_0000_0000
    && ev.seqNo < 0x1_0000_0000_0000_0000
    && (forall p :: p in ev.params ==> |ValueBytes(p.value)| < 0x1_0000_0000)
    && (forall c :: c in ev.copyData ==> |c| < 0x1_0000_0000)
  }

  // ----- Reading ----------------------------------------------------------------

  /** A reader's outcome. `Short` is the codec's short-read error. `OutOfRange` is the
      slice of 16 address bytes past the end of the record, which a length byte other
      than 4 or 16 can provoke. */
  datatype Read<+T> = Got(value: T, rest: Bytes) | Short | OutOfRange {
    predicate IsFailure() { !Got? }
    function PropagateFailure<U>(): Read<U>
      requires IsFailure()
    {
      if Short? then Short else OutOfRange
    }
    function Extract(): (T, Bytes)
      requires !IsFailure()
    {
      (value, rest)
    }
  }

  function Take(s: Bytes, n: nat): Read<Bytes> {
    if |s| < n then Short else Got(s[..n], s[n..])
  }

  function TakeLe(s: Bytes, k: nat): (r: Read<nat>)
    ensures r.Got? ==> r.value < Pow256(k)
  {
    if |s| < k then Short else
      FromLeBound(s[..k]);
      Got(FromLe(s[..k]), s[k..])
  }

  function ReadAddr(s: Bytes): Read<Addr> {
    if |s| < 1 then Short
    else if |s| - 1 < s[0] then Short
    else if s[0] == 4 then Got(V4(s[1..5]), s[5..])
    else if |s| < 17 then OutOfRange
    else Got(V6(s[1..17], []), s[1..][s[0]..])
  }

  function ReadText(s: Bytes): Read<Bytes> {
    var (n, s1) :- TakeLe(s, 4);
    Take(s1, n)
  }

  function ReadParam(s: Bytes): Read<Param> {
    Widths();
    if |s| < 10 then Short else
      var (oid, s1) :- TakeLe(s, 4);
      var (fmt, s2) :- TakeLe(s1, 2);
      var (v, s3) :- ReadText(s2);
      Got(Param(oid, if v == [] then None else Some(v), Unwrap(fmt, 0x1_0000)), s3)
  }

  function ReadParams(s: Bytes, n: nat): Read<seq<Param>> {
    if n == 0 then Got([], s) else
      var (p, s1) :- ReadParam(s);
      var (ps, s2) :- ReadParams(s1, n - 1);
      Got([p] + ps, s2)
  }

  function ReadChunks(s: Bytes, n: nat): Read<seq<Bytes>> {
    if n == 0 then Got([], s) else
      var (c, s1) :- ReadText(s);
      var (cs, s2) :- ReadChunks(s1, n - 1);
      Got([c] + cs, s2)
  }

  function I64Of(n: nat): I64
    requires n < 0x1_0000_0000_0000_0000
  {
    Unwrap(n, 0x1_0000_0000_0000_0000)
  }

  function ReadConn(s: Bytes): Read<ConnId> {
    Widths();
    var (sip, s1) :- ReadAddr(s);
    var (sp, s2) :- TakeLe(s1, 2);
    var (dip, s3) :- ReadAddr(s2);
    var (dp, s4) :- TakeLe(s3, 2);
    Got(ConnId(sip, sp, dip, dp), s4)
  }

  /** Timestamp, transaction id, sequence number and the extended-query flag. */
  datatype Stamp = Stamp(timestamp: I64, txId: nat, seqNo: nat, extended: bool)

  function ReadStamp(s: Bytes): Read<Stamp> {
    Widths();
    var (ts, s1) :- TakeLe(s, 8);
    var (tx, s2) :- TakeLe(s1, 8);
    var (sq, s3) :- TakeLe(s2, 8);
    var (fl, s4) :- TakeLe(s3, 1);
    Got(Stamp(I64Of(ts), tx, sq, fl == 1), s4)
  }

  function ReadCountedParams(s: Bytes): Read<seq<Param>> {
    var (n, s1) :- TakeLe(s, 4);
    ReadParams(s1, n)
  }

  function ReadCountedChunks(s: Bytes): Read<seq<Bytes>> {
    var (n, s1) :- TakeLe(s, 4);
    ReadChunks(s1, n)
  }

  datatype Head = Head(conn: ConnId, sql: Bytes, stamp: Stamp)
  datatype Body = Body(name: Bytes, params: seq<Param>, chunks: seq<Bytes>, execTime: I64)

  function ReadHead(s: Bytes): Read<Head> {
    var (conn, s1) :- ReadConn(s);
    var (sql, s2) :- ReadText(s1);
    var (st, s3) :- ReadStamp(s2);
    Got(Head(conn, sql, st), s3)
  }

  function ReadBody(s: Bytes): Read<Body> {
    Widths();
    var (name, s1) :- ReadText(s);
    var (ps, s2) :- ReadCountedParams(s1);
    var (cs, s3) :- ReadCountedChunks(s2);
    var (et, s4) :- TakeLe(s3, 8);
    Got(Body(name, ps, cs, I64Of(et)), s4)
  }

  function EventOf(h: Head, b: Body): Event {
    Event(h.conn, h.sql, h.stamp.timestamp, h.stamp.txId, h.stamp.seqNo, h.stamp.extended,
          b.name, b.params, b.chunks, b.execTime, [])
  }

  /** What a record means; bytes after the last field are ignored. */
  function Decode(s: Bytes): Read<Event> {
    var (h, s1) :- ReadHead(s);
    var (b, s2) :- ReadBody(s1);
    Got(EventOf(h, b), s2)
  }

  // ----- What survives the codec ------------------------------------------------

  function NormAddr(a: Addr): Addr {
    match a
    case NoAddr => V6([0, 0, 0, 0, 0, 0, 0, 0, 0, 0, 0, 0, 0, 0, 0, 0], [])
    case V4(_) => a
    case V6(o, _) => V6(o, [])
  }

  function NormParam(p: Param): Param {
    if p.value == Some([]) then p.(value := None) else p
  }

  function NormParams(ps: seq<Param>): seq<Param> {
    seq(|ps|, i requires 0 <= i < |ps| => NormParam(ps[i]))
  }

  /** The part of an event the codec carries: no user, no address zone, the zero address
      read as `::`, an empty parameter value read as NULL. */
  function Norm(ev: Event): Event {
    ev.(conn := ev.conn.(srcIp := NormAddr(ev.conn.srcIp), dstIp := NormAddr(ev.conn.dstIp)),
        params := NormParams(ev.params),
        user := [])
  }

  // ----- Prefix lemmas: each reader undoes its writer and leaves the rest ------------

  lemma TakeLeOf(n: nat, k: nat, rest: Bytes)
    requires n < Pow256(k)
    ensures TakeLe(Le(n, k) + rest, k) == Got(n, rest)
  {
    LeRoundTrip(n, k);
    assert (Le(n, k) + rest)[..k] == Le(n, k);
    assert (Le(n, k) + rest)[k..] == rest;
  }

  lemma ReadAddrOf(a: Addr, rest: Bytes)
    ensures ReadAddr(EncAddr(a) + rest) == Got(NormAddr(a), rest)
  {
    var s := EncAddr(a) + rest;
    var w := |EncAddr(a)| - 1;
    assert s[1..1 + w] == EncAddr(a)[1..];
    assert s[1 + w..] == rest;
  }

  lemma ReadTextOf(t: Bytes, rest: Bytes)
    requires |t| < 0x1_0000_0000
    ensures ReadText(EncText(t) + rest) == Got(t, rest)
  {
    Widths();
    assert EncText(t) + rest == Le(|t|, 4) + (t + rest);
    TakeLeOf(|t|, 4, t + rest);
    assert (t + rest)[..|t|] == t && (t + rest)[|t|..] == rest;
  }

  lemma ReadParamOf(p: Param, rest: Bytes)
    requires |ValueBytes(p.value)| < 0x1_0000_0000
    ensures ReadParam(EncParam(p) + rest) == Got(NormParam(p), rest)
  {
    Widths();
    var f := Wrap(p.format, 0x1_0000);
    var tail := EncText(ValueBytes(p.value)) + rest;
    assert EncParam(p) + rest == Le(p.oid, 4) + (Le(f, 2) + tail);
    TakeLeOf(p.oid, 4, Le(f, 2) + tail);
    TakeLeOf(f, 2, tail);
    ReadTextOf(ValueBytes(p.value), rest);
  }

  lemma ReadParamsStep(s: Bytes, n: nat, p: Param, s1: Bytes, ps: seq<Param>, s2: Bytes)
    requires n > 0 && ReadParam(s) == Got(p, s1) && ReadParams(s1, n - 1) == Got(ps, s2)
    ensures ReadParams(s, n) == Got([p] + ps, s2)
  {
  }

  lemma {:induction false} ReadParamsOf(ps: seq<Param>, rest: Bytes)
    requires forall p :: p in ps ==> |ValueBytes(p.value)| < 0x1_0000_0000
    ensures ReadParams(EncParams(ps) + rest, |ps|) == Got(NormParams(ps), rest)
  {
    hide ReadParam, EncParam, NormParam;
    if ps == [] {
      assert EncParams(ps) + rest == rest;
    } else {
      assert ps[0] in ps;
      assert EncParams(ps) + rest == EncParam(ps[0]) + (EncParams(ps[1..]) + rest);
      ReadParamOf(ps[0], EncParams(ps[1..]) + rest);
      ReadParamsOf(ps[1..], rest);
      ReadParamsStep(EncParams(ps) + rest, |ps|, NormParam(ps[0]), EncParams(ps[1..]) + rest,
                     NormParams(ps[1..]), rest);
      assert NormParams(ps) == [NormParam(ps[0])] + NormParams(ps[1..]);
    }
  }

  lemma {:induction false} ReadChunksOf(cs: seq<Bytes>, rest: Bytes)
    requires forall c :: c in cs ==> |c| < 0x1_0000_0000
    ensures ReadChunks(EncChunks(cs) + rest, |cs|) == Got(cs, rest)
  {
    if cs == [] {
      assert EncChunks(cs) + rest == rest;
    } else {
      assert cs[0] in cs;
      assert EncChunks(cs) + rest == EncText(cs[0]) + (EncChunks(cs[1..]) + rest);
      ReadTextOf(cs[0], EncChunks(cs[1..]) + rest);
      ReadChunksOf(cs[1..], rest);
      assert cs == [cs[0]] + cs[1..];
    }
  }

  lemma ReadConnOf(c: ConnId, rest: Bytes)
    ensures ReadConn(EncConn(c) + rest)
         == Got(c.(srcIp := NormAddr(c.srcIp), dstIp := NormAddr(c.dstIp)), rest)
  {
    Widths();
    var t3 := Le(c.dstPort, 2) + rest;
    var t2 := EncAddr(c.dstIp) + t3;
    var t1 := Le(c.srcPort, 2) + t2;
    assert EncConn(c) + rest == EncAddr(c.srcIp) + t1;
    ReadAddrOf(c.srcIp, t1);
    TakeLeOf(c.srcPort, 2, t2);
    ReadAddrOf(c.dstIp, t3);
    TakeLeOf(c.dstPort, 2, rest);
  }

  lemma ReadStampOf(ev: Event, rest: Bytes)
    requires Fits(ev)
    ensures ReadStamp(EncStamp(ev) + rest)
         == Got(Stamp(ev.timestamp, ev.txId, ev.seqNo, ev.extended), rest)
  {
    Widths();
    var fl: nat := if ev.extended then 1 else 0;
    assert EncFlag(ev.extended) == Le(fl, 1);
    var t3 := Le(fl, 1) + rest;
    var t2 := Le(ev.seqNo, 8) + t3;
    var t1 := Le(ev.txId, 8) + t2;
    assert EncStamp(ev) + rest == Le(U64(ev.timestamp), 8) + t1;
    TakeLeOf(U64(ev.timestamp), 8, t1);
    TakeLeOf(ev.txId, 8, t2);
    TakeLeOf(ev.seqNo, 8, t3);
    TakeLeOf(fl, 1, rest);
  }

  lemma ReadListsOf(ev: Event, rest: Bytes)
    requires Fits(ev)
    ensures ReadCountedParams(EncCountedParams(ev.params) + rest) == Got(NormParams(ev.params), rest)
    ensures ReadCountedChunks(EncCountedChunks(ev.copyData) + rest) == Got(ev.copyData, rest)
  {
    hide ReadParams, ReadChunks, EncParams, EncChunks, Pow256, Le, FromLe;
    Widths();
    assert EncCountedParams(ev.params) + rest == Le(|ev.params|, 4) + (EncParams(ev.params) + rest);
    TakeLeOf(|ev.params|, 4, EncParams(ev.params) + rest);
    ReadParamsOf(ev.params, rest);
    assert EncCountedChunks(ev.copyData) + rest == Le(|ev.copyData|, 4) + (EncChunks(ev.copyData) + rest);
    TakeLeOf(|ev.copyData|, 4, EncChunks(ev.copyData) + rest);
    ReadChunksOf(ev.copyData, rest);
  }

  lemma ReadHeadOf(ev: Event, rest: Bytes)
    requires Fits(ev)
    ensures ReadHead(EncHead(ev) + rest)
         == Got(Head(Norm(ev).conn, ev.sql, Stamp(ev.timestamp, ev.txId, ev.seqNo, ev.extended)), rest)
  {
    var t2 := EncStamp(ev) + rest;
    var t1 := EncText(ev.sql) + t2;
    assert EncHead(ev) + rest == EncConn(ev.conn) + t1;
    ReadConnOf(ev.conn, t1);
    ReadTextOf(ev.sql, t2);
    ReadStampOf(ev, rest);
  }

  lemma ReadBodyOf(ev: Event, rest: Bytes)
    requires Fits(ev)
    ensures ReadBody(EncBody(ev) + rest)
         == Got(Body(ev.stmtName, NormParams(ev.params), ev.copyData, ev.sourceExecTime), rest)
  {
    hide ReadText, ReadCountedParams, ReadCountedChunks, EncText, EncCountedParams, EncCountedChunks, Pow256, Le, FromLe;
    Widths();
    var t3 := Le(U64(ev.sourceExecTime), 8) + rest;
    var t2 := EncCountedChunks(ev.copyData) + t3;
    var t1 := EncCountedParams(ev.params) + t2;
    assert EncBody(ev) + rest == EncText(ev.stmtName) + t1;
    ReadTextOf(ev.stmtName, t1);
    ReadListsOf(ev, t2);
    ReadListsOf(ev, t3);
    TakeLeOf(U64(ev.sourceExecTime), 8, rest);
  }

  /** Decoding what was encoded gives back exactly the carried part of the event. */
  lemma RoundTrip(ev: Event, rest: Bytes)
    requires Fits(ev)
    ensures Decode(Encode(ev) + rest) == Got(Norm(ev), rest)
  {
    hide ReadHead, ReadBody, EncHead, EncBody, Fits;
    assert Encode(ev) + rest == EncHead(ev) + (EncBody(ev) + rest);
    ReadHeadOf(ev, EncBody(ev) + rest);
    ReadBodyOf(ev, rest);
  }

  /** What is read back, field by field: everything but the user and the zones of the addresses, with a
      missing address read as `::` and an empty parameter value as NULL. */
  lemma Carries(ev: Event, rest: Bytes)
    requires Fits(ev)
    ensures Decode(Encode(ev) + rest).Got? && Decode(Encode(ev) + rest).rest == rest
    ensures var r := Decode(Encode(ev) + rest).value;
      && (r.sql, r.stmtName, r.extended, r.copyData) == (ev.sql, ev.stmtName, ev.extended, ev.copyData)
      && (r.timestamp, r.sourceExecTime) == (ev.timestamp, ev.sourceExecTime) && (r.txId, r.seqNo) == (ev.txId, ev.seqNo)
      && r.user == [] && SameAddr(r.conn.srcIp, ev.conn.srcIp) && SameAddr(r.conn.dstIp, ev.conn.dstIp)
      && (r.conn.srcPort, r.conn.dstPort) == (ev.conn.srcPort, ev.conn.dstPort)
      && |r.params| == |ev.params|
      && forall i :: 0 <= i < |ev.params| ==>
           && r.params[i].oid == ev.params[i].oid && r.params[i].format == ev.params[i].format
           && r.params[i].value == (if ev.params[i].value == Some([]) then None else ev.params[i].value)
  {
    hide Encode, Decode;
    RoundTrip(ev, rest);
  }

  /** The same octets; no address counts as sixteen zero octets. */
  predicate SameAddr(a: Addr, b: Addr) {
    match b
    case V4(o) => a == V4(o)
    case V6(o, _) => a.V6? && a.octets16 == o && a.zone == []
    case NoAddr => a.V6? && a.zone == [] && forall i :: 0 <= i < 16 ==> a.octets16[i] == 0
  }

  /** Two events have the same encoding exactly when their carried parts agree. */
  lemma EncodeInjective(a: Event, b: Event)
    requires Fits(a) && Fits(b)
    ensures Encode(a) == Encode(b) <==> Norm(a) == Norm(b)
  {
    RoundTrip(a, []);
    RoundTrip(b, []);
    assert Encode(a) + [] == Encode(a) && Encode(b) + [] == Encode(b);
    EncodeNorm(a);
    EncodeNorm(b);
  }

  lemma {:induction false} EncParamsNorm(ps: seq<Param>)
    ensures EncParams(NormParams(ps)) == EncParams(ps)
  {
    if ps != [] {
      EncParamsNorm(ps[1..]);
      assert NormParams(ps)[1..] == NormParams(ps[1..]);
    }
  }

  lemma EncodeNorm(ev: Event)
    ensures Encode(Norm(ev)) == Encode(ev)
  {
    EncParamsNorm(ev.params);
  }

  /** A record shorter than 4 GiB has no field that overflows its length prefix. */
  lemma ShortRecordFits(ev: Event)
    requires |Encode(ev)| < 0x1_0000_0000
    requires ev.txId < 0x1_0000_0000_0000_0000 && ev.seqNo < 0x1_0000_0000_0000_0000
    ensures Fits(ev)
  {
    ParamsLength(ev.params);
    ChunksLength(ev.copyData);
  }

  lemma {:induction false} ParamsLength(ps: seq<Param>)
    ensures |EncParams(ps)| >= |ps|
    ensures forall p :: p in ps ==> |ValueBytes(p.value)| <= |EncParams(ps)|
  {
    if ps != [] { ParamsLength(ps[1..]); }
  }

  lemma {:induction false} ChunksLength(cs: seq<Bytes>)
    ensures |EncChunks(cs)| >= |cs|
    ensures forall c :: c in cs ==> |c| <= |EncChunks(cs)|
  {
    if cs != [] { ChunksLength(cs[1..]); }
  }

  // ----- The running code ---------------------------------------------------------

  lemma {:induction false} EncParamsAppend(ps: seq<Param>, p: Param)
    ensures EncParams(ps + [p]) == EncParams(ps) + EncParam(p)
  {
    if ps != [] {
      assert (ps + [p])[1..] == ps[1..] + [p];
      EncParamsAppend(ps[1..], p);
    }
  }

  lemma {:induction false} EncChunksAppend(cs: seq<Bytes>, c: Bytes)
    ensures EncChunks(cs + [c]) == EncChunks(cs) + EncText(c)
  {
    if cs != [] {
      assert (cs + [c])[1..] == cs[1..] + [c];
      EncChunksAppend(cs[1..], c);
    }
  }

  /** The size estimate is the encoded length plus the 12 bytes each IPv4 endpoint saves. */
  method EstimateEventSize(ev: Event) returns (n: nat)
    ensures n == |Encode(ev)| + (if ev.conn.srcIp.V4? then 12 else 0)
                              + (if ev.conn.dstIp.V4? then 12 else 0)
  {
    n := 1 + 16 + 2 + 1 + 16 + 2;
    n := n + 4 + |ev.sql|;
    n := n + 8 + 8 + 8 + 1;
    n := n + 4 + |ev.stmtName|;
    n := n + 4;
    var base := n;
    for i := 0 to |ev.params|
      invariant n == base + |EncParams(ev.params[..i])|
    {
      assert ev.params[..i + 1] == ev.params[..i] + [ev.params[i]];
      EncParamsAppend(ev.params[..i], ev.params[i]);
      n := n + 4 + 2 + 4 + |ValueBytes(ev.params[i].value)|;
    }
    assert ev.params[..|ev.params|] == ev.params;
    n := n + 4;
    base := n;
    for i := 0 to |ev.copyData|
      invariant n == base + |EncChunks(ev.copyData[..i])|
    {
      assert ev.copyData[..i + 1] == ev.copyData[..i] + [ev.copyData[i]];
      EncChunksAppend(ev.copyData[..i], ev.copyData[i]);
      n := n + 4 + |ev.copyData[i]|;
    }
    assert ev.copyData[..|ev.copyData|] == ev.copyData;
    n := n + 8;
  }

  lemma Assoc(a: Bytes, b: Bytes, c: Bytes)
    ensures a + (b + c) == a + b + c
  {
  }

  method AppendParam(buf0: Bytes, p: Param) returns (buf: Bytes)
    ensures buf == buf0 + EncParam(p)
  {
    var value := ValueBytes(p.value);
    var format := Wrap(p.format, 0x1_0000);
    buf := buf0 + Le(p.oid, 4);
    buf := buf + Le(format, 2);
    buf := buf + (Le(|value|, 4) + value);
    Assoc(buf0 + Le(p.oid, 4), Le(format, 2), EncText(value));
    Assoc(buf0, Le(p.oid, 4), Le(format, 2) + EncText(value));
  }

  /** Appends the parameters, one record after the other. */
  method AppendParams(buf0: Bytes, ps: seq<Param>) returns (buf: Bytes)
    ensures buf == buf0 + EncCountedParams(ps)
  {
    buf := buf0 + Le(|ps|, 4);
    for i := 0 to |ps|
      invariant buf == buf0 + Le(|ps|, 4) + EncParams(ps[..i])
    {
      assert ps[..i + 1] == ps[..i] + [ps[i]];
      EncParamsAppend(ps[..i], ps[i]);
      buf := AppendParam(buf, ps[i]);
      Assoc(buf0 + Le(|ps|, 4), EncParams(ps[..i]), EncParam(ps[i]));
    }
    assert ps[..|ps|] == ps;
    Assoc(buf0, Le(|ps|, 4), EncParams(ps));
  }

  method AppendChunks(buf0: Bytes, cs: seq<Bytes>) returns (buf: Bytes)
    ensures buf == buf0 + EncCountedChunks(cs)
  {
    buf := buf0 + Le(|cs|, 4);
    for i := 0 to |cs|
      invariant buf == buf0 + Le(|cs|, 4) + EncChunks(cs[..i])
    {
      assert cs[..i + 1] == cs[..i] + [cs[i]];
      EncChunksAppend(cs[..i], cs[i]);
      Assoc(buf0 + Le(|cs|, 4), EncChunks(cs[..i]), EncText(cs[i]));
      buf := buf + (Le(|cs[i]|, 4) + cs[i]);
    }
    assert cs[..|cs|] == cs;
    Assoc(buf0, Le(|cs|, 4), EncChunks(cs));
  }

  method AppendConn(buf0: Bytes, c: ConnId) returns (buf: Bytes)
    ensures buf == buf0 + EncConn(c)
  {
    buf := buf0 + EncAddr(c.srcIp);
    buf := buf + Le(c.srcPort, 2);
    buf := buf + EncAddr(c.dstIp);
    buf := buf + Le(c.dstPort, 2);
    Assoc(buf0 + EncAddr(c.srcIp) + Le(c.srcPort, 2), EncAddr(c.dstIp), Le(c.dstPort, 2));
    Assoc(buf0 + EncAddr(c.srcIp), Le(c.srcPort, 2), EncAddr(c.dstIp) + Le(c.dstPort, 2));
    Assoc(buf0, EncAddr(c.srcIp), Le(c.srcPort, 2) + (EncAddr(c.dstIp) + Le(c.dstPort, 2)));
  }

  method AppendStamp(buf0: Bytes, ev: Event) returns (buf: Bytes)
    ensures buf == buf0 + EncStamp(ev)
  {
    buf := buf0 + Le(U64(ev.timestamp), 8);
    buf := buf + Le(ev.txId, 8);
    buf := buf + Le(ev.seqNo, 8);
    if ev.extended { buf := buf + [1]; } else { buf := buf + [0]; }
    ghost var (t, x, n, e) := (Le(U64(ev.timestamp), 8), Le(ev.txId, 8), Le(ev.seqNo, 8), EncFlag(ev.extended));
    Assoc(buf0 + t + x, n, e);
    Assoc(buf0 + t, x, n + e);
    Assoc(buf0, t, x + (n + e));
  }

  method AppendHead(buf0: Bytes, ev: Event) returns (buf: Bytes)
    ensures buf == buf0 + EncHead(ev)
  {
    buf := AppendConn(buf0, ev.conn);
    buf := buf + (Le(|ev.sql|, 4) + ev.sql);
    buf := AppendStamp(buf, ev);
    Assoc(buf0 + EncConn(ev.conn), EncText(ev.sql), EncStamp(ev));
    Assoc(buf0, EncConn(ev.conn), EncText(ev.sql) + EncStamp(ev));
  }

  method AppendBody(buf0: Bytes, ev: Event) returns (buf: Bytes)
    ensures buf == buf0 + EncBody(ev)
  {
    buf := buf0 + (Le(|ev.stmtName|, 4) + ev.stmtName);
    buf := AppendParams(buf, ev.params);
    buf := AppendChunks(buf, ev.copyData);
    buf := buf + Le(U64(ev.sourceExecTime), 8);
    ghost var (n, p, c, e) := (EncText(ev.stmtName), EncCountedParams(ev.params),
                               EncCountedChunks(ev.copyData), Le(U64(ev.sourceExecTime), 8));
    Assoc(buf0 + n + p, c, e);
    Assoc(buf0 + n, p, c + e);
    Assoc(buf0, n, p + (c + e));
  }

  /** The encoder: appends field after field to the buffer. */
  method EncodeBinary(ev: Event) returns (buf: Bytes)
    ensures buf == Encode(ev)
  {
    buf := AppendHead([], ev);
    assert buf == EncHead(ev);
    buf := AppendBody(buf, ev);
  }

  /** `r` with `acc` put in front of the values read. */
  ghost function Prepend<T>(acc: seq<T>, r: Read<seq<T>>): Read<seq<T>> {
    if r.Got? then Got(acc + r.value, r.rest) else r
  }

  lemma PrependNil<T>(r: Read<seq<T>>)
    ensures Prepend([], r) == r
  {
    if r.Got? { assert [] + r.value == r.value; }
  }

  lemma PrependStep<T>(acc: seq<T>, x: T, r: Read<seq<T>>)
    ensures Prepend(acc + [x], r) == Prepend(acc, Prepend([x], r))
  {
    if r.Got? { assert acc + [x] + r.value == acc + ([x] + r.value); }
  }

  /** Offset reads: `data[off..]` consumed piece by piece. */
  lemma Slices(data: Bytes, off: nat, n: nat)
    requires off + n <= |data|
    ensures data[off..][..n] == data[off..off + n]
    ensures data[off..][n..] == data[off + n..]
  {
  }

  method ReadTextAt(data: Bytes, off0: nat) returns (r: Read<Bytes>, off: nat)
    requires off0 <= |data|
    ensures r == ReadText(data[off0..])
    ensures r.Got? ==> off <= |data| && r.rest == data[off..]
  {
    off := off0;
    if off + 4 > |data| { return Short, off; }
    Slices(data, off, 4);
    var n := FromLe(data[off..off + 4]);
    off := off + 4;
    if off + n > |data| { return Short, off; }
    Slices(data, off, n);
    r := Got(data[off..off + n], data[off + n..]);
    off := off + n;
  }

  method ReadParamAt(data: Bytes, off0: nat) returns (r: Read<Param>, off: nat)
    requires off0 <= |data|
    ensures r == ReadParam(data[off0..])
    ensures r.Got? ==> off <= |data| && r.rest == data[off..]
  {
    Widths();
    off := off0;
    if off + 10 > |data| { return Short, off; }
    Slices(data, off, 4);
    FromLeBound(data[off..off + 4]);
    var oid := FromLe(data[off..off + 4]);
    off := off + 4;
    Slices(data, off, 2);
    FromLeBound(data[off..off + 2]);
    var format := Unwrap(FromLe(data[off..off + 2]), 0x1_0000);
    off := off + 2;
    var v, o := ReadTextAt(data, off);
    off := o;
    if !v.Got? { return Short, off; }
    r := Got(Param(oid, if |v.value| > 0 then Some(v.value) else None, format), data[off..]);
  }

  method DecodeParams(data: Bytes, off0: nat, n: nat) returns (r: Read<seq<Param>>, off: nat)
    requires off0 <= |data|
    ensures r == ReadParams(data[off0..], n)
    ensures r.Got? ==> off <= |data| && r.rest == data[off..]
  {
    off := off0;
    var acc := [];
    PrependNil(ReadParams(data[off0..], n));
    for i := 0 to n
      invariant off <= |data|
      invariant ReadParams(data[off0..], n) == Prepend(acc, ReadParams(data[off..], n - i))
    {
      var p, off' := ReadParamAt(data, off);
      if !p.Got? { return p.PropagateFailure(), off; }
      PrependStep(acc, p.value, ReadParams(data[off'..], n - i - 1));
      off := off';
      acc := acc + [p.value];
    }
    assert acc + [] == acc;
    r := Got(acc, data[off..]);
  }

  method DecodeChunks(data: Bytes, off0: nat, n: nat) returns (r: Read<seq<Bytes>>, off: nat)
    requires off0 <= |data|
    ensures r == ReadChunks(data[off0..], n)
    ensures r.Got? ==> off <= |data| && r.rest == data[off..]
  {
    off := off0;
    var acc := [];
    PrependNil(ReadChunks(data[off0..], n));
    for i := 0 to n
      invariant off <= |data|
      invariant ReadChunks(data[off0..], n) == Prepend(acc, ReadChunks(data[off..], n - i))
    {
      var c, off' := ReadTextAt(data, off);
      if !c.Got? { return Short, off; }
      PrependStep(acc, c.value, ReadChunks(data[off'..], n - i - 1));
      off := off';
      acc := acc + [c.value];
    }
    assert acc + [] == acc;
    r := Got(acc, data[off..]);
  }

  method ReadAddrAt(data: Bytes, off0: nat) returns (r: Read<Addr>, off: nat)
    requires off0 <= |data|
    ensures r == ReadAddr(data[off0..])
    ensures r.Got? ==> off <= |data| && r.rest == data[off..]
  {
    off := off0;
    if off + 1 > |data| { return Short, off; }
    Slices(data, off, 1);
    var len: nat := data[off];
    off := off + 1;
    if off + len > |data| { return Short, off; }
    Slices(data, off, len);
    if len == 4 {
      assert data[off0..][1..5] == data[off..off + 4];
      r := Got(V4(data[off..off + 4]), data[off + len..]);
    } else {
      if off + 16 > |data| { return OutOfRange, off; }
      assert data[off0..][1..17] == data[off..off + 16];
      r := Got(V6(data[off..off + 16], []), data[off + len..]);
    }
    off := off + len;
  }

  method ReadConnAt(data: Bytes) returns (r: Read<ConnId>, off: nat)
    ensures r == ReadConn(data)
    ensures r.Got? ==> off <= |data| && r.rest == data[off..]
  {
    Widths();
    assert data[0..] == data;
    var src, o1 := ReadAddrAt(data, 0);
    off := o1;
    if !src.Got? { return src.PropagateFailure(), off; }
    if off + 2 > |data| { return Short, off; }
    Slices(data, off, 2);
    FromLeBound(data[off..off + 2]);
    var srcPort := FromLe(data[off..off + 2]);
    off := off + 2;
    var dst, o2 := ReadAddrAt(data, off);
    off := o2;
    if !dst.Got? { return dst.PropagateFailure(), off; }
    if off + 2 > |data| { return Short, off; }
    Slices(data, off, 2);
    FromLeBound(data[off..off + 2]);
    var dstPort := FromLe(data[off..off + 2]);
    off := off + 2;
    r := Got(ConnId(src.value, srcPort, dst.value, dstPort), data[off..]);
  }

  method ReadStampAt(data: Bytes, off0: nat) returns (r: Read<Stamp>, off: nat)
    requires off0 <= |data|
    ensures r == ReadStamp(data[off0..])
    ensures r.Got? ==> off <= |data| && r.rest == data[off..]
  {
    Widths();
    off := off0;
    if off + 8 > |data| { return Short, off; }
    Slices(data, off, 8);
    FromLeBound(data[off..off + 8]);
    var ts := FromLe(data[off..off + 8]);
    off := off + 8;
    if off + 16 > |data| { return Short, off; }
    Slices(data, off, 8);
    var tx := FromLe(data[off..off + 8]);
    off := off + 8;
    Slices(data, off, 8);
    var sq := FromLe(data[off..off + 8]);
    off := off + 8;
    if off + 1 > |data| { return Short, off; }
    Slices(data, off, 1);
    assert FromLe(data[off..off + 1]) == data[off];
    var extended := data[off] == 1;
    off := off + 1;
    r := Got(Stamp(I64Of(ts), tx, sq, extended), data[off..]);
  }

  method ReadHeadAt(data: Bytes) returns (r: Read<Head>, off: nat)
    ensures r == ReadHead(data)
    ensures r.Got? ==> off <= |data| && r.rest == data[off..]
  {
    var conn, o1 := ReadConnAt(data);
    off := o1;
    if !conn.Got? { return conn.PropagateFailure(), off; }
    var sql, o2 := ReadTextAt(data, off);
    off := o2;
    if !sql.Got? { return Short, off; }
    var st, o3 := ReadStampAt(data, off);
    off := o3;
    if !st.Got? { return Short, off; }
    r := Got(Head(conn.value, sql.value, st.value), data[off..]);
  }

  method ReadListsAt(data: Bytes, off0: nat) returns (ps: Read<seq<Param>>, cs: Read<seq<Bytes>>, off: nat)
    requires off0 <= |data|
    ensures ps == ReadCountedParams(data[off0..])
    ensures ps.Got? ==> cs == ReadCountedChunks(ps.rest)
    ensures ps.Got? && cs.Got? ==> off <= |data| && cs.rest == data[off..]
  {
    hide ReadParams, ReadChunks, FromLe;
    off := off0;
    cs := Short;
    if off + 4 > |data| { return Short, cs, off; }
    Slices(data, off, 4);
    var paramCount := FromLe(data[off..off + 4]);
    ps, off := DecodeParams(data, off + 4, paramCount);
    if !ps.Got? { return; }
    if off + 4 > |data| { return; }
    Slices(data, off, 4);
    var copyCount := FromLe(data[off..off + 4]);
    cs, off := DecodeChunks(data, off + 4, copyCount);
  }

  method ReadBodyAt(data: Bytes, off0: nat) returns (r: Read<Body>, off: nat)
    requires off0 <= |data|
    ensures r == ReadBody(data[off0..])
    ensures r.Got? ==> off <= |data| && r.rest == data[off..]
  {
    var name, o1 := ReadTextAt(data, off0);
    off := o1;
    if !name.Got? { return Short, off; }
    var ps, cs, o2 := ReadListsAt(data, off);
    off := o2;
    if !ps.Got? { return ps.PropagateFailure(), off; }
    if !cs.Got? { return cs.PropagateFailure(), off; }
    if off + 8 > |data| { return Short, off; }
    Widths();
    Slices(data, off, 8);
    FromLeBound(data[off..off + 8]);
    var et := I64Of(FromLe(data[off..off + 8]));
    off := off + 8;
    r := Got(Body(name.value, ps.value, cs.value, et), data[off..]);
  }

  /** The decoder: advances an offset through the record, checking bounds before each field. */
  method DecodeBinary(data: Bytes) returns (r: Read<Event>)
    ensures r == Decode(data)
  {
    var head, off := ReadHeadAt(data);
    if !head.Got? { return head.PropagateFailure(); }
    var body, o1 := ReadBodyAt(data, off);
    if !body.Got? { return body.PropagateFailure(); }
    r := Got(EventOf(head.value, body.value), body.rest);
  }
}
