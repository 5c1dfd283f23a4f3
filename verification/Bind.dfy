/**
 Parse/Bind correlation (pkg/protocol/bindcorrelator.go, pkg/protocol/eventbuilder.go): decoding
 the two extended-query messages, remembering prepared statements per connection, and reuniting
 bound values with declared types. The main result is `BindFidelity`.
 */
module Bind {
  import opened Core

  // ----- Readers ------------------------------------------------------------------

  function ReadCString(b: Bytes): Option<(Bytes, Bytes)> {
    if b == [] then None
    else if b[0] == 0 then Some(([], b[1..]))
    else
      var (s, rest) :- ReadCString(b[1..]);
      Some(([b[0]] + s, rest))
  }

  function ReadInt16(b: Bytes): Option<(U16, Bytes)> {
    if |b| < 2 then None else Some((FromBe16(b[..2]), b[2..]))
  }

  function ReadUint32(b: Bytes): Option<(U32, Bytes)> {
    if |b| < 4 then None else Some((FromBe32(b[..4]), b[4..]))
  }

  function Signed16(n: U16): I16 { if n >= 0x8000 then n as int - 0x1_0000 else n }
  function Unsigned16(n: I16): U16 { if n < 0 then n as int + 0x1_0000 else n }

  function ReadFormats(b: Bytes, n: nat): Option<(seq<I16>, Bytes)> {
    if n == 0 then Some(([], b)) else
      var (f, b1) :- ReadInt16(b);
      var (fs, b2) :- ReadFormats(b1, n - 1);
      Some(([Signed16(f)] + fs, b2))
  }

  /** One length-prefixed value; a negative length is SQL NULL and has no bytes. */
  function ReadValue(b: Bytes): Option<(Option<Bytes>, Bytes)> {
    var (len, b1) :- ReadUint32(b);
    if len >= 0x8000_0000 then Some((None, b1))
    else if len > |b1| then None
    else Some((Some(b1[..len]), b1[len..]))
  }

  function ReadValues(b: Bytes, n: nat): Option<(seq<Option<Bytes>>, Bytes)> {
    if n == 0 then Some(([], b)) else
      var (v, b1) :- ReadValue(b);
      var (vs, b2) :- ReadValues(b1, n - 1);
      Some(([v] + vs, b2))
  }

  const MAX_VALUES := 10000

  datatype BindMessage = BindMessage(stmt: Bytes, formats: seq<I16>, values: seq<Option<Bytes>>)

  /** What a Bind payload says; the result-format trailer is not read. */
  function DecodeBind(payload: Bytes): Option<BindMessage> {
    var (_, b1) :- ReadCString(payload);
    var (stmt, b2) :- ReadCString(b1);
    var (nf, b3) :- ReadInt16(b2);
    var (formats, b4) :- ReadFormats(b3, nf);
    var (nv, b5) :- ReadInt16(b4);
    if nv > MAX_VALUES then None else
      var (values, _) :- ReadValues(b5, nv);
      Some(BindMessage(stmt, formats, values))
  }

  /** As many whole OIDs as are declared and present. */
  function ReadOids(b: Bytes, n: nat): seq<U32> {
    if n == 0 || |b| < 4 then [] else [FromBe32(b[..4])] + ReadOids(b[4..], n - 1)
  }

  datatype ParseMessage = ParseMessage(stmt: Bytes, sql: Bytes, oids: seq<U32>)

  function DecodeParse(payload: Bytes): Option<ParseMessage> {
    var (stmt, b1) :- ReadCString(payload);
    var (sql, b2) :- ReadCString(b1);
    if |b2| < 2 then Some(ParseMessage(stmt, sql, []))
    else Some(ParseMessage(stmt, sql, ReadOids(b2[2..], FromBe16(b2[..2]))))
  }

  // ----- Writers: the wire forms ------------------------------------------------------

  function WireFormats(fs: seq<I16>): Bytes {
    if fs == [] then [] else Be16(Unsigned16(fs[0])) + WireFormats(fs[1..])
  }

  /** A value with its length; a missing one is a negative length, -1 by convention. */
  function Slot(v: Option<Bytes>, nul: U32): Bytes
    requires v.Some? ==> |v.value| < 0x8000_0000
  {
    if v.None? then Be32(nul) else Be32(|v.value|) + v.value
  }

  function WireValue(v: Option<Bytes>): Bytes
    requires v.Some? ==> |v.value| < 0x8000_0000
  {
    Slot(v, 0xFFFF_FFFF)
  }

  ghost predicate ValuesFit(vs: seq<Option<Bytes>>) {
    forall v :: v in vs && v.Some? ==> |v.value| < 0x8000_0000
  }

  ghost function WireValues(vs: seq<Option<Bytes>>): Bytes
    requires ValuesFit(vs)
  {
    if vs == [] then [] else assert vs[0] in vs; WireValue(vs[0]) + WireValues(vs[1..])
  }

  function WireOids(oids: seq<U32>): Bytes {
    if oids == [] then [] else Be32(oids[0]) + WireOids(oids[1..])
  }

  ghost predicate BindFits(m: BindMessage) {
    && 0 !in m.stmt
    && |m.formats| < 0x1_0000
    && |m.values| <= MAX_VALUES
    && ValuesFit(m.values)
  }

  /** A Bind payload: portal, statement, formats, values, and a result-format trailer. */
  ghost function WireBind(portal: Bytes, m: BindMessage, trailer: Bytes): Bytes
    requires BindFits(m)
  {
    portal + [0] + (m.stmt + [0] + (Be16(|m.formats|) + (WireFormats(m.formats) +
    (Be16(|m.values|) + (WireValues(m.values) + trailer)))))
  }

  function WireParse(m: ParseMessage): Bytes
    requires |m.oids| < 0x1_0000
  {
    m.stmt + [0] + (m.sql + [0] + (Be16(|m.oids|) + WireOids(m.oids)))
  }

  // ----- Each reader undoes its writer --------------------------------------------------

  lemma {:induction false} CStringOf(s: Bytes, rest: Bytes)
    requires 0 !in s
    ensures ReadCString(s + [0] + rest) == Some((s, rest))
  {
    var b := s + [0] + rest;
    if s == [] {
      assert b[1..] == rest;
    } else {
      assert b[1..] == s[1..] + [0] + rest;
      CStringOf(s[1..], rest);
      assert s == [s[0]] + s[1..];
    }
  }

  lemma Int16Of(n: U16, rest: Bytes)
    ensures ReadInt16(Be16(n) + rest) == Some((n, rest))
  {
    assert (Be16(n) + rest)[..2] == Be16(n) && (Be16(n) + rest)[2..] == rest;
  }

  lemma {:induction false} FormatsOf(fs: seq<I16>, rest: Bytes)
    ensures ReadFormats(WireFormats(fs) + rest, |fs|) == Some((fs, rest))
  {
    if fs == [] {
      assert WireFormats(fs) + rest == rest;
    } else {
      var more := WireFormats(fs[1..]) + rest;
      assert WireFormats(fs) + rest == Be16(Unsigned16(fs[0])) + more;
      Int16Of(Unsigned16(fs[0]), more);
      FormatsOf(fs[1..], rest);
      assert fs == [fs[0]] + fs[1..];
    }
  }

  lemma ValueOf(v: Option<Bytes>, rest: Bytes)
    requires v.Some? ==> |v.value| < 0x8000_0000
    ensures ReadValue(WireValue(v) + rest) == Some((v, rest))
  {
    SlotOf(v, 0xFFFF_FFFF, rest);
  }

  lemma {:induction false} ValuesOf(vs: seq<Option<Bytes>>, rest: Bytes)
    requires ValuesFit(vs)
    ensures ReadValues(WireValues(vs) + rest, |vs|) == Some((vs, rest))
  {
    hide WireValue, ReadValue;
    if vs == [] {
      assert WireValues(vs) + rest == rest;
    } else {
      assert vs[0] in vs;
      var more := WireValues(vs[1..]) + rest;
      assert WireValues(vs) + rest == WireValue(vs[0]) + more;
      ValueOf(vs[0], more);
      ValuesOf(vs[1..], rest);
      assert vs == [vs[0]] + vs[1..];
    }
  }

  lemma {:induction false} OidsOf(oids: seq<U32>)
    ensures ReadOids(WireOids(oids), |oids|) == oids
  {
    if oids != [] {
      var b := WireOids(oids);
      assert b[..4] == Be32(oids[0]) && b[4..] == WireOids(oids[1..]);
      OidsOf(oids[1..]);
    }
  }

  /** Decoding an encoded Bind gives back its statement, formats and values, NULL apart from empty. */
  lemma BindRoundTrip(portal: Bytes, m: BindMessage, trailer: Bytes)
    requires 0 !in portal && BindFits(m)
    ensures DecodeBind(WireBind(portal, m, trailer)) == Some(m)
  {
    hide WireFormats, WireValues, ReadCString, ReadInt16, ReadFormats, ReadValues;
    var b5 := WireValues(m.values) + trailer;
    var b4 := Be16(|m.values|) + b5;
    var b3 := WireFormats(m.formats) + b4;
    var b2 := Be16(|m.formats|) + b3;
    CStringOf(portal, m.stmt + [0] + b2);
    CStringOf(m.stmt, b2);
    Int16Of(|m.formats|, b3);
    FormatsOf(m.formats, b4);
    Int16Of(|m.values|, b5);
    ValuesOf(m.values, trailer);
  }

  lemma ParseRoundTrip(m: ParseMessage)
    requires 0 !in m.stmt && 0 !in m.sql && |m.oids| < 0x1_0000
    ensures DecodeParse(WireParse(m)) == Some(m)
  {
    hide ReadCString, WireOids, ReadOids;
    var b2 := Be16(|m.oids|) + WireOids(m.oids);
    CStringOf(m.stmt, m.sql + [0] + b2);
    CStringOf(m.sql, b2);
    assert b2[..2] == Be16(|m.oids|) && b2[2..] == WireOids(m.oids);
    OidsOf(m.oids);
  }

  // ----- What is decoded at all ------------------------------------------------------------

  /** Values on the wire; `nulls` are the length fields of the missing ones, all of them negative. */
  ghost predicate NullsFit(vs: seq<Option<Bytes>>, nulls: seq<U32>) {
    |nulls| == |vs| && forall i :: 0 <= i < |nulls| ==> nulls[i] >= 0x8000_0000
  }

  ghost function Slots(vs: seq<Option<Bytes>>, nulls: seq<U32>): Bytes
    requires ValuesFit(vs) && NullsFit(vs, nulls)
  {
    if vs == [] then [] else assert vs[0] in vs; Slot(vs[0], nulls[0]) + Slots(vs[1..], nulls[1..])
  }

  /** A payload that carries `m`. */
  ghost predicate IsBind(payload: Bytes, m: BindMessage, portal: Bytes, nulls: seq<U32>, trailer: Bytes) {
    && 0 !in portal && 0 !in m.stmt && |m.formats| < 0x1_0000 && |m.values| <= 10000
    && ValuesFit(m.values) && NullsFit(m.values, nulls)
    && payload == portal + [0] + (m.stmt + [0] + (Be16(|m.formats|) + (WireFormats(m.formats) +
                  (Be16(|m.values|) + (Slots(m.values, nulls) + trailer)))))
  }

  lemma {:induction false} CStringIs(b: Bytes)
    requires ReadCString(b).Some?
    ensures var (s, rest) := ReadCString(b).value; 0 !in s && b == s + [0] + rest
  {
    if b[0] == 0 {
      assert b == [] + [0] + b[1..];
    } else {
      CStringIs(b[1..]);
      var (s, rest) := ReadCString(b[1..]).value;
      assert b == [b[0]] + b[1..];
      assert [b[0]] + (s + [0] + rest) == [b[0]] + s + [0] + rest;
    }
  }

  lemma Be16Is(b: Bytes)
    requires |b| >= 2
    ensures b == Be16(FromBe16(b[..2])) + b[2..]
  {
    assert b == [b[0], b[1]] + b[2..];
  }

  lemma Be32Is(b: Bytes)
    requires |b| >= 4
    ensures b == Be32(FromBe32(b[..4])) + b[4..]
  {
    var n := FromBe32(b[..4]);
    assert n / 0x1_0000 == FromBe16(b[..4][..2]) && n % 0x1_0000 == FromBe16(b[..4][2..]);
    assert b == [b[0], b[1], b[2], b[3]] + b[4..];
  }

  lemma {:induction false} FormatsIs(b: Bytes, n: nat)
    requires ReadFormats(b, n).Some?
    ensures var (fs, rest) := ReadFormats(b, n).value; |fs| == n && b == WireFormats(fs) + rest
  {
    if n == 0 {
      assert b == [] + b;
    } else {
      Be16Is(b);
      FormatsIs(b[2..], n - 1);
      var (fs, rest) := ReadFormats(b[2..], n - 1).value;
      var f := Signed16(FromBe16(b[..2]));
      assert ([f] + fs)[1..] == fs;
      assert Be16(Unsigned16(f)) + (WireFormats(fs) + rest) == Be16(Unsigned16(f)) + WireFormats(fs) + rest;
    }
  }

  lemma {:induction false} ValuesIs(b: Bytes, n: nat) returns (nulls: seq<U32>)
    requires ReadValues(b, n).Some?
    ensures var (vs, rest) := ReadValues(b, n).value;
      |vs| == n && ValuesFit(vs) && NullsFit(vs, nulls) && b == Slots(vs, nulls) + rest
  {
    nulls := [];
    if n == 0 {
      assert b == [] + b;
    } else {
      hide ReadValue, Slot;
      var (v, b1) := ReadValue(b).value;
      var nul := SlotIs(b);
      var more := ValuesIs(b1, n - 1);
      var (vs, rest) := ReadValues(b1, n - 1).value;
      nulls := [nul] + more;
      OneMoreSlot(v, nul, vs, more, rest);
    }
  }

  lemma OneMoreSlot(v: Option<Bytes>, nul: U32, vs: seq<Option<Bytes>>, nulls: seq<U32>, rest: Bytes)
    requires nul >= 0x8000_0000 && (v.Some? ==> |v.value| < 0x8000_0000) && ValuesFit(vs) && NullsFit(vs, nulls)
    ensures ValuesFit([v] + vs) && NullsFit([v] + vs, [nul] + nulls)
    ensures Slots([v] + vs, [nul] + nulls) + rest == Slot(v, nul) + (Slots(vs, nulls) + rest)
  {
    hide Slot;
    assert ([v] + vs)[1..] == vs && ([nul] + nulls)[1..] == nulls;
  }

  lemma SlotIs(b: Bytes) returns (nul: U32)
    requires ReadValue(b).Some?
    ensures var (v, rest) := ReadValue(b).value;
      nul >= 0x8000_0000 && (v.Some? ==> |v.value| < 0x8000_0000) && b == Slot(v, nul) + rest
  {
    Be32Is(b);
    var (v, rest) := ReadValue(b).value;
    nul := if v.None? then FromBe32(b[..4]) else 0x8000_0000;
    if v.Some? { assert b[4..] == v.value + rest; }
  }

  lemma {:induction false} SlotsOf(vs: seq<Option<Bytes>>, nulls: seq<U32>, rest: Bytes)
    requires ValuesFit(vs) && NullsFit(vs, nulls)
    ensures ReadValues(Slots(vs, nulls) + rest, |vs|) == Some((vs, rest))
  {
    hide ReadValue, Slot;
    if vs == [] {
      assert Slots(vs, nulls) + rest == rest;
    } else {
      assert vs[0] in vs;
      var more := Slots(vs[1..], nulls[1..]) + rest;
      assert Slots(vs, nulls) + rest == Slot(vs[0], nulls[0]) + more;
      SlotOf(vs[0], nulls[0], more);
      SlotsOf(vs[1..], nulls[1..], rest);
      assert vs == [vs[0]] + vs[1..];
    }
  }

  lemma SlotOf(v: Option<Bytes>, nul: U32, rest: Bytes)
    requires nul >= 0x8000_0000 && (v.Some? ==> |v.value| < 0x8000_0000)
    ensures ReadValue(Slot(v, nul) + rest) == Some((v, rest))
  {
    var b := Slot(v, nul) + rest;
    assert b[..4] == if v.None? then Be32(nul) else Be32(|v.value|);
    if v.Some? {
      assert b[4..][..|v.value|] == v.value;
      assert b[4..][|v.value|..] == rest;
    } else {
      assert b[4..] == rest;
    }
  }

  /** A payload is decoded exactly to what it carries: it is a portal and a statement name, as many
      formats and as many values as it says, at most 10000 values, a negative length for NULL; any other
      payload is refused. */
  lemma DecodeBindIff(payload: Bytes, m: BindMessage)
    ensures DecodeBind(payload) == Some(m)
      <==> exists portal, nulls, trailer :: IsBind(payload, m, portal, nulls, trailer)
  {
    if DecodeBind(payload) == Some(m) {
      var portal, nulls, trailer := Carried(payload, m);
    }
    if portal, nulls, trailer :| IsBind(payload, m, portal, nulls, trailer) {
      CarriedIsRead(payload, m, portal, nulls, trailer);
    }
  }

  lemma Carried(payload: Bytes, m: BindMessage) returns (portal: Bytes, nulls: seq<U32>, trailer: Bytes)
    requires DecodeBind(payload) == Some(m)
    ensures IsBind(payload, m, portal, nulls, trailer)
  {
    hide ReadCString, ReadFormats, ReadValues, WireFormats, Slots;
    CStringIs(payload);
    var b1 := ReadCString(payload).value.1;
    portal := ReadCString(payload).value.0;
    CStringIs(b1);
    var b2 := ReadCString(b1).value.1;
    Be16Is(b2);
    FormatsIs(b2[2..], FromBe16(b2[..2]));
    var b4 := ReadFormats(b2[2..], FromBe16(b2[..2])).value.1;
    Be16Is(b4);
    nulls := ValuesIs(b4[2..], FromBe16(b4[..2]));
    trailer := ReadValues(b4[2..], FromBe16(b4[..2])).value.1;
  }

  lemma CarriedIsRead(payload: Bytes, m: BindMessage, portal: Bytes, nulls: seq<U32>, trailer: Bytes)
    requires IsBind(payload, m, portal, nulls, trailer)
    ensures DecodeBind(payload) == Some(m)
  {
    hide WireFormats, Slots, ReadCString, ReadInt16, ReadFormats, ReadValues;
    var b5 := Slots(m.values, nulls) + trailer;
    var b4 := Be16(|m.values|) + b5;
    var b3 := WireFormats(m.formats) + b4;
    var b2 := Be16(|m.formats|) + b3;
    CStringOf(portal, m.stmt + [0] + b2);
    CStringOf(m.stmt, b2);
    Int16Of(|m.formats|, b3);
    FormatsOf(m.formats, b4);
    Int16Of(|m.values|, b5);
    SlotsOf(m.values, nulls, trailer);
  }

  /** The type OIDs at the end of a Parse: as many whole ones as are declared and present. */
  predicate Declares(tail: Bytes, oids: seq<U32>) {
    if |tail| < 2 then oids == []
    else
      var n, present := FromBe16(tail[..2]), (|tail| - 2) / 4;
      && |oids| == (if n < present then n else present)
      && forall i :: 0 <= i < |oids| ==> oids[i] == FromBe32(tail[2 + 4 * i..6 + 4 * i])
  }

  lemma {:induction false} OidsAt(b: Bytes, n: nat)
    ensures var oids := ReadOids(b, n);
      && |oids| == (if n < |b| / 4 then n else |b| / 4)
      && forall i :: 0 <= i < |oids| ==> oids[i] == FromBe32(b[4 * i..4 * i + 4])
  {
    if n > 0 && |b| >= 4 {
      OidsAt(b[4..], n - 1);
      var oids, more := ReadOids(b, n), ReadOids(b[4..], n - 1);
      forall i | 0 <= i < |oids| ensures oids[i] == FromBe32(b[4 * i..4 * i + 4]) {
        if i > 0 { assert b[4..][4 * (i - 1)..4 * (i - 1) + 4] == b[4 * i..4 * i + 4]; }
      }
    }
  }

  /** A payload that carries `m`. */
  predicate IsParse(payload: Bytes, m: ParseMessage, tail: Bytes) {
    0 !in m.stmt && 0 !in m.sql && payload == m.stmt + [0] + (m.sql + [0] + tail) && Declares(tail, m.oids)
  }

  /** The same for Parse: two names, then OIDs, which may be cut short. */
  lemma DecodeParseIff(payload: Bytes, m: ParseMessage)
    ensures DecodeParse(payload) == Some(m) <==> exists tail :: IsParse(payload, m, tail)
  {
    hide ReadCString, Declares, ReadOids;
    if DecodeParse(payload) == Some(m) {
      CStringIs(payload);
      var b1 := ReadCString(payload).value.1;
      CStringIs(b1);
      DeclaredIs(ReadCString(b1).value.1, m.oids);
      assert IsParse(payload, m, ReadCString(b1).value.1);
    }
    if tail :| IsParse(payload, m, tail) {
      CStringOf(m.stmt, m.sql + [0] + tail);
      CStringOf(m.sql, tail);
      DeclaredIs(tail, m.oids);
    }
  }

  lemma DeclaredIs(tail: Bytes, oids: seq<U32>)
    ensures Declares(tail, oids) <==> oids == if |tail| < 2 then [] else ReadOids(tail[2..], FromBe16(tail[..2]))
  {
    if |tail| >= 2 {
      var b, n := tail[2..], FromBe16(tail[..2]);
      OidsAt(b, n);
      forall i | 0 <= i < |b| / 4 ensures b[4 * i..4 * i + 4] == tail[2 + 4 * i..6 + 4 * i] { }
    }
  }

  // ----- Zipping values with declared types ----------------------------------------------

  function Max(a: nat, b: nat): nat { if a < b then b else a }

  /** The effective format of the i-th parameter: none given means text, one given applies to all. */
  function FormatAt(formats: seq<I16>, i: nat): I16 {
    if |formats| == 0 then 0
    else if |formats| == 1 then formats[0]
    else if i < |formats| then formats[i]
    else 0
  }

  function ParamAt(oids: seq<U32>, formats: seq<I16>, values: seq<Option<Bytes>>, i: nat): Param {
    Param(if i < |oids| then oids[i] else 0, if i < |values| then values[i] else None, FormatAt(formats, i))
  }

  function Zip(oids: seq<U32>, formats: seq<I16>, values: seq<Option<Bytes>>): seq<Param> {
    seq(Max(|oids|, |values|), i requires 0 <= i => ParamAt(oids, formats, values, i))
  }

  method ZipParams(oids: seq<U32>, formats: seq<I16>, values: seq<Option<Bytes>>) returns (params: seq<Param>)
    ensures params == Zip(oids, formats, values)
  {
    var n := |oids|;
    if |values| > n { n := |values|; }
    params := [];
    for i := 0 to n
      invariant |params| == i
      invariant forall j :: 0 <= j < i ==> params[j] == ParamAt(oids, formats, values, j)
    {
      var p := Param(0, None, 0);
      if i < |oids| { p := p.(oid := oids[i]); }
      if i < |values| { p := p.(value := values[i]); }
      if |formats| == 1 {
        p := p.(format := formats[0]);
      } else if |formats| > 1 && i < |formats| {
        p := p.(format := formats[i]);
      }
      params := params + [p];
    }
  }

  /** The parallel slices handed to the target driver. */
  method SplitParams(params: seq<Param>) returns (oids: seq<U32>, values: seq<Option<Bytes>>, formats: seq<I16>)
    ensures oids == Oids(params) && values == Values(params) && formats == Formats(params)
    ensures forall i :: 0 <= i < |params| ==> params[i] == Param(oids[i], values[i], formats[i])
  {
    oids, values, formats := [], [], [];
    for k := 0 to |params|
      invariant |oids| == |values| == |formats| == k
      invariant forall i :: 0 <= i < k ==> params[i] == Param(oids[i], values[i], formats[i])
    {
      oids := oids + [params[k].oid];
      values := values + [params[k].value];
      formats := formats + [params[k].format];
    }
  }

  /** The none/one/many rule for `n` parameters: no code means text for all, one code holds for all, and
      several hold one by one, with text for those left over. */
  predicate Expanded(codes: seq<I16>, n: nat, formats: seq<I16>) {
    && |formats| == n
    && (|codes| == 0 ==> forall i :: 0 <= i < n ==> formats[i] == 0)
    && (|codes| == 1 ==> forall i :: 0 <= i < n ==> formats[i] == codes[0])
    && (|codes| > 1 ==> forall i :: 0 <= i < n ==> formats[i] == if i < |codes| then codes[i] else 0)
  }

  /** What a replay of a correlated Bind sends: the bound values themselves, the declared types, the
      shorter of the two padded with NULL or with zero, and one effective format for each. Whatever
      `SplitParams` returns is determined. */
  lemma ReplayedParams(oids: seq<U32>, formats: seq<I16>, values: seq<Option<Bytes>>,
                       oids': seq<U32>, values': seq<Option<Bytes>>, formats': seq<I16>)
    requires var ps := Zip(oids, formats, values);
      && |oids'| == |values'| == |formats'| == |ps|
      && forall i :: 0 <= i < |ps| ==> ps[i] == Param(oids'[i], values'[i], formats'[i])
    ensures |values'| == |oids'| == if |oids| < |values| then |values| else |oids|
    ensures values <= values' && forall i :: |values| <= i < |values'| ==> values'[i] == None
    ensures oids <= oids' && forall i :: |oids| <= i < |oids'| ==> oids'[i] == 0
    ensures Expanded(formats, |values'|, formats')
  {
    var ps := Zip(oids, formats, values);
    assert forall i :: 0 <= i < |ps| ==> ps[i] == ParamAt(oids, formats, values, i);
  }

  // ----- Prepared statements per connection --------------------------------------------

  datatype ParseInfo = ParseInfo(sql: Bytes, oids: seq<U32>)
  type Prepared = map<ConnId, map<Bytes, ParseInfo>>

  function StmtsOf(t: Prepared, conn: ConnId): map<Bytes, ParseInfo> {
    if conn in t then t[conn] else map[]
  }

  datatype Op = Define(conn: ConnId, stmt: Bytes, info: ParseInfo) | Drop(conn: ConnId)

  function ApplyOp(t: Prepared, op: Op): Prepared {
    match op
    case Define(c, stmt, info) => t[c := StmtsOf(t, c)[stmt := info]]
    case Drop(c) => t - {c}
  }

  function ApplyAll(ops: seq<Op>): Prepared {
    if ops == [] then map[] else ApplyOp(ApplyAll(ops[..|ops| - 1]), ops[|ops| - 1])
  }

  /** The latest definition of a statement on a connection since that connection was last dropped,
      read off the history alone. */
  function Latest(ops: seq<Op>, conn: ConnId, stmt: Bytes): Option<ParseInfo> {
    if ops == [] then None else
      var op := ops[|ops| - 1];
      if op == Drop(conn) then None
      else if op.Define? && op.conn == conn && op.stmt == stmt then Some(op.info)
      else Latest(ops[..|ops| - 1], conn, stmt)
  }

  lemma {:induction false} TableIsLatest(ops: seq<Op>, conn: ConnId, stmt: Bytes)
    ensures var stmts := StmtsOf(ApplyAll(ops), conn);
      (if stmt in stmts then Some(stmts[stmt]) else None) == Latest(ops, conn, stmt)
  {
    if ops != [] { TableIsLatest(ops[..|ops| - 1], conn, stmt); }
  }

  datatype BindResult = BindResult(stmt: Bytes, sql: Bytes, params: seq<Param>)

  /** Correlating a Bind payload with the statements prepared on its connection. */
  function Correlate(stmts: map<Bytes, ParseInfo>, payload: Bytes): Option<BindResult> {
    var m :- DecodeBind(payload);
    if m.stmt !in stmts then None
    else Some(BindResult(m.stmt, stmts[m.stmt].sql, Zip(stmts[m.stmt].oids, m.formats, m.values)))
  }

  /** After any history of Parses and closes on any connections, a Bind is correlated with the latest
      Parse of its statement on its own connection, and with nothing if there is none. */
  lemma BindFidelity(ops: seq<Op>, conn: ConnId, portal: Bytes, m: BindMessage, trailer: Bytes)
    requires 0 !in portal && BindFits(m)
    ensures Correlate(StmtsOf(ApplyAll(ops), conn), WireBind(portal, m, trailer))
         == match Latest(ops, conn, m.stmt)
            case None => None
            case Some(info) => Some(BindResult(m.stmt, info.sql, Zip(info.oids, m.formats, m.values)))
  {
    hide WireBind, DecodeBind, Zip;
    BindRoundTrip(portal, m, trailer);
    TableIsLatest(ops, conn, m.stmt);
  }

  /**
   From the wire to the driver: whatever was parsed before, an encoded Bind of a statement whose OIDs do
   not outnumber the values is replayed, after splitting its parameters, with exactly the bound values,
   the OIDs of the latest Parse padded with zeros, and the formats expanded by the none/one/many rule.
   */
  lemma BindIsReplayed(ops: seq<Op>, conn: ConnId, portal: Bytes, m: BindMessage, trailer: Bytes)
    requires 0 !in portal && BindFits(m)
    requires var info := Latest(ops, conn, m.stmt); info.Some? && |info.value.oids| <= |m.values|
    ensures var info := Latest(ops, conn, m.stmt).value;
      var r := Correlate(StmtsOf(ApplyAll(ops), conn), WireBind(portal, m, trailer));
      && r.Some? && r.value.stmt == m.stmt && r.value.sql == info.sql
      && Values(r.value.params) == m.values
      && Oids(r.value.params) == info.oids + Zeros(|m.values| - |info.oids|)
      && Expanded(m.formats, |m.values|, Formats(r.value.params))
  {
    hide WireBind, DecodeBind, Zip, Correlate, Latest, ApplyAll;
    var info := Latest(ops, conn, m.stmt).value;
    BindFidelity(ops, conn, portal, m, trailer);
    var ps := Zip(info.oids, m.formats, m.values);
    ZipIs(info.oids, m.formats, m.values);
    ReplayedParams(info.oids, m.formats, m.values, Oids(ps), Values(ps), Formats(ps));
    assert Oids(ps) == info.oids + Zeros(|m.values| - |info.oids|);
  }

  function Values(ps: seq<Param>): seq<Option<Bytes>> {
    seq(|ps|, i requires 0 <= i < |ps| => ps[i].value)
  }

  function Oids(ps: seq<Param>): seq<U32> {
    seq(|ps|, i requires 0 <= i < |ps| => ps[i].oid)
  }

  function Formats(ps: seq<Param>): seq<I16> {
    seq(|ps|, i requires 0 <= i < |ps| => ps[i].format)
  }

  function Zeros(n: nat): seq<U32> { seq(n, i => 0) }

  lemma ZipIs(oids: seq<U32>, formats: seq<I16>, values: seq<Option<Bytes>>)
    ensures |Zip(oids, formats, values)| == Max(|oids|, |values|)
  {
  }

  // ----- The running code -----------------------------------------------------------------

  /** A reader's result with `acc` in front of what was read. */
  ghost function Onto<T>(acc: seq<T>, r: Option<(seq<T>, Bytes)>): Option<(seq<T>, Bytes)> {
    if r.None? then None else Some((acc + r.value.0, r.value.1))
  }

  lemma OntoNil<T>(r: Option<(seq<T>, Bytes)>)
    ensures Onto([], r) == r
  {
    if r.Some? { assert [] + r.value.0 == r.value.0; }
  }

  lemma OntoStep<T>(acc: seq<T>, x: T, r: Option<(seq<T>, Bytes)>)
    ensures Onto(acc, Onto([x], r)) == Onto(acc + [x], r)
  {
    if r.Some? { assert acc + ([x] + r.value.0) == acc + [x] + r.value.0; }
  }

  method ReadCStringLoop(buf: Bytes) returns (r: Option<(Bytes, Bytes)>)
    ensures r == ReadCString(buf)
  {
    assert buf[0..] == buf && buf[..0] == [];
    OntoNil(ReadCString(buf));
    for i := 0 to |buf|
      invariant ReadCString(buf) == Onto(buf[..i], ReadCString(buf[i..]))
    {
      assert buf[i..][1..] == buf[i + 1..];
      if buf[i] == 0 {
        assert buf[..i] + [] == buf[..i];
        return Some((buf[..i], buf[i + 1..]));
      }
      OntoStep(buf[..i], buf[i], ReadCString(buf[i + 1..]));
      assert buf[..i] + [buf[i]] == buf[..i + 1];
    }
    assert buf[|buf|..] == [];
    r := None;
  }

  method ReadFormatsLoop(buf: Bytes, n: nat) returns (r: Option<(seq<I16>, Bytes)>)
    ensures r == ReadFormats(buf, n)
  {
    var acc, p := [], buf;
    OntoNil(ReadFormats(buf, n));
    for i := 0 to n
      invariant ReadFormats(buf, n) == Onto(acc, ReadFormats(p, n - i))
    {
      if |p| < 2 { return None; }
      var f := Signed16(FromBe16(p[..2]));
      OntoStep(acc, f, ReadFormats(p[2..], n - i - 1));
      acc, p := acc + [f], p[2..];
    }
    assert acc + [] == acc;
    r := Some((acc, p));
  }

  method ReadOneValue(p: Bytes) returns (r: Option<(Option<Bytes>, Bytes)>)
    ensures r == ReadValue(p)
  {
    if |p| < 4 { return None; }
    var len := FromBe32(p[..4]);
    var q := p[4..];
    if len >= 0x8000_0000 { return Some((None, q)); }
    if len > |q| { return None; }
    r := Some((Some(q[..len]), q[len..]));
  }

  method ReadValuesLoop(buf: Bytes, n: nat) returns (r: Option<(seq<Option<Bytes>>, Bytes)>)
    ensures r == ReadValues(buf, n)
  {
    hide ReadValue;
    var acc, p := [], buf;
    OntoNil(ReadValues(buf, n));
    for i := 0 to n
      invariant ReadValues(buf, n) == Onto(acc, ReadValues(p, n - i))
    {
      var v := ReadOneValue(p);
      if v.None? { return None; }
      OntoStep(acc, v.value.0, ReadValues(v.value.1, n - i - 1));
      acc, p := acc + [v.value.0], v.value.1;
    }
    assert acc + [] == acc;
    r := Some((acc, p));
  }

  method ParseBindMessage(payload: Bytes) returns (r: Option<BindMessage>)
    ensures r == DecodeBind(payload)
  {
    var portal := ReadCStringLoop(payload);
    if portal.None? { return None; }
    var stmt := ReadCStringLoop(portal.value.1);
    if stmt.None? { return None; }
    var nf := ReadInt16(stmt.value.1);
    if nf.None? { return None; }
    var formats := ReadFormatsLoop(nf.value.1, nf.value.0);
    if formats.None? { return None; }
    var nv := ReadInt16(formats.value.1);
    if nv.None? { return None; }
    if nv.value.0 > MAX_VALUES { return None; }
    var values := ReadValuesLoop(nv.value.1, nv.value.0);
    if values.None? { return None; }
    r := Some(BindMessage(stmt.value.0, formats.value.0, values.value.0));
  }

  method ParseParseMessage(payload: Bytes) returns (r: Option<ParseMessage>)
    ensures r == DecodeParse(payload)
  {
    var stmt := ReadCStringLoop(payload);
    if stmt.None? { return None; }
    var sql := ReadCStringLoop(stmt.value.1);
    if sql.None? { return None; }
    var rest := sql.value.1;
    if |rest| < 2 { return Some(ParseMessage(stmt.value.0, sql.value.0, [])); }
    var n: nat := FromBe16(rest[..2]);
    ghost var b := rest[2..];
    rest := rest[2..];
    var oids := [];
    var k: nat := 0;
    while k < n && |rest| >= 4
      invariant k <= n
      invariant ReadOids(b, n) == oids + ReadOids(rest, n - k)
    {
      oids := oids + [FromBe32(rest[..4])];
      rest := rest[4..];
      k := k + 1;
    }
    assert oids + [] == oids;
    r := Some(ParseMessage(stmt.value.0, sql.value.0, oids));
  }

  class BindCorrelator {
    var parsed: Prepared

    constructor ()
      ensures parsed == map[]
    {
      parsed := map[];
    }

    /** A reused statement name replaces the earlier definition. */
    method OnParse(conn: ConnId, stmt: Bytes, info: ParseInfo)
      modifies this
      ensures parsed == ApplyOp(old(parsed), Define(conn, stmt, info))
    {
      if conn !in parsed { parsed := parsed[conn := map[]]; }
      parsed := parsed[conn := parsed[conn][stmt := info]];
    }

    method OnBind(conn: ConnId, payload: Bytes) returns (r: Option<BindResult>)
      ensures r == Correlate(StmtsOf(parsed, conn), payload)
    {
      var m := ParseBindMessage(payload);
      if m.None? || conn !in parsed || m.value.stmt !in parsed[conn] { return None; }
      var info := parsed[conn][m.value.stmt];
      var params := ZipParams(info.oids, m.value.formats, m.value.values);
      r := Some(BindResult(m.value.stmt, info.sql, params));
    }

    method Forget(conn: ConnId)
      modifies this
      ensures parsed == ApplyOp(old(parsed), Drop(conn))
    {
      parsed := parsed - {conn};
    }
  }
}
