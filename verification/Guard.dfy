/**
 The replay guard's two scanners (pkg/replayguard/replayguard.go): one empties quoted texts before
 patterns are matched, the other rewrites only what is outside them. Both are renderings of one
 segmentation of the text into plain and quoted parts.
 */
module Guard {

  /**
   A segmented text. `Piece` is a plain part (perhaps empty), then a quoted part between two copies
   of its opener, then the rest; `Open` ends in a quote that is never closed.
   */
  datatype Cut =
    | Last(plain: string)
    | Piece(plain: string, opener: string, body: string, rest: Cut)
    | Open(plain: string, opener: string, body: string)

  function Text(c: Cut): string {
    match c
    case Last(p) => p
    case Piece(p, o, b, rest) => p + o + b + o + Text(rest)
    case Open(p, o, b) => p + o + b
  }

  /** The quoted parts, openers included. */
  function Quotes(c: Cut): seq<string> {
    match c
    case Last(_) => []
    case Piece(_, o, b, rest) => [o + b + o] + Quotes(rest)
    case Open(_, o, b) => [o + b]
  }

  /** Empties the quoted parts; the body of an unclosed dollar quote stays. */
  function Elide(c: Cut): Cut {
    match c
    case Last(_) => c
    case Piece(p, o, _, rest) => Piece(p, o, [], Elide(rest))
    case Open(p, o, b) => Open(p, o, if o == "'" then [] else b)
  }

  function MapPlain(c: Cut, f: string -> string): Cut {
    match c
    case Last(p) => Last(f(p))
    case Piece(p, o, b, rest) => Piece(f(p), o, b, MapPlain(rest, f))
    case Open(p, o, b) => Open(f(p), o, b)
  }

  function Prepend(p: string, c: Cut): Cut { c.(plain := p + c.plain) }

  // ----- Where the text is cut ----------------------------------------------------------------

  predicate IsTagChar(c: char) {
    'a' <= c <= 'z' || 'A' <= c <= 'Z' || '0' <= c <= '9' || c == '_'
  }

  /** The offset of the '$' that ends a tag, or -1; digits may come first. */
  function TagEnd(s: string): (n: int)
    ensures -1 <= n < |s|
  {
    if s == [] then -1
    else if s[0] == '$' then 0
    else if !IsTagChar(s[0]) then -1
    else After(TagEnd(s[1..]), 1)
  }

  function After(k: int, n: nat): int { if k < 0 then -1 else k + n }

  /** The opener at the front: a quote, a dollar tag, or nothing. */
  function Opener(s: string): (o: string)
    ensures o <= s
  {
    if s == [] then []
    else if s[0] == '\'' then [s[0]]
    else if s[0] == '$' && TagEnd(s[1..]) >= 0 then s[..TagEnd(s[1..]) + 2]
    else []
  }

  /** The offset of the first quote that is not doubled, or -1. */
  function QuoteBody(s: string): (n: int)
    ensures -1 <= n < |s|
    decreases |s|
  {
    if s == [] then -1
    else if s[0] != '\'' then After(QuoteBody(s[1..]), 1)
    else if |s| > 1 && s[1] == '\'' then After(QuoteBody(s[2..]), 2)
    else 0
  }

  /** The offset of the first occurrence of `pat`, or -1. */
  function Find(s: string, pat: string): (n: int)
    ensures -1 <= n <= |s| && (n >= 0 ==> pat <= s[n..])
  {
    if pat <= s then 0 else if s == [] then -1 else After(Find(s[1..], pat), 1)
  }

  function BodyLen(s: string, o: string): (n: int)
    requires o != []
    ensures -1 <= n <= |s| - (if n < 0 then 0 else |o|) || n == -1
  {
    if o == "'" then QuoteBody(s) else Find(s, o)
  }

  function CutOf(s: string): Cut
    decreases |s|
  {
    if s == [] then Last([]) else
      var o := Opener(s);
      if o == [] then Prepend([s[0]], CutOf(s[1..])) else
        var r := s[|o|..];
        var n := BodyLen(r, o);
        if n < 0 then Open([], o, r) else Piece([], o, r[..n], CutOf(r[n + |o|..]))
  }

  /** The text with its quoted parts emptied, and with its plain parts rewritten. */
  function Strip(s: string): string { Text(Elide(CutOf(s))) }
  function Rewrite(s: string, f: string -> string): string { Text(MapPlain(CutOf(s), f)) }

  // ----- Theorems --------------------------------------------------------------------------------

  lemma PrependText(p: string, c: Cut)
    ensures Text(Prepend(p, c)) == p + Text(c)
    ensures Elide(Prepend(p, c)) == Prepend(p, Elide(c))
  {
    match c
    case Last(q) =>
    case Piece(q, o, b, rest) =>
      assert (p + q) + o + b + o + Text(rest) == p + (q + o + b + o + Text(rest));
    case Open(q, o, b) =>
      assert (p + q) + o + b == p + (q + o + b);
  }

  lemma BodyEnds(s: string, o: string)
    requires o != [] && BodyLen(s, o) >= 0 && (o == "'" || |o| > 1)
    ensures var n := BodyLen(s, o); s == s[..n] + o + s[n + |o|..]
  {
    var n := BodyLen(s, o);
    if o == "'" { QuoteThere(s); }
    assert o <= s[n..];
    assert s[n..][..|o|] == o;
  }

  lemma {:induction false} QuoteThere(s: string)
    requires QuoteBody(s) >= 0
    ensures s[QuoteBody(s)] == '\'' && (QuoteBody(s) + 1 < |s| ==> s[QuoteBody(s) + 1] != '\'')
    decreases |s|
  {
    if s[0] != '\'' {
      QuoteThere(s[1..]);
    } else if |s| > 1 && s[1] == '\'' {
      QuoteThere(s[2..]);
    }
  }

  // One step of the segmentation.

  lemma CutPlain(s: string)
    requires s != [] && Opener(s) == []
    ensures CutOf(s) == Prepend([s[0]], CutOf(s[1..]))
  {
  }

  lemma CutQuoted(s: string)
    requires s != [] && Opener(s) != []
    ensures var o := Opener(s); var r := s[|o|..]; var n := BodyLen(r, o);
      CutOf(s) == if n < 0 then Open([], o, r) else Piece([], o, r[..n], CutOf(r[n + |o|..]))
  {
  }

  lemma TextQuoted(o: string, b: string, rest: Cut)
    ensures Text(Piece([], o, b, rest)) == o + b + o + Text(rest)
    ensures Text(Open([], o, b)) == o + b
  {
    assert [] + o == o;
  }

  lemma OpenerShape(s: string)
    ensures var o := Opener(s); o != [] ==> o == "'" || |o| > 1
    ensures s != [] && Opener(s) != [] ==> Opener(s)[0] == s[0]
    ensures s != [] && s[0] == '\'' ==> Opener(s) == "'"
    ensures s != [] && s[0] == '$' ==> Opener(s) != "'"
  {
  }

  /** The segments make up the text. */
  lemma {:induction false} CutIsPartition(s: string)
    ensures Text(CutOf(s)) == s
    decreases |s|
  {
    hide Opener, BodyLen, CutOf, Text, Prepend;
    if s == [] {
      NothingCut(s);
    } else if Opener(s) == [] {
      CutPlain(s);
      CutIsPartition(s[1..]);
      PrependText([s[0]], CutOf(s[1..]));
    } else {
      var o := Opener(s);
      var r := s[|o|..];
      var n := BodyLen(r, o);
      CutQuoted(s);
      OpenerShape(s);
      assert s == o + r;
      if n < 0 {
        TextQuoted(o, r, Last([]));
      } else {
        var t := r[n + |o|..];
        BodyEnds(r, o);
        TextQuoted(o, r[..n], CutOf(t));
        CutIsPartition(t);
        assert o + r[..n] + o + t == o + (r[..n] + o + t);
      }
    }
  }

  lemma NothingCut(s: string)
    requires s == []
    ensures CutOf(s) == Last([]) && Text(Last([])) == []
  {
  }

  function Plains(c: Cut): seq<string> {
    match c
    case Last(p) => [p]
    case Piece(p, _, _, rest) => [p] + Plains(rest)
    case Open(p, _, _) => [p]
  }

  /** Plain and quoted parts in turn. */
  function Interleave(ps: seq<string>, qs: seq<string>): string {
    if ps == [] then []
    else if qs == [] then ps[0]
    else ps[0] + qs[0] + Interleave(ps[1..], qs[1..])
  }

  function Each(f: string -> string, ps: seq<string>): seq<string> {
    if ps == [] then [] else [f(ps[0])] + Each(f, ps[1..])
  }

  lemma {:induction false} TextInterleaves(c: Cut, f: string -> string)
    ensures Text(c) == Interleave(Plains(c), Quotes(c))
    ensures Text(MapPlain(c, f)) == Interleave(Each(f, Plains(c)), Quotes(c))
  {
    match c
    case Last(p) =>
      assert [p][1..] == [];
    case Open(p, o, b) =>
      assert [p][1..] == [] && [o + b][1..] == [];
      assert p + o + b + [] == p + (o + b) + [] && f(p) + o + b + [] == f(p) + (o + b) + [];
    case Piece(p, o, b, rest) =>
      TextInterleaves(rest, f);
      assert Plains(c)[1..] == Plains(rest) && Quotes(c)[1..] == Quotes(rest);
      assert Each(f, Plains(c))[1..] == Each(f, Plains(rest));
      Outside(p, o, b, Text(rest));
      Outside(f(p), o, b, Text(MapPlain(rest, f)));
  }

  lemma Outside(p: string, o: string, b: string, t: string)
    ensures p + o + b + o + t == p + (o + b + o) + t
  {
  }

  /** The text is plain and quoted parts in turn, and rewriting applies the rewriter to the plain parts
      and keeps every quoted part, byte for byte and in order. */
  lemma RewriteKeepsQuotes(sql: string, f: string -> string)
    ensures var c := CutOf(sql);
      sql == Interleave(Plains(c), Quotes(c)) && Rewrite(sql, f) == Interleave(Each(f, Plains(c)), Quotes(c))
  {
    CutIsPartition(sql);
    TextInterleaves(CutOf(sql), f);
  }

  lemma {:induction false} MapIdentity(c: Cut)
    ensures MapPlain(c, s => s) == c
  {
    match c
    case Piece(p, o, b, rest) => MapIdentity(rest);
    case _ =>
  }

  /** A rewriter that changes nothing leaves the text as it is. */
  lemma RewriteIdentity(s: string)
    ensures Rewrite(s, x => x) == s
  {
    MapIdentity(CutOf(s));
    CutIsPartition(s);
  }

  // ----- Stripping twice ------------------------------------------------------------------------------

  lemma {:induction false} ElideTwice(c: Cut)
    ensures Elide(Elide(c)) == Elide(c)
  {
    match c
    case Piece(p, o, b, rest) => ElideTwice(rest);
    case _ =>
  }

  lemma StripPlain(s: string)
    requires s != [] && Opener(s) == []
    ensures Strip(s) == [s[0]] + Strip(s[1..])
  {
    hide CutOf, Elide, Text, Prepend;
    CutPlain(s);
    PrependText([s[0]], CutOf(s[1..]));
    PrependText([s[0]], Elide(CutOf(s[1..])));
  }

  lemma StripQuoted(s: string)
    requires s != [] && Opener(s) != []
    ensures var o := Opener(s); var r := s[|o|..]; var n := BodyLen(r, o);
      Strip(s) == if n < 0 then o + (if o == "'" then [] else r) else o + o + Strip(r[n + |o|..])
  {
    hide CutOf, Text, Opener, BodyLen;
    var o := Opener(s);
    var r := s[|o|..];
    var n := BodyLen(r, o);
    CutQuoted(s);
    if n < 0 {
      TextQuoted(o, if o == "'" then [] else r, Last([]));
    } else {
      TextQuoted(o, [], Elide(CutOf(r[n + |o|..])));
      assert o + [] == o;
    }
  }

  lemma StripNothing(s: string)
    requires s == []
    ensures Strip(s) == []
  {
  }

  /** Stripping keeps the first character, and does not turn a stray '$' into an opener. */
  lemma StripHead(s: string)
    ensures (Strip(s) == []) == (s == [])
    ensures s != [] ==> Strip(s)[0] == s[0]
  {
    hide Strip, BodyLen;
    if s == [] {
      StripNothing(s);
    } else if Opener(s) == [] {
      StripPlain(s);
    } else {
      StripQuoted(s);
      OpenerShape(s);
    }
  }

  lemma {:induction false} StripTagEnd(s: string)
    requires TagEnd(s) < 0
    ensures TagEnd(Strip(s)) < 0
  {
    hide Strip;
    StripHead(s);
    if s != [] && IsTagChar(s[0]) {
      StripPlain(s);
      StripTagEnd(s[1..]);
      assert Strip(s)[1..] == Strip(s[1..]);
    }
  }

  lemma StrayStays(s: string)
    requires s != [] && Opener(s) == []
    ensures Opener([s[0]] + Strip(s[1..])) == []
  {
    hide Strip;
    var t := [s[0]] + Strip(s[1..]);
    assert t[1..] == Strip(s[1..]);
    if s[0] == '$' { StripTagEnd(s[1..]); }
  }

  lemma {:induction false} TagEndFirst(s: string, t: string)
    requires TagEnd(s) >= 0
    ensures TagEnd(s[..TagEnd(s) + 1] + t) == TagEnd(s)
  {
    var n := TagEnd(s);
    if s[0] != '$' {
      TagEndFirst(s[1..], t);
      assert (s[..n + 1] + t)[1..] == s[1..][..n] + t;
    }
  }

  /** An opener is recognized whatever comes after it. */
  lemma OpenerAgain(s: string, t: string)
    requires Opener(s) != []
    ensures Opener(Opener(s) + t) == Opener(s)
  {
    var o := Opener(s);
    if s[0] == '$' {
      var n := TagEnd(s[1..]);
      TagEndFirst(s[1..], t);
      assert (o + t)[1..] == s[1..][..n + 1] + t;
      assert (o + t)[..n + 2] == o;
    }
  }

  lemma EmptyBody(o: string, t: string)
    requires o != [] && (o == "'" ==> t == [] || t[0] != '\'')
    ensures BodyLen(o + t, o) == 0
  {
  }

  /** What is left of a quoted part after stripping is cut as an empty quoted part. */
  lemma RecutQuoted(s: string, t: string)
    requires Opener(s) != [] && (Opener(s) == "'" ==> t == [] || t[0] != '\'')
    ensures CutOf(Opener(s) + Opener(s) + t) == Piece([], Opener(s), [], CutOf(t))
  {
    hide Opener, BodyLen, CutOf;
    var o := Opener(s);
    var u := o + o + t;
    assert u == o + (o + t);
    OpenerAgain(s, o + t);
    EmptyBody(o, t);
    assert u[|o|..] == o + t && (o + t)[|o|..] == t && (o + t)[..0] == [];
    CutQuoted(u);
  }

  /** The stripped text is cut where the text is, with the quoted parts empty. */
  lemma {:induction false} StripCutsAlike(s: string)
    ensures CutOf(Strip(s)) == Elide(CutOf(s))
    decreases |s|
  {
    hide Opener, BodyLen, CutOf, Text, Prepend, Strip;
    if s == [] {
      NothingCut(s);
      StripNothing(s);
    } else if Opener(s) == [] {
      var t := Strip(s[1..]);
      StripPlain(s);
      StrayStays(s);
      CutPlain([s[0]] + t);
      assert ([s[0]] + t)[1..] == t;
      StripCutsAlike(s[1..]);
      CutPlain(s);
      PrependText([s[0]], CutOf(s[1..]));
    } else {
      var o := Opener(s);
      var r := s[|o|..];
      var n := BodyLen(r, o);
      CutQuoted(s);
      StripQuoted(s);
      OpenerShape(s);
      if n >= 0 {
        var rest := r[n + |o|..];
        StripCutsAlike(rest);
        StripHead(rest);
        if o == "'" { ClosedBefore(r); }
        RecutQuoted(s, Strip(rest));
      } else if o == "'" {
        LoneQuote();
        assert o + [] == o;
      } else {
        assert o + r == s;
      }
    }
  }

  lemma ClosedBefore(r: string)
    requires BodyLen(r, "'") >= 0
    ensures var t := r[BodyLen(r, "'") + 1..]; t == [] || t[0] != '\''
  {
    QuoteThere(r);
  }

  lemma LoneQuote()
    ensures CutOf("'") == Open([], "'", [])
  {
    assert Opener("'") == "'";
    assert "'"[1..] == [];
    assert QuoteBody([]) == -1;
  }

  lemma StripIdempotent(s: string)
    ensures Strip(Strip(s)) == Strip(s)
  {
    StripCutsAlike(s);
    ElideTwice(CutOf(s));
  }

  // ----- When the rewritten text is cut alike --------------------------------------------------

  /** No opener starts inside `p`, also when `o` follows. */
  predicate Clear(p: string, o: string) {
    p == [] || (Opener(p + o) == [] && Clear(p[1..], o))
  }

  /** What makes a segmentation the one of its text. */
  predicate WellCut(c: Cut) {
    match c
    case Last(p) => Clear(p, [])
    case Open(p, o, b) => o != [] && Opener(o) == o && Clear(p, o) && BodyLen(b, o) < 0
    case Piece(p, o, b, rest) =>
      o != [] && Opener(o) == o && Clear(p, o) && BodyLen(b + o + Text(rest), o) == |b| && WellCut(rest)
  }

  lemma {:induction false} TagEndSees(s: string, t: string, u: string)
    requires (t == [] <==> u == []) && (t != [] ==> t[0] == u[0] && !IsTagChar(t[0]))
    ensures TagEnd(s + t) < 0 <==> TagEnd(s + u) < 0
  {
    if s == [] {
      assert s + t == t && s + u == u;
    } else {
      assert (s + t)[1..] == s[1..] + t && (s + u)[1..] == s[1..] + u;
      TagEndSees(s[1..], t, u);
    }
  }

  lemma OpenerSees(s: string, t: string, u: string)
    requires s != [] && (t == [] <==> u == []) && (t != [] ==> t[0] == u[0] && !IsTagChar(t[0]))
    ensures Opener(s + t) == [] <==> Opener(s + u) == []
  {
    TagEndSees(s[1..], t, u);
    assert (s + t)[1..] == s[1..] + t && (s + u)[1..] == s[1..] + u;
  }

  /** Only the first character of what follows matters. */
  lemma {:induction false} ClearSees(p: string, t: string, u: string)
    requires (t == [] <==> u == []) && (t != [] ==> t[0] == u[0] && !IsTagChar(t[0]))
    ensures Clear(p, t) == Clear(p, u)
  {
    hide Opener;
    if p != [] {
      OpenerSees(p, t, u);
      ClearSees(p[1..], t, u);
    }
  }

  lemma OpenerFirst(o: string)
    requires o != [] && Opener(o) == o
    ensures o[0] in {'\'', '$'} && !IsTagChar(o[0]) && (o[0] == '\'' <==> o == "'")
  {
  }

  lemma {:induction false} PlainRun(q: string, u: string)
    requires Clear(q, u)
    ensures CutOf(q + u) == Prepend(q, CutOf(u))
  {
    hide CutOf, Opener;
    if q == [] {
      assert q + u == u;
    } else {
      var s := q + u;
      assert s[0] == q[0] && s[1..] == q[1..] + u;
      PlainRun(q[1..], u);
      CutPlain(s);
      assert [q[0]] + (q[1..] + CutOf(u).plain) == q + CutOf(u).plain;
    }
  }

  lemma PieceAgain(q: string, o: string, b: string, u: string)
    requires Clear(q, o) && o != [] && Opener(o) == o && BodyLen(b + o + u, o) == |b|
    ensures CutOf(q + o + b + o + u) == Piece(q, o, b, CutOf(u))
  {
    hide CutOf, Opener, BodyLen, Clear;
    var r := b + o + u;
    var s := o + r;
    OpenerAgain(o, r);
    CutQuoted(s);
    assert s[|o|..] == r && r[..|b|] == b && r[|b| + |o|..] == u;
    OpenerFirst(o);
    ClearSees(q, o, s);
    PlainRun(q, s);
    assert q + o + b + o + u == q + s && q + [] == q;
  }

  lemma OpenAgain(q: string, o: string, b: string)
    requires Clear(q, o) && o != [] && Opener(o) == o && BodyLen(b, o) < 0
    ensures CutOf(q + o + b) == Open(q, o, b)
  {
    hide CutOf, Opener, BodyLen, Clear;
    var s := o + b;
    OpenerAgain(o, b);
    CutQuoted(s);
    assert s[|o|..] == b;
    OpenerFirst(o);
    ClearSees(q, o, s);
    PlainRun(q, s);
    assert q + o + b == q + s && q + [] == q;
  }

  lemma {:induction false} WellCutIsCut(c: Cut)
    requires WellCut(c)
    ensures CutOf(Text(c)) == c
  {
    hide CutOf, Opener, BodyLen, Clear;
    match c
    case Last(p) =>
      PlainRun(p, []);
      NothingCut([]);
      assert p + [] == p;
    case Open(p, o, b) => OpenAgain(p, o, b);
    case Piece(p, o, b, rest) =>
      WellCutIsCut(rest);
      PieceAgain(p, o, b, Text(rest));
  }

  lemma PrependWell(p: string, c: Cut)
    requires WellCut(c) && |p| == 1 && Opener(p + Text(c)) == []
    ensures WellCut(Prepend(p, c))
  {
    hide Opener, BodyLen;
    var q := p + c.plain;
    assert q[1..] == c.plain;
    match c
    case Last(_) =>
      assert q + [] == p + Text(c);
    case Open(_, o, b) =>
      OpenerFirst(o);
      OpenerSees(q, o, o + b);
      assert q + (o + b) == p + Text(c);
    case Piece(_, o, b, rest) =>
      OpenerFirst(o);
      var t := o + b + o + Text(rest);
      OpenerSees(q, o, t);
      assert q + t == p + Text(c);
  }

  /** The segmentation of a text is well cut. */
  lemma {:induction false} CutIsWell(s: string)
    ensures WellCut(CutOf(s))
    decreases |s|
  {
    hide Opener, BodyLen, CutOf, Text, Prepend;
    if s == [] {
      NothingCut(s);
    } else if Opener(s) == [] {
      CutPlain(s);
      CutIsWell(s[1..]);
      CutIsPartition(s[1..]);
      assert [s[0]] + s[1..] == s;
      PrependWell([s[0]], CutOf(s[1..]));
    } else {
      var o := Opener(s);
      var r := s[|o|..];
      var n := BodyLen(r, o);
      CutQuoted(s);
      OpenerShape(s);
      OpenerAgain(s, []);
      assert o + [] == o;
      if n >= 0 {
        CutIsWell(r[n + |o|..]);
        CutIsPartition(r[n + |o|..]);
        BodyEnds(r, o);
      }
    }
  }

  lemma FindStep(s: string, pat: string)
    requires s != []
    ensures Find(s, pat) == if pat <= s then 0 else After(Find(s[1..], pat), 1)
  {
  }

  lemma SamePrefix(x: string, y: string, o: string)
    requires |o| <= |x| && |o| <= |y| && x[..|o|] == y[..|o|]
    ensures (o <= x) == (o <= y)
  {
  }

  lemma {:induction false} FindAgain(b: string, o: string, t: string, u: string)
    requires o != [] && Find(b + o + t, o) == |b|
    ensures Find(b + o + u, o) == |b|
  {
    hide Find;
    var x, y := b + o + t, b + o + u;
    FindStep(x, o);
    FindStep(y, o);
    assert x[..|o|] == y[..|o|];
    SamePrefix(x, y, o);
    if b == [] {
      assert y[..|o|] == o;
    } else {
      assert x[1..] == b[1..] + o + t && y[1..] == b[1..] + o + u;
      FindAgain(b[1..], o, t, u);
    }
  }

  lemma {:induction false} QuoteAgain(b: string, t: string, u: string)
    requires QuoteBody(b + "'" + t) == |b| && (u == [] || u[0] != '\'')
    ensures QuoteBody(b + "'" + u) == |b|
    decreases |b|
  {
    var x, y := b + "'" + t, b + "'" + u;
    if b == [] {
      assert y == "'" + u;
    } else if b[0] != '\'' {
      assert x[1..] == b[1..] + "'" + t && y[1..] == b[1..] + "'" + u;
      QuoteAgain(b[1..], t, u);
    } else {
      assert x[0] == '\'' == y[0] && |b| > 1;
      assert b[1] == x[1] == y[1];
      assert x[2..] == b[2..] + "'" + t && y[2..] == b[2..] + "'" + u;
      QuoteAgain(b[2..], t, u);
    }
  }

  predicate StartsQuote(t: string) { t != [] && t[0] == '\'' }

  /** A quoted part ends where it did unless it is a literal and a quote follows it now. */
  lemma BodyIff(b: string, o: string, t: string, u: string)
    requires o != [] && BodyLen(b + o + t, o) == |b|
    ensures BodyLen(b + o + u, o) == |b| <==> !(o == "'" && StartsQuote(u))
  {
    if o == "'" {
      if StartsQuote(u) {
        var s := b + o + u;
        assert s[|b| + 1] == u[0];
        if QuoteBody(s) >= 0 { QuoteThere(s); }
      } else {
        QuoteAgain(b, t, u);
      }
    } else {
      FindAgain(b, o, t, u);
    }
  }

  // ----- The rewritten text --------------------------------------------------------------------

  predicate EndsOpen(c: Cut) {
    match c case Last(_) => false case Open(_, _, _) => true case Piece(_, _, _, rest) => EndsOpen(rest)
  }

  /** One segmentation after another; an open quote swallows what follows. */
  function Join(c: Cut, d: Cut): Cut {
    match c
    case Last(q) => Prepend(q, d)
    case Piece(p, o, b, rest) => Piece(p, o, b, Join(rest, d))
    case Open(_, _, _) => c
  }

  /** The segmentations of the rewritten plain parts, spliced with the old quoted parts. */
  function Splice(c: Cut, f: string -> string): Cut {
    match c
    case Last(p) => CutOf(f(p))
    case Piece(p, o, b, rest) => Join(CutOf(f(p)), Piece([], o, b, Splice(rest, f)))
    case Open(p, o, b) => Join(CutOf(f(p)), Open([], o, b))
  }

  /** A '$' followed by tag characters to the end. */
  predicate Dangling(q: string) {
    q != [] && ((q[0] == '$' && forall i :: 1 <= i < |q| ==> IsTagChar(q[i])) || Dangling(q[1..]))
  }

  /** A text so cut can be followed by the opener `o`: it leaves no quote open, a literal at its end does
      not meet a quote, and a '$' at its end does not become a tag. */
  predicate Meets(c: Cut, o: string) {
    match c
    case Last(q) => !(o != [] && o[0] == '$' && Dangling(q))
    case Piece(_, o', _, rest) => Meets(rest, o) && !(o' == "'" == o && rest == Last([]))
    case Open(_, _, _) => false
  }

  /** The first character of the rewritten text is a quote. */
  predicate FirstIsQuote(c: Cut, f: string -> string) {
    var x := f(c.plain);
    if x != [] then x[0] == '\'' else !c.Last? && c.opener == "'"
  }

  /** Every rewritten plain part can stand between its neighbours. */
  predicate Fits(c: Cut, f: string -> string) {
    match c
    case Last(_) => true
    case Open(p, o, _) => Meets(CutOf(f(p)), o)
    case Piece(p, o, _, rest) =>
      Meets(CutOf(f(p)), o) && !(o == "'" && FirstIsQuote(rest, f)) && Fits(rest, f)
  }

  lemma {:induction false} TagEndDangling(s: string)
    ensures TagEnd(s + "$") >= 0 <==> TagEnd(s) >= 0 || forall i :: 0 <= i < |s| ==> IsTagChar(s[i])
  {
    if s != [] {
      assert (s + "$")[1..] == s[1..] + "$";
      TagEndDangling(s[1..]);
      assert forall i :: 1 <= i < |s| ==> s[i] == s[1..][i - 1];
    }
  }

  lemma OpenerDangling(p: string, o: string)
    requires p != [] && o != [] && Opener(o) == o && Opener(p) == []
    ensures Opener(p + o) == [] <==> !(o[0] == '$' && p[0] == '$' && forall i :: 1 <= i < |p| ==> IsTagChar(p[i]))
  {
    OpenerFirst(o);
    var u := [o[0]];
    OpenerSees(p, o, u);
    assert (p + u)[1..] == p[1..] + u;
    assert forall i :: 1 <= i < |p| ==> p[i] == p[1..][i - 1];
    if o[0] == '$' {
      TagEndDangling(p[1..]);
    } else {
      assert p + [] == p;
      TagEndQuote(p[1..]);
    }
  }

  lemma {:induction false} TagEndQuote(s: string)
    ensures TagEnd(s + "'") < 0 <==> TagEnd(s) < 0
  {
    if s != [] {
      assert (s + "'")[1..] == s[1..] + "'";
      TagEndQuote(s[1..]);
    }
  }

  lemma {:induction false} ClearIff(p: string, o: string)
    requires Clear(p, []) && o != [] && Opener(o) == o
    ensures Clear(p, o) <==> !(o[0] == '$' && Dangling(p))
  {
    hide Opener;
    if p != [] {
      assert p + [] == p;
      OpenerDangling(p, o);
      ClearIff(p[1..], o);
    }
  }

  lemma {:induction false} JoinText(d: Cut, e: Cut)
    ensures Text(Join(d, e)) == if EndsOpen(d) then Text(d) else Text(d) + Text(e)
    ensures EndsOpen(d) ==> Join(d, e) == d
  {
    match d
    case Last(q) => PrependText(q, e);
    case Open(_, _, _) =>
    case Piece(p, o, b, rest) =>
      JoinText(rest, e);
      if !EndsOpen(rest) {
        assert p + o + b + o + (Text(rest) + Text(e)) == p + o + b + o + Text(rest) + Text(e);
      }
  }

  lemma NoTextNoParts(c: Cut)
    requires WellCut(c)
    ensures Text(c) == [] <==> c == Last([])
  {
  }

  /** A quoted part with something after it. */
  predicate Quoting(e: Cut, o: string) {
    !e.Last? && e.plain == [] && e.opener == o && o != [] && Opener(o) == o
  }

  lemma QuotingText(e: Cut, o: string)
    requires Quoting(e, o)
    ensures Text(e) != [] && Text(e)[0] == o[0]
  {
  }

  /** Following a text by a quoted part keeps both well cut exactly if they meet. */
  lemma {:induction false} JoinWell(d: Cut, e: Cut, o: string)
    requires WellCut(d) && !EndsOpen(d) && Quoting(e, o)
    ensures WellCut(Join(d, e)) <==> Meets(d, o) && WellCut(e)
  {
    hide Opener, BodyLen, Clear, Dangling;
    match d
    case Last(q) =>
      ClearIff(q, o);
      ClearNothing(o);
      assert q + [] == q;
    case Piece(p, o', b, rest) =>
      JoinWell(rest, e, o);
      JoinText(rest, e);
      var t, u := Text(rest), Text(Join(rest, e));
      BodyIff(b, o', t, u);
      FollowsQuote(b, o', t);
      NoTextNoParts(rest);
      QuotingText(e, o);
      OpenerFirst(o);
      assert t != [] ==> u[0] == t[0];
      assert t == [] ==> u == Text(e);
  }

  lemma ClearNothing(o: string)
    ensures Clear([], o)
  {
  }

  lemma FollowsQuote(b: string, o: string, t: string)
    requires o != [] && BodyLen(b + o + t, o) == |b|
    ensures o == "'" ==> !StartsQuote(t)
  {
    BodyIff(b, o, t, t);
  }

  lemma FirstIs(c: Cut, f: string -> string)
    requires WellCut(c)
    ensures FirstIsQuote(c, f) <==> StartsQuote(Text(MapPlain(c, f)))
  {
    hide BodyLen, Clear;
    if !c.Last? { OpenerFirst(c.opener); }
  }

  /** Both halves of the exact condition, on segmentations. */
  lemma {:induction false} SpliceIff(c: Cut, f: string -> string)
    requires WellCut(c)
    ensures (Text(Splice(c, f)) == Text(MapPlain(c, f)) && WellCut(Splice(c, f))) <==> Fits(c, f)
  {
    hide Opener, BodyLen, Clear, CutOf, Meets;
    var x := f(c.plain);
    var d := CutOf(x);
    CutIsPartition(x);
    CutIsWell(x);
    match c
    case Last(p) =>
    case Open(p, o, b) =>
      var e := Open([], o, b);
      JoinText(d, e);
      SplicePart(d, e, o);
      TextQuoted(o, b, Last([]));
      ClearNothing(o);
      assert x + o + b == x + (o + b);
    case Piece(p, o, b, rest) =>
      var r, m := Splice(rest, f), Text(MapPlain(rest, f));
      var e := Piece([], o, b, r);
      SpliceIff(rest, f);
      JoinText(d, e);
      SplicePart(d, e, o);
      TextQuoted(o, b, r);
      ClearNothing(o);
      BodyIff(b, o, Text(rest), Text(r));
      FirstIs(rest, f);
      SpliceTail(x, o, b, Text(r), m);
  }

  lemma SplicePart(d: Cut, e: Cut, o: string)
    requires WellCut(d) && Quoting(e, o)
    ensures !EndsOpen(d) ==> (WellCut(Join(d, e)) <==> Meets(d, o) && WellCut(e))
    ensures EndsOpen(d) ==> !Meets(d, o)
  {
    hide WellCut;
    if EndsOpen(d) { OpenNeverMeets(d, o); } else { JoinWell(d, e, o); }
  }

  lemma {:induction false} OpenNeverMeets(d: Cut, o: string)
    requires EndsOpen(d)
    ensures !Meets(d, o)
  {
    match d
    case Piece(_, _, _, rest) => OpenNeverMeets(rest, o);
    case Open(_, _, _) =>
  }

  lemma SpliceTail(x: string, o: string, b: string, t: string, m: string)
    ensures x + (o + b + o + t) == x + o + b + o + m <==> t == m
    ensures o != [] ==> x != x + o + b + o + m
  {
    var h := x + o + b + o;
    assert x + (o + b + o + t) == h + t;
    assert t == (h + t)[|h|..] && m == (h + m)[|h|..];
    assert |x + o + b + o + m| == |x| + |o| + |b| + |o| + |m|;
  }

  /**
   Where the rewritten text is cut. It is cut into the segments of the rewritten plain parts and the old
   quoted parts if and only if every rewritten part fits between its neighbours: it leaves no quote open,
   no quote meets a quote, and no '$' at its end becomes a tag.
   */
  lemma RewriteCutIff(s: string, f: string -> string)
    ensures CutOf(Rewrite(s, f)) == Splice(CutOf(s), f) <==> Fits(CutOf(s), f)
  {
    hide CutOf, Splice, Fits, MapPlain, WellCut;
    var c := CutOf(s);
    CutIsWell(s);
    SpliceIff(c, f);
    CutIsWell(Rewrite(s, f));
    CutIsPartition(Rewrite(s, f));
    if Fits(c, f) { WellCutIsCut(Splice(c, f)); }
  }

  /** The quoted parts of the spliced segmentation: those of the rewritten parts and the old ones, in
      turn. */
  function SplicedQuotes(c: Cut, f: string -> string): seq<string> {
    match c
    case Last(p) => Quotes(CutOf(f(p)))
    case Open(p, o, b) => Quotes(CutOf(f(p))) + [o + b]
    case Piece(p, o, b, rest) => Quotes(CutOf(f(p))) + [o + b + o] + SplicedQuotes(rest, f)
  }

  lemma {:induction false} JoinQuotes(d: Cut, e: Cut)
    requires !EndsOpen(d)
    ensures Quotes(Join(d, e)) == Quotes(d) + Quotes(e)
  {
    match d
    case Last(q) =>
      assert [] + Quotes(e) == Quotes(e);
    case Piece(p, o, b, rest) =>
      JoinQuotes(rest, e);
      assert [o + b + o] + (Quotes(rest) + Quotes(e)) == [o + b + o] + Quotes(rest) + Quotes(e);
  }

  lemma {:induction false} QuotesOfSplice(c: Cut, f: string -> string)
    requires Fits(c, f)
    ensures Quotes(Splice(c, f)) == SplicedQuotes(c, f)
  {
    hide CutOf;
    var d := CutOf(f(c.plain));
    match c
    case Last(p) =>
    case Open(p, o, b) =>
      if EndsOpen(d) { OpenNeverMeets(d, o); }
      JoinQuotes(d, Open([], o, b));
    case Piece(p, o, b, rest) =>
      if EndsOpen(d) { OpenNeverMeets(d, o); }
      QuotesOfSplice(rest, f);
      JoinQuotes(d, Piece([], o, b, Splice(rest, f)));
      assert Quotes(d) + ([o + b + o] + SplicedQuotes(rest, f)) == Quotes(d) + [o + b + o] + SplicedQuotes(rest, f);
  }

  // ----- Stripping the rewritten text ----------------------------------------------------------

  lemma {:induction false} ElideJoin(d: Cut, e: Cut)
    ensures Elide(Join(d, e)) == Join(Elide(d), Elide(e))
  {
    match d
    case Last(q) => PrependText(q, e);
    case Open(_, _, _) =>
    case Piece(_, _, _, rest) => ElideJoin(rest, e);
  }

  lemma {:induction false} ElideSplice(c: Cut, f: string -> string)
    ensures Elide(Splice(Elide(c), f)) == Elide(Splice(c, f))
    ensures Fits(Elide(c), f) == Fits(c, f)
  {
    hide CutOf, Meets;
    var d := CutOf(f(c.plain));
    match c
    case Last(_) =>
    case Open(_, o, b) =>
      ElideJoin(d, Open([], o, b));
      ElideJoin(d, Elide(Open([], o, b)));
    case Piece(_, o, b, rest) =>
      ElideSplice(rest, f);
      assert Elide(rest).plain == rest.plain;
      ElideJoin(d, Piece([], o, b, Splice(rest, f)));
      ElideJoin(d, Piece([], o, [], Splice(Elide(rest), f)));
  }

  /** If it fits, the stripped rewritten text does not depend on what the quoted parts of the text held:
      it makes no difference whether they are emptied before. */
  lemma RewriteStripCommute(s: string, f: string -> string)
    requires Fits(CutOf(s), f)
    ensures Quotes(CutOf(Rewrite(s, f))) == SplicedQuotes(CutOf(s), f)
    ensures Strip(Rewrite(s, f)) == Strip(Rewrite(Strip(s), f))
  {
    hide CutOf, Splice, Elide, Text, Fits, MapPlain;
    var c := CutOf(s);
    RewriteCutIff(s, f);
    QuotesOfSplice(c, f);
    StripCutsAlike(s);
    ElideSplice(c, f);
    RewriteCutIff(Strip(s), f);
  }

  // ----- Several rewriters in turn -------------------------------------------------------------

  function RewriteAll(s: string, fs: seq<string -> string>): string
    decreases |fs|
  {
    if fs == [] then s else RewriteAll(Rewrite(s, fs[0]), fs[1..])
  }

  function SpliceAll(c: Cut, fs: seq<string -> string>): Cut
    decreases |fs|
  {
    if fs == [] then c else SpliceAll(Splice(c, fs[0]), fs[1..])
  }

  /** Every rewriter fits what the ones before have left. */
  predicate FitsAll(c: Cut, fs: seq<string -> string>)
    decreases |fs|
  {
    fs == [] || (Fits(c, fs[0]) && FitsAll(Splice(c, fs[0]), fs[1..]))
  }

  /** The text is cut as spliced after every one of the rewriters. */
  ghost predicate CutAtEveryStage(s: string, fs: seq<string -> string>) {
    forall n :: 0 <= n <= |fs| ==> CutOf(RewriteAll(s, fs[..n])) == SpliceAll(CutOf(s), fs[..n])
  }

  lemma {:induction false} FittingStages(s: string, fs: seq<string -> string>, n: nat)
    requires n <= |fs| && FitsAll(CutOf(s), fs)
    ensures CutOf(RewriteAll(s, fs[..n])) == SpliceAll(CutOf(s), fs[..n])
    decreases |fs|
  {
    hide CutOf, Rewrite, Splice, Fits;
    if n > 0 {
      RewriteCutIff(s, fs[0]);
      FittingStages(Rewrite(s, fs[0]), fs[1..], n - 1);
      assert fs[..n][1..] == fs[1..][..n - 1];
    }
  }

  lemma {:induction false} FirstMisfit(s: string, fs: seq<string -> string>) returns (n: nat)
    requires !FitsAll(CutOf(s), fs)
    ensures n <= |fs| && CutOf(RewriteAll(s, fs[..n])) != SpliceAll(CutOf(s), fs[..n])
    decreases |fs|
  {
    hide CutOf, Rewrite, Splice, Fits;
    RewriteCutIff(s, fs[0]);
    if Fits(CutOf(s), fs[0]) {
      var k := FirstMisfit(Rewrite(s, fs[0]), fs[1..]);
      n := k + 1;
      assert fs[..n][1..] == fs[1..][..k];
    } else {
      n := 1;
      assert fs[..1][1..] == [];
    }
  }

  /** The exact condition for the patterns of the guard, which are applied in turn: the text is cut as
      spliced at every stage if and only if every rewriter fits. */
  lemma RewriteAllIff(s: string, fs: seq<string -> string>)
    ensures CutAtEveryStage(s, fs) <==> FitsAll(CutOf(s), fs)
  {
    hide CutOf, RewriteAll, SpliceAll, FitsAll;
    if FitsAll(CutOf(s), fs) {
      forall n | 0 <= n <= |fs| ensures CutOf(RewriteAll(s, fs[..n])) == SpliceAll(CutOf(s), fs[..n]) {
        FittingStages(s, fs, n);
      }
    } else {
      var n := FirstMisfit(s, fs);
    }
  }

  /** What a time function does that follows a literal: it is replaced by a literal with a cast, and that
      joins the old one. */
  lemma JoinedLiterals(s: string, now: string, cast: string, f: string -> string)
    requires s == "'a'" + now && now == "now()" && f([]) == [] && f(now) == "'t'" + cast
    requires '\'' !in cast && '$' !in cast
    ensures Quotes(CutOf(s)) == ["'a'"] && !Fits(CutOf(s), f)
    ensures Rewrite(s, f) == "'a''t'" + cast
    ensures Quotes(CutOf(Rewrite(s, f))) == ["'a''t'"] != SplicedQuotes(CutOf(s), f)
  {
    hide CutOf, Fits, MapPlain, SplicedQuotes, Quotes;
    LiteralThenNow(s, now);
    RewrittenNow(now, f);
    JoinedText(cast);
  }

  lemma LiteralThenNow(s: string, now: string)
    requires s == "'a'" + now && now == "now()"
    ensures CutOf(s) == Piece([], "'", "a", Last(now))
  {
    hide CutOf;
    PlainText(now);
    OneLiteral("a", now);
    assert "'" + "a" + "'" + now == s;
  }

  lemma RewrittenNow(now: string, f: string -> string)
    requires f([]) == [] && "'t'" <= f(now)
    ensures var c := Piece([], "'", "a", Last(now));
      && Quotes(c) == ["'a'"] && !Fits(c, f) && "'a'" in SplicedQuotes(c, f)
      && Text(MapPlain(c, f)) == "'a'" + f(now)
  {
    hide CutOf, Meets;
    assert "'" + "a" + "'" == "'a'";
    assert [] + "'" + "a" + "'" + f(now) == "'a'" + f(now);
  }

  lemma JoinedText(cast: string)
    requires '\'' !in cast && '$' !in cast
    ensures "'a'" + ("'t'" + cast) == "'a''t'" + cast
    ensures Quotes(CutOf("'a''t'" + cast)) == ["'a''t'"]
  {
    hide CutOf, Quotes;
    PlainText(cast);
    assert !StartsQuote(cast) by { if cast != [] { assert cast[0] in cast; } }
    TwiceQuoted("a''t", cast);
    assert "'" + "a''t" + "'" + cast == "'a''t'" + cast;
    OneQuote("'", "a''t", cast);
    assert "'" + "a''t" + "'" == "'a''t'";
  }

  lemma OneQuote(o: string, b: string, p: string)
    ensures Quotes(Piece([], o, b, Last(p))) == [o + b + o]
  {
  }

  lemma PlainText(p: string)
    requires '\'' !in p && '$' !in p
    ensures CutOf(p) == Last(p)
  {
    hide CutOf;
    ClearOfQuotes(p);
    PlainRun(p, []);
    NothingCut([]);
    assert p + [] == p;
  }

  lemma {:induction false} ClearOfQuotes(p: string)
    requires '\'' !in p && '$' !in p
    ensures Clear(p, [])
  {
    if p != [] {
      assert p[0] in p;
      ClearOfQuotes(p[1..]);
    }
  }

  lemma OneLiteral(x: string, u: string)
    requires '\'' !in x && !StartsQuote(u)
    ensures CutOf("'" + x + "'" + u) == Piece([], "'", x, CutOf(u))
  {
    hide CutOf;
    QuoteFreeBody(x, u);
    PieceAgain([], "'", x, u);
    assert [] + "'" + x + "'" + u == "'" + x + "'" + u;
  }

  lemma {:induction false} QuoteFreeBody(x: string, u: string)
    requires '\'' !in x && !StartsQuote(u)
    ensures QuoteBody(x + "'" + u) == |x|
  {
    var s := x + "'" + u;
    if x != [] {
      assert s[1..] == x[1..] + "'" + u;
      QuoteFreeBody(x[1..], u);
    }
  }

  lemma TwiceQuoted(x: string, u: string)
    requires x == "a''t" && !StartsQuote(u)
    ensures CutOf("'" + x + "'" + u) == Piece([], "'", x, CutOf(u))
  {
    hide CutOf;
    var s := x + "'" + u;
    QuoteFreeBody("t", u);
    assert s[1..][2..] == "t" + "'" + u;
    assert QuoteBody(s[1..]) == 3;
    PieceAgain([], "'", x, u);
    assert [] + "'" + x + "'" + u == "'" + x + "'" + u;
  }

  // ----- The running code -----------------------------------------------------------------------------

  method ParseDollarTag(sql: string, pos: nat) returns (tag: string)
    ensures tag == if pos < |sql| && sql[pos] == '$' then Opener(sql[pos..]) else []
  {
    if pos >= |sql| || sql[pos] != '$' { return []; }
    ghost var s := sql[pos..];
    assert s[1..] == sql[pos + 1..];
    for j := pos + 1 to |sql|
      invariant TagEnd(s[1..]) == After(TagEnd(sql[j..]), j - pos - 1)
    {
      assert sql[j..][1..] == sql[j + 1..];
      if sql[j] == '$' {
        assert s[..j + 1 - pos] == sql[pos..j + 1];
        return sql[pos..j + 1];
      }
      if !IsTagChar(sql[j]) { return []; }
    }
    return [];
  }

  /** The library search from `start`. */
  method IndexFrom(sql: string, start: nat, pat: string) returns (n: int)
    requires start <= |sql|
    ensures n == Find(sql[start..], pat)
  {
    var i := start;
    while i < |sql| && !(pat <= sql[i..])
      invariant start <= i <= |sql|
      invariant Find(sql[start..], pat) == After(Find(sql[i..], pat), i - start)
    {
      assert sql[i..][1..] == sql[i + 1..];
      i := i + 1;
    }
    return if pat <= sql[i..] then i - start else -1;
  }

  /** What stripping makes of a text that starts inside a literal. */
  function InStrip(s: string): string {
    var n := QuoteBody(s);
    if n < 0 then [] else "'" + Strip(s[n + 1..])
  }

  lemma StripOpens(s: string)
    requires s != [] && s[0] == '\''
    ensures Strip(s) == "'" + InStrip(s[1..])
  {
    hide Strip;
    StripQuoted(s);
    var n := QuoteBody(s[1..]);
    if n >= 0 { assert "'" + ("'" + Strip(s[1..][n + 1..])) == "'" + "'" + Strip(s[1..][n + 1..]); }
  }

  lemma InStripStep(s: string)
    requires s != []
    ensures InStrip(s) == if s[0] != '\'' then InStrip(s[1..])
                          else if |s| > 1 && s[1] == '\'' then InStrip(s[2..])
                          else "'" + Strip(s[1..])
  {
    hide Strip;
    var n := QuoteBody(s);
    if s[0] != '\'' {
      if n >= 0 { assert s[1..][n..] == s[n + 1..]; }
    } else if |s| > 1 && s[1] == '\'' {
      if n >= 0 { assert s[2..][n - 1..] == s[n + 1..]; }
    }
  }

  function StripFrom(inString: bool, s: string): string {
    if inString then InStrip(s) else Strip(s)
  }

  /** One round of the loop inside a literal: what is written, and where it goes on. */
  method StripInside(sql: string, i: nat) returns (add: string, j: nat, inString: bool)
    requires i < |sql|
    ensures i < j <= |sql| && InStrip(sql[i..]) == add + StripFrom(inString, sql[j..])
  {
    hide Strip, InStrip;
    ghost var s := sql[i..];
    InStripStep(s);
    assert s[1..] == sql[i + 1..];
    add, j, inString := [], i + 1, true;
    if sql[i] == '\'' {
      if i + 1 < |sql| && sql[i + 1] == '\'' {
        assert s[2..] == sql[i + 2..];
        j := i + 2;
      } else {
        add, inString := "'", false;
        return;
      }
    }
    assert [] + InStrip(sql[j..]) == InStrip(sql[j..]);
  }

  /** The same outside. After an unclosed dollar quote nothing is left to do. */
  method StripOutside(sql: string, i: nat) returns (add: string, j: nat, inString: bool)
    requires i < |sql|
    ensures i < j <= |sql| && Strip(sql[i..]) == add + StripFrom(inString, sql[j..])
  {
    hide Strip, InStrip, Opener;
    ghost var s := sql[i..];
    assert s[1..] == sql[i + 1..];
    if sql[i] == '\'' {
      StripOpens(s);
      return "'", i + 1, true;
    }
    var tag := ParseDollarTag(sql, i);
    if tag == [] {
      NoOpener(s);
      StripPlain(s);
      return [sql[i]], i + 1, false;
    }
    add, j := StripDollar(sql, i, tag);
    inString := false;
  }

  lemma TagBody(s: string)
    requires s != [] && s[0] == '$' && Opener(s) != []
    ensures var o := Opener(s); o != "'" && BodyLen(s[|o|..], o) == Find(s[|o|..], o)
  {
    OpenerShape(s);
  }

  method StripDollar(sql: string, i: nat, tag: string) returns (add: string, j: nat)
    requires i < |sql| && sql[i] == '$' && Opener(sql[i..]) == tag != []
    ensures i < j <= |sql| && Strip(sql[i..]) == add + Strip(sql[j..])
  {
    hide Strip, Opener, BodyLen, Find;
    ghost var s := sql[i..];
    StripQuoted(s);
    var inner := i + |tag|;
    assert s[|tag|..] == sql[inner..];
    TagBody(s);
    var end := IndexFrom(sql, inner, tag);
    if end < 0 {
      j := |sql|;
      InStripEnd(sql[j..]);
      add := tag + sql[inner..];
      assert add + [] == add;
    } else {
      j := inner + end + |tag|;
      assert sql[inner..][end + |tag|..] == sql[j..];
      add := tag + tag;
    }
  }

  method StripStringLiterals(sql: string) returns (out: string)
    ensures out == Strip(sql)
  {
    hide Strip, InStrip;
    out := [];
    var inString, i := false, 0;
    ghost var goal := Strip(sql);
    assert sql[0..] == sql && [] + goal == goal;
    while i < |sql|
      invariant 0 <= i <= |sql|
      invariant goal == out + StripFrom(inString, sql[i..])
    {
      var add;
      ghost var had := out;
      if inString {
        add, i, inString := StripInside(sql, i);
      } else {
        add, i, inString := StripOutside(sql, i);
      }
      out := out + add;
      assert had + (add + StripFrom(inString, sql[i..])) == out + StripFrom(inString, sql[i..]);
    }
    InStripEnd(sql[i..]);
    assert out + [] == out;
  }

  lemma NoOpener(s: string)
    requires s != [] && s[0] != '\'' && (s[0] == '$' ==> Opener(s) == [])
    ensures Opener(s) == []
  {
  }

  lemma InStripEnd(s: string)
    requires s == []
    ensures InStrip(s) == [] && Strip(s) == []
  {
  }

  /** Rewriting a text that starts with plain `p`, and one that starts inside a literal. */
  function Pending(p: string, s: string, f: string -> string): string {
    Text(MapPlain(Prepend(p, CutOf(s)), f))
  }

  function InKeep(s: string, f: string -> string): string {
    var n := QuoteBody(s);
    if n < 0 then s else s[..n + 1] + Rewrite(s[n + 1..], f)
  }

  lemma PendingNone(s: string, f: string -> string)
    ensures Pending([], s, f) == Rewrite(s, f)
  {
    hide CutOf;
    assert [] + CutOf(s).plain == CutOf(s).plain;
    assert Prepend([], CutOf(s)) == CutOf(s);
  }

  lemma PendingPlain(p: string, s: string, f: string -> string)
    requires s != [] && Opener(s) == []
    ensures Pending(p, s, f) == Pending(p + [s[0]], s[1..], f)
  {
    hide CutOf, MapPlain, Text;
    CutPlain(s);
    var c := CutOf(s[1..]);
    assert p + ([s[0]] + c.plain) == p + [s[0]] + c.plain;
    assert Prepend(p, CutOf(s)) == Prepend(p + [s[0]], c);
  }

  lemma PendingEnd(p: string, s: string, f: string -> string)
    requires s == []
    ensures Pending(p, s, f) == f(p) && InKeep(s, f) == []
  {
    assert p + [] == p;
  }

  lemma PendingQuoted(p: string, s: string, f: string -> string)
    requires s != [] && Opener(s) != []
    ensures var o := Opener(s); var r := s[|o|..]; var n := BodyLen(r, o);
      Pending(p, s, f) == f(p) + o + if n < 0 then r else r[..n] + o + Rewrite(r[n + |o|..], f)
  {
    hide CutOf, Opener, BodyLen;
    CutQuoted(s);
    var o := Opener(s);
    var r := s[|o|..];
    var n := BodyLen(r, o);
    assert p + [] == p;
    if n >= 0 {
      var t := Rewrite(r[n + |o|..], f);
      assert f(p) + o + r[..n] + o + t == f(p) + o + (r[..n] + o + t);
    }
  }

  lemma PendingOpens(p: string, s: string, f: string -> string)
    requires s != [] && s[0] == '\''
    ensures Pending(p, s, f) == f(p) + "'" + InKeep(s[1..], f)
  {
    hide Pending, Rewrite;
    PendingQuoted(p, s, f);
    var r := s[1..];
    var n := QuoteBody(r);
    if n >= 0 {
      QuoteThere(r);
      assert r[..n] + "'" == r[..n + 1];
    }
  }

  lemma InKeepStep(s: string, f: string -> string)
    requires s != []
    ensures InKeep(s, f) == if s[0] != '\'' then [s[0]] + InKeep(s[1..], f)
                            else if |s| > 1 && s[1] == '\'' then s[..2] + InKeep(s[2..], f)
                            else "'" + Rewrite(s[1..], f)
  {
    hide Rewrite;
    var n := QuoteBody(s);
    if s[0] != '\'' {
      InKeepShift(s, 1, f);
    } else if |s| > 1 && s[1] == '\'' {
      InKeepShift(s, 2, f);
    } else {
      assert s[..1] == "'";
    }
  }

  lemma InKeepShift(s: string, k: nat, f: string -> string)
    requires k <= |s| && QuoteBody(s) == After(QuoteBody(s[k..]), k)
    ensures InKeep(s, f) == s[..k] + InKeep(s[k..], f)
  {
    hide Rewrite, QuoteBody;
    var n := QuoteBody(s[k..]);
    if n >= 0 {
      assert s[k..][n + 1..] == s[n + k + 1..];
      ShiftParts(s, k, n + 1, Rewrite(s[n + k + 1..], f));
    } else {
      assert s == s[..k] + s[k..];
    }
  }

  lemma ShiftParts(s: string, k: nat, m: nat, t: string)
    requires k + m <= |s|
    ensures s[..k + m] + t == s[..k] + (s[k..][..m] + t)
  {
    assert s[..k + m] == s[..k] + s[k..][..m];
  }

  /** What is still to be written when the loop is at `i` and the current segment began at `seg`. */
  function RewriteFrom(inString: bool, sql: string, seg: nat, i: nat, f: string -> string): string
    requires seg <= i <= |sql|
  {
    if inString then sql[seg..i] + InKeep(sql[i..], f) else Pending(sql[seg..i], sql[i..], f)
  }

  method RewriteInside(sql: string, seg: nat, i: nat, f: string -> string)
    returns (add: string, seg': nat, j: nat, inString: bool)
    requires seg <= i < |sql|
    ensures seg' <= j <= |sql| && i < j
    ensures RewriteFrom(true, sql, seg, i, f) == add + RewriteFrom(inString, sql, seg', j, f)
  {
    hide Pending, InKeep, Rewrite;
    ghost var s := sql[i..];
    InKeepStep(s, f);
    assert s[1..] == sql[i + 1..];
    add, seg', inString := [], seg, true;
    if sql[i] == '\'' {
      if i + 1 < |sql| && sql[i + 1] == '\'' {
        j := i + 2;
        assert s[2..] == sql[j..];
        assert sql[seg..i] + (s[..2] + InKeep(sql[j..], f)) == [] + (sql[seg..j] + InKeep(sql[j..], f));
      } else {
        add, seg', j, inString := sql[seg..i + 1], i + 1, i + 1, false;
        PendingNone(sql[j..], f);
        assert sql[j..j] == [];
        assert sql[seg..i] + ("'" + Rewrite(sql[j..], f)) == add + Rewrite(sql[j..], f);
      }
    } else {
      j := i + 1;
      assert sql[seg..i] + ([s[0]] + InKeep(sql[j..], f)) == [] + (sql[seg..j] + InKeep(sql[j..], f));
    }
  }

  method RewriteOutside(sql: string, seg: nat, i: nat, f: string -> string)
    returns (add: string, seg': nat, j: nat, inString: bool, stop: bool)
    requires seg <= i < |sql|
    ensures seg' <= j <= |sql| && i < j
    ensures if stop then RewriteFrom(false, sql, seg, i, f) == add
            else RewriteFrom(false, sql, seg, i, f) == add + RewriteFrom(inString, sql, seg', j, f)
  {
    hide Pending, InKeep, Rewrite, Opener;
    ghost var s := sql[i..];
    assert s[1..] == sql[i + 1..];
    add, seg', j, inString, stop := [], seg, i + 1, false, false;
    if sql[i] == '\'' {
      PendingOpens(sql[seg..i], s, f);
      add, seg', inString := f(sql[seg..i]) + "'", i + 1, true;
      assert sql[j..j] == [] && [] + InKeep(sql[j..], f) == InKeep(sql[j..], f);
      return;
    }
    var tag := ParseDollarTag(sql, i);
    if tag == [] {
      NoOpener(s);
      PendingPlain(sql[seg..i], s, f);
      assert sql[seg..i] + [s[0]] == sql[seg..j];
      assert [] + Pending(sql[seg..j], sql[j..], f) == Pending(sql[seg..j], sql[j..], f);
    } else {
      add, j, stop := RewriteDollar(sql, seg, i, tag, f);
      seg' := j;
      PendingNone(sql[j..], f);
      assert sql[j..j] == [];
    }
  }

  method RewriteDollar(sql: string, seg: nat, i: nat, tag: string, f: string -> string)
    returns (add: string, j: nat, stop: bool)
    requires seg <= i < |sql| && sql[i] == '$' && Opener(sql[i..]) == tag != []
    ensures i < j <= |sql|
    ensures Pending(sql[seg..i], sql[i..], f) == if stop then add else add + Rewrite(sql[j..], f)
  {
    hide Pending, Rewrite, Opener, BodyLen, Find;
    ghost var s := sql[i..];
    var p := sql[seg..i];
    PendingQuoted(p, s, f);
    var inner := i + |tag|;
    assert s[|tag|..] == sql[inner..];
    TagBody(s);
    var end := IndexFrom(sql, inner, tag);
    if end < 0 {
      add, j, stop := f(p) + tag + sql[inner..], |sql|, true;
    } else {
      j, stop := inner + end + |tag|, false;
      add := f(p) + tag + sql[inner..inner + end] + tag;
      ghost var r := sql[inner..];
      assert r[end + |tag|..] == sql[j..] && r[..end] == sql[inner..inner + end];
      Regroup(f(p) + tag, r[..end], tag, Rewrite(sql[j..], f));
    }
  }

  lemma Regroup(a: string, b: string, c: string, d: string)
    ensures a + (b + c + d) == a + b + c + d
  {
  }

  /** The rewriter stands for the pattern and its replacement. */
  method ReplaceOutsideStrings(sql: string, f: string -> string) returns (out: string)
    ensures out == Rewrite(sql, f)
    ensures var c := CutOf(sql);
      sql == Interleave(Plains(c), Quotes(c)) && out == Interleave(Each(f, Plains(c)), Quotes(c))
  {
    RewriteKeepsQuotes(sql, f);
    out := RewriteLoop(sql, f);
  }

  method RewriteLoop(sql: string, f: string -> string) returns (out: string)
    ensures out == Rewrite(sql, f)
  {
    hide Rewrite, InKeep, Pending, RewriteFrom;
    out := [];
    var inString, seg, i := false, 0, 0;
    ghost var goal := Rewrite(sql, f);
    RewriteBegins(sql, f);
    assert [] + goal == goal;
    while i < |sql|
      invariant 0 <= seg <= i <= |sql|
      invariant goal == out + RewriteFrom(inString, sql, seg, i, f)
    {
      var add, stop := [], false;
      ghost var had := out;
      if inString {
        add, seg, i, inString := RewriteInside(sql, seg, i, f);
      } else {
        add, seg, i, inString, stop := RewriteOutside(sql, seg, i, f);
      }
      out := out + add;
      if stop { return; }
      assert had + (add + RewriteFrom(inString, sql, seg, i, f)) == out + RewriteFrom(inString, sql, seg, i, f);
    }
    RewriteEnds(inString, sql, seg, i, f);
    out := out + if inString then sql[seg..] else f(sql[seg..]);
  }

  lemma RewriteBegins(sql: string, f: string -> string)
    ensures RewriteFrom(false, sql, 0, 0, f) == Rewrite(sql, f)
  {
    hide Rewrite, Pending;
    PendingNone(sql, f);
    assert sql[0..] == sql && sql[0..0] == [];
  }

  lemma RewriteEnds(inString: bool, sql: string, seg: nat, i: nat, f: string -> string)
    requires seg <= i == |sql|
    ensures RewriteFrom(inString, sql, seg, i, f) == if inString then sql[seg..] else f(sql[seg..])
  {
    hide Pending, InKeep;
    PendingEnd(sql[seg..i], sql[i..], f);
    assert sql[seg..i] == sql[seg..] && sql[seg..] + [] == sql[seg..];
  }
}
