/**
 Where classification (pkg/filter/classifier.go) departs from what one would expect, on concrete
 texts: case-sensitive dollar tags and semicolons in double-quoted identifiers.
 */
module ClassifierLimits {
  import opened Core
  import opened Lexer
  import opened Classifier

  /** With dollar quotes case does matter: one quote closes and the other does not. */
  lemma TagsAreCaseSensitive(lx: Lexicon, s: string, t: string)
    requires s == "$a$$A$;end" && t == "$a$$a$;end"
    ensures Lower(s) == Lower(t)
    ensures Classify(lx, s) == ClassUnknown && Classify(lx, t) == ClassCommitRollback
  {
    hide Classify;
    OpenTag(lx, s);
    ClosedTag(lx, t);
  }

  lemma TagOpens(s: string)
    requires |s| > 3 && s[..3] == "$a$"
    ensures DollarOpen(s) == 3 && SkipLen(s) == 3 + ThroughLen(s[3..], "$a$")
  {
    var i := s[1..];
    assert s[0] == s[..3][0] && s[1] == s[..3][1] && s[2] == s[..3][2];
    assert IdentLen(i[1..]) == 0;
    assert IdentLen(i) == 1;
  }

  lemma OpenTag(lx: Lexicon, s: string)
    requires s == "$a$$A$;end"
    ensures Classify(lx, s) == ClassUnknown
  {
    hide ThroughLen, Classify, SkipLen, Tokens, Unquoted, ClassOf;
    TagOpens(s);
    NoClose(s[3..]);
    OneLiteral(s);
    UnquotedIsQuiet(s);
    ClassifyQuiet(lx, s);
    LiteralClass(lx);
    assert GroupClasses(lx, Groups([Str])) == [ClassOf(lx, [Str])];
  }

  lemma {:induction false} NoClose(s: string)
    requires 'a' !in s
    ensures ThroughLen(s, "$a$") == |s|
  {
    if s != [] { NoClose(s[1..]); }
    assert "$a$"[1] == 'a';
  }

  lemma OneLiteral(s: string)
    requires s != [] && s[0] == '$' && SkipLen(s) == |s|
    ensures Tokens(s) == [Str] && Unquoted(s)
  {
    hide SkipLen;
    assert s[|s|..] == [];
    assert Tokens([]) == [];
  }

  lemma ClosedTag(lx: Lexicon, s: string)
    requires s == "$a$$a$;end"
    ensures Classify(lx, s) == ClassCommitRollback
  {
    hide ThroughLen, Classify, SkipLen, Tokens, Unquoted, ClassOf, Groups, Best, GroupClasses;
    TagOpens(s);
    ClosesAtOnce(s[3..], "$a$");
    AfterLiteral(s, 6);
    EndTokens(s[6..]);
    UnquotedIsQuiet(s);
    ClassifyQuiet(lx, s);
    EndGroups(lx);
  }

  lemma ClosesAtOnce(s: string, pat: string)
    requires pat <= s
    ensures ThroughLen(s, pat) == |pat|
  {
  }

  lemma AfterLiteral(s: string, n: nat)
    requires s != [] && s[0] == '$' && 0 < n == SkipLen(s)
    ensures Tokens(s) == [Str] + Tokens(s[n..]) && Unquoted(s) == Unquoted(s[n..])
  {
    hide SkipLen;
  }

  lemma EndTokens(s: string)
    requires s == ";end"
    ensures Tokens(s) == [Semi, Word("end")] && Unquoted(s)
  {
    hide Tokens, Unquoted, NamesClosed, QuietNames, TopSemi, TokSemi;
    SemiFirst(s);
    var e: string := [];
    NameTokens(s[1..], e);
    assert s[1..] + e == s[1..] == "end";
    EmptyText(e);
  }

  lemma EmptyText(e: string)
    requires e == []
    ensures Tokens(e) == [] && Unquoted(e)
  {
    NoMoreTokens();
  }

  predicate IsName(w: string) {
    w != [] && IsIdentStart(w[0]) && forall i :: 0 <= i < |w| ==> IsIdentPart(w[i])
  }

  lemma {:induction false} NameReaches(w: string, rest: string)
    requires forall i :: 0 <= i < |w| ==> IsIdentPart(w[i])
    requires rest == [] || !IsIdentPart(rest[0])
    ensures IdentLen(w + rest) == |w|
  {
    if w == [] {
      assert w + rest == rest;
    } else {
      NameReaches(w[1..], rest);
      assert (w + rest)[1..] == w[1..] + rest;
    }
  }

  lemma NameTokens(w: string, rest: string)
    requires IsName(w) && (rest == [] || !IsIdentPart(rest[0]))
    ensures Tokens(w + rest) == [Word(w)] + Tokens(rest) && Unquoted(w + rest) == Unquoted(rest)
  {
    hide SkipLen, PlainLen, PlainToks;
    NameUnit(w, rest);
    assert (w + rest)[|w|..] == rest;
  }

  lemma NameUnit(w: string, rest: string)
    requires IsName(w) && (rest == [] || !IsIdentPart(rest[0]))
    ensures SkipLen(w + rest) == 0 && PlainLen(w + rest) == |w| && PlainToks(w + rest) == [Word(w)]
  {
    hide LineLen, BlockLen, QuoteLen, DollarLen, QuoteText, IdentLen;
    var s := w + rest;
    NameReaches(w[1..], rest);
    assert s[1..] == w[1..] + rest;
    assert s[..|w|] == w;
  }

  lemma EndGroups(lx: Lexicon)
    ensures Best(ClassUnknown, GroupClasses(lx, Groups([Str, Semi, Word("end")]))) == ClassCommitRollback
    ensures [Str] + [Semi, Word("end")] == [Str, Semi, Word("end")]
  {
    var ts := [Str, Semi, Word("end")];
    var e := [Word("end")];
    assert ts[1..] == [Semi] + e;
    assert TokSemi(ts, 0) == 1;
    assert ts[..1] == [Str] && ts[2..] == e;
    NoSemiToken(e, 0);
    assert Groups(ts) == [[Str], e];
    LiteralClass(lx);
    EndClass(lx);
    assert GroupClasses(lx, [[Str], e]) == [ClassUnknown, ClassCommitRollback];
    OneMore(ClassUnknown, ClassUnknown, [ClassCommitRollback]);
    OneMore(ClassUnknown, ClassCommitRollback, []);
  }

  lemma LiteralClass(lx: Lexicon)
    ensures ClassOf(lx, [Str]) == ClassUnknown
  {
    assert LowerToks(Erase([Str])) == [Str];
  }

  lemma EndClass(lx: Lexicon)
    ensures ClassOf(lx, [Word("end")]) == ClassCommitRollback
  {
    hide FirstOutside, Invokes;
    assert Lower("end") == "end";
    assert LowerToks(Erase([Word("end")])) == [Word("end")];
  }

  // ----- Double-quoted identifiers ---------------------------------------------------------------

  /** The semicolon scanners look into a double-quoted identifier, the tokenizer does not: a
      semicolon there makes two statements out of a text that is one name. */
  lemma QuotedIdentifiersMislead(lx: Lexicon, s: string)
    requires s == "\";end\""
    ensures Classify(lx, s) == ClassCommitRollback
    ensures Best(ClassUnknown, GroupClasses(lx, Groups(Tokens(s)))) == ClassUnknown
    ensures CutsName(s) && Lex(s) != PieceTokens(s)
  {
    hide Tokens, ClassOf, TopSemi, Split, PieceClasses, Single, PieceTokens, Lex, UnitAt, UnitLen;
    OneName(lx, s);
    TwoPieces(s);
    PiecesOf(lx, s[..1], s[2..]);
    Lexer.NameUnit(s);
    QuoteReaches(s[1..5]);
    assert s[1..5] + ['"'] == s[1..];
    UnitAtStep(s, 1);
    UnitAtIff(s, 1);
    LexOfPieces(s);
  }

  lemma OneName(lx: Lexicon, s: string)
    requires s == "\";end\""
    ensures GroupClasses(lx, Groups(Tokens(s))) == [ClassUnknown]
  {
    hide Tokens, ClassOf;
    var name: string := s[1..5];
    QuotedTokens(s, name);
    NoSemiToken([Word(name)], 0);
    NameClass(lx, name);
  }

  lemma {:induction false} NoSemiToken(ts: seq<Token>, depth: nat)
    requires Semi !in ts
    ensures TokSemi(ts, depth) == -1
  {
    if ts != [] { NoSemiToken(ts[1..], TokDepth(ts[0], depth)); }
  }

  lemma QuotedTokens(s: string, x: string)
    requires s == ['"'] + x + ['"'] && '"' !in x
    ensures Tokens(s) == [Word(x)]
  {
    hide QuoteText, QuoteLen;
    QuoteReaches(x);
    assert s[1..] == x + ['"'] && s[|s|..] == [];
    assert Tokens([]) == [];
  }

  lemma {:induction false} QuoteReaches(x: string)
    requires '"' !in x
    ensures QuoteLen(x + ['"'], '"') == |x| + 1 && QuoteText(x + ['"']) == x
  {
    var s := x + ['"'];
    if x != [] {
      QuoteReaches(x[1..]);
      assert s[1..] == x[1..] + ['"'];
    }
  }

  lemma NameClass(lx: Lexicon, name: string)
    requires name == ";end" || name == ""
    ensures ClassOf(lx, [Word(name)]) == ClassUnknown
  {
    hide FirstOutside, Invokes;
    assert Lower(name) == name;
    assert LowerToks(Erase([Word(name)])) == [Word(name)];
  }

  lemma TwoPieces(s: string)
    requires s == "\";end\""
    ensures IndexSemi(s) == 1 == TopSemi(s, 0) && Split(s) == [s[..1], s[2..]]
  {
    hide SkipLen, TopSemi, Split;
    NoSkip(s);
    ScanChar(s, 0);
    NoSkip(s[1..]);
    ScanHit(s[1..]);
    SplitCut(s, 1);
    assert s[2..][0] == 'e';
    NoSemi(s[2..]);
    SplitLast(s[2..]);
  }

  lemma NoSkip(s: string)
    requires s != [] && Calm(s[0])
    ensures SkipLen(s) == 0
  {
  }

  /** Starts neither a comment nor a literal. */
  predicate Calm(c: char) { c !in {'-', '/', '\'', '$'} }

  lemma {:induction false} NoSemi(s: string)
    requires forall i :: 0 <= i < |s| ==> Calm(s[i]) && s[i] != ';'
    ensures forall d: nat :: TopSemi(s, d) == -1
  {
    hide SkipLen, TopSemi;
    forall d: nat ensures TopSemi(s, d) == -1 {
      if s == [] {
        ScanEnd(d);
      } else {
        NoSkip(s);
        ScanChar(s, d);
        NoSemi(s[1..]);
      }
    }
  }

  lemma PiecesOf(lx: Lexicon, p: string, q: string)
    requires p == "\"" && q == "end\""
    ensures Best(ClassUnknown, PieceClasses(lx, [p, q])) == ClassCommitRollback
  {
    hide Tokens, ClassOf, Trim, PieceClasses;
    NoTrim(p);
    NoTrim(q);
    PiecesTwo(lx, p, q);
    var none: string := [];
    LoneQuote(p);
    NameClass(lx, none);
    var w := q[..3];
    NameTokens(w, q[3..]);
    assert w + q[3..] == q;
    LoneQuote(q[3..]);
    EndClasses(lx, w);
    assert [Word(w)] + [Word([])] == [Word(w), Word([])];
    OneMore(ClassUnknown, ClassUnknown, [ClassCommitRollback]);
    OneMore(ClassUnknown, ClassCommitRollback, []);
  }

  lemma NoTrim(s: string)
    requires s != [] && !IsSpace(s[0]) && !IsSpace(s[|s| - 1])
    ensures Trim(s) == s
  {
  }

  lemma PiecesTwo(lx: Lexicon, p: string, q: string)
    requires Trim(p) == p != [] && Trim(q) == q != []
    ensures PieceClasses(lx, [p, q]) == [Single(lx, p), Single(lx, q)]
  {
    hide Trim, Single;
    assert [p, q][1..] == [q] && [q][1..] == [];
    assert PieceClasses(lx, [q]) == [Single(lx, q)] + PieceClasses(lx, []);
  }

  lemma LoneQuote(s: string)
    requires s == ['"']
    ensures Tokens(s) == [Word([])]
  {
    hide SkipLen, QuoteLen, QuoteText, IdentLen, DigitLen;
    NoSkip(s);
    QuoteEnd(s[1..]);
    EmptyText(s[1..]);
  }

  lemma EndClasses(lx: Lexicon, w: string)
    requires w == "end"
    ensures ClassOf(lx, [Word(w), Word([])]) == ClassCommitRollback
  {
    hide FirstOutside, Invokes, AfterFirst;
    assert Lower(w) == w && Lower([]) == [];
    assert LowerToks(Erase([Word(w), Word([])])) == [Word(w), Word([])];
  }

  /**
   A text whose cut goes astray and whose pieces have the same tokens all the same: alignment is not
   necessary there.
   */
  lemma AstrayCanAgree(s: string)
    requires s == "\"'\"';'+'"
    ensures Astray(s) && !Aligned(s) && Lex(s) == PieceTokens(s)
  {
    hide TopSemi, UnitAt, UnitLen, AtUnit, Lex, PieceTokens, SkipLen;
    AstrayCut(s);
    UnitAtIff(s, 4);
    AstrayIff(s);
    AstrayTail(s[6..], s[5..]);
  }

  lemma AstrayCut(s: string)
    requires s == "\"'\"';'+'"
    ensures TopSemi(s, 0) == 4 && UnitAt(s, 4) == 3 && UnitLen(s[3..]) == 3
  {
    hide TopSemi, UnitAt, UnitLen, UnitToks, SkipLen;
    NoSkip(s);
    ScanChar(s, 0);
    SkippedLiteral(s[1..], "\"", s[4..]);
    ScanSkip(s[1..], 0);
    assert s[1..][3..] == s[4..];
    NoSkip(s[4..]);
    ScanHit(s[4..]);
    Lexer.NameUnit(s);
    ClosedName(s[1..], "'", s[3..]);
    UnitAtStep(s, 4);
    SkippedLiteral(s[3..], ";", s[6..]);
    UnitAtStep(s[3..], 1);
  }

  lemma SkippedLiteral(s: string, x: string, b: string)
    requires s == Quoted(x, b) && '\'' !in x && (b == [] || b[0] != '\'')
    ensures SkipLen(s) == |x| + 2 == UnitLen(s)
  {
    hide LineLen, BlockLen, QuoteLen, DollarOpen, PlainLen;
    PlainQuote(x, b);
    assert s[1..] == x + ['\''] + b;
  }

  lemma {:induction false} ClosedName(s: string, x: string, b: string)
    requires s == x + ['"'] + b && '"' !in x && (b == [] || b[0] != '"')
    ensures QuoteLen(s, '"') == |x| + 1
  {
    if x != [] {
      assert s[1..] == x[1..] + ['"'] + b;
      ClosedName(s[1..], x[1..], b);
    }
  }

  lemma AstrayTail(t: string, r: string)
    requires t == "+'" && r == "'+'"
    ensures Lex(t) == [Other] + PieceTokens(r)
  {
    hide TopSemi, UnitLen, UnitToks, SkipLen, PieceTokens;
    var e: string := [];
    EmptyText(e);
    SkippedLiteral(r, "+", e);
    LiteralTokens("+", e);
    ScanSkip(r, 0);
    assert r[3..] == e;
    ScanEnd(0);
    PieceTokensStep(r);
    OpenLiteral(t[1..]);
    PunctuationTokens(t);
    assert [Str] + [] == [Str] && [Other] + [Str] == [Other, Str];
  }

  lemma OpenLiteral(s: string)
    requires s == ['\'']
    ensures Tokens(s) == [Str]
  {
    hide LineLen, BlockLen, DollarOpen, PlainLen, IdentLen, DigitLen;
    var e := s[1..];
    assert e == [] && QuoteLen(e, '\'') == 0;
    assert SkipLen(s) == 1 && s[1..] == [];
    EmptyText(e);
  }

  lemma PunctuationTokens(s: string)
    requires s != [] && s[0] == '+'
    ensures Tokens(s) == [Other] + Tokens(s[1..])
  {
    hide SkipLen, IdentLen, DigitLen, QuoteLen, QuoteText;
    NoSkip(s);
  }
}
