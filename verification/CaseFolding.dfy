/**
 Re-casing letters does not change the class of a statement (pkg/filter/classifier.go). Only dollar
 tags with letters are excluded, because they are case-sensitive (see module `ClassifierLimits`).
 */
module CaseFolding {
  import opened Core
  import opened Lexer
  import opened Classifier

  lemma LowerTail(s: string, n: nat)
    requires n <= |s|
    ensures Lower(s)[n..] == Lower(s[n..]) && Lower(s)[..n] == Lower(s[..n])
  {
  }

  /** Lower case keeps every distinction the scanners make between characters. */
  lemma LowerKeeps(s: string)
    requires s != []
    ensures IsSpace(Lower(s)[0]) == IsSpace(s[0]) && IsDigit(Lower(s)[0]) == IsDigit(s[0])
    ensures IsIdentStart(Lower(s)[0]) == IsIdentStart(s[0])
    ensures IsIdentPart(s[0]) || Lower(s)[0] == s[0]
    ensures IsIdentPart(s[0]) ==> IsIdentPart(Lower(s)[0])
  {
  }

  lemma LowerStarts(s: string, a: char, b: char)
    requires !IsIdentPart(a) && !IsIdentPart(b)
    ensures Starts(Lower(s), a, b) == Starts(s, a, b)
  {
  }

  lemma {:induction false} LowerLine(s: string)
    ensures LineLen(Lower(s)) == LineLen(s)
  {
    if s != [] { LowerTail(s, 1); LowerKeeps(s); LowerLine(s[1..]); }
  }

  lemma {:induction false} LowerBlock(s: string, d: nat)
    ensures BlockLen(Lower(s), d) == BlockLen(s, d)
    decreases |s|
  {
    if s != [] && d > 0 {
      LowerStarts(s, '/', '*');
      LowerStarts(s, '*', '/');
      LowerTail(s, BlockAdv(s));
      LowerBlock(s[BlockAdv(s)..], BlockDepth(s, d));
    }
  }

  lemma {:induction false} LowerQuote(s: string, q: char)
    requires !IsIdentPart(q)
    ensures QuoteLen(Lower(s), q) == QuoteLen(s, q)
    decreases |s|
  {
    if s != [] {
      LowerKeeps(s);
      LowerStarts(s, q, q);
      LowerTail(s, 1);
      LowerQuote(s[1..], q);
      if |s| > 1 { LowerTail(s, 2); LowerQuote(s[2..], q); }
    }
  }

  lemma LowerConcat(a: string, b: string)
    ensures Lower(a + b) == Lower(a) + Lower(b)
  {
  }

  lemma {:induction false} LowerText(s: string)
    ensures QuoteText(Lower(s)) == Lower(QuoteText(s))
    decreases |s|
  {
    hide Lower;
    if s == [] {
      LowerNothing();
    } else {
      LowerKeeps(s);
      LowerStarts(s, '"', '"');
      LowerTail(s, 1);
      LowerNothing();
      if s[0] != '"' {
        LowerText(s[1..]);
        LowerFirst(s);
        LowerConcat([s[0]], QuoteText(s[1..]));
      } else if Starts(s, '"', '"') {
        LowerTail(s, 2);
        LowerText(s[2..]);
        LowerFirst(['"']);
        LowerConcat(['"'], QuoteText(s[2..]));
      }
    }
  }

  lemma LowerNothing()
    ensures Lower([]) == []
  {
  }

  lemma LowerFirst(s: string)
    requires s != []
    ensures Lower([s[0]]) == [Lower(s)[0]] && (s[0] == '"' ==> Lower(s)[0] == '"')
  {
  }

  lemma {:induction false} LowerIdent(s: string)
    ensures IdentLen(Lower(s)) == IdentLen(s)
  {
    if s != [] { LowerTail(s, 1); LowerKeeps(s); LowerIdent(s[1..]); }
  }

  lemma {:induction false} LowerDigits(s: string)
    ensures DigitLen(Lower(s)) == DigitLen(s)
  {
    if s != [] { LowerTail(s, 1); LowerKeeps(s); LowerDigits(s[1..]); }
  }

  // ----- Dollar tags --------------------------------------------------------------------------

  predicate IsLetter(c: char) { 'a' <= c <= 'z' || 'A' <= c <= 'Z' }

  /** If a dollar tag opens here, it has no letters. */
  predicate CaselessTag(s: string) {
    forall j :: 0 <= j < DollarOpen(s) ==> !IsLetter(s[j])
  }

  /** No unit of the tokenizer opens with a dollar tag that has letters. Placeholders, empty tags, and
      what stands inside comments and literals do not count. */
  predicate CaselessUnits(s: string)
    decreases |s|
  {
    s == [] || (CaselessTag(s) && CaselessUnits(s[UnitLen(s)..]))
  }

  /** How far one round of the semicolon scanners goes. */
  function Round(s: string): (n: nat)
    requires s != []
    ensures 0 < n <= |s|
  {
    if SkipLen(s) > 0 then SkipLen(s) else 1
  }

  /** The semicolon scanners meet no such tag either. */
  predicate CaselessScan(s: string)
    decreases |s|
  {
    s == [] || (CaselessTag(s) && CaselessScan(s[Round(s)..]))
  }

  /** No such tag opens where the classifier looks: in the scan for semicolons, and in the text or, if it
      is cut, in the pieces. */
  predicate Caseless(s: string) {
    && CaselessScan(s)
    && (if IndexSemi(s) < 0 then CaselessUnits(s) else CaselessPieces(Split(s)))
  }

  predicate CaselessPieces(ps: seq<string>) {
    forall i :: 0 <= i < |ps| ==> CaselessUnits(Trim(ps[i]))
  }

  lemma LowerOpener(s: string)
    ensures DollarOpen(Lower(s)) == DollarOpen(s)
  {
    hide Lower, IdentLen;
    if s != [] {
      LowerKeeps(s);
      LowerTail(s, 1);
      LowerIdent(s[1..]);
      var j := 1 + IdentLen(s[1..]);
      if j < |s| { LowerKeeps(s[j..]); LowerTail(s, j); }
      if |s| > 1 { LowerKeeps(s[1..]); }
    }
  }

  lemma CaselessMatch(s: string, pat: string)
    requires forall j :: 0 <= j < |pat| ==> !IsLetter(pat[j])
    ensures pat <= Lower(s) <==> pat <= s
  {
    if |pat| <= |s| {
      forall j | 0 <= j < |pat| ensures Lower(s)[j] == pat[j] <==> s[j] == pat[j] { }
    }
  }

  lemma {:induction false} LowerThrough(s: string, pat: string)
    requires forall j :: 0 <= j < |pat| ==> !IsLetter(pat[j])
    ensures ThroughLen(Lower(s), pat) == ThroughLen(s, pat)
    decreases |s|
  {
    hide Lower;
    CaselessMatch(s, pat);
    if s != [] {
      LowerTail(s, 1);
      LowerThrough(s[1..], pat);
    } else {
      LowerNothing();
    }
  }

  lemma LowerDollar(s: string)
    requires CaselessTag(s)
    ensures var o := DollarOpen(s); DollarOpen(Lower(s)) == o && DollarLen(Lower(s), o) == DollarLen(s, o)
  {
    hide Lower, DollarOpen, ThroughLen;
    var o := DollarOpen(s);
    LowerOpener(s);
    LowerTail(s, o);
    CaselessIsLower(s[..o]);
    LowerThrough(s[o..], s[..o]);
  }

  lemma CaselessIsLower(s: string)
    requires forall j :: 0 <= j < |s| ==> !IsLetter(s[j])
    ensures Lower(s) == s
  {
  }

  lemma LowerSkip(s: string)
    requires s != [] && CaselessTag(s)
    ensures SkipLen(Lower(s)) == SkipLen(s)
  {
    hide Lower, LineLen, BlockLen, QuoteLen, DollarLen, DollarOpen;
    LowerKeeps(s);
    LowerStarts(s, '-', '-');
    LowerStarts(s, '/', '*');
    LowerTail(s, 1);
    LowerQuote(s[1..], '\'');
    LowerDollar(s);
    if |s| >= 2 {
      LowerTail(s, 2);
      LowerLine(s[2..]);
      LowerBlock(s[2..], 1);
    }
  }

  lemma LowerPlain(s: string)
    requires s != []
    ensures PlainLen(Lower(s)) == PlainLen(s) && PlainToks(Lower(s)) == LowerToks(PlainToks(s))
  {
    hide Lower, QuoteLen, QuoteText, IdentLen, DigitLen;
    LowerKeeps(s);
    LowerTail(s, 1);
    LowerQuote(s[1..], '"');
    LowerText(s[1..]);
    LowerIdent(s[1..]);
    LowerDigits(s[1..]);
    LowerTail(s, PlainLen(s));
  }

  lemma LowerUnit(s: string)
    requires s != [] && CaselessTag(s)
    ensures UnitLen(Lower(s)) == UnitLen(s) && UnitToks(Lower(s)) == LowerToks(UnitToks(s))
  {
    hide SkipLen, PlainLen, PlainToks, CaselessTag;
    LowerKeeps(s);
    LowerSkip(s);
    LowerPlain(s);
  }

  lemma LowerToksConcat(a: seq<Token>, b: seq<Token>)
    ensures LowerToks(a + b) == LowerToks(a) + LowerToks(b)
  {
  }

  lemma {:induction false} LowerTokens(s: string)
    requires CaselessUnits(s)
    ensures Tokens(Lower(s)) == LowerToks(Tokens(s))
    decreases |s|
  {
    hide Lower, UnitLen, UnitToks, CaselessTag;
    if s == [] {
      LowerNothing();
    } else {
      var u := UnitLen(s);
      LowerUnit(s);
      LowerTail(s, u);
      LowerTokens(s[u..]);
      LowerToksConcat(UnitToks(s), Tokens(s[u..]));
    }
  }

  lemma LowerTwice(toks: seq<Token>)
    ensures LowerToks(Erase(LowerToks(toks))) == LowerToks(Erase(toks))
  {
    forall i | 0 <= i < |toks|
      ensures LowerToks(Erase(LowerToks(toks)))[i] == LowerToks(Erase(toks))[i]
    {
      if toks[i].Word? { assert Lower(Lower(toks[i].text)) == Lower(toks[i].text); }
    }
  }

  lemma LowerSingle(lx: Lexicon, s: string)
    requires CaselessUnits(s)
    ensures Single(lx, Lower(s)) == Single(lx, s)
  {
    hide Lower, Tokens, LowerToks, Verdict;
    LowerTokens(s);
    LowerTwice(Tokens(s));
  }

  lemma {:induction false} LowerTop(s: string, depth: nat)
    requires CaselessScan(s)
    ensures TopSemi(Lower(s), depth) == TopSemi(s, depth)
    decreases |s|
  {
    hide Lower, SkipLen, TopSemi, CaselessTag;
    if s == [] {
      LowerNothing();
    } else {
      LowerSkip(s);
      LowerKeeps(s);
      var n := SkipLen(s);
      if n > 0 {
        ScanSkip(s, depth);
        ScanSkip(Lower(s), depth);
        LowerTail(s, n);
        LowerTop(s[n..], depth);
      } else if s[0] == ';' && depth == 0 {
        ScanHit(s);
        ScanHit(Lower(s));
      } else {
        ScanChar(s, depth);
        ScanChar(Lower(s), depth);
        LowerTail(s, 1);
        LowerTop(s[1..], DepthAfter(s[0], depth));
      }
    }
  }

  lemma {:induction false} LowerTrim(s: string)
    ensures TrimLeft(Lower(s)) == Lower(TrimLeft(s)) && TrimRight(Lower(s)) == Lower(TrimRight(s))
    decreases |s|
  {
    hide Lower;
    LowerNothing();
    if s != [] {
      LowerTail(s, 1);
      LowerKeeps(s);
      LowerTrim(s[1..]);
      var n := |s| - 1;
      LowerTail(s, n);
      LowerKeeps(s[n..]);
      LowerTrim(s[..n]);
    }
  }

  lemma CaselessRest(s: string)
    requires CaselessScan(s) && s != []
    ensures CaselessScan(s[if SkipLen(s) > 0 then SkipLen(s) else 1..])
  {
  }

  lemma {:induction false} ScanSuffix(s: string, depth: nat)
    requires CaselessScan(s) && TopSemi(s, depth) >= 0
    ensures CaselessScan(s[TopSemi(s, depth) + 1..])
    decreases |s|
  {
    hide SkipLen, TopSemi, CaselessTag, CaselessScan;
    var k, n := TopSemi(s, depth), SkipLen(s);
    if s != [] { CaselessRest(s); }
    if s == [] {
      ScanEnd(depth);
    } else if n > 0 {
      ScanSkip(s, depth);
      ScanSuffix(s[n..], depth);
      assert s[n..][k - n + 1..] == s[k + 1..];
    } else if s[0] == ';' && depth == 0 {
      ScanHit(s);
    } else {
      ScanChar(s, depth);
      ScanSuffix(s[1..], DepthAfter(s[0], depth));
      assert s[1..][k..] == s[k + 1..];
    }
  }

  function LowerAll(ps: seq<string>): seq<string> {
    if ps == [] then [] else [Lower(ps[0])] + LowerAll(ps[1..])
  }

  lemma {:induction false} LowerSplit(s: string)
    requires CaselessScan(s)
    ensures Split(Lower(s)) == LowerAll(Split(s))
    decreases |s|
  {
    hide Lower, TopSemi, CaselessScan;
    LowerTop(s, 0);
    LowerNothing();
    var k := TopSemi(s, 0);
    if k >= 0 {
      LowerTail(s, k);
      LowerTail(s, k + 1);
      ScanSuffix(s, 0);
      LowerSplit(s[k + 1..]);
      assert Split(s)[1..] == Split(s[k + 1..]);
    }
  }

  lemma {:induction false} LowerAllAt(ps: seq<string>)
    ensures |LowerAll(ps)| == |ps| && forall i :: 0 <= i < |ps| ==> LowerAll(ps)[i] == Lower(ps[i])
  {
    hide Lower;
    if ps != [] { LowerAllAt(ps[1..]); }
  }

  lemma LowerTrimmed(p: string)
    ensures Trim(Lower(p)) == Lower(Trim(p))
  {
    hide Lower;
    LowerTrim(p);
    LowerTrim(TrimLeft(p));
  }

  lemma {:induction false} LowerPieces(lx: Lexicon, ps: seq<string>)
    requires CaselessPieces(ps)
    ensures PieceClasses(lx, LowerAll(ps)) == PieceClasses(lx, ps)
  {
    hide Lower, Single, CaselessUnits, Trim;
    if ps != [] {
      var p := ps[0];
      assert LowerAll(ps)[0] == Lower(p) && LowerAll(ps)[1..] == LowerAll(ps[1..]);
      LowerTrimmed(p);
      assert CaselessUnits(Trim(p));
      LowerSingle(lx, Trim(p));
      LowerPieces(lx, ps[1..]);
    }
  }

  lemma LowerBlank(s: string)
    ensures Blank(Lower(s)) == Blank(s)
  {
    forall i | 0 <= i < |s|
      ensures Lower(s)[i] in {' ', '\t', '\n', '\r'} <==> s[i] in {' ', '\t', '\n', '\r'} { }
  }

  lemma LowerIndex(s: string)
    requires CaselessScan(s)
    ensures IndexSemi(Lower(s)) == IndexSemi(s)
  {
    hide Lower, TopSemi, Blank, CaselessScan;
    LowerTop(s, 0);
    var k := TopSemi(s, 0);
    if k >= 0 {
      LowerTail(s, k + 1);
      LowerBlank(s[k + 1..]);
    }
  }

  lemma LowerClassify(lx: Lexicon, s: string)
    requires Caseless(s)
    ensures Classify(lx, Lower(s)) == Classify(lx, s)
  {
    hide Lower, IndexSemi, Single, PieceClasses, Split, CaselessScan, CaselessUnits, CaselessPieces;
    LowerIndex(s);
    if IndexSemi(s) < 0 {
      LowerSingle(lx, s);
    } else {
      LowerSplit(s);
      LowerPieces(lx, Split(s));
    }
  }

  // ----- The condition does not depend on case either -----------------------------------------------

  lemma LetterEither(s: string, t: string, j: nat)
    requires Lower(s) == Lower(t) && j < |s|
    ensures j < |t| && (IsLetter(s[j]) <==> IsLetter(t[j]))
  {
    assert |s| == |Lower(s)| == |Lower(t)| == |t|;
    assert Lower(s)[j] == Lower(t)[j];
  }

  lemma TagEither(s: string, t: string)
    requires Lower(s) == Lower(t) && CaselessTag(s)
    ensures CaselessTag(t) && |s| == |t|
  {
    hide DollarOpen, Lower;
    assert |s| == |Lower(s)| == |Lower(t)| == |t|;
    LowerOpener(s);
    LowerOpener(t);
    forall j | 0 <= j < DollarOpen(t) ensures !IsLetter(t[j]) {
      LetterEither(s, t, j);
    }
  }

  lemma {:induction false} UnitsEither(s: string, t: string)
    requires Lower(s) == Lower(t) && CaselessUnits(s)
    ensures CaselessUnits(t)
    decreases |s|
  {
    hide Lower, UnitLen, UnitToks, CaselessTag;
    assert |s| == |Lower(s)| == |Lower(t)| == |t|;
    if s != [] {
      TagEither(s, t);
      LowerUnit(s);
      LowerUnit(t);
      var u := UnitLen(s);
      LowerTail(s, u);
      LowerTail(t, u);
      UnitsEither(s[u..], t[u..]);
    }
  }

  lemma {:induction false} ScanEither(s: string, t: string)
    requires Lower(s) == Lower(t) && CaselessScan(s)
    ensures CaselessScan(t)
    decreases |s|
  {
    hide Lower, SkipLen, CaselessTag;
    assert |s| == |Lower(s)| == |Lower(t)| == |t|;
    if s != [] {
      TagEither(s, t);
      LowerSkip(s);
      LowerSkip(t);
      var n := Round(s);
      LowerTail(s, n);
      LowerTail(t, n);
      ScanEither(s[n..], t[n..]);
    }
  }

  lemma CaselessEither(s: string, t: string)
    requires Lower(s) == Lower(t) && Caseless(s)
    ensures Caseless(t)
  {
    hide Lower, IndexSemi, Split, CaselessScan, CaselessUnits, Trim, LowerAll;
    ScanEither(s, t);
    LowerIndex(s);
    LowerIndex(t);
    if IndexSemi(s) < 0 {
      UnitsEither(s, t);
    } else {
      LowerSplit(s);
      LowerSplit(t);
      var ps, qs := Split(s), Split(t);
      LowerAllAt(ps);
      LowerAllAt(qs);
      forall i | 0 <= i < |qs| ensures CaselessUnits(Trim(qs[i])) {
        assert Lower(ps[i]) == LowerAll(ps)[i] == LowerAll(qs)[i] == Lower(qs[i]);
        LowerTrimmed(ps[i]);
        LowerTrimmed(qs[i]);
        UnitsEither(Trim(ps[i]), Trim(qs[i]));
      }
    }
  }

  /** Two texts that differ only in the case of letters are classified alike. */
  lemma CaseIsIgnored(lx: Lexicon, s: string, t: string)
    requires Lower(s) == Lower(t) && Caseless(s)
    ensures Classify(lx, s) == Classify(lx, t)
  {
    hide Lower, Caseless, Classify;
    CaselessEither(s, t);
    LowerClassify(lx, s);
    LowerClassify(lx, t);
  }
}
