/**
 The three SQL scanners of the classifier (pkg/filter/classifier.go): the tokenizer and the two
 semicolon scanners. Each is an index loop; their meaning is given by functions on the remaining
 text. The main result is that they agree: module `Classifier` builds on `TopLevelCut`.

 Text is ASCII: letters outside it are identifier characters and have no case.
 */
module Lexer {

  datatype Token = Word(text: string) | LParen | RParen | Dot | Str | Semi | Other

  /** The tokenizer does not tell a semicolon from other punctuation. */
  function Erase(toks: seq<Token>): seq<Token> {
    seq(|toks|, i requires 0 <= i < |toks| => if toks[i].Semi? then Other else toks[i])
  }

  predicate IsSpace(c: char) { c in {' ', '\t', '\n', '\r', '\U{000b}', '\U{000c}'} }
  predicate IsDigit(c: char) { '0' <= c <= '9' }
  predicate IsIdentStart(c: char) {
    c == '_' || 'a' <= c <= 'z' || 'A' <= c <= 'Z' || c as int >= 0x80
  }
  predicate IsIdentPart(c: char) { IsIdentStart(c) || IsDigit(c) }

  predicate Starts(s: string, a: char, b: char) { |s| >= 2 && s[0] == a && s[1] == b }

  // ----- How far each lexical unit reaches ----------------------------------------------

  /** To the end of the line, newline excluded. */
  function LineLen(s: string): (n: nat)
    ensures n <= |s|
  {
    if s == [] || s[0] == '\n' then 0 else 1 + LineLen(s[1..])
  }

  /** To the end of a block comment, `d` comments deep. */
  function BlockLen(s: string, d: nat): (n: nat)
    ensures n <= |s|
    decreases |s|
  {
    if s == [] || d == 0 then 0
    else BlockAdv(s) + BlockLen(s[BlockAdv(s)..], BlockDepth(s, d))
  }

  function BlockAdv(s: string): (n: nat)
    requires s != []
    ensures 0 < n <= |s|
  {
    if Starts(s, '/', '*') || Starts(s, '*', '/') then 2 else 1
  }

  function BlockDepth(s: string, d: nat): nat
    requires d > 0
  {
    if Starts(s, '/', '*') then d + 1 else if Starts(s, '*', '/') then d - 1 else d
  }

  /** To the end of a quoted text, closing quote included; a doubled quote does not close it. */
  function QuoteLen(s: string, q: char): (n: nat)
    ensures n <= |s|
    decreases |s|
  {
    if s == [] then 0
    else if s[0] != q then 1 + QuoteLen(s[1..], q)
    else if Starts(s, q, q) then 2 + QuoteLen(s[2..], q)
    else 1
  }

  /** The text of a double-quoted identifier, doubled quotes undone. */
  function QuoteText(s: string): string
    decreases |s|
  {
    if s == [] then []
    else if s[0] != '"' then [s[0]] + QuoteText(s[1..])
    else if Starts(s, '"', '"') then ['"'] + QuoteText(s[2..])
    else []
  }

  function IdentLen(s: string): (n: nat)
    ensures n <= |s|
  {
    if s == [] || !IsIdentPart(s[0]) then 0 else 1 + IdentLen(s[1..])
  }

  function DigitLen(s: string): (n: nat)
    ensures n <= |s|
  {
    if s == [] || !IsDigit(s[0]) then 0 else 1 + DigitLen(s[1..])
  }

  /** The length of the dollar-quote opener at the front of `s`, or 0. */
  function DollarOpen(s: string): (n: nat)
    ensures n <= |s| && (n > 0 ==> n >= 2)
  {
    if s == [] || s[0] != '$' then 0 else
      var j := IdentLen(s[1..]);
      if 1 + j < |s| && s[1 + j] == '$' && (j == 0 || IsIdentStart(s[1])) then j + 2 else 0
  }

  /** To the end of the first occurrence of `pat` in `s`, or to the end of `s`. */
  function ThroughLen(s: string, pat: string): (n: nat)
    ensures n <= |s|
    decreases |s|
  {
    if pat <= s then |pat| else if s == [] then 0 else 1 + ThroughLen(s[1..], pat)
  }

  /** A dollar-quoted text whose opener has length `o`: the close tag repeats the opener. */
  function DollarLen(s: string, o: nat): (n: nat)
    requires o <= |s|
    ensures o <= n <= |s|
  {
    o + ThroughLen(s[o..], s[..o])
  }

  /** The parts every scanner must skip as a whole: comments and quoted texts. 0 is none. */
  function SkipLen(s: string): (n: nat)
    ensures n <= |s|
  {
    if Starts(s, '-', '-') then 2 + LineLen(s[2..])
    else if Starts(s, '/', '*') then 2 + BlockLen(s[2..], 1)
    else if s != [] && s[0] == '\'' then 1 + QuoteLen(s[1..], '\'')
    else if DollarOpen(s) > 0 then DollarLen(s, DollarOpen(s))
    else 0
  }

  /** A unit that is not skipped as a whole: an identifier, a parameter, or one character. */
  function PlainLen(s: string): (n: nat)
    requires s != []
    ensures 0 < n <= |s|
  {
    if s[0] == '"' then 1 + QuoteLen(s[1..], '"')
    else if s[0] == '$' then 1 + DigitLen(s[1..])
    else if IsIdentStart(s[0]) then 1 + IdentLen(s[1..])
    else 1
  }

  function PlainToks(s: string): (ts: seq<Token>)
    requires s != []
    ensures |ts| <= 1
  {
    if IsSpace(s[0]) then []
    else if s[0] == '"' then [Word(QuoteText(s[1..]))]
    else if s[0] == '(' then [LParen]
    else if s[0] == ')' then [RParen]
    else if s[0] == '.' then [Dot]
    else if s[0] == ';' then [Semi]
    else if IsIdentStart(s[0]) then [Word(s[..PlainLen(s)])]
    else [Other]
  }

  /** How much of `s` the tokenizer consumes next, and the tokens it makes of it: none for spaces
      and comments, one for anything else. */
  function UnitLen(s: string): (n: nat)
    requires s != []
    ensures 0 < n <= |s|
  {
    if SkipLen(s) > 0 then SkipLen(s) else PlainLen(s)
  }

  function UnitToks(s: string): (ts: seq<Token>)
    requires s != []
    ensures |ts| <= 1
  {
    if SkipLen(s) == 0 then PlainToks(s)
    else if s[0] == '\'' || s[0] == '$' then [Str]
    else []
  }

  function Tokens(s: string): seq<Token>
    decreases |s|
  {
    if s == [] then [] else UnitToks(s) + Tokens(s[UnitLen(s)..])
  }

  /** What the tokenizer returns. */
  function Lex(s: string): seq<Token> { Erase(Tokens(s)) }

  // ----- The semicolon scanners ------------------------------------------------------------

  function DepthAfter(c: char, depth: nat): nat {
    if c == '(' then depth + 1 else if c == ')' && depth > 0 then depth - 1 else depth
  }

  /** The offset of the first semicolon outside parentheses, comments and quoted texts, or -1. */
  function TopSemi(s: string, depth: nat): (k: int)
    ensures -1 <= k < |s| && (k >= 0 ==> s[k] == ';')
    decreases |s|
  {
    if s == [] then -1
    else if SkipLen(s) > 0 then After(TopSemi(s[SkipLen(s)..], depth), SkipLen(s))
    else if s[0] == ';' && depth == 0 then 0
    else After(TopSemi(s[1..], DepthAfter(s[0], depth)), 1)
  }

  function After(k: int, n: nat): int { if k < 0 then -1 else k + n }

  /** The pieces between top-level semicolons; no empty piece after a final semicolon. */
  function Split(s: string): seq<string>
    decreases |s|
  {
    var k := TopSemi(s, 0);
    if k >= 0 then [s[..k]] + Split(s[k + 1..])
    else if s == [] then [] else [s]
  }

  predicate IsBlank(c: char) { c in {' ', '\t', '\n', '\r'} }

  predicate Blank(s: string) {
    forall i :: 0 <= i < |s| ==> IsBlank(s[i])
  }

  /** The fast check: the first top-level semicolon, if something follows it. */
  function IndexSemi(s: string): int {
    var k := TopSemi(s, 0);
    if k >= 0 && Blank(s[k + 1..]) then -1 else k
  }

  // One step of the semicolon scan.

  lemma ScanSkip(s: string, depth: nat)
    requires s != [] && SkipLen(s) > 0
    ensures TopSemi(s, depth) == After(TopSemi(s[SkipLen(s)..], depth), SkipLen(s))
  {
  }

  lemma ScanHit(s: string)
    requires s != [] && SkipLen(s) == 0 && s[0] == ';'
    ensures TopSemi(s, 0) == 0
  {
  }

  lemma ScanChar(s: string, depth: nat)
    requires s != [] && SkipLen(s) == 0 && !(s[0] == ';' && depth == 0)
    ensures TopSemi(s, depth) == After(TopSemi(s[1..], DepthAfter(s[0], depth)), 1)
  {
  }

  lemma ScanEnd(depth: nat)
    ensures TopSemi([], depth) == -1
  {
  }

  // ----- Cutting the text ----------------------------------------------------------------------
  // A unit cut short reaches to the cut, any other unit is unchanged.

  function Min(a: nat, b: nat): nat { if a <= b then a else b }

  lemma {:induction false} LineCut(s: string, m: nat)
    requires m <= |s|
    ensures LineLen(s[..m]) == Min(LineLen(s), m)
  {
    if s != [] && m > 0 {
      LineCut(s[1..], m - 1);
      assert s[..m][1..] == s[1..][..m - 1];
    }
  }

  lemma {:induction false} BlockCut(s: string, d: nat, m: nat)
    requires m <= |s|
    ensures BlockLen(s[..m], d) == Min(BlockLen(s, d), m)
    decreases |s|
  {
    if s != [] && d != 0 && m > 0 {
      var n := BlockAdv(s);
      if n <= m {
        BlockCut(s[n..], BlockDepth(s, d), m - n);
        assert s[..m][n..] == s[n..][..m - n];
      }
    }
  }

  lemma {:induction false} QuoteCut(s: string, q: char, m: nat)
    requires m <= |s|
    ensures QuoteLen(s[..m], q) == Min(QuoteLen(s, q), m)
    decreases |s|
  {
    if s != [] && m > 0 {
      if s[0] != q {
        QuoteCut(s[1..], q, m - 1);
        assert s[..m][1..] == s[1..][..m - 1];
      } else if m >= 2 && Starts(s, q, q) {
        QuoteCut(s[2..], q, m - 2);
        assert s[..m][2..] == s[2..][..m - 2];
      }
    }
  }

  lemma {:induction false} IdentCut(s: string, m: nat)
    requires m <= |s|
    ensures IdentLen(s[..m]) == Min(IdentLen(s), m) && DigitLen(s[..m]) == Min(DigitLen(s), m)
  {
    if s != [] && m > 0 {
      IdentCut(s[1..], m - 1);
      assert s[..m][1..] == s[1..][..m - 1];
    }
  }

  lemma {:induction false} TooShort(s: string, pat: string)
    requires |s| < |pat|
    ensures ThroughLen(s, pat) == |s|
  {
    if s != [] { TooShort(s[1..], pat); }
  }

  lemma {:induction false} ThroughCut(s: string, pat: string, m: nat)
    requires m <= |s|
    ensures ThroughLen(s[..m], pat) == Min(ThroughLen(s, pat), m)
    decreases |s|
  {
    if m < |pat| {
      TooShort(s[..m], pat);
      ThroughLong(s, pat);
    } else if pat <= s {
      assert pat <= s[..m];
    } else if m > 0 {
      ThroughCut(s[1..], pat, m - 1);
      assert s[..m][1..] == s[1..][..m - 1];
      assert pat <= s[..m] ==> pat <= s;
    }
  }

  lemma {:induction false} ThroughLong(s: string, pat: string)
    ensures ThroughLen(s, pat) >= Min(|s|, |pat|)
    decreases |s|
  {
    if !(pat <= s) && s != [] { ThroughLong(s[1..], pat); }
  }

  lemma {:induction false} IdentStops(s: string, j: nat)
    requires j < |s| && !IsIdentPart(s[j])
    ensures DigitLen(s) <= IdentLen(s) <= j
  {
    DigitsAreIdent(s);
    if j > 0 { IdentStops(s[1..], j - 1); }
  }

  lemma {:induction false} DigitsAreIdent(s: string)
    ensures DigitLen(s) <= IdentLen(s)
  {
    if s != [] && IsDigit(s[0]) { DigitsAreIdent(s[1..]); }
  }

  /** A character that can be neither inside an identifier nor part of an opener's first two
      characters, other than on its own. */
  predicate Solid(c: char) { IsSpace(c) || c == '\'' || c == ';' }

  predicate SolidCut(s: string, m: nat) {
    0 < m <= |s| && (Solid(s[m - 1]) || (m < |s| && Solid(s[m])))
  }

  lemma NamesEndBeforeCut(s: string, m: nat)
    requires SolidCut(s, m) && (s[0] == '$' || IsIdentStart(s[0]))
    ensures IdentLen(s[1..]) <= m - 1 && DigitLen(s[1..]) <= m - 1
    ensures IdentLen(s[..m][1..]) == IdentLen(s[1..]) && DigitLen(s[..m][1..]) == DigitLen(s[1..])
  {
    IdentStops(s[1..], if Solid(s[m - 1]) then m - 2 else m - 1);
    IdentCut(s[1..], m - 1);
    assert s[..m][1..] == s[1..][..m - 1];
  }

  lemma OpenerCut(s: string, m: nat)
    requires SolidCut(s, m) && s[0] == '$'
    ensures DollarOpen(s[..m]) == DollarOpen(s) <= m
  {
    NamesEndBeforeCut(s, m);
    var j := IdentLen(s[1..]);
    if 1 + j == m < |s| { SolidEnd(s, m); }
  }

  lemma {:induction false} IdentChars(s: string, i: nat)
    requires i < IdentLen(s)
    ensures IsIdentPart(s[i])
  {
    if i > 0 { IdentChars(s[1..], i - 1); }
  }

  /** If a name fills the text up to the cut, the solid character is the one after the cut. */
  lemma SolidEnd(s: string, m: nat)
    requires SolidCut(s, m) && s[0] == '$' && 1 + IdentLen(s[1..]) == m < |s|
    ensures Solid(s[m])
  {
    if m >= 2 { IdentChars(s[1..], m - 2); }
  }

  lemma DollarCut(s: string, m: nat, o: nat)
    requires o <= m <= |s|
    ensures DollarLen(s[..m], o) == Min(DollarLen(s, o), m)
  {
    ThroughCut(s[o..], s[..o], m - o);
    assert s[..m][o..] == s[o..][..m - o] && s[..m][..o] == s[..o];
  }

  lemma SkipCut(s: string, m: nat)
    requires SolidCut(s, m)
    ensures SkipLen(s[..m]) == Min(SkipLen(s), m)
  {
    hide DollarOpen, DollarLen, LineLen, BlockLen, QuoteLen;
    var t := s[..m];
    if Starts(s, '-', '-') {
      LineCut(s[2..], m - 2);
      assert t[2..] == s[2..][..m - 2];
    } else if Starts(s, '/', '*') {
      BlockCut(s[2..], 1, m - 2);
      assert t[2..] == s[2..][..m - 2];
    } else if s[0] == '\'' {
      QuoteCut(s[1..], '\'', m - 1);
      assert t[1..] == s[1..][..m - 1];
    } else if s[0] == '$' {
      OpenerCut(s, m);
      DollarCut(s, m, DollarOpen(s));
    } else {
      NotDollar(s);
      NotDollar(t);
    }
  }

  lemma NotDollar(s: string)
    requires s != [] && s[0] != '$'
    ensures DollarOpen(s) == 0
  {
  }

  lemma PlainCut(s: string, m: nat)
    requires SolidCut(s, m) && s[0] != '"'
    ensures PlainLen(s[..m]) == PlainLen(s) <= m && PlainToks(s[..m]) == PlainToks(s)
  {
    if s[0] == '$' || IsIdentStart(s[0]) { NamesEndBeforeCut(s, m); }
    assert s[..m][..PlainLen(s)] == s[..PlainLen(s)];
  }

  /** A quoted text is closed: it has a quote that is not doubled. */
  predicate Closes(s: string)
    decreases |s|
  {
    if s == [] then false
    else if s[0] != '"' then Closes(s[1..])
    else !Starts(s, '"', '"') || Closes(s[2..])
  }

  lemma {:induction false} ClosesAtQuote(s: string)
    ensures !Closes(s) ==> QuoteLen(s, '"') == |s|
    ensures Closes(s) ==> QuoteLen(s, '"') > 0 && s[QuoteLen(s, '"') - 1] == '"'
    decreases |s|
  {
    if s != [] {
      if s[0] != '"' {
        ClosesAtQuote(s[1..]);
      } else if Starts(s, '"', '"') {
        ClosesAtQuote(s[2..]);
      }
    }
  }

  lemma {:induction false} NameTextCut(s: string, m: nat)
    requires QuoteLen(s, '"') <= m <= |s|
    ensures QuoteText(s[..m]) == QuoteText(s) && (Closes(s) ==> Closes(s[..m]))
    decreases |s|
  {
    if s != [] {
      if s[0] != '"' {
        NameTextCut(s[1..], m - 1);
        assert s[..m][1..] == s[1..][..m - 1];
      } else if Starts(s, '"', '"') {
        NameTextCut(s[2..], m - 2);
        assert s[..m][2..] == s[2..][..m - 2];
      }
    }
  }

  lemma NameUnit(s: string)
    requires s != [] && s[0] == '"'
    ensures UnitLen(s) == 1 + QuoteLen(s[1..], '"') && UnitToks(s) == [Word(QuoteText(s[1..]))]
  {
    hide QuoteLen, QuoteText, LineLen, BlockLen, DollarLen;
  }

  lemma NameCut(s: string, m: nat)
    requires s != [] && s[0] == '"' && UnitLen(s) <= m <= |s|
    ensures UnitLen(s[..m]) == UnitLen(s) && UnitToks(s[..m]) == UnitToks(s)
    ensures Closes(s[1..]) ==> Closes(s[..m][1..])
  {
    hide UnitLen, UnitToks;
    NameUnit(s);
    NameUnit(s[..m]);
    QuoteCut(s[1..], '"', m - 1);
    NameTextCut(s[1..], m - 1);
    assert s[..m][1..] == s[1..][..m - 1];
  }

  /** Cutting at a solid character leaves a unit as it is or, unless it is a quoted identifier, cuts it
      short without changing its tokens. */
  lemma UnitCut(s: string, m: nat)
    requires SolidCut(s, m) && (s[0] == '"' ==> UnitLen(s) <= m)
    ensures UnitLen(s[..m]) == Min(UnitLen(s), m) && UnitToks(s[..m]) == UnitToks(s)
  {
    hide SkipLen, PlainLen, PlainToks;
    if s[0] == '"' {
      NameCut(s, m);
    } else {
      SkipCut(s, m);
      if SkipLen(s) == 0 { PlainCut(s, m); }
    }
  }

  /** `k` is where a unit starts, or the end of the text. */
  predicate AtUnit(s: string, k: nat)
    decreases |s|
  {
    k == 0 || (s != [] && UnitLen(s) <= k && AtUnit(s[UnitLen(s)..], k - UnitLen(s)))
  }

  /** Every quoted identifier is closed. */
  predicate NamesClosed(s: string)
    decreases |s|
  {
    s == [] || ((s[0] == '"' ==> Closes(s[1..])) && NamesClosed(s[UnitLen(s)..]))
  }

  /** A character that is nothing to the semicolon scanners. */
  predicate Quiet(c: char) { c !in {';', '(', ')', '\'', '$', '-', '/'} }

  /** Quoted identifiers hold nothing that the semicolon scanners, which do not know about them, would
      react to. */
  predicate QuietNames(s: string)
    decreases |s|
  {
    s == [] || (QuietName(s) && QuietNames(s[UnitLen(s)..]))
  }

  predicate QuietName(s: string)
    requires s != []
  {
    s[0] == '"' ==> forall i :: 0 <= i < UnitLen(s) ==> Quiet(s[i])
  }

  /** No quoted identifier at all. */
  predicate Unquoted(s: string)
    decreases |s|
  {
    s == [] || (s[0] != '"' && Unquoted(s[UnitLen(s)..]))
  }

  lemma {:induction false} UnquotedIsQuiet(s: string)
    requires Unquoted(s)
    ensures QuietNames(s) && NamesClosed(s)
    decreases |s|
  {
    hide UnitLen;
    if s != [] { UnquotedIsQuiet(s[UnitLen(s)..]); }
  }

  /** Before a solid character that starts a unit, the text can be cut in two, and every quoted
      identifier of the first part is closed. */
  lemma {:induction false} CutTokens(s: string, k: nat)
    requires AtUnit(s, k) && k < |s| && Solid(s[k])
    ensures Tokens(s) == Tokens(s[..k]) + Tokens(s[k..]) && NamesClosed(s[..k])
    decreases |s|
  {
    hide UnitLen, UnitToks, Tokens;
    if k == 0 {
      NoMoreTokens();
      assert s[..0] == [] && s[0..] == s && [] + Tokens(s) == Tokens(s);
    } else {
      var u, ts := UnitLen(s), UnitToks(s);
      UnitCut(s, k);
      CutTokens(s[u..], k - u);
      if s[0] == '"' { NameEndsInside(s, k); }
      TokensStep(s);
      TokensStep(s[..k]);
      assert s[..k][u..] == s[u..][..k - u] && s[u..][k - u..] == s[k..];
      Regroup(ts, Tokens(s[..k][u..]), Tokens(s[k..]));
    }
  }

  lemma {:induction false} CutNames(s: string, k: nat)
    requires AtUnit(s, k) && k < |s| && Solid(s[k])
    ensures NamesClosed(s) <==> NamesClosed(s[k..])
    ensures QuietNames(s) <==> QuietNames(s[..k]) && QuietNames(s[k..])
    decreases |s|
  {
    hide UnitLen, UnitToks, Quiet;
    if k == 0 {
      assert s[..0] == [] && s[0..] == s;
    } else {
      var u := UnitLen(s);
      UnitCut(s, k);
      CutNames(s[u..], k - u);
      if s[0] == '"' { NameEndsInside(s, k); }
      assert s[..k][u..] == s[u..][..k - u] && s[u..][k - u..] == s[k..];
      assert forall i :: 0 <= i < u ==> s[..k][i] == s[i];
    }
  }

  lemma NameEndsInside(s: string, k: nat)
    requires s != [] && s[0] == '"' && UnitLen(s) <= k < |s|
    ensures Closes(s[1..]) && Closes(s[..k][1..])
  {
    hide UnitLen, UnitToks;
    NameUnit(s);
    ClosesAtQuote(s[1..]);
    NameCut(s, k);
  }

  /** What follows a solid character does not change where the units before it start. */
  lemma {:induction false} SameUnits(s: string, t: string, k: nat)
    requires AtUnit(s, k) && k < |s| && Solid(s[k])
    requires k < |t| && t[..k + 1] == s[..k + 1]
    ensures AtUnit(t, k)
    decreases |s|
  {
    hide UnitLen, UnitToks;
    assert t[k] == t[..k + 1][k] == s[k];
    if k > 0 {
      var u := UnitLen(s);
      assert t[0] == t[..k + 1][0] == s[0];
      UnitCut(s, k + 1);
      if s[0] == '"' { NameStays(s, t, k + 1); }
      UnitCut(t, k + 1);
      assert t[u..][..k - u + 1] == t[..k + 1][u..] == s[u..][..k - u + 1];
      SameUnits(s[u..], t[u..], k - u);
    }
  }

  lemma NameStays(s: string, t: string, m: nat)
    requires s != [] && s[0] == '"' && UnitLen(s) < m <= |s| && m <= |t| && t[..m] == s[..m]
    ensures t[0] == '"' && UnitLen(t) == UnitLen(s)
  {
    hide UnitLen, UnitToks;
    assert t[0] == t[..m][0];
    NameUnit(s);
    NameUnit(t);
    QuoteCut(s[1..], '"', m - 1);
    QuoteCut(t[1..], '"', m - 1);
    assert s[1..][..m - 1] == s[..m][1..] == t[1..][..m - 1];
  }

  /** White space at the end makes no token, unless an identifier is left open there. */
  lemma {:induction false} TokensSnoc(s: string, w: char)
    requires NamesClosed(s + [w]) && IsSpace(w)
    ensures Tokens(s + [w]) == Tokens(s) && NamesClosed(s)
    decreases |s|
  {
    var t := s + [w];
    if s == [] {
      assert t == [w];
      assert SkipLen(t) == 0;
    } else {
      hide UnitLen, UnitToks;
      if t[0] == '"' { NameBeforeBlank(s, w); }
      UnitCut(t, |s|);
      assert t[..|s|] == s;
      var u := UnitLen(t);
      if u <= |s| {
        assert t[u..] == s[u..] + [w];
        TokensSnoc(s[u..], w);
      } else {
        assert t[u..] == [] && s[UnitLen(s)..] == [];
      }
    }
  }

  lemma NameBeforeBlank(s: string, w: char)
    requires s != [] && s[0] == '"' && IsSpace(w) && Closes((s + [w])[1..])
    ensures UnitLen(s + [w]) <= |s| && Closes(s[1..])
  {
    hide UnitLen, UnitToks;
    var t := s + [w];
    NameUnit(t);
    ClosesAtQuote(t[1..]);
    NameCut(t, |s|);
    assert t[..|s|] == s;
  }

  lemma TokensCons(w: char, s: string)
    requires IsSpace(w)
    ensures Tokens([w] + s) == Tokens(s)
    ensures NamesClosed([w] + s) == NamesClosed(s) && QuietNames([w] + s) == QuietNames(s)
    ensures Unquoted([w] + s) == Unquoted(s)
  {
    var t := [w] + s;
    assert SkipLen(t) == 0;
    assert t[1..] == s && [] + Tokens(s) == Tokens(s);
  }

  // ----- The scanners agree --------------------------------------------------------------------

  /** Depth zero semicolons, counted on tokens. */
  function TokSemi(ts: seq<Token>, depth: nat): int {
    if ts == [] then -1
    else if ts[0].Semi? && depth == 0 then 0
    else After(TokSemi(ts[1..], TokDepth(ts[0], depth)), 1)
  }

  function TokDepth(t: Token, depth: nat): nat {
    if t.LParen? then depth + 1 else if t.RParen? && depth > 0 then depth - 1 else depth
  }

  lemma {:induction false} QuietIsPlain(s: string, n: nat, depth: nat)
    requires n <= |s| && forall i :: 0 <= i < n ==> Quiet(s[i])
    ensures TopSemi(s, depth) == After(TopSemi(s[n..], depth), n)
    decreases n
  {
    hide TopSemi;
    if n > 0 {
      NothingToSkip(s);
      ScanChar(s, depth);
      QuietIsPlain(s[1..], n - 1, depth);
      assert s[1..][n - 1..] == s[n..];
    } else {
      assert s[0..] == s;
    }
  }

  lemma NothingToSkip(s: string)
    requires s != [] && s[0] !in {'-', '/', '\'', '$'}
    ensures SkipLen(s) == 0
  {
  }

  lemma IdentIsPlain(s: string, n: nat, depth: nat)
    requires n <= IdentLen(s)
    ensures TopSemi(s, depth) == After(TopSemi(s[n..], depth), n)
  {
    hide IdentLen, TopSemi;
    forall i | 0 <= i < n ensures Quiet(s[i]) { IdentChars(s, i); }
    QuietIsPlain(s, n, depth);
  }

  /** The depth after a unit. */
  function UnitDepth(s: string, depth: nat): nat
    requires s != []
  {
    if UnitToks(s) == [] then depth else TokDepth(UnitToks(s)[0], depth)
  }

  /** One tokenizer unit, seen by the semicolon scanner. */
  lemma UnitVsScanner(s: string, depth: nat)
    requires s != [] && QuietName(s) && !(s[0] == ';' && depth == 0)
    ensures TopSemi(s, depth) == After(TopSemi(s[UnitLen(s)..], UnitDepth(s, depth)), UnitLen(s))
    ensures UnitToks(s) == [Semi] ==> depth > 0
  {
    if s[0] == '"' {
      NameUnit(s);
      QuietIsPlain(s, UnitLen(s), depth);
    } else if SkipLen(s) == 0 {
      PlainVsScanner(s, depth);
    }
  }

  lemma PlainVsScanner(s: string, depth: nat)
    requires s != [] && s[0] != '"' && !(s[0] == ';' && depth == 0) && SkipLen(s) == 0
    ensures TopSemi(s, depth) == After(TopSemi(s[PlainLen(s)..], UnitDepth(s, depth)), PlainLen(s))
    ensures PlainToks(s) == [Semi] ==> depth > 0
  {
    hide SkipLen, TopSemi;
    ScanChar(s, depth);
    if s[0] == '$' {
      DigitsAreIdent(s[1..]);
      IdentIsPlain(s[1..], DigitLen(s[1..]), depth);
      assert s[1..][DigitLen(s[1..])..] == s[PlainLen(s)..];
    } else if IsIdentStart(s[0]) {
      IdentIsPlain(s, PlainLen(s), depth);
    }
  }

  /** The first top-level semicolon starts a unit, and is the first one among the tokens. */
  lemma {:induction false} FirstSemi(s: string, depth: nat)
    requires QuietNames(s)
    ensures var k := TopSemi(s, depth);
      if k < 0 then TokSemi(Tokens(s), depth) < 0
      else AtUnit(s, k) && 0 <= TokSemi(Tokens(s), depth) == |Tokens(s)| - |Tokens(s[k..])|
    decreases |s|
  {
    hide SkipLen, UnitLen, UnitToks, TopSemi, TokSemi, DepthAfter, TokDepth, QuietName;
    if s == [] {
      NoText(depth);
    } else if s[0] == ';' && depth == 0 {
      SemiFirst(s);
      assert s[0..] == s;
    } else {
      var u, k := UnitLen(s), TopSemi(s, depth);
      UnitVsScanner(s, depth);
      FirstSemi(s[u..], UnitDepth(s, depth));
      TokSemiStep(UnitToks(s), Tokens(s[u..]), depth);
      if k >= 0 { assert s[u..][k - u..] == s[k..]; }
    }
  }

  lemma NoText(depth: nat)
    ensures TopSemi([], depth) < 0 && TokSemi(Tokens([]), depth) < 0
  {
  }

  lemma SemiFirst(s: string)
    requires s != [] && s[0] == ';'
    ensures TopSemi(s, 0) == 0 && Tokens(s) == [Semi] + Tokens(s[1..]) && TokSemi(Tokens(s), 0) == 0
    ensures NamesClosed(s) == NamesClosed(s[1..]) && QuietNames(s) == QuietNames(s[1..])
    ensures Unquoted(s) == Unquoted(s[1..])
  {
    hide LineLen, BlockLen, QuoteLen, IdentLen, DigitLen, DollarLen;
    assert SkipLen(s) == 0;
  }

  lemma TokSemiStep(ts: seq<Token>, more: seq<Token>, depth: nat)
    requires |ts| <= 1 && (ts == [Semi] ==> depth > 0)
    ensures TokSemi(ts + more, depth)
         == After(TokSemi(more, if ts == [] then depth else TokDepth(ts[0], depth)), |ts|)
  {
    if ts == [] {
      assert ts + more == more;
    } else {
      assert (ts + more)[1..] == more;
    }
  }

  /** Where the semicolon scanners cut at the start of a unit, the tokenizer can be cut: the tokens
      before, one semicolon token, and the tokens after. */
  lemma AlignedCut(s: string)
    requires var k := TopSemi(s, 0); k >= 0 && AtUnit(s, k)
    ensures var k := TopSemi(s, 0);
      && Tokens(s) == Tokens(s[..k]) + [Semi] + Tokens(s[k + 1..])
      && NamesClosed(s[..k]) && (NamesClosed(s) ==> NamesClosed(s[k + 1..]))
      && (QuietNames(s) ==> QuietNames(s[k + 1..]))
  {
    hide Tokens, TopSemi, QuietNames, NamesClosed, AtUnit;
    var k := TopSemi(s, 0);
    CutTokens(s, k);
    CutNames(s, k);
    SemiFirst(s[k..]);
    assert s[k..][1..] == s[k + 1..];
    assert Tokens(s[..k]) + ([Semi] + Tokens(s[k + 1..])) == Tokens(s[..k]) + [Semi] + Tokens(s[k + 1..]);
  }

  /** If quoted identifiers are quiet, the scanners' first cut is the start of a unit, and is the first
      semicolon at depth zero among the tokens; if there is none there is none. */
  lemma TopLevelCut(s: string)
    requires QuietNames(s)
    ensures var k := TopSemi(s, 0);
      if k < 0 then TokSemi(Tokens(s), 0) < 0
      else && AtUnit(s, k)
           && Tokens(s) == Tokens(s[..k]) + [Semi] + Tokens(s[k + 1..])
           && TokSemi(Tokens(s), 0) == |Tokens(s[..k])|
  {
    hide Tokens, TopSemi, TokSemi, QuietNames, AtUnit;
    var k := TopSemi(s, 0);
    FirstSemi(s, 0);
    if k >= 0 {
      AlignedCut(s);
      SemiFirst(s[k..]);
      assert s[k..][1..] == s[k + 1..];
    }
  }

  // ----- When cutting keeps the tokens ---------------------------------------------------------

  /** The start of the unit that position `k` lies in. */
  function UnitAt(s: string, k: nat): (j: nat)
    requires k < |s|
    ensures j <= k
    decreases |s|
  {
    if k < UnitLen(s) then 0 else UnitLen(s) + UnitAt(s[UnitLen(s)..], k - UnitLen(s))
  }

  lemma UnitAtStep(s: string, k: nat)
    requires k < |s|
    ensures UnitAt(s, k) == if k < UnitLen(s) then 0 else UnitLen(s) + UnitAt(s[UnitLen(s)..], k - UnitLen(s))
  {
  }

  lemma {:induction false} UnitAtIff(s: string, k: nat)
    requires k < |s|
    ensures AtUnit(s, k) <==> UnitAt(s, k) == k
    decreases |s|
  {
    hide UnitLen;
    if k >= UnitLen(s) { UnitAtIff(s[UnitLen(s)..], k - UnitLen(s)); }
  }

  /** The text of an identifier cut short is shorter. */
  lemma {:induction false} ShorterName(s: string, m: nat)
    requires m < QuoteLen(s, '"') && s[m] != '"'
    ensures |QuoteText(s[..m])| < |QuoteText(s)|
    decreases |s|
  {
    if m > 0 {
      if s[0] != '"' {
        ShorterName(s[1..], m - 1);
        assert s[..m][1..] == s[1..][..m - 1];
      } else {
        ShorterName(s[2..], m - 2);
        assert s[..m][2..] == s[2..][..m - 2];
      }
    }
  }

  /** Cutting a text at a semicolon inside an identifier changes a token. */
  lemma {:induction false} CutInName(s: string, k: nat)
    requires k < |s| && s[k] == ';' && UnitAt(s, k) < k && s[UnitAt(s, k)] == '"'
    ensures !(Lex(s[..k]) <= Lex(s))
    decreases |s|
  {
    hide UnitLen, UnitToks;
    var u, ts := UnitLen(s), UnitToks(s);
    if k < u {
      NameUnit(s);
      NameUnit(s[..k]);
      ShorterName(s[1..], k - 1);
      assert s[1..][..k - 1] == s[..k][1..];
      FirstDiffers(Tokens(s[..k]), Tokens(s));
    } else {
      UnitCut(s, k);
      CutInName(s[u..], k - u);
      assert s[..k][u..] == s[u..][..k - u];
      LexPrefix(ts, Tokens(s[..k][u..]), Tokens(s[u..]));
    }
  }

  lemma FirstDiffers(a: seq<Token>, b: seq<Token>)
    requires a != [] && b != [] && a[0].Word? && b[0].Word? && a[0] != b[0]
    ensures !(Erase(a) <= Erase(b))
  {
    assert Erase(a)[0] == a[0] && Erase(b)[0] == b[0];
  }

  lemma LexPrefix(ts: seq<Token>, a: seq<Token>, b: seq<Token>)
    ensures Erase(ts + a) <= Erase(ts + b) <==> Erase(a) <= Erase(b)
  {
    EraseConcat(ts, a);
    EraseConcat(ts, b);
    var x, y, z := Erase(ts), Erase(a), Erase(b);
    if x + y <= x + z {
      assert forall i :: 0 <= i < |y| ==> y[i] == (x + y)[|x| + i];
      assert y <= z;
    }
  }

  /** Cutting it inside any other unit, which only happens where an identifier has led the scanners
      astray before, keeps the unit's tokens; the tokens after the unit are lost to the first part. */
  lemma {:induction false} CutAstray(s: string, k: nat)
    requires k < |s| && s[k] == ';' && UnitAt(s, k) < k && s[UnitAt(s, k)] != '"'
    ensures var j := UnitAt(s, k); Tokens(s) == Tokens(s[..k]) + Tokens(s[j + UnitLen(s[j..])..])
    decreases |s|
  {
    hide UnitLen, UnitToks, Tokens, UnitAt;
    var u, ts := UnitLen(s), UnitToks(s);
    UnitAtStep(s, k);
    UnitCut(s, k);
    TokensStep(s);
    TokensStep(s[..k]);
    if k < u {
      assert s[0..] == s && s[..k][k..] == [];
      NoMoreTokens();
      assert ts + [] == ts;
    } else {
      var j := UnitAt(s, k);
      var v := UnitLen(s[j..]);
      CutAstray(s[u..], k - u);
      assert s[u..][j - u..] == s[j..];
      assert s[..k][u..] == s[u..][..k - u] && s[u..][j - u + v..] == s[j + v..];
      Regroup(ts, Tokens(s[..k][u..]), Tokens(s[j + v..]));
    }
  }

  lemma Regroup(a: seq<Token>, b: seq<Token>, c: seq<Token>)
    ensures a + (b + c) == a + b + c
  {
  }

  lemma TokensStep(s: string)
    requires s != []
    ensures Tokens(s) == UnitToks(s) + Tokens(s[UnitLen(s)..])
  {
  }

  lemma NoMoreTokens()
    ensures Tokens([]) == []
  {
  }

  // ----- The running code -------------------------------------------------------------------------

  method SkipLine(sql: string, start: nat) returns (i: nat)
    requires start <= |sql|
    ensures i == start + LineLen(sql[start..])
  {
    i := start;
    while i < |sql| && sql[i] != '\n'
      invariant start <= i <= |sql|
      invariant start + LineLen(sql[start..]) == i + LineLen(sql[i..])
    {
      assert sql[i..][1..] == sql[i + 1..];
      i := i + 1;
    }
  }

  lemma BlockStep(s: string, d: nat)
    requires s != [] && d > 0
    ensures BlockLen(s, d) == BlockAdv(s) + BlockLen(s[BlockAdv(s)..], BlockDepth(s, d))
  {
  }

  lemma BlockDone(s: string, d: nat)
    requires s == [] || d == 0
    ensures BlockLen(s, d) == 0
  {
  }

  method SkipBlock(sql: string, start: nat) returns (i: nat)
    requires start <= |sql|
    ensures i == start + BlockLen(sql[start..], 1)
  {
    hide BlockLen;
    i := start;
    var d := 1;
    while i < |sql| && d > 0
      invariant start <= i <= |sql|
      invariant start + BlockLen(sql[start..], 1) == i + BlockLen(sql[i..], d)
    {
      BlockStep(sql[i..], d);
      assert sql[i..][BlockAdv(sql[i..])..] == sql[i + BlockAdv(sql[i..])..];
      if i + 1 < |sql| && sql[i] == '/' && sql[i + 1] == '*' {
        d := d + 1;
        i := i + 2;
      } else if i + 1 < |sql| && sql[i] == '*' && sql[i + 1] == '/' {
        d := d - 1;
        i := i + 2;
      } else {
        i := i + 1;
      }
    }
    BlockDone(sql[i..], d);
  }

  method SkipQuote(sql: string, start: nat, q: char) returns (i: nat)
    requires start <= |sql|
    ensures i == start + QuoteLen(sql[start..], q)
  {
    i := start;
    while i < |sql|
      invariant start <= i <= |sql|
      invariant start + QuoteLen(sql[start..], q) == i + QuoteLen(sql[i..], q)
    {
      assert sql[i..][1..] == sql[i + 1..];
      if sql[i] == q {
        if i + 1 < |sql| && sql[i + 1] == q {
          assert sql[i..][2..] == sql[i + 2..];
          i := i + 2;
          continue;
        }
        return i + 1;
      }
      i := i + 1;
    }
  }

  method SkipIdent(sql: string, start: nat) returns (i: nat)
    requires start <= |sql|
    ensures i == start + IdentLen(sql[start..])
  {
    i := start;
    while i < |sql| && IsIdentPart(sql[i])
      invariant start <= i <= |sql|
      invariant start + IdentLen(sql[start..]) == i + IdentLen(sql[i..])
    {
      assert sql[i..][1..] == sql[i + 1..];
      i := i + 1;
    }
  }

  method SkipDigits(sql: string, start: nat) returns (i: nat)
    requires start <= |sql|
    ensures i == start + DigitLen(sql[start..])
  {
    i := start;
    while i < |sql| && IsDigit(sql[i])
      invariant start <= i <= |sql|
      invariant start + DigitLen(sql[start..]) == i + DigitLen(sql[i..])
    {
      assert sql[i..][1..] == sql[i + 1..];
      i := i + 1;
    }
  }

  /** Recognizes a dollar-quote opener at `i`; 0 if there is none. */
  method DollarTag(sql: string, i: nat) returns (adv: nat)
    requires i < |sql| && sql[i] == '$'
    ensures adv == DollarOpen(sql[i..])
  {
    assert sql[i..][1..] == sql[i + 1..];
    var j := SkipIdent(sql, i + 1);
    if j < |sql| && sql[j] == '$' && (j == i + 1 || IsIdentStart(sql[i + 1])) {
      return j - i + 1;
    }
    return 0;
  }

  /** The library search for the close tag, from `start`. */
  method SkipThrough(sql: string, start: nat, pat: string) returns (i: nat)
    requires start <= |sql|
    ensures i == start + ThroughLen(sql[start..], pat)
  {
    i := start;
    while i < |sql| && !(pat <= sql[i..])
      invariant start <= i <= |sql|
      invariant start + ThroughLen(sql[start..], pat) == i + ThroughLen(sql[i..], pat)
    {
      assert sql[i..][1..] == sql[i + 1..];
      i := i + 1;
    }
    if pat <= sql[i..] { i := i + |pat|; }
  }

  /** Skips the comment or quoted text at `i`; returns `i` if there is none. */
  method SkipOpaque(sql: string, i: nat) returns (j: nat)
    requires i < |sql|
    ensures j == i + SkipLen(sql[i..])
  {
    assert sql[i..][1..] == sql[i + 1..];
    if sql[i] == '-' && i + 1 < |sql| && sql[i + 1] == '-' {
      assert sql[i..][2..] == sql[i + 2..];
      j := SkipLine(sql, i + 2);
    } else if sql[i] == '/' && i + 1 < |sql| && sql[i + 1] == '*' {
      assert sql[i..][2..] == sql[i + 2..];
      j := SkipBlock(sql, i + 2);
    } else if sql[i] == '\'' {
      j := SkipQuote(sql, i + 1, '\'');
    } else if sql[i] == '$' {
      var adv := DollarTag(sql, i);
      j := i;
      if adv > 0 {
        assert sql[i..][adv..] == sql[i + adv..] && sql[i..][..adv] == sql[i..i + adv];
        j := SkipThrough(sql, i + adv, sql[i..i + adv]);
      }
    } else {
      j := i;
    }
  }

  lemma QuoteChar(s: string)
    requires s != [] && s[0] != '"'
    ensures QuoteLen(s, '"') == 1 + QuoteLen(s[1..], '"') && QuoteText(s) == [s[0]] + QuoteText(s[1..])
  {
  }

  lemma QuoteTwice(s: string)
    requires Starts(s, '"', '"')
    ensures QuoteLen(s, '"') == 2 + QuoteLen(s[2..], '"') && QuoteText(s) == ['"'] + QuoteText(s[2..])
  {
  }

  lemma QuoteEnd(s: string)
    requires s == [] || (s[0] == '"' && !Starts(s, '"', '"'))
    ensures QuoteLen(s, '"') == (if s == [] then 0 else 1) && QuoteText(s) == []
  {
  }

  /** The text of a double-quoted identifier. */
  method ReadQuoted(sql: string, start: nat) returns (text: string, i: nat)
    requires start <= |sql|
    ensures i == start + QuoteLen(sql[start..], '"') && text == QuoteText(sql[start..])
  {
    hide QuoteLen, QuoteText;
    i, text := start, [];
    ghost var all := QuoteText(sql[start..]);
    assert [] + all == all;
    while i < |sql|
      invariant start <= i <= |sql|
      invariant start + QuoteLen(sql[start..], '"') == i + QuoteLen(sql[i..], '"')
      invariant all == text + QuoteText(sql[i..])
    {
      ghost var s, had := sql[i..], text;
      if sql[i] == '"' {
        if i + 1 < |sql| && sql[i + 1] == '"' {
          QuoteTwice(s);
          assert s[2..] == sql[i + 2..];
          text, i := text + ['"'], i + 2;
          assert had + (['"'] + QuoteText(sql[i..])) == text + QuoteText(sql[i..]);
          continue;
        }
        QuoteEnd(s);
        assert text + [] == text;
        return text, i + 1;
      }
      QuoteChar(s);
      assert s[1..] == sql[i + 1..];
      text, i := text + [sql[i]], i + 1;
      assert had + ([s[0]] + QuoteText(sql[i..])) == text + QuoteText(sql[i..]);
    }
    QuoteEnd(sql[i..]);
    assert text + [] == text;
  }

  lemma EraseConcat(a: seq<Token>, b: seq<Token>)
    ensures Erase(a + b) == Erase(a) + Erase(b)
  {
  }

  /** The tokenizer. */
  method LexLoop(sql: string) returns (toks: seq<Token>)
    ensures toks == Lex(sql)
  {
    hide UnitLen, UnitToks, Erase;
    toks := [];
    var i := 0;
    assert sql[0..] == sql && [] + Tokens(sql) == Tokens(sql);
    ghost var seen: seq<Token> := [];
    NothingErased();
    while i < |sql|
      invariant 0 <= i <= |sql|
      invariant toks == Erase(seen)
      invariant Tokens(sql) == seen + Tokens(sql[i..])
    {
      ghost var s := sql[i..];
      var ts, j := NextUnit(sql, i);
      assert s[UnitLen(s)..] == sql[j..];
      assert seen + (UnitToks(s) + Tokens(sql[j..])) == seen + UnitToks(s) + Tokens(sql[j..]);
      EraseConcat(seen, UnitToks(s));
      seen := seen + UnitToks(s);
      toks := toks + ts;
      i := j;
    }
    assert seen + [] == seen;
  }

  lemma NothingErased()
    ensures Erase([]) == []
  {
  }

  method NextUnit(sql: string, i: nat) returns (ts: seq<Token>, j: nat)
    requires i < |sql|
    ensures j == i + UnitLen(sql[i..]) && ts == Erase(UnitToks(sql[i..]))
  {
    hide SkipLen, PlainLen, PlainToks;
    var c := sql[i];
    j := SkipOpaque(sql, i);
    if j == i {
      ts, j := NextPlain(sql, i);
    } else if c == '\'' || c == '$' {
      ts := [Str];
    } else {
      ts := [];
    }
  }

  method NextPlain(sql: string, i: nat) returns (ts: seq<Token>, j: nat)
    requires i < |sql|
    ensures j == i + PlainLen(sql[i..]) && ts == Erase(PlainToks(sql[i..]))
  {
    var s, c := sql[i..], sql[i];
    assert s[1..] == sql[i + 1..];
    j := i + 1;
    ts := [Other];
    if IsSpace(c) {
      ts := [];
    } else if c == '"' {
      var text;
      text, j := ReadQuoted(sql, i + 1);
      ts := [Word(text)];
    } else if c == '$' {
      j := SkipDigits(sql, i + 1);
    } else if c == '(' {
      ts := [LParen];
    } else if c == ')' {
      ts := [RParen];
    } else if c == '.' {
      ts := [Dot];
    } else if IsIdentStart(c) {
      j := SkipIdent(sql, i + 1);
      assert s[..j - i] == sql[i..j];
      ts := [Word(sql[i..j])];
    }
  }

  // What one round of the semicolon scanners' loops passes over. Both loops end a round with an
  // increment, so each case leaves the index one short; a line comment also swallows its newline.

  /** The scan of `sql` from `i` goes on from `j`, or is over if `j` is past the end. */
  predicate Passed(sql: string, i: nat, depth: nat, j: nat, d: nat)
    requires i <= |sql|
  {
    var m := Min(j, |sql|);
    i <= m && TopSemi(sql[i..], depth) == After(TopSemi(sql[m..], d), m - i)
  }

  function LineEnd(sql: string, i: nat): nat
    requires i <= |sql|
  {
    i + LineLen(sql[i..])
  }

  function BlockEnd(sql: string, i: nat, d: nat): nat
    requires i <= |sql|
  {
    i + BlockLen(sql[i..], d)
  }

  function QuoteEndAt(sql: string, i: nat): nat
    requires i <= |sql|
  {
    i + QuoteLen(sql[i..], '\'')
  }

  lemma LineStep(sql: string, i: nat)
    requires i <= |sql|
    ensures LineEnd(sql, i) == if i < |sql| && sql[i] != '\n' then LineEnd(sql, i + 1) else i
  {
    if i < |sql| { assert sql[i..][1..] == sql[i + 1..]; }
  }

  lemma BlockRound(sql: string, i: nat, d: nat)
    requires i < |sql| && d > 0
    ensures BlockEnd(sql, i, d) ==
      if i + 1 < |sql| && sql[i] == '/' && sql[i + 1] == '*' then BlockEnd(sql, i + 2, d + 1)
      else if i + 1 < |sql| && sql[i] == '*' && sql[i + 1] == '/' then BlockEnd(sql, i + 2, d - 1)
      else BlockEnd(sql, i + 1, d)
  {
    hide BlockLen;
    BlockStep(sql[i..], d);
    assert sql[i..][1..] == sql[i + 1..];
    if i + 1 < |sql| { assert sql[i..][2..] == sql[i + 2..]; }
  }

  lemma BlockEnds(sql: string, i: nat, d: nat)
    requires i <= |sql| && (i == |sql| || d == 0)
    ensures BlockEnd(sql, i, d) == i
  {
  }

  lemma QuoteRound(sql: string, i: nat)
    requires i < |sql|
    ensures QuoteEndAt(sql, i) ==
      if sql[i] != '\'' then QuoteEndAt(sql, i + 1)
      else if i + 1 < |sql| && sql[i + 1] == '\'' then QuoteEndAt(sql, i + 2)
      else i + 1
  {
    assert sql[i..][1..] == sql[i + 1..];
    if i + 1 < |sql| { assert sql[i..][2..] == sql[i + 2..]; }
  }

  lemma QuoteStops(sql: string, i: nat)
    requires i <= |sql| && (i < |sql| ==> sql[i] == '\'' && !(i + 1 < |sql| && sql[i + 1] == '\''))
    ensures QuoteEndAt(sql, i) == Min(i + 1, |sql|)
  {
  }

  lemma SkipTo(sql: string, i: nat, j: nat, depth: nat)
    requires i < |sql| && SkipLen(sql[i..]) > 0 && j == i + SkipLen(sql[i..])
    ensures Passed(sql, i, depth, j, depth)
  {
    hide SkipLen, TopSemi;
    ScanSkip(sql[i..], depth);
    assert sql[i..][j - i..] == sql[j..];
  }

  lemma AfterChar(sql: string, i: nat, depth: nat)
    requires i < |sql| && SkipLen(sql[i..]) == 0 && !(sql[i] == ';' && depth == 0)
    ensures Passed(sql, i, depth, i + 1, DepthAfter(sql[i], depth))
  {
    hide SkipLen, TopSemi;
    ScanChar(sql[i..], depth);
    assert sql[i..][1..] == sql[i + 1..];
  }

  lemma AfterLine(sql: string, at: nat, i: nat, depth: nat)
    requires at + 2 <= i <= |sql| && sql[at] == '-' && sql[at + 1] == '-'
    requires i == LineEnd(sql, at + 2) && (i < |sql| ==> sql[i] == '\n')
    ensures Passed(sql, at, depth, i + 1, depth)
  {
    hide TopSemi, LineLen, BlockLen, QuoteLen, DollarOpen;
    assert sql[at..][2..] == sql[at + 2..];
    SkipTo(sql, at, i, depth);
    if i < |sql| {
      NothingToSkip(sql[i..]);
      AfterChar(sql, i, depth);
    }
  }

  lemma AfterBlock(sql: string, at: nat, i: nat, depth: nat)
    requires at + 2 <= i + 1 <= |sql| && sql[at] == '/' && sql[at + 1] == '*'
    requires i + 1 == BlockEnd(sql, at + 2, 1)
    ensures Passed(sql, at, depth, i + 1, depth)
  {
    hide TopSemi, LineLen, BlockLen, QuoteLen, DollarOpen;
    assert sql[at..][2..] == sql[at + 2..];
    SkipTo(sql, at, i + 1, depth);
  }

  lemma AfterQuote(sql: string, at: nat, i: nat, depth: nat)
    requires at + 1 <= i <= |sql| && sql[at] == '\''
    requires Min(i + 1, |sql|) == QuoteEndAt(sql, at + 1)
    ensures Passed(sql, at, depth, i + 1, depth)
  {
    hide TopSemi, LineLen, BlockLen, QuoteLen, DollarOpen;
    assert sql[at..][1..] == sql[at + 1..];
    SkipTo(sql, at, Min(i + 1, |sql|), depth);
  }

  lemma AfterDollar(sql: string, at: nat, adv: nat, i: int, depth: nat)
    requires at < |sql| && sql[at] == '$' && adv == DollarOpen(sql[at..])
    requires adv == 0 ==> i == at
    requires adv > 0 ==> i + 1 == at + adv + ThroughLen(sql[at + adv..], sql[at..at + adv])
    ensures 0 <= i < |sql| && Passed(sql, at, depth, i + 1, depth)
  {
    hide TopSemi, LineLen, BlockLen, QuoteLen, DollarOpen, ThroughLen;
    var s := sql[at..];
    if adv == 0 {
      assert SkipLen(s) == 0;
      AfterChar(sql, at, depth);
    } else {
      assert s[adv..] == sql[at + adv..] && s[..adv] == sql[at..at + adv];
      SkipTo(sql, at, i + 1, depth);
    }
  }

  /** The library search for the close tag; -1 if it does not occur. */
  method IndexOf(sql: string, start: nat, pat: string) returns (idx: int)
    requires start <= |sql| && pat != []
    ensures if idx >= 0 then start + idx + |pat| <= |sql| && ThroughLen(sql[start..], pat) == idx + |pat|
            else ThroughLen(sql[start..], pat) == |sql| - start
  {
    var i := start;
    while i < |sql| && !(pat <= sql[i..])
      invariant start <= i <= |sql|
      invariant start + ThroughLen(sql[start..], pat) == i + ThroughLen(sql[i..], pat)
    {
      assert sql[i..][1..] == sql[i + 1..];
      i := i + 1;
    }
    return if pat <= sql[i..] then i - start else -1;
  }

  lemma PlainRound(sql: string, i: nat)
    requires i < |sql| && sql[i] != '$' && sql[i] != '\''
    requires !(sql[i] == '-' && i + 1 < |sql| && sql[i + 1] == '-')
    requires !(sql[i] == '/' && i + 1 < |sql| && sql[i + 1] == '*')
    ensures SkipLen(sql[i..]) == 0
  {
  }

  lemma NotBlank(sql: string, i: nat, j: nat)
    requires i <= j < |sql| && !IsBlank(sql[j])
    ensures !Blank(sql[i..])
  {
    assert sql[i..][j - i] == sql[j];
  }

  lemma AllBlank(sql: string, i: nat)
    requires i <= |sql| && forall x :: i <= x < |sql| ==> IsBlank(sql[x])
    ensures Blank(sql[i..])
  {
  }

  lemma PassedOn(sql: string, start: nat, i: nat, depth: nat, j: nat, d: nat)
    requires start <= i < |sql| && Passed(sql, start, 0, i, depth) && Passed(sql, i, depth, j, d)
    ensures Passed(sql, start, 0, j, d)
  {
  }

  lemma BeginScan(sql: string, start: nat)
    requires start <= |sql|
    ensures Passed(sql, start, 0, start, 0)
  {
  }

  lemma HitAt(sql: string, start: nat, i: nat)
    requires start <= i < |sql| && Passed(sql, start, 0, i, 0) && TopSemi(sql[i..], 0) == 0
    ensures TopSemi(sql[start..], 0) == i - start && (start == 0 ==> TopSemi(sql, 0) == i)
  {
    if start == 0 { assert sql[0..] == sql; }
  }

  lemma NoHit(sql: string, start: nat, i: nat, depth: nat)
    requires start <= |sql| <= i && Passed(sql, start, 0, i, depth)
    ensures TopSemi(sql[start..], 0) == -1 && (start == 0 ==> TopSemi(sql, 0) == -1)
  {
    ScanEnd(depth);
    assert sql[|sql|..] == [];
    if start == 0 { assert sql[0..] == sql; }
  }

  /** The fast check for a second statement. */
  method IndexDepthZeroSemicolon(sql: string) returns (k: int)
    ensures k == IndexSemi(sql)
  {
    hide SkipLen, TopSemi, LineEnd, BlockEnd, QuoteEndAt, DollarOpen, ThroughLen, Passed, Blank;
    var n, depth: nat, i: nat := |sql|, 0, 0;
    BeginScan(sql, 0);
    while i < n
      invariant 0 <= i <= n + 1
      invariant Passed(sql, 0, 0, i, depth)
      decreases n + 1 - i
    {
      var c := sql[i];
      ghost var at, was := i, depth;
      if c == '-' && i + 1 < n && sql[i + 1] == '-' {
        i := i + 2;
        while i < n && sql[i] != '\n'
          invariant at + 2 <= i <= n
          invariant LineEnd(sql, at + 2) == LineEnd(sql, i)
        {
          LineStep(sql, i);
          i := i + 1;
        }
        LineStep(sql, i);
        AfterLine(sql, at, i, depth);
      } else if c == '/' && i + 1 < n && sql[i + 1] == '*' {
        i := i + 2;
        var d := 1;
        while i < n && d > 0
          invariant at + 2 <= i <= n
          invariant BlockEnd(sql, at + 2, 1) == BlockEnd(sql, i, d)
        {
          BlockRound(sql, i, d);
          if i + 1 < n && sql[i] == '/' && sql[i + 1] == '*' {
            d := d + 1;
            i := i + 2;
            continue;
          }
          if i + 1 < n && sql[i] == '*' && sql[i + 1] == '/' {
            d := d - 1;
            i := i + 2;
            continue;
          }
          i := i + 1;
        }
        BlockEnds(sql, i, d);
        i := i - 1;
        AfterBlock(sql, at, i, depth);
      } else if c == '\'' {
        i := i + 1;
        while i < n
          invariant at + 1 <= i <= n
          invariant QuoteEndAt(sql, at + 1) == QuoteEndAt(sql, i)
        {
          QuoteRound(sql, i);
          if sql[i] == '\'' {
            if i + 1 < n && sql[i + 1] == '\'' {
              i := i + 2;
              continue;
            }
            break;
          }
          i := i + 1;
        }
        QuoteStops(sql, i);
        AfterQuote(sql, at, i, depth);
      } else if c == '$' {
        var adv := DollarTag(sql, i);
        if adv > 0 {
          var closeTag := sql[i..i + adv];
          i := i + adv;
          var idx := IndexOf(sql, i, closeTag);
          if idx >= 0 {
            i := i + idx + |closeTag| - 1;
          } else {
            i := n - 1;
          }
        }
        AfterDollar(sql, at, adv, i, depth);
      } else if c == ';' && depth == 0 {
        PlainRound(sql, i);
        ScanHit(sql[i..]);
        HitAt(sql, 0, i);
        for j := i + 1 to n
          invariant forall x :: i + 1 <= x < j ==> IsBlank(sql[x])
        {
          if !IsBlank(sql[j]) {
            NotBlank(sql, i + 1, j);
            return i;
          }
        }
        AllBlank(sql, i + 1);
        return -1;
      } else {
        PlainRound(sql, i);
        AfterChar(sql, i, depth);
        if c == '(' {
          depth := depth + 1;
        } else if c == ')' && depth > 0 {
          depth := depth - 1;
        }
      }
      i := i + 1;
      PassedOn(sql, 0, at, was, i, depth);
    }
    NoHit(sql, 0, i, depth);
    k := -1;
  }

  /** The splitter. */
  method SplitOnDepthZeroSemicolons(sql: string) returns (stmts: seq<string>)
    ensures stmts == Split(sql)
  {
    hide SkipLen, TopSemi, LineEnd, BlockEnd, QuoteEndAt, DollarOpen, ThroughLen, Passed, SplitSoFar;
    stmts := [];
    var n, depth: nat, i: nat, start: nat := |sql|, 0, 0, 0;
    BeginScan(sql, 0);
    SplitBegins(sql);
    while i < n
      invariant 0 <= start <= i <= n + 1 && start <= n
      invariant Passed(sql, start, 0, i, depth)
      invariant SplitSoFar(sql, stmts, start)
      decreases n + 1 - i
    {
      var c := sql[i];
      ghost var at, was := i, depth;
      if c == '-' && i + 1 < n && sql[i + 1] == '-' {
        i := i + 2;
        while i < n && sql[i] != '\n'
          invariant at + 2 <= i <= n
          invariant LineEnd(sql, at + 2) == LineEnd(sql, i)
        {
          LineStep(sql, i);
          i := i + 1;
        }
        LineStep(sql, i);
        AfterLine(sql, at, i, depth);
      } else if c == '/' && i + 1 < n && sql[i + 1] == '*' {
        i := i + 2;
        var d := 1;
        while i < n && d > 0
          invariant at + 2 <= i <= n
          invariant BlockEnd(sql, at + 2, 1) == BlockEnd(sql, i, d)
        {
          BlockRound(sql, i, d);
          if i + 1 < n && sql[i] == '/' && sql[i + 1] == '*' {
            d := d + 1;
            i := i + 2;
            continue;
          }
          if i + 1 < n && sql[i] == '*' && sql[i + 1] == '/' {
            d := d - 1;
            i := i + 2;
            continue;
          }
          i := i + 1;
        }
        BlockEnds(sql, i, d);
        i := i - 1;
        AfterBlock(sql, at, i, depth);
      } else if c == '\'' {
        i := i + 1;
        while i < n
          invariant at + 1 <= i <= n
          invariant QuoteEndAt(sql, at + 1) == QuoteEndAt(sql, i)
        {
          QuoteRound(sql, i);
          if sql[i] == '\'' {
            if i + 1 < n && sql[i + 1] == '\'' {
              i := i + 2;
              continue;
            }
            break;
          }
          i := i + 1;
        }
        QuoteStops(sql, i);
        AfterQuote(sql, at, i, depth);
      } else if c == '$' {
        var adv := DollarTag(sql, i);
        if adv > 0 {
          var closeTag := sql[i..i + adv];
          i := i + adv;
          var idx := IndexOf(sql, i, closeTag);
          if idx >= 0 {
            i := i + idx + |closeTag| - 1;
          } else {
            i := n - 1;
          }
        }
        AfterDollar(sql, at, adv, i, depth);
      } else if c == ';' && depth == 0 {
        PlainRound(sql, i);
        ScanHit(sql[i..]);
        HitAt(sql, start, i);
        SplitAt(sql, stmts, start, i);
        stmts := stmts + [sql[start..i]];
        start := i + 1;
        i := i + 1;
        BeginScan(sql, start);
        continue;
      } else {
        PlainRound(sql, i);
        AfterChar(sql, i, depth);
        if c == '(' {
          depth := depth + 1;
        } else if c == ')' && depth > 0 {
          depth := depth - 1;
        }
      }
      i := i + 1;
      PassedOn(sql, start, at, was, i, depth);
    }
    NoHit(sql, start, i, depth);
    SplitEnds(sql, stmts, start);
    if start < n {
      stmts := stmts + [sql[start..]];
    }
  }

  ghost predicate SplitSoFar(sql: string, stmts: seq<string>, start: nat)
    requires start <= |sql|
  {
    Split(sql) == stmts + Split(sql[start..])
  }

  lemma SplitBegins(sql: string)
    ensures SplitSoFar(sql, [], 0)
  {
    assert sql[0..] == sql && [] + Split(sql) == Split(sql);
  }

  lemma SplitAt(sql: string, stmts: seq<string>, start: nat, i: nat)
    requires start <= i < |sql| && TopSemi(sql[start..], 0) == i - start && SplitSoFar(sql, stmts, start)
    ensures SplitSoFar(sql, stmts + [sql[start..i]], i + 1)
  {
    hide Split, TopSemi;
    var s := sql[start..];
    SplitCut(s, i - start);
    assert s[..i - start] == sql[start..i] && s[i - start + 1..] == sql[i + 1..];
    assert stmts + ([sql[start..i]] + Split(sql[i + 1..])) == stmts + [sql[start..i]] + Split(sql[i + 1..]);
  }

  lemma SplitEnds(sql: string, stmts: seq<string>, start: nat)
    requires start <= |sql| && TopSemi(sql[start..], 0) < 0 && SplitSoFar(sql, stmts, start)
    ensures Split(sql) == if start < |sql| then stmts + [sql[start..]] else stmts
  {
    SplitLast(sql[start..]);
    assert stmts + [] == stmts;
  }

  lemma SplitCut(s: string, k: nat)
    requires TopSemi(s, 0) == k < |s|
    ensures Split(s) == [s[..k]] + Split(s[k + 1..])
  {
  }

  lemma SplitLast(s: string)
    ensures TopSemi(s, 0) < 0 ==> Split(s) == if s == [] then [] else [s]
  {
  }
}
