/**
 The lexical grammar of the classifier (pkg/filter/classifier.go): what a text consists of, written down
 as lexemes and their spelling. Every text is spelled from lexemes, and the tokenizer reads it as exactly
 those.
 */
module Lexemes {
  import opened Lexer

  /** What stands inside block comments: openings, closings and other characters. */
  datatype Bit = Deeper | Shallower | Plain(c: char)

  /** Comments, literals and quoted identifiers may lack their end at the end of the text. */
  datatype Lexeme =
    | Space(c: char)
    | LineComment(body: string)
    | BlockComment(bits: seq<Bit>)
    | Literal(body: string, closed: bool)
    | DollarText(tag: string, body: string, closed: bool)
    | QuotedName(body: string, closed: bool)
    | Name(text: string)
    | Parameter(digits: string)
    | Sign(c: char)

  // ----- Spelling --------------------------------------------------------------------------------

  function BitText(b: Bit): string {
    match b case Deeper => "/*" case Shallower => "*/" case Plain(c) => [c]
  }

  function BitsText(bits: seq<Bit>): string {
    if bits == [] then [] else BitText(bits[0]) + BitsText(bits[1..])
  }

  function Spelling(l: Lexeme): string {
    match l
    case Space(c) => [c]
    case LineComment(body) => "--" + body
    case BlockComment(bits) => "/*" + BitsText(bits)
    case Literal(body, closed) => "'" + body + (if closed then "'" else "")
    case DollarText(tag, body, closed) => tag + body + (if closed then tag else "")
    case QuotedName(body, closed) => "\"" + body + (if closed then "\"" else "")
    case Name(text) => text
    case Parameter(digits) => "$" + digits
    case Sign(c) => [c]
  }

  function Text(ls: seq<Lexeme>): string {
    if ls == [] then [] else Spelling(ls[0]) + Text(ls[1..])
  }

  /** Each pair of quotes stands for one. */
  function Undoubled(b: string, q: char): string {
    if |b| < 2 then b
    else if b[0] == q == b[1] then [q] + Undoubled(b[2..], q)
    else [b[0]] + Undoubled(b[1..], q)
  }

  /** What the tokenizer says of a lexeme: nothing of spaces and comments. */
  function Said(l: Lexeme): seq<Token> {
    match l
    case Space(_) => []
    case LineComment(_) => []
    case BlockComment(_) => []
    case Literal(_, _) => [Str]
    case DollarText(_, _, _) => [Str]
    case QuotedName(body, _) => [Word(Undoubled(body, '"'))]
    case Name(text) => [Word(text)]
    case Parameter(_) => [Other]
    case Sign(c) =>
      [if c == '(' then LParen else if c == ')' then RParen else if c == '.' then Dot else if c == ';' then Semi
       else Other]
  }

  function AllSaid(ls: seq<Lexeme>): seq<Token> {
    if ls == [] then [] else Said(ls[0]) + AllSaid(ls[1..])
  }

  // ----- Which lexemes may stand where -------------------------------------------------------------

  predicate IsWhite(c: char) {
    c == ' ' || c == '\t' || c == '\n' || c == '\r' || c as int == 11 || c as int == 12
  }

  predicate Letter(c: char) { 'a' <= c <= 'z' || 'A' <= c <= 'Z' || c == '_' || c as int >= 128 }

  predicate Digit(c: char) { '0' <= c <= '9' }

  predicate Begins(s: string, c: char) { s != [] && s[0] == c }

  /** Inside `d` comments: they end with the last bit, or with the text. */
  predicate Nests(bits: seq<Bit>, d: nat, rest: string) {
    if bits == [] then d == 0 || rest == []
    else
      && d > 0
      && (match bits[0]
          case Deeper => Nests(bits[1..], d + 1, rest)
          case Shallower => Nests(bits[1..], d - 1, rest)
          case Plain(c) =>
            var next := BitsText(bits[1..]) + rest;
            !(c == '/' && Begins(next, '*')) && !(c == '*' && Begins(next, '/')) && Nests(bits[1..], d, rest))
  }

  predicate Doubled(b: string, q: char) {
    b == [] || (if b[0] != q then Doubled(b[1..], q) else |b| >= 2 && b[1] == q && Doubled(b[2..], q))
  }

  /** A tag: nothing or a name between two dollars. */
  predicate IsTag(t: string) {
    && |t| >= 2 && t[0] == '$' && t[|t| - 1] == '$'
    && (|t| > 2 ==> Letter(t[1])) && forall i :: 1 < i < |t| - 1 ==> Letter(t[i]) || Digit(t[i])
  }

  predicate TagTo(s: string, n: nat) { n <= |s| && IsTag(s[..n]) }

  predicate Occurs(pat: string, s: string, i: nat) { i <= |s| && pat <= s[i..] }

  /** A quoted text ends at its closing quote, which no other follows, or with the text. */
  predicate Ends(q: char, closed: bool, rest: string) { if closed then !Begins(rest, q) else rest == [] }

  /** The lexeme is well formed and does not run into what follows it. */
  ghost predicate Fits(l: Lexeme, rest: string) {
    match l
    case Space(c) => IsWhite(c)
    case LineComment(body) => '\n' !in body && (rest == [] || Begins(rest, '\n'))
    case BlockComment(bits) => Nests(bits, 1, rest)
    case Literal(body, closed) => Doubled(body, '\'') && Ends('\'', closed, rest)
    case DollarText(tag, body, closed) =>
      && IsTag(tag)
      && (if closed then forall i: nat :: i < |body| ==> !Occurs(tag, body + tag, i)
          else rest == [] && forall i: nat :: !Occurs(tag, body, i))
    case QuotedName(body, closed) => Doubled(body, '"') && Ends('"', closed, rest)
    case Name(text) =>
      && text != [] && Letter(text[0]) && (forall i :: 0 < i < |text| ==> Letter(text[i]) || Digit(text[i]))
      && (rest == [] || !(Letter(rest[0]) || Digit(rest[0])))
    case Parameter(digits) =>
      && (forall i :: 0 <= i < |digits| ==> Digit(digits[i])) && (rest == [] || !Digit(rest[0]))
      && forall n: nat :: !TagTo("$" + digits + rest, n)
    case Sign(c) =>
      && !IsWhite(c) && !Letter(c) && c != '\'' && c != '"' && c != '$'
      && !(c == '-' && Begins(rest, '-')) && !(c == '/' && Begins(rest, '*'))
  }

  ghost predicate Spells(ls: seq<Lexeme>) {
    ls == [] || (Fits(ls[0], Text(ls[1..])) && Spells(ls[1..]))
  }

  // ----- The scanner reads them ----------------------------------------------------------------------

  lemma SameChars(c: char)
    ensures IsWhite(c) <==> IsSpace(c)
    ensures (Letter(c) <==> IsIdentStart(c)) && (Digit(c) <==> IsDigit(c))
  {
  }

  lemma {:induction false} LineRead(body: string, rest: string)
    requires '\n' !in body && (rest == [] || Begins(rest, '\n'))
    ensures LineLen(body + rest) == |body|
  {
    var s := body + rest;
    if body != [] {
      assert s[1..] == body[1..] + rest;
      LineRead(body[1..], rest);
    }
  }

  lemma {:induction false} BlockRead(bits: seq<Bit>, d: nat, rest: string)
    requires Nests(bits, d, rest)
    ensures BlockLen(BitsText(bits) + rest, d) == |BitsText(bits)|
    decreases |bits|
  {
    var s := BitsText(bits) + rest;
    if bits != [] {
      var n := |BitText(bits[0])|;
      assert s[n..] == BitsText(bits[1..]) + rest;
      assert s[..n] == BitText(bits[0]);
      assert forall i :: 0 <= i < n ==> s[i] == BitText(bits[0])[i];
      match bits[0] {
        case Deeper => BlockRead(bits[1..], d + 1, rest);
        case Shallower => BlockRead(bits[1..], d - 1, rest);
        case Plain(c) => BlockRead(bits[1..], d, rest);
      }
    }
  }

  lemma {:induction false} QuoteRead(body: string, q: char, closed: bool, rest: string)
    requires Doubled(body, q) && Ends(q, closed, rest)
    ensures var s := body + (if closed then [q] else []) + rest;
      QuoteLen(s, q) == |body| + if closed then 1 else 0
    decreases |body|
  {
    var s := body + (if closed then [q] else []) + rest;
    if body != [] {
      if body[0] != q {
        assert s[1..] == body[1..] + (if closed then [q] else []) + rest;
        QuoteRead(body[1..], q, closed, rest);
      } else {
        assert s[2..] == body[2..] + (if closed then [q] else []) + rest;
        QuoteRead(body[2..], q, closed, rest);
      }
    }
  }

  lemma {:induction false} NameRead(body: string, closed: bool, rest: string)
    requires Doubled(body, '"') && Ends('"', closed, rest)
    ensures QuoteText(body + (if closed then "\"" else "") + rest) == Undoubled(body, '"')
    decreases |body|
  {
    var s := body + (if closed then "\"" else "") + rest;
    if body != [] {
      if body[0] != '"' {
        assert s[1..] == body[1..] + (if closed then "\"" else "") + rest;
        NameRead(body[1..], closed, rest);
        if |body| == 1 { assert body == [body[0]] + body[1..]; }
      } else {
        assert s[2..] == body[2..] + (if closed then "\"" else "") + rest;
        NameRead(body[2..], closed, rest);
      }
    }
  }

  lemma {:induction false} IdentRead(text: string, rest: string)
    requires forall i :: 0 <= i < |text| ==> Letter(text[i]) || Digit(text[i])
    requires rest == [] || !(Letter(rest[0]) || Digit(rest[0]))
    ensures IdentLen(text + rest) == |text|
  {
    var s := text + rest;
    if text != [] {
      assert s[1..] == text[1..] + rest;
      IdentRead(text[1..], rest);
    }
  }

  lemma {:induction false} DigitsRead(digits: string, rest: string)
    requires forall i :: 0 <= i < |digits| ==> Digit(digits[i])
    requires rest == [] || !Digit(rest[0])
    ensures DigitLen(digits + rest) == |digits|
  {
    var s := digits + rest;
    if digits != [] {
      assert s[1..] == digits[1..] + rest;
      DigitsRead(digits[1..], rest);
    }
  }

  lemma TagRead(tag: string, more: string)
    requires IsTag(tag)
    ensures DollarOpen(tag + more) == |tag|
  {
    var s, name, after := tag + more, tag[1..|tag| - 1], "$" + more;
    assert s[1..] == name + after;
    forall i | 0 <= i < |name| ensures Letter(name[i]) || Digit(name[i]) { assert name[i] == tag[i + 1]; }
    IdentRead(name, after);
    if |tag| > 2 { SameChars(s[1]); }
  }

  /** An opener is a tag. */
  lemma OpenIsTag(s: string)
    requires DollarOpen(s) > 0
    ensures TagTo(s, DollarOpen(s))
  {
    var j := IdentLen(s[1..]);
    IdentIs(s[1..]);
    var t := s[..j + 2];
    forall i | 1 < i < |t| - 1 ensures Letter(t[i]) || Digit(t[i]) { assert t[i] == s[1..][i - 1]; }
  }

  lemma {:induction false} IdentIs(s: string)
    ensures forall i :: 0 <= i < IdentLen(s) ==> Letter(s[i]) || Digit(s[i])
    ensures IdentLen(s) < |s| ==> !(Letter(s[IdentLen(s)]) || Digit(s[IdentLen(s)]))
  {
    if s != [] && IsIdentPart(s[0]) {
      IdentIs(s[1..]);
      assert forall i :: 1 <= i < |s| ==> s[i] == s[1..][i - 1];
    }
  }

  predicate NotBefore(pat: string, s: string, n: nat) { forall i: nat :: i < n ==> !Occurs(pat, s, i) }

  lemma OccursTail(pat: string, s: string, i: nat)
    requires s != []
    ensures Occurs(pat, s, i + 1) <==> Occurs(pat, s[1..], i)
    ensures Occurs(pat, s, 0) <==> pat <= s
  {
    assert s[0..] == s;
    if i < |s| { assert s[i + 1..] == s[1..][i..]; }
  }

  lemma NothingOccurs(pat: string, i: nat)
    ensures Occurs(pat, [], i) <==> pat == [] && i == 0
  {
  }

  /** The search goes through the first occurrence. */
  lemma {:induction false} ThroughRead(s: string, pat: string, n: nat)
    requires pat != [] && n <= |s| && NotBefore(pat, s, n)
    ensures n == |s| ==> ThroughLen(s, pat) == |s|
    ensures Occurs(pat, s, n) ==> ThroughLen(s, pat) == n + |pat|
  {
    hide Occurs;
    if s == [] {
      NothingOccurs(pat, 0);
    } else {
      OccursTail(pat, s, 0);
      if n > 0 {
        forall i: nat | i < n - 1 ensures !Occurs(pat, s[1..], i) { OccursTail(pat, s, i); }
        ThroughRead(s[1..], pat, n - 1);
        OccursTail(pat, s, n - 1);
      }
    }
  }

  /** The tag of a closed body does not come earlier because of what follows the closing one. */
  lemma SameOccurrences(tag: string, body: string, rest: string, i: nat)
    requires i < |body|
    ensures Occurs(tag, body + tag + rest, i) <==> Occurs(tag, body + tag, i)
  {
    var x, y := body + tag, body + tag + rest;
    assert y[i..] == x[i..] + rest;
    if tag <= y[i..] { assert tag == y[i..][..|tag|] == x[i..][..|tag|]; }
  }

  lemma DollarRead(tag: string, body: string, closed: bool, rest: string)
    requires Fits(DollarText(tag, body, closed), rest)
    ensures var s := Spelling(DollarText(tag, body, closed)) + rest;
      DollarOpen(s) == |tag| && DollarLen(s, |tag|) == |Spelling(DollarText(tag, body, closed))|
  {
    var s := Spelling(DollarText(tag, body, closed)) + rest;
    var more := body + (if closed then tag else []) + rest;
    assert s == tag + more;
    assert s[..|tag|] == tag && s[|tag|..] == more;
    TagRead(tag, more);
    if closed {
      forall i: nat | i < |body| ensures !Occurs(tag, more, i) { SameOccurrences(tag, body, rest, i); }
      assert more[|body|..] == tag + rest;
      assert Occurs(tag, more, |body|);
    } else {
      assert more == body;
    }
    ThroughRead(more, tag, |body|);
  }

  /** One lexeme is one unit. */
  ghost predicate Reads(l: Lexeme, rest: string) {
    var s := Spelling(l) + rest;
    s != [] && UnitLen(s) == |Spelling(l)| && UnitToks(s) == Said(l)
  }

  lemma QuotedReads(body: string, closed: bool, rest: string)
    requires Doubled(body, '\'') && Ends('\'', closed, rest)
    ensures Reads(Literal(body, closed), rest)
  {
    hide LineLen, BlockLen, QuoteLen, DollarOpen, DollarLen, PlainLen, PlainToks, Doubled;
    var s := Spelling(Literal(body, closed)) + rest;
    assert s[1..] == body + (if closed then ['\''] else []) + rest;
    QuoteRead(body, '\'', closed, rest);
  }

  lemma QuotedNameReads(body: string, closed: bool, rest: string)
    requires Doubled(body, '"') && Ends('"', closed, rest)
    ensures Reads(QuotedName(body, closed), rest)
  {
    hide QuoteLen, QuoteText, LineLen, BlockLen, DollarLen, IdentLen, Doubled;
    var s := Spelling(QuotedName(body, closed)) + rest;
    assert s[1..] == body + (if closed then ['"'] else []) + rest;
    QuoteRead(body, '"', closed, rest);
    NameRead(body, closed, rest);
  }

  lemma LineCommentReads(body: string, rest: string)
    requires Fits(LineComment(body), rest)
    ensures Reads(LineComment(body), rest)
  {
    hide LineLen, BlockLen, QuoteLen, DollarOpen, DollarLen, PlainLen, PlainToks;
    var s := "--" + body + rest;
    assert s[2..] == body + rest && s[0] == '-' == s[1];
    LineRead(body, rest);
  }

  lemma BlockCommentReads(bits: seq<Bit>, rest: string)
    requires Fits(BlockComment(bits), rest)
    ensures Reads(BlockComment(bits), rest)
  {
    hide LineLen, BlockLen, QuoteLen, DollarOpen, DollarLen, PlainLen, PlainToks, Nests, BitsText;
    var s := "/*" + BitsText(bits) + rest;
    assert s[2..] == BitsText(bits) + rest && s[0] == '/' && s[1] == '*';
    BlockRead(bits, 1, rest);
  }

  lemma SignReads(l: Lexeme, rest: string)
    requires Fits(l, rest) && (l.Space? || l.Sign?)
    ensures Reads(l, rest)
  {
    hide LineLen, BlockLen, QuoteLen, DollarLen, IdentLen, DigitLen;
    var s := Spelling(l) + rest;
    SameChars(s[0]);
    if |s| > 1 { assert s[1] == rest[0]; }
  }

  lemma NameReads(text: string, rest: string)
    requires Fits(Name(text), rest)
    ensures Reads(Name(text), rest)
  {
    hide LineLen, BlockLen, QuoteLen, DollarLen, IdentLen, DigitLen;
    var s := text + rest;
    SameChars(s[0]);
    IdentRead(text[1..], rest);
    assert s[1..] == text[1..] + rest;
    assert s[..|text|] == text;
  }

  lemma ParameterReads(digits: string, rest: string)
    requires Fits(Parameter(digits), rest)
    ensures Reads(Parameter(digits), rest)
  {
    hide LineLen, BlockLen, QuoteLen, DollarLen, DollarOpen, IdentLen, DigitLen;
    var s := "$" + digits + rest;
    if DollarOpen(s) > 0 { OpenIsTag(s); }
    DigitsRead(digits, rest);
    assert s[1..] == digits + rest;
  }

  lemma FittingReads(l: Lexeme, rest: string)
    requires Fits(l, rest)
    ensures Reads(l, rest)
  {
    hide UnitLen, UnitToks;
    match l
    case Literal(body, closed) => QuotedReads(body, closed, rest);
    case QuotedName(body, closed) => QuotedNameReads(body, closed, rest);
    case LineComment(body) => LineCommentReads(body, rest);
    case BlockComment(bits) => BlockCommentReads(bits, rest);
    case DollarText(tag, body, closed) => DollarReads(tag, body, closed, rest);
    case Name(text) => NameReads(text, rest);
    case Parameter(digits) => ParameterReads(digits, rest);
    case _ => SignReads(l, rest);
  }

  lemma DollarReads(tag: string, body: string, closed: bool, rest: string)
    requires Fits(DollarText(tag, body, closed), rest)
    ensures Reads(DollarText(tag, body, closed), rest)
  {
    hide DollarLen, DollarOpen, LineLen, BlockLen, QuoteLen;
    DollarRead(tag, body, closed, rest);
    assert (Spelling(DollarText(tag, body, closed)) + rest)[0] == '$';
  }

  /** A text spelled from lexemes is read as exactly those. */
  lemma {:induction false} SpelledIsRead(ls: seq<Lexeme>)
    requires Spells(ls)
    ensures Tokens(Text(ls)) == AllSaid(ls)
  {
    hide UnitLen, UnitToks, Fits, Said, Spelling;
    if ls == [] {
      NoMoreTokens();
    } else {
      var s, l := Text(ls), ls[0];
      FittingReads(l, Text(ls[1..]));
      SpelledIsRead(ls[1..]);
      TokensStep(s);
      assert s[|Spelling(l)|..] == Text(ls[1..]);
    }
  }

  // ----- Every text is spelled from lexemes ------------------------------------------------------------

  lemma {:induction false} LineIs(s: string)
    ensures var n := LineLen(s); '\n' !in s[..n] && (n == |s| || s[n] == '\n')
  {
    if s != [] && s[0] != '\n' {
      LineIs(s[1..]);
      var n := LineLen(s);
      assert s[..n] == [s[0]] + s[1..][..n - 1];
    }
  }

  lemma {:induction false} BlockIs(s: string, d: nat) returns (bits: seq<Bit>)
    ensures var n := BlockLen(s, d); BitsText(bits) == s[..n] && Nests(bits, d, s[n..])
    decreases |s|
  {
    bits := [];
    if s != [] && d > 0 {
      var n, k := BlockLen(s, d), BlockAdv(s);
      var more := BlockIs(s[k..], BlockDepth(s, d));
      var bit := if Starts(s, '/', '*') then Deeper else if Starts(s, '*', '/') then Shallower else Plain(s[0]);
      bits := [bit] + more;
      hide BlockLen, Nests, BitsText;
      assert s[..n] == s[..k] + s[k..][..n - k] && s[n..] == s[k..][n - k..];
      BitMore(s, d, bit, more, s[n..]);
    }
  }

  lemma BitMore(s: string, d: nat, bit: Bit, more: seq<Bit>, rest: string)
    requires s != [] && d > 0
    requires bit == if Starts(s, '/', '*') then Deeper else if Starts(s, '*', '/') then Shallower else Plain(s[0])
    requires Nests(more, BlockDepth(s, d), rest) && s[BlockAdv(s)..] == BitsText(more) + rest
    ensures Nests([bit] + more, d, rest) && BitsText([bit] + more) == s[..BlockAdv(s)] + BitsText(more)
  {
    assert ([bit] + more)[1..] == more;
    assert BitText(bit) == s[..BlockAdv(s)];
    if bit.Plain? && |s| > 1 { assert s[1..][0] == s[1]; }
  }

  lemma {:induction false} QuoteIs(s: string, q: char) returns (body: string, closed: bool)
    ensures var n := QuoteLen(s, q);
      s[..n] == body + (if closed then [q] else []) && Doubled(body, q) && Ends(q, closed, s[n..])
    decreases |s|
  {
    body, closed := [], false;
    if s != [] {
      var n := QuoteLen(s, q);
      var k := if s[0] != q then 1 else 2;
      if s[0] == q && !Starts(s, q, q) {
        closed := true;
      } else {
        var more;
        more, closed := QuoteIs(s[k..], q);
        body := s[..k] + more;
        assert body[k..] == more && body[0] == s[0] && (k == 2 ==> body[1] == s[1]);
        hide QuoteLen;
        assert s[..n] == s[..k] + s[k..][..n - k] && s[n..] == s[k..][n - k..];
      }
    }
  }

  lemma {:induction false} DigitsIs(s: string)
    ensures var n := DigitLen(s); (forall i :: 0 <= i < n ==> Digit(s[i])) && (n == |s| || !Digit(s[n]))
  {
    if s != [] && IsDigit(s[0]) {
      DigitsIs(s[1..]);
      assert forall i :: 1 <= i < |s| ==> s[i] == s[1..][i - 1];
    }
  }

  lemma {:induction false} ThroughIs(s: string, pat: string) returns (n: nat, found: bool)
    requires pat != []
    ensures n <= |s| && NotBefore(pat, s, n)
    ensures if found then Occurs(pat, s, n) && ThroughLen(s, pat) == n + |pat|
            else n == |s| == ThroughLen(s, pat) && !Occurs(pat, s, n)
  {
    hide Occurs;
    n, found := 0, false;
    if s == [] {
      NothingOccurs(pat, 0);
    } else {
      OccursTail(pat, s, 0);
      if pat <= s {
        found := true;
      } else {
        var m;
        m, found := ThroughIs(s[1..], pat);
        n := m + 1;
        forall i: nat | i < n ensures !Occurs(pat, s, i) { if i > 0 { OccursTail(pat, s, i - 1); } }
        OccursTail(pat, s, m);
      }
    }
  }

  lemma DollarIs(s: string) returns (l: Lexeme)
    requires DollarOpen(s) > 0
    ensures l.DollarText? && Spelling(l) == s[..DollarLen(s, DollarOpen(s))] && Fits(l, s[DollarLen(s, DollarOpen(s))..])
  {
    hide ThroughLen, DollarOpen, IsTag;
    var o := DollarOpen(s);
    var tag, more := s[..o], s[o..];
    OpenIsTag(s);
    var n, found := ThroughIs(more, tag);
    var body := more[..n];
    l := DollarText(tag, body, found);
    if found {
      assert more == body + tag + more[n + o..];
      forall i: nat | i < n ensures !Occurs(tag, body + tag, i) { SameOccurrences(tag, body, more[n + o..], i); }
      assert s[..o + n + o] == tag + body + tag;
    } else {
      assert body == more && s[|s|..] == [] && tag + body + [] == s;
      forall i: nat ensures !Occurs(tag, body, i) { }
    }
  }

  lemma LineCommentIs(s: string) returns (l: Lexeme)
    requires Starts(s, '-', '-')
    ensures var n := 2 + LineLen(s[2..]); Spelling(l) == s[..n] && Fits(l, s[n..])
  {
    hide LineLen;
    var n := 2 + LineLen(s[2..]);
    LineIs(s[2..]);
    l := LineComment(s[2..n]);
    assert s[2..n] == s[2..][..n - 2] && s[..n] == "--" + s[2..n];
  }

  lemma BlockCommentIs(s: string) returns (l: Lexeme)
    requires Starts(s, '/', '*')
    ensures var n := 2 + BlockLen(s[2..], 1); Spelling(l) == s[..n] && Fits(l, s[n..])
  {
    hide BlockLen, Nests, BitsText;
    var n := 2 + BlockLen(s[2..], 1);
    var bits := BlockIs(s[2..], 1);
    l := BlockComment(bits);
    assert s[n..] == s[2..][n - 2..] && s[..n] == "/*" + s[2..][..n - 2];
  }

  lemma LiteralIs(s: string) returns (l: Lexeme)
    requires s != [] && s[0] == '\''
    ensures var n := 1 + QuoteLen(s[1..], '\''); Spelling(l) == s[..n] && Fits(l, s[n..])
  {
    hide QuoteLen, Doubled;
    var n := 1 + QuoteLen(s[1..], '\'');
    var body, closed := QuoteIs(s[1..], '\'');
    l := Literal(body, closed);
    assert s[n..] == s[1..][n - 1..] && s[..n] == "'" + s[1..][..n - 1];
  }

  lemma SkippedIs(s: string) returns (l: Lexeme)
    requires SkipLen(s) > 0
    ensures Spelling(l) == s[..SkipLen(s)] && Fits(l, s[SkipLen(s)..])
  {
    hide LineLen, BlockLen, QuoteLen, DollarLen, DollarOpen, Spelling, Fits;
    if Starts(s, '-', '-') {
      l := LineCommentIs(s);
    } else if Starts(s, '/', '*') {
      l := BlockCommentIs(s);
    } else if s[0] == '\'' {
      l := LiteralIs(s);
    } else {
      l := DollarIs(s);
    }
  }

  lemma QuotedNameIs(s: string) returns (l: Lexeme)
    requires s != [] && s[0] == '"'
    ensures var n := 1 + QuoteLen(s[1..], '"'); Spelling(l) == s[..n] && Fits(l, s[n..])
  {
    hide QuoteLen, Doubled;
    var n := 1 + QuoteLen(s[1..], '"');
    var body, closed := QuoteIs(s[1..], '"');
    l := QuotedName(body, closed);
    assert s[n..] == s[1..][n - 1..] && s[..n] == "\"" + s[1..][..n - 1];
  }

  lemma ParameterIs(s: string) returns (l: Lexeme)
    requires s != [] && s[0] == '$' && DollarOpen(s) == 0
    ensures var n := 1 + DigitLen(s[1..]); Spelling(l) == s[..n] && Fits(l, s[n..])
  {
    hide DigitLen, DollarOpen, TagTo;
    var n := 1 + DigitLen(s[1..]);
    DigitsIs(s[1..]);
    l := Parameter(s[1..n]);
    assert s[1..n] == s[1..][..n - 1] && "$" + s[1..n] == s[..n];
    NoTagHere(s);
    assert "$" + s[1..n] + s[n..] == s;
  }

  lemma NameIs(s: string) returns (l: Lexeme)
    requires s != [] && IsIdentStart(s[0])
    ensures var n := 1 + IdentLen(s[1..]); Spelling(l) == s[..n] && Fits(l, s[n..])
  {
    hide IdentLen;
    var n := 1 + IdentLen(s[1..]);
    SameChars(s[0]);
    IdentIs(s[1..]);
    l := Name(s[..n]);
    assert forall i :: 0 < i < n ==> s[i] == s[1..][i - 1];
  }

  lemma PlainIs(s: string) returns (l: Lexeme)
    requires s != [] && SkipLen(s) == 0
    ensures Spelling(l) == s[..PlainLen(s)] && Fits(l, s[PlainLen(s)..])
  {
    hide LineLen, BlockLen, QuoteLen, DollarLen, DollarOpen, IdentLen, DigitLen, Doubled, IsTag, Nests, TagTo;
    var c := s[0];
    SameChars(c);
    if c == '"' {
      l := QuotedNameIs(s);
    } else if c == '$' {
      l := ParameterIs(s);
    } else if IsIdentStart(c) {
      l := NameIs(s);
    } else {
      l := if IsWhite(c) then Space(c) else Sign(c);
      assert s == [c] + s[1..];
    }
  }

  lemma NoTagHere(s: string)
    requires DollarOpen(s) == 0
    ensures forall n: nat :: !TagTo(s, n)
  {
    forall n: nat ensures !TagTo(s, n) {
      if TagTo(s, n) {
        assert s == s[..n] + s[n..];
        TagRead(s[..n], s[n..]);
      }
    }
  }

  /** Every text is spelled from lexemes. */
  lemma {:induction false} Spell(s: string) returns (ls: seq<Lexeme>)
    ensures Text(ls) == s && Spells(ls)
    decreases |s|
  {
    hide SkipLen, PlainLen, Fits, Spelling;
    ls := [];
    if s != [] {
      var n := UnitLen(s);
      var l;
      if SkipLen(s) > 0 { l := SkippedIs(s); } else { l := PlainIs(s); }
      var more := Spell(s[n..]);
      ls := [l] + more;
      assert ls[1..] == more;
    }
  }

  /**
   What the tokenizer makes of a text: it gives the tokens `ts` exactly when these are what the lexemes
   say from which the text is spelled.
   */
  lemma TokensIff(s: string, ts: seq<Token>)
    ensures Tokens(s) == ts <==> exists ls :: Text(ls) == s && Spells(ls) && AllSaid(ls) == ts
  {
    hide Tokens, Text, Spells, AllSaid;
    var ls := Spell(s);
    SpelledIsRead(ls);
    forall ls | Text(ls) == s && Spells(ls) ensures AllSaid(ls) == Tokens(s) { SpelledIsRead(ls); }
  }
}
