/**
 Statement classification (pkg/filter/classifier.go). A text is one statement or several; the
 class of several is the first one of the highest priority. The keyword and built-in tables are a
 parameter: every result holds for any tables.
 */
module Classifier {
  import opened Core
  import opened Lexer

  /** Names that may stand before '(' without being a call of a user function. Lower case. */
  datatype Lexicon = Lexicon(keywords: set<string>, builtins: set<string>)

  function LowerChar(c: char): char {
    if 'A' <= c <= 'Z' then (c as int + 32) as char else c
  }

  function Lower(s: string): (r: string)
    ensures |r| == |s|
  {
    seq(|s|, i requires 0 <= i < |s| => LowerChar(s[i]))
  }

  function LowerTok(t: Token): Token {
    match t case Word(x) => Word(Lower(x)) case _ => t
  }

  function LowerToks(ts: seq<Token>): (r: seq<Token>)
    ensures |r| == |ts|
  {
    seq(|ts|, i requires 0 <= i < |ts| => LowerTok(ts[i]))
  }

  // ----- One statement, on its lower-cased tokens -----------------------------------------------

  function FirstWord(ts: seq<Token>): string {
    if ts == [] then "" else if ts[0].Word? then ts[0].text else FirstWord(ts[1..])
  }

  /** The tokens after the first word. */
  function AfterFirst(ts: seq<Token>): seq<Token> {
    if ts == [] then [] else if ts[0].Word? then ts[1..] else AfterFirst(ts[1..])
  }

  /** The first of `words` at parenthesis depth zero, or "". */
  function FirstOutside(ts: seq<Token>, words: set<string>, depth: nat): string {
    if ts == [] then ""
    else if ts[0].Word? && depth == 0 && ts[0].text in words then ts[0].text
    else FirstOutside(ts[1..], words, TokDepth(ts[0], depth))
  }

  /** How many tokens the qualified name at the front takes: word (dot word)*. */
  function NameLen(ts: seq<Token>): (n: nat)
    requires ts != [] && ts[0].Word?
    ensures 0 < n <= |ts| && ts[n - 1].Word?
  {
    if |ts| > 2 && ts[1].Dot? && ts[2].Word? then 2 + NameLen(ts[2..]) else 1
  }

  /** A name followed by '(' whose first and last parts are no keywords and whose last part is no
      built-in function. */
  predicate IsCall(lx: Lexicon, ts: seq<Token>)
    requires ts != [] && ts[0].Word?
  {
    var n := NameLen(ts);
    && n < |ts| && ts[n].LParen?
    && ts[0].text !in lx.keywords && ts[n - 1].text !in lx.keywords && ts[n - 1].text !in lx.builtins
  }

  predicate Invokes(lx: Lexicon, ts: seq<Token>)
    decreases |ts|
  {
    if ts == [] then false
    else if ts[0].Word? then IsCall(lx, ts) || Invokes(lx, ts[NameLen(ts)..])
    else Invokes(lx, ts[1..])
  }

  const COMMANDS: set<string> := {"select", "insert", "update", "delete"}

  function SelectClass(invokes: bool): StmtClass {
    if invokes then ClassProcSelect else ClassPlainSelect
  }

  /** The class of one statement, by its leading word and what the other scans found. */
  function Verdict(lead: string, savepoint: bool, from: bool, primary: string, invokes: bool): StmtClass {
    if lead == "call" then ClassCall
    else if lead in {"insert", "update", "delete"} then ClassDML
    else if lead in {"create", "alter", "drop"} then ClassDDL
    else if lead in {"begin", "start"} then ClassBegin
    else if lead in {"commit", "end"} then ClassCommitRollback
    else if lead == "rollback" then (if savepoint then ClassUtility else ClassCommitRollback)
    else if lead in {"savepoint", "release", "set", "reset", "discard"} then ClassUtility
    else if lead == "copy" then (if from then ClassCopyFrom else ClassUnknown)
    else if lead == "select" then SelectClass(invokes)
    else if lead == "with" then
      if primary == "select" then SelectClass(invokes)
      else if primary in {"insert", "update", "delete"} then ClassDML
      else ClassUnknown
    else ClassUnknown
  }

  function ClassOf(lx: Lexicon, toks: seq<Token>): StmtClass {
    var ts := LowerToks(Erase(toks));
    Verdict(FirstWord(ts), FirstWord(AfterFirst(ts)) == "to", FirstOutside(ts, {"from"}, 0) != "",
            FirstOutside(ts, COMMANDS, 0), Invokes(lx, ts))
  }

  // What the scan for calls finds, without the scan.

  /** A dot joins the words at `j` and `j + 2`. */
  predicate Joins(ts: seq<Token>, j: nat) { j + 2 < |ts| && ts[j].Word? && ts[j + 1].Dot? && ts[j + 2].Word? }

  /** A qualified name starts at `i`: a word that no dot joins to a word before it. */
  predicate NameStart(ts: seq<Token>, i: nat) {
    i < |ts| && ts[i].Word? && !(i >= 2 && Joins(ts, i - 2))
  }

  /** No name reaches across `k`. */
  predicate Clean(ts: seq<Token>, k: nat) {
    !(k >= 1 && Joins(ts, k - 1)) && !(k >= 2 && Joins(ts, k - 2))
  }

  predicate CalledAt(lx: Lexicon, ts: seq<Token>, i: nat) { NameStart(ts, i) && IsCall(lx, ts[i..]) }

  lemma {:induction false} NameSpan(ts: seq<Token>, k: nat)
    requires k < |ts| && ts[k].Word?
    ensures var n := NameLen(ts[k..]);
      && !Joins(ts, k + n - 1) && (n > 1 ==> ts[k + n - 2].Dot?)
      && forall i :: k < i < k + n ==> !NameStart(ts, i)
    decreases |ts| - k
  {
    if Joins(ts, k) {
      assert ts[k..][2..] == ts[k + 2..];
      NameSpan(ts, k + 2);
    }
  }

  /** The statement invokes a function exactly when somewhere in it a whole qualified name is followed
      by '(' and is neither a keyword nor a built-in. */
  lemma {:induction false} InvokesIff(lx: Lexicon, ts: seq<Token>, k: nat)
    requires k <= |ts| && Clean(ts, k)
    ensures Invokes(lx, ts[k..]) <==> exists i :: k <= i < |ts| && CalledAt(lx, ts, i)
    decreases |ts| - k
  {
    hide IsCall, NameLen;
    if k < |ts| {
      var s, n := ts[k..], 1;
      if ts[k].Word? {
        n := NameLen(s);
        NameSpan(ts, k);
      }
      assert s[n..] == ts[k + n..];
      InvokesIff(lx, ts, k + n);
      InvokesStep(lx, s);
      assert CalledAt(lx, ts, k) <==> ts[k].Word? && IsCall(lx, s);
    }
  }

  lemma InvokesStep(lx: Lexicon, ts: seq<Token>)
    requires ts != []
    ensures Invokes(lx, ts) == if ts[0].Word? then IsCall(lx, ts) || Invokes(lx, ts[NameLen(ts)..])
                               else Invokes(lx, ts[1..])
  {
  }

  // ----- Several statements -----------------------------------------------------------------------

  function Priority(c: StmtClass): nat {
    match c
    case ClassUnknown => 0
    case ClassPlainSelect => 1
    case ClassUtility => 2
    case ClassProcSelect => 3
    case ClassCopyFrom => 4
    case ClassDML => 5
    case ClassCall => 5
    case ClassDDL => 6
    case ClassBegin => 7
    case ClassCommitRollback => 8
  }

  function Better(best: StmtClass, c: StmtClass): StmtClass {
    if Priority(c) > Priority(best) then c else best
  }

  function Best(best: StmtClass, cs: seq<StmtClass>): StmtClass
    decreases |cs|
  {
    if cs == [] then best else Best(Better(best, cs[0]), cs[1..])
  }

  predicate NoneAbove(cs: seq<StmtClass>, c: StmtClass) {
    forall j :: 0 <= j < |cs| ==> Priority(cs[j]) <= Priority(c)
  }

  predicate IsFirstHighest(cs: seq<StmtClass>, c: StmtClass, at: nat) {
    && at < |cs| && cs[at] == c
    && NoneAbove(cs, c)
    && (forall j :: 0 <= j < at ==> Priority(cs[j]) < Priority(c))
  }

  /** The fold returns the first class of the highest priority, and the starting class if there is
      none above it. */
  lemma {:induction false} BestIsFirstHighest(best: StmtClass, cs: seq<StmtClass>)
    ensures NoneAbove(cs, best) ==> Best(best, cs) == best
    ensures !NoneAbove(cs, best) ==> exists at: nat :: IsFirstHighest(cs, Best(best, cs), at)
    decreases |cs|
  {
    if cs != [] {
      var next, r := Better(best, cs[0]), Best(best, cs);
      BestIsFirstHighest(next, cs[1..]);
      assert forall j :: 0 < j < |cs| ==> cs[j] == cs[1..][j - 1];
      if NoneAbove(cs[1..], next) {
        if Priority(cs[0]) > Priority(best) {
          var at: nat := 0;
          assert IsFirstHighest(cs, r, at);
        } else {
          assert NoneAbove(cs, best);
        }
      } else {
        var at: nat :| IsFirstHighest(cs[1..], r, at);
        assert IsFirstHighest(cs, r, at + 1);
      }
    }
  }

  // ----- The whole text ---------------------------------------------------------------------------

  function TrimLeft(s: string): string {
    if s != [] && IsSpace(s[0]) then TrimLeft(s[1..]) else s
  }

  function TrimRight(s: string): string {
    if s != [] && IsSpace(s[|s| - 1]) then TrimRight(s[..|s| - 1]) else s
  }

  function Trim(s: string): string { TrimRight(TrimLeft(s)) }

  function Single(lx: Lexicon, s: string): StmtClass { ClassOf(lx, Tokens(s)) }

  /** The classes of the pieces that are not blank. */
  function PieceClasses(lx: Lexicon, ps: seq<string>): seq<StmtClass> {
    if ps == [] then []
    else (if Trim(ps[0]) == [] then [] else [Single(lx, Trim(ps[0]))]) + PieceClasses(lx, ps[1..])
  }

  /** What the classifier answers: by way of the pieces if the fast check finds a second statement,
      from the text as it is otherwise. */
  function Classify(lx: Lexicon, s: string): StmtClass {
    if IndexSemi(s) >= 0 then Best(ClassUnknown, PieceClasses(lx, Split(s))) else Single(lx, s)
  }

  // ----- What it means, on the tokens of the whole text -----------------------------------------------

  lemma {:induction false} TokSemiRange(ts: seq<Token>, depth: nat)
    ensures -1 <= TokSemi(ts, depth) < |ts|
  {
    if ts != [] { TokSemiRange(ts[1..], TokDepth(ts[0], depth)); }
  }

  /** The runs of tokens between semicolons at parenthesis depth zero. */
  function Groups(ts: seq<Token>): seq<seq<Token>>
    decreases |ts|
  {
    TokSemiRange(ts, 0);
    var k := TokSemi(ts, 0);
    if k < 0 then [ts] else [ts[..k]] + Groups(ts[k + 1..])
  }

  function GroupClasses(lx: Lexicon, gs: seq<seq<Token>>): seq<StmtClass> {
    seq(|gs|, i requires 0 <= i < |gs| => ClassOf(lx, gs[i]))
  }

  /** The text does not end in a blank inside an identifier that is left open: trimming the last
      statement would cut the identifier short. */
  predicate Settled(s: string) {
    NamesClosed(s) || s == [] || !IsSpace(s[|s| - 1])
  }

  lemma {:induction false} TrimLeftTokens(s: string)
    requires Settled(s)
    ensures Tokens(TrimLeft(s)) == Tokens(s) && Settled(TrimLeft(s))
  {
    hide Tokens, NamesClosed;
    if s != [] && IsSpace(s[0]) {
      TokensCons(s[0], s[1..]);
      assert [s[0]] + s[1..] == s;
      TrimLeftTokens(s[1..]);
    }
  }

  lemma {:induction false} TrimRightTokens(s: string)
    requires Settled(s)
    ensures Tokens(TrimRight(s)) == Tokens(s)
    decreases |s|
  {
    hide Tokens, NamesClosed;
    if s != [] && IsSpace(s[|s| - 1]) {
      var t := s[..|s| - 1];
      assert t + [s[|s| - 1]] == s;
      TokensSnoc(t, s[|s| - 1]);
      TrimRightTokens(t);
    }
  }

  lemma TrimTokens(s: string)
    requires Settled(s)
    ensures Tokens(Trim(s)) == Tokens(s)
  {
    TrimLeftTokens(s);
    TrimRightTokens(TrimLeft(s));
  }

  /** The semicolon scanners' cuts are the tokenizer's semicolons at depth zero. */
  predicate InStep(s: string)
    decreases |s|
  {
    var k := TopSemi(s, 0);
    if k < 0 then TokSemi(Tokens(s), 0) < 0
    else AtUnit(s, k) && TokSemi(Tokens(s), 0) == |Tokens(s[..k])| && InStep(s[k + 1..])
  }

  lemma {:induction false} QuietInStep(s: string)
    requires QuietNames(s)
    ensures InStep(s)
    decreases |s|
  {
    hide Tokens, TopSemi, TokSemi, AtUnit, QuietNames;
    TopLevelCut(s);
    if TopSemi(s, 0) >= 0 {
      AlignedCut(s);
      QuietInStep(s[TopSemi(s, 0) + 1..]);
    }
  }

  lemma NoTokensUnknown(lx: Lexicon)
    ensures ClassOf(lx, []) == ClassUnknown && Tokens([]) == []
  {
  }

  lemma OneMore(best: StmtClass, c: StmtClass, cs: seq<StmtClass>)
    ensures Best(best, [c] + cs) == Best(Better(best, c), cs)
  {
    assert ([c] + cs)[1..] == cs;
  }

  lemma GroupsStep(lx: Lexicon, s: string)
    requires InStep(s) && TopSemi(s, 0) >= 0
    ensures var k := TopSemi(s, 0);
      && Tokens(s) == Tokens(s[..k]) + [Semi] + Tokens(s[k + 1..])
      && GroupClasses(lx, Groups(Tokens(s)))
           == [ClassOf(lx, Tokens(s[..k]))] + GroupClasses(lx, Groups(Tokens(s[k + 1..])))
      && NamesClosed(s[..k]) && InStep(s[k + 1..]) && (Settled(s) ==> Settled(s[k + 1..]))
  {
    hide Tokens, TopSemi, TokSemi, NamesClosed, ClassOf, AtUnit, Groups, QuietNames;
    var k := TopSemi(s, 0);
    AlignedCut(s);
    var a, b := Tokens(s[..k]), Tokens(s[k + 1..]);
    GroupsCut(Tokens(s), a, b);
    assert GroupClasses(lx, [a] + Groups(b)) == [ClassOf(lx, a)] + GroupClasses(lx, Groups(b));
  }

  lemma GroupsCut(ts: seq<Token>, a: seq<Token>, b: seq<Token>)
    requires ts == a + [Semi] + b && TokSemi(ts, 0) == |a|
    ensures Groups(ts) == [a] + Groups(b)
  {
    assert ts[..|a|] == a && ts[|a| + 1..] == b;
  }

  lemma PieceClassesStep(lx: Lexicon, p: string, ps: seq<string>, best: StmtClass)
    requires Settled(p)
    ensures Best(best, PieceClasses(lx, [p] + ps))
         == Best(Better(best, ClassOf(lx, Tokens(p))), PieceClasses(lx, ps))
  {
    hide Tokens, Settled, ClassOf, Trim;
    assert ([p] + ps)[1..] == ps;
    TrimTokens(p);
    if Trim(p) == [] {
      NoTokensUnknown(lx);
      assert PieceClasses(lx, [p] + ps) == PieceClasses(lx, ps);
    } else {
      OneMore(best, ClassOf(lx, Tokens(p)), PieceClasses(lx, ps));
    }
  }

  /** The splitter's pieces and the tokenizer's groups lead to the same class. */
  lemma {:induction false} PiecesAreGroups(lx: Lexicon, s: string, best: StmtClass)
    requires InStep(s) && Settled(s)
    ensures Best(best, PieceClasses(lx, Split(s))) == Best(best, GroupClasses(lx, Groups(Tokens(s))))
    decreases |s|
  {
    hide Tokens, NamesClosed, ClassOf, TopSemi, PieceClasses, TokSemi, InStep;
    var k := TopSemi(s, 0);
    if k >= 0 {
      SplitCut(s, k);
      GroupsStep(lx, s);
      var c := ClassOf(lx, Tokens(s[..k]));
      PieceClassesStep(lx, s[..k], Split(s[k + 1..]), best);
      OneMore(best, c, GroupClasses(lx, Groups(Tokens(s[k + 1..]))));
      PiecesAreGroups(lx, s[k + 1..], Better(best, c));
    } else {
      LastPiece(lx, s, best);
      LastPieceTrimmed(lx, s, best);
    }
  }

  lemma LastPiece(lx: Lexicon, s: string, best: StmtClass)
    requires InStep(s) && TopSemi(s, 0) < 0
    ensures GroupClasses(lx, Groups(Tokens(s))) == [Single(lx, s)]
    ensures Best(best, [Single(lx, s)]) == Better(best, Single(lx, s))
  {
    hide Tokens, ClassOf, TopSemi, TokSemi;
    OneMore(best, Single(lx, s), []);
    assert [Single(lx, s)] + [] == [Single(lx, s)];
  }

  lemma LastPieceTrimmed(lx: Lexicon, s: string, best: StmtClass)
    requires Settled(s) && TopSemi(s, 0) < 0
    ensures Best(best, PieceClasses(lx, Split(s))) == Better(best, Single(lx, s))
  {
    hide Tokens, Settled, ClassOf, TopSemi, PieceClasses, TokSemi;
    SplitLast(s);
    NoPieces(lx);
    if s == [] {
      NoTokensUnknown(lx);
    } else {
      PieceClassesStep(lx, s, [], best);
      assert [s] + [] == [s];
    }
  }

  lemma NoPieces(lx: Lexicon)
    ensures PieceClasses(lx, []) == []
  {
  }

  // A punctuation token at the end changes nothing.

  lemma {:induction false} WordsSnoc(ts: seq<Token>)
    ensures FirstWord(ts + [Other]) == FirstWord(ts)
    ensures FirstWord(AfterFirst(ts + [Other])) == FirstWord(AfterFirst(ts))
  {
    if ts != [] {
      assert (ts + [Other])[1..] == ts[1..] + [Other];
      WordsSnoc(ts[1..]);
    }
  }

  lemma {:induction false} OutsideSnoc(ts: seq<Token>, words: set<string>, depth: nat)
    ensures FirstOutside(ts + [Other], words, depth) == FirstOutside(ts, words, depth)
  {
    if ts != [] {
      assert (ts + [Other])[1..] == ts[1..] + [Other];
      OutsideSnoc(ts[1..], words, TokDepth(ts[0], depth));
    }
  }

  lemma {:induction false} NameSnoc(ts: seq<Token>)
    requires ts != [] && ts[0].Word?
    ensures NameLen(ts + [Other]) == NameLen(ts)
  {
    if |ts| > 2 && ts[1].Dot? && ts[2].Word? {
      assert (ts + [Other])[2..] == ts[2..] + [Other];
      NameSnoc(ts[2..]);
    }
  }

  lemma {:induction false} InvokesSnoc(lx: Lexicon, ts: seq<Token>)
    ensures Invokes(lx, ts + [Other]) == Invokes(lx, ts)
    decreases |ts|
  {
    hide NameLen;
    if ts != [] {
      var n := 1;
      if ts[0].Word? {
        NameSnoc(ts);
        n := NameLen(ts);
      }
      assert (ts + [Other])[n..] == ts[n..] + [Other];
      InvokesSnoc(lx, ts[n..]);
    }
  }

  lemma ClassSnoc(lx: Lexicon, toks: seq<Token>)
    ensures ClassOf(lx, toks + [Semi]) == ClassOf(lx, toks)
  {
    hide FirstWord, AfterFirst, FirstOutside, Invokes, Verdict;
    var ts := LowerToks(Erase(toks));
    assert LowerToks(Erase(toks + [Semi])) == ts + [Other];
    WordsSnoc(ts);
    OutsideSnoc(ts, {"from"}, 0);
    OutsideSnoc(ts, COMMANDS, 0);
    InvokesSnoc(lx, ts);
  }

  lemma {:induction false} BlankTokens(s: string)
    requires Blank(s)
    ensures Tokens(s) == []
  {
    hide Tokens;
    if s != [] {
      BlankTokens(s[1..]);
      TokensCons(s[0], s[1..]);
      assert [s[0]] + s[1..] == s;
    } else {
      NoMoreTokens();
    }
  }

  /**
   Fast path or slow path, the answer is the first class of the highest priority among the token
   groups of the whole text, if the semicolon scanners are in step with the tokenizer.
   */
  lemma ClassifyByGroups(lx: Lexicon, s: string)
    requires InStep(s) && Settled(s)
    ensures Classify(lx, s) == Best(ClassUnknown, GroupClasses(lx, Groups(Tokens(s))))
  {
    hide Tokens, NamesClosed, ClassOf, TopSemi, TokSemi, PieceClasses, InStep;
    var k := TopSemi(s, 0);
    if k < 0 {
      LastPiece(lx, s, ClassUnknown);
    } else if Blank(s[k + 1..]) {
      GroupsStep(lx, s);
      BlankTokens(s[k + 1..]);
      ClassSnoc(lx, Tokens(s[..k]));
      assert Tokens(s) == Tokens(s[..k]) + [Semi];
      var c := Single(lx, s);
      NoGroup(lx);
      OneMore(ClassUnknown, c, [ClassUnknown]);
      OneMore(Better(ClassUnknown, c), ClassUnknown, []);
      assert [ClassUnknown] + [] == [ClassUnknown];
    } else {
      PiecesAreGroups(lx, s, ClassUnknown);
    }
  }

  /** In particular if quoted identifiers are quiet and closed, or if there are none. */
  lemma ClassifyQuiet(lx: Lexicon, s: string)
    requires QuietNames(s) && NamesClosed(s)
    ensures Classify(lx, s) == Best(ClassUnknown, GroupClasses(lx, Groups(Tokens(s))))
  {
    hide QuietNames, NamesClosed, InStep, Classify, Best, Groups, Tokens;
    QuietInStep(s);
    ClassifyByGroups(lx, s);
  }

  lemma NoGroup(lx: Lexicon)
    ensures GroupClasses(lx, Groups([])) == [ClassUnknown]
  {
    NoTokensUnknown(lx);
  }

  // ----- The scanners compose ------------------------------------------------------------------------

  /** The number of top-level semicolons. */
  function Semis(s: string): nat
    decreases |s|
  {
    var k := TopSemi(s, 0);
    if k < 0 then 0 else 1 + Semis(s[k + 1..])
  }

  /** The pieces' tokens, with one punctuation token after each of the first `n`. */
  function LexPieces(ps: seq<string>, n: nat): seq<Token> {
    if ps == [] then []
    else if n == 0 then Lex(ps[0]) + LexPieces(ps[1..], 0)
    else Lex(ps[0]) + [Other] + LexPieces(ps[1..], n - 1)
  }

  /** Every cut of the semicolon scanners is where a unit of the tokenizer starts. */
  predicate Aligned(s: string)
    decreases |s|
  {
    var k := TopSemi(s, 0);
    k < 0 || (AtUnit(s, k) && Aligned(s[k + 1..]))
  }

  /** The first cut that is not lies inside a quoted identifier; or inside another unit. */
  predicate CutsName(s: string)
    decreases |s|
  {
    var k := TopSemi(s, 0);
    k >= 0 && (if AtUnit(s, k) then CutsName(s[k + 1..]) else s[UnitAt(s, k)] == '"')
  }

  predicate Astray(s: string)
    decreases |s|
  {
    var k := TopSemi(s, 0);
    k >= 0 && (if AtUnit(s, k) then Astray(s[k + 1..]) else s[UnitAt(s, k)] != '"')
  }

  /** The splitter's pieces, tokenized. */
  function PieceTokens(s: string): seq<Token> { LexPieces(Split(s), Semis(s)) }

  lemma PieceTokensStep(s: string)
    ensures var k := TopSemi(s, 0);
      PieceTokens(s) == if k < 0 then Lex(s) else Lex(s[..k]) + [Other] + PieceTokens(s[k + 1..])
  {
    hide Lex, TopSemi, Split, LexPieces, Semis;
    var k := TopSemi(s, 0);
    SemisStep(s);
    if k >= 0 {
      SplitCut(s, k);
      LexPiecesStep(s[..k], Split(s[k + 1..]), Semis(s[k + 1..]));
    } else {
      SplitLast(s);
      LexNoPiece();
      LexOnePiece(s);
    }
  }

  lemma SemisStep(s: string)
    ensures Semis(s) == if TopSemi(s, 0) < 0 then 0 else 1 + Semis(s[TopSemi(s, 0) + 1..])
  {
  }

  lemma LexPiecesStep(p: string, ps: seq<string>, n: nat)
    ensures LexPieces([p] + ps, n + 1) == Lex(p) + [Other] + LexPieces(ps, n)
  {
    hide Lex;
    assert ([p] + ps)[1..] == ps;
  }

  lemma LexNoPiece()
    ensures LexPieces([], 0) == [] == Lex([])
  {
    NoMoreTokens();
  }

  lemma LexOnePiece(s: string)
    ensures LexPieces([s], 0) == Lex(s)
  {
    hide Lex;
    assert [s][1..] == [] && Lex(s) + [] == Lex(s);
  }

  lemma LexCut(s: string)
    requires TopSemi(s, 0) >= 0 && AtUnit(s, TopSemi(s, 0))
    ensures var k := TopSemi(s, 0); Lex(s) == Lex(s[..k]) + [Other] + Lex(s[k + 1..])
  {
    hide Tokens, TopSemi, AtUnit, NamesClosed, QuietNames;
    var k := TopSemi(s, 0);
    AlignedCut(s);
    var a, b := Tokens(s[..k]), Tokens(s[k + 1..]);
    EraseConcat(a + [Semi], b);
    assert Erase(a + [Semi]) == Erase(a) + [Other];
  }

  /**
   Tokenizing the text is tokenizing the pieces, with one punctuation token for each semicolon, if
   the cuts are aligned; and it is not if a cut goes through a quoted identifier. So for a text that
   does not go astray it is if and only if the cuts are aligned.
   */
  lemma {:induction false} LexOfPieces(s: string)
    ensures Aligned(s) ==> Lex(s) == PieceTokens(s)
    ensures CutsName(s) ==> Lex(s) != PieceTokens(s)
    ensures !Astray(s) ==> (Lex(s) == PieceTokens(s) <==> Aligned(s))
    decreases |s|
  {
    hide Tokens, TopSemi, PieceTokens, Lex, AtUnit, UnitAt;
    var k := TopSemi(s, 0);
    PieceTokensStep(s);
    if k >= 0 {
      UnitAtIff(s, k);
      var a, x, y := Lex(s[..k]), Lex(s[k + 1..]), PieceTokens(s[k + 1..]);
      if AtUnit(s, k) {
        LexCut(s);
        LexOfPieces(s[k + 1..]);
        SameTail(a + [Other], x, y);
      } else if s[UnitAt(s, k)] == '"' {
        CutInName(s, k);
        PrefixOf(a, [Other] + y);
        assert a + ([Other] + y) == a + [Other] + y;
      }
    }
  }

  lemma SameTail(a: seq<Token>, x: seq<Token>, y: seq<Token>)
    ensures a + x == a + y <==> x == y
  {
    assert x == (a + x)[|a|..] && y == (a + y)[|a|..];
  }

  lemma PrefixOf(a: seq<Token>, b: seq<Token>)
    ensures a <= a + b
  {
  }

  /** Where a cut goes astray the rest decides: the two agree exactly when the tokens after the unit
      that was cut are a punctuation token and the tokens of the remaining pieces. */
  lemma AstrayIff(s: string)
    requires TopSemi(s, 0) >= 0 && !AtUnit(s, TopSemi(s, 0)) && s[UnitAt(s, TopSemi(s, 0))] != '"'
    ensures var k := TopSemi(s, 0); var j := UnitAt(s, k);
      Lex(s) == PieceTokens(s) <==> Lex(s[j + UnitLen(s[j..])..]) == [Other] + PieceTokens(s[k + 1..])
  {
    hide Tokens, TopSemi, PieceTokens, AtUnit, UnitAt, UnitLen;
    var k := TopSemi(s, 0);
    var j := UnitAt(s, k);
    UnitAtIff(s, k);
    CutAstray(s, k);
    PieceTokensStep(s);
    var a, x, y := Tokens(s[..k]), Tokens(s[j + UnitLen(s[j..])..]), PieceTokens(s[k + 1..]);
    EraseConcat(a, x);
    assert Erase(a) + ([Other] + y) == Erase(a) + [Other] + y;
    SameTail(Erase(a), Erase(x), [Other] + y);
  }

  /** One condition for every text, along its cuts: each starts a unit, until one goes astray and what
      follows there matches; none goes through an identifier. */
  predicate Agrees(s: string)
    decreases |s|
  {
    var k := TopSemi(s, 0);
    if k < 0 then true
    else if AtUnit(s, k) then Agrees(s[k + 1..])
    else
      var j := UnitAt(s, k);
      s[j] != '"' && Lex(s[j + UnitLen(s[j..])..]) == [Other] + PieceTokens(s[k + 1..])
  }

  lemma {:induction false} LexIff(s: string)
    ensures Lex(s) == PieceTokens(s) <==> Agrees(s)
    decreases |s|
  {
    hide Tokens, TopSemi, PieceTokens, Lex, AtUnit, UnitAt, UnitLen;
    var k := TopSemi(s, 0);
    PieceTokensStep(s);
    if k >= 0 {
      if AtUnit(s, k) {
        LexCut(s);
        LexIff(s[k + 1..]);
        SameTail(Lex(s[..k]) + [Other], Lex(s[k + 1..]), PieceTokens(s[k + 1..]));
      } else if s[UnitAt(s, k)] == '"' {
        LexOfPieces(s);
      } else {
        AstrayIff(s);
      }
    }
  }

  /** Quiet identifiers, and texts without any, are aligned. */
  lemma {:induction false} QuietAligned(s: string)
    requires QuietNames(s)
    ensures Aligned(s)
    decreases |s|
  {
    hide Tokens, TopSemi, TokSemi, AtUnit, QuietNames;
    TopLevelCut(s);
    if TopSemi(s, 0) >= 0 {
      AlignedCut(s);
      QuietAligned(s[TopSemi(s, 0) + 1..]);
    }
  }

  /** The pieces are as many as the semicolons, or one more. */
  lemma {:induction false} PieceCount(s: string)
    ensures Semis(s) <= |Split(s)| <= Semis(s) + 1
    decreases |s|
  {
    hide TopSemi;
    var k := TopSemi(s, 0);
    if k >= 0 {
      SplitCut(s, k);
      PieceCount(s[k + 1..]);
    } else {
      SplitLast(s);
    }
  }

  /** Pieces with semicolons between them. */
  function Joined(ps: seq<string>): string {
    if ps == [] then [] else if |ps| == 1 then ps[0] else ps[0] + [';'] + Joined(ps[1..])
  }

  /** The text is its pieces with semicolons between them, and one more semicolon at its end if there are
      no more pieces than semicolons; otherwise the last piece is not empty. */
  lemma {:induction false} SplitRejoins(s: string)
    ensures var ps := Split(s);
      && s == Joined(ps) + (if ps != [] && |ps| == Semis(s) then [';'] else [])
      && (|ps| == Semis(s) + 1 ==> ps[Semis(s)] != [])
    decreases |s|
  {
    hide TopSemi;
    var k := TopSemi(s, 0);
    if k < 0 {
      SplitLast(s);
    } else {
      var p, rest := s[..k], s[k + 1..];
      SplitCut(s, k);
      SplitRejoins(rest);
      PieceCount(rest);
      assert s == p + [';'] + rest;
      assert ([p] + Split(rest))[1..] == Split(rest);
    }
  }

  // ----- Literals are not looked into ------------------------------------------------------------------

  lemma {:induction false} QuoteEnds(s: string, q: char)
    requires QuoteLen(s, q) < |s|
    ensures QuoteLen(s, q) > 0 && s[QuoteLen(s, q)] != q
    decreases |s|
  {
    if s[0] != q {
      QuoteEnds(s[1..], q);
    } else if Starts(s, q, q) {
      QuoteEnds(s[2..], q);
    }
  }

  lemma {:induction false} PlainQuote(y: string, b: string)
    requires '\'' !in y && (b == [] || b[0] != '\'')
    ensures QuoteLen(y + ['\''] + b, '\'') == |y| + 1
  {
    var s := y + ['\''] + b;
    if y != [] {
      PlainQuote(y[1..], b);
      assert s[1..] == y[1..] + ['\''] + b;
    }
  }

  function Quoted(x: string, b: string): string { ['\''] + x + ['\''] + b }

  lemma LiteralTokens(x: string, b: string)
    requires UnitLen(Quoted(x, b)) == |x| + 2
    ensures Tokens(Quoted(x, b)) == [Str] + Tokens(b)
    ensures NamesClosed(Quoted(x, b)) == NamesClosed(b) && QuietNames(Quoted(x, b)) == QuietNames(b)
    ensures b == [] || b[0] != '\''
  {
    hide LineLen, BlockLen, QuoteLen, DollarOpen, PlainLen;
    var s := Quoted(x, b);
    assert s[|x| + 2..] == b;
    if b != [] {
      QuoteEnds(s[1..], '\'');
      assert s[1..][|x| + 1] == b[0];
    }
  }

  lemma LiteralUnit(y: string, b: string)
    requires '\'' !in y && (b == [] || b[0] != '\'')
    ensures UnitLen(Quoted(y, b)) == |y| + 2
  {
    hide LineLen, BlockLen, QuoteLen, DollarOpen, PlainLen;
    PlainQuote(y, b);
    assert Quoted(y, b)[1..] == y + ['\''] + b;
  }

  /**
   Replacing the inside of a literal by any text without a quote leaves the tokens and the class
   as they were. `x` is the inside of the literal: the unit that starts there ends with it.
   */
  lemma LiteralTextIsIgnored(lx: Lexicon, a: string, x: string, y: string, b: string)
    requires var s := a + Quoted(x, b); QuietNames(s) && NamesClosed(s) && AtUnit(s, |a|)
    requires UnitLen(Quoted(x, b)) == |x| + 2 && '\'' !in y
    ensures Tokens(a + Quoted(y, b)) == Tokens(a + Quoted(x, b))
    ensures Classify(lx, a + Quoted(y, b)) == Classify(lx, a + Quoted(x, b))
  {
    hide Tokens, NamesClosed, QuietNames, AtUnit, UnitLen, Classify, Best, Groups;
    var s, t, k := a + Quoted(x, b), a + Quoted(y, b), |a|;
    assert s[k..] == Quoted(x, b) && t[k..] == Quoted(y, b) && s[..k] == a == t[..k];
    assert t[..k + 1] == a + ['\''] == s[..k + 1];
    LiteralTokens(x, b);
    LiteralUnit(y, b);
    LiteralTokens(y, b);
    CutTokens(s, k);
    CutNames(s, k);
    SameUnits(s, t, k);
    CutTokens(t, k);
    CutNames(t, k);
    ClassifyQuiet(lx, s);
    ClassifyQuiet(lx, t);
  }

  // ----- The running code ----------------------------------------------------------------------------

  method FindFirstWord(toks: seq<Token>) returns (w: string)
    ensures w == FirstWord(LowerToks(toks))
  {
    ghost var ts := LowerToks(toks);
    assert ts[0..] == ts;
    for i := 0 to |toks|
      invariant FirstWord(ts) == FirstWord(ts[i..])
    {
      if toks[i].Word? { return Lower(toks[i].text); }
      assert ts[i..][1..] == ts[i + 1..];
    }
    return "";
  }

  method HasSecondWord(toks: seq<Token>, word: string) returns (b: bool)
    requires word != ""
    ensures b == (FirstWord(AfterFirst(LowerToks(toks))) == word)
  {
    ghost var ts := LowerToks(toks);
    assert ts[0..] == ts;
    var found := 0;
    for i := 0 to |toks|
      invariant 0 <= found <= 1
      invariant if found == 0 then AfterFirst(ts) == AfterFirst(ts[i..])
                else FirstWord(AfterFirst(ts)) == FirstWord(ts[i..])
    {
      if toks[i].Word? {
        found := found + 1;
        if found == 2 { return Lower(toks[i].text) == word; }
      }
      assert ts[i..][1..] == ts[i + 1..];
    }
    return false;
  }

  /** The scan for a word outside parentheses: for FROM after COPY, and for the command after WITH. */
  method FindOutside(toks: seq<Token>, words: set<string>) returns (w: string)
    ensures w == FirstOutside(LowerToks(toks), words, 0)
  {
    ghost var ts := LowerToks(toks);
    assert ts[0..] == ts;
    var depth: nat := 0;
    for i := 0 to |toks|
      invariant FirstOutside(ts, words, 0) == FirstOutside(ts[i..], words, depth)
    {
      assert ts[i..][1..] == ts[i + 1..];
      if toks[i].LParen? {
        depth := depth + 1;
      } else if toks[i].RParen? {
        if depth > 0 { depth := depth - 1; }
      } else if toks[i].Word? && depth == 0 && Lower(toks[i].text) in words {
        return Lower(toks[i].text);
      }
    }
    return "";
  }

  predicate Continues(ts: seq<Token>) { |ts| > 2 && ts[1].Dot? && ts[2].Word? }

  lemma NameStep(ts: seq<Token>)
    requires ts != [] && ts[0].Word?
    ensures NameLen(ts) == if Continues(ts) then 2 + NameLen(ts[2..]) else 1
  {
  }

  /** The end of the qualified name that starts at `i`: the index of its last word. */
  method NameEnd(toks: seq<Token>, i: nat) returns (j: nat)
    requires i < |toks| && toks[i].Word?
    ensures j + 1 == i + NameLen(LowerToks(toks)[i..]) && j < |toks|
  {
    hide NameLen, Lower;
    ghost var ts := LowerToks(toks);
    j := i;
    while j + 2 < |toks| && toks[j + 1].Dot? && toks[j + 2].Word?
      invariant i <= j < |toks| && toks[j].Word?
      invariant NameLen(ts[i..]) == j - i + NameLen(ts[j..])
    {
      assert Continues(ts[j..]) && ts[j..][2..] == ts[j + 2..];
      NameStep(ts[j..]);
      j := j + 2;
    }
    assert !Continues(ts[j..]);
    NameStep(ts[j..]);
  }

  /** The name at `i`: whether it is called there, and where it ends. */
  method CallAt(lx: Lexicon, toks: seq<Token>, i: nat) returns (call: bool, j: nat)
    requires i < |toks| && toks[i].Word?
    ensures call == IsCall(lx, LowerToks(toks)[i..])
    ensures j + 1 == i + NameLen(LowerToks(toks)[i..]) && j < |toks|
  {
    hide NameLen, Lower;
    ghost var ts := LowerToks(toks)[i..];
    j := NameEnd(toks, i);
    var first := Lower(toks[i].text);
    assert ts[j - i] == LowerTok(toks[j]);
    var last := Lower(toks[j].text);
    call := false;
    if j + 1 < |toks| && toks[j + 1].LParen? {
      assert ts[j + 1 - i] == LowerTok(toks[j + 1]);
      call := first !in lx.keywords && last !in lx.keywords && last !in lx.builtins;
    }
  }

  method IsProcInvoking(lx: Lexicon, toks: seq<Token>) returns (b: bool)
    ensures b == Invokes(lx, LowerToks(toks))
  {
    hide NameLen, Lower, IsCall, Invokes;
    ghost var ts := LowerToks(toks);
    assert ts[0..] == ts;
    var i := 0;
    while i < |toks|
      invariant 0 <= i <= |toks|
      invariant Invokes(lx, ts) == Invokes(lx, ts[i..])
    {
      InvokesStep(lx, ts[i..]);
      if !toks[i].Word? {
        assert ts[i..][1..] == ts[i + 1..];
        i := i + 1;
        continue;
      }
      var call, j := CallAt(lx, toks, i);
      if call { return true; }
      assert ts[i..][NameLen(ts[i..])..] == ts[j + 1..];
      i := j + 1;
    }
    assert ts[i..] == [];
    NothingInvoked(lx);
    return false;
  }

  lemma NothingInvoked(lx: Lexicon)
    ensures !Invokes(lx, [])
  {
  }

  method ClassifySingle(lx: Lexicon, sql: string) returns (c: StmtClass)
    ensures c == Single(lx, sql)
  {
    hide FirstWord, AfterFirst, FirstOutside, Invokes;
    var toks := LexLoop(sql);
    var lead := FindFirstWord(toks);
    match lead
    case "call" => c := ClassCall;
    case "insert" => c := ClassDML;
    case "update" => c := ClassDML;
    case "delete" => c := ClassDML;
    case "create" => c := ClassDDL;
    case "alter" => c := ClassDDL;
    case "drop" => c := ClassDDL;
    case "begin" => c := ClassBegin;
    case "start" => c := ClassBegin;
    case "commit" => c := ClassCommitRollback;
    case "end" => c := ClassCommitRollback;
    case "rollback" =>
      var toSavepoint := HasSecondWord(toks, "to");
      c := if toSavepoint then ClassUtility else ClassCommitRollback;
    case "savepoint" => c := ClassUtility;
    case "release" => c := ClassUtility;
    case "set" => c := ClassUtility;
    case "reset" => c := ClassUtility;
    case "discard" => c := ClassUtility;
    case "copy" =>
      var from := FindOutside(toks, {"from"});
      c := if from != "" then ClassCopyFrom else ClassUnknown;
    case "select" =>
      var invokes := IsProcInvoking(lx, toks);
      c := SelectClass(invokes);
    case "with" =>
      var primary := FindOutside(toks, COMMANDS);
      var invokes := IsProcInvoking(lx, toks);
      c := if primary == "select" then SelectClass(invokes)
           else if primary in {"insert", "update", "delete"} then ClassDML
           else ClassUnknown;
    case _ => c := ClassUnknown;
  }

  method ClassifyMultiStatement(lx: Lexicon, sql: string) returns (best: StmtClass)
    ensures best == Best(ClassUnknown, PieceClasses(lx, Split(sql)))
  {
    hide Single, Trim;
    best := ClassUnknown;
    var stmts := SplitOnDepthZeroSemicolons(sql);
    assert stmts[0..] == stmts;
    for i := 0 to |stmts|
      invariant Best(ClassUnknown, PieceClasses(lx, stmts)) == Best(best, PieceClasses(lx, stmts[i..]))
    {
      ghost var more := PieceClasses(lx, stmts[i + 1..]);
      assert stmts[i..][1..] == stmts[i + 1..];
      var trimmed := Trim(stmts[i]);
      if trimmed == "" {
        assert [] + more == more;
        continue;
      }
      var c := ClassifySingle(lx, trimmed);
      OneMore(best, c, more);
      if Priority(c) > Priority(best) { best := c; }
    }
  }

  /** The classifier, and what its answer means where the scanners are in step. */
  method ClassifyText(lx: Lexicon, sql: string) returns (c: StmtClass)
    ensures c == Classify(lx, sql)
    ensures InStep(sql) && Settled(sql) ==> c == Best(ClassUnknown, GroupClasses(lx, Groups(Tokens(sql))))
  {
    hide InStep, Settled, Tokens, Single, PieceClasses, Split, Best, Groups;
    var k := IndexDepthZeroSemicolon(sql);
    if k >= 0 {
      c := ClassifyMultiStatement(lx, sql);
    } else {
      c := ClassifySingle(lx, sql);
    }
    if InStep(sql) && Settled(sql) { ClassifyByGroups(lx, sql); }
  }
}
