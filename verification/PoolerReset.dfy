/**
 When a statement resets a pooled session (pkg/pipeline/processor.go): it must be on a list of texts
 and classify as a utility statement. The list and the classifier do not match: `ResetIff` says what
 follows for every listed text.
 */
module PoolerReset {
  import opened Core
  import opened Lexer
  import opened Classifier
  import ClassifierLimits
  import Processor

  function UpperChar(c: char): char {
    if 'a' <= c <= 'z' then (c as int - 32) as char else c
  }

  function Upper(s: string): (r: string)
    ensures |r| == |s|
  {
    seq(|s|, i requires 0 <= i < |s| => UpperChar(s[i]))
  }

  const SHORTEST := 9

  datatype Verb = Discard | Reset | Deallocate

  function VerbText(v: Verb): (t: string)
    ensures |t| >= 5
  {
    match v case Discard => "DISCARD" case Reset => "RESET" case Deallocate => "DEALLOCATE"
  }

  /** VERB ALL, alone or followed by a semicolon and anything. */
  predicate Says(s: string, v: Verb) {
    var u := Upper(Trim(s));
    u == VerbText(v) + " ALL" || VerbText(v) + " ALL;" <= u
  }

  predicate IsPoolerResetQuery(s: string) {
    |s| >= SHORTEST && (Says(s, Discard) || Says(s, Reset) || Says(s, Deallocate))
  }

  /** The test in dispatch, without the configuration switch. */
  predicate Resets(lx: Lexicon, s: string) {
    Classify(lx, s).ClassUtility? && IsPoolerResetQuery(s)
  }

  /** What follows the first top-level semicolon. */
  function Rest(s: string): string {
    var k := TopSemi(s, 0);
    if k < 0 then [] else s[k + 1..]
  }

  /** The classes of the statements after the listed one. */
  function RestClasses(lx: Lexicon, s: string): seq<StmtClass> { PieceClasses(lx, Split(Rest(s))) }

  function VerbClass(v: Verb): StmtClass { if v.Deallocate? then ClassUnknown else ClassUtility }

  // ----- The listed statement ----------------------------------------------------------------------

  predicate Spaces(l: string) { forall i :: 0 <= i < |l| ==> IsSpace(l[i]) }

  /** A listed text: blanks, the verb, ALL, and then nothing but blanks or a semicolon. */
  predicate Reads(s: string, v: Verb, l: string, verb: string, all: string, tail: string) {
    && s == l + verb + [' '] + all + tail
    && Spaces(l) && Upper(verb) == VerbText(v) && Upper(all) == "ALL"
    && (Spaces(tail) || tail[0] == ';')
  }

  lemma {:induction false} TrimLeftParts(s: string) returns (l: string)
    ensures s == l + TrimLeft(s) && Spaces(l)
  {
    l := [];
    if s != [] && IsSpace(s[0]) {
      var m := TrimLeftParts(s[1..]);
      l := [s[0]] + m;
      assert s == [s[0]] + s[1..];
    } else {
      assert [] + s == s;
    }
  }

  lemma {:induction false} TrimRightParts(s: string) returns (r: string)
    ensures s == TrimRight(s) + r && Spaces(r)
    decreases |s|
  {
    r := [];
    if s != [] && IsSpace(s[|s| - 1]) {
      var n := |s| - 1;
      var q := TrimRightParts(s[..n]);
      r := q + [s[n]];
      assert s == s[..n] + [s[n]];
    } else {
      assert s + [] == s;
    }
  }

  lemma UpperPart(core: string, form: string, i: nat, j: nat)
    requires i <= j <= |form| && form <= Upper(core)
    ensures j <= |core| && Upper(core[i..j]) == form[i..j]
  {
    assert forall x :: 0 <= x < |form| ==> form[x] == Upper(core)[x];
  }

  lemma UpperIs(core: string, form: string, i: nat, c: char)
    requires i < |form| && form <= Upper(core) && form[i] == c && c in {' ', ';'}
    ensures i < |core| && core[i] == c
  {
    assert form[i] == Upper(core)[i];
  }

  lemma ListedCore(core: string, form: string, n: nat) returns (verb: string, all: string)
    requires |form| == n + 4 && form[n] == ' ' && form[n + 1..] == "ALL" && form <= Upper(core)
    ensures |core| >= n + 4 && core == verb + [' '] + all + core[n + 4..]
    ensures Upper(verb) == form[..n] && Upper(all) == "ALL"
  {
    hide Upper;
    UpperPart(core, form, 0, n);
    UpperPart(core, form, n + 1, n + 4);
    UpperIs(core, form, n, ' ');
    verb, all := core[0..n], core[n + 1..n + 4];
    assert form[0..n] == form[..n] && form[n + 1..n + 4] == form[n + 1..];
    assert core == core[0..n] + [core[n]] + core[n + 1..n + 4] + core[n + 4..];
  }

  lemma Regroup(l: string, a: string, b: string, c: string, d: string, r: string)
    ensures l + (a + b + c + d + r) == l + a + b + c + (d + r)
  {
  }

  lemma Listed(s: string, v: Verb) returns (l: string, verb: string, all: string, tail: string)
    requires Says(s, v)
    ensures Reads(s, v, l, verb, all, tail)
  {
    hide Trim, Upper, VerbText;
    l := TrimLeftParts(s);
    var r := TrimRightParts(TrimLeft(s));
    TrimIs(s);
    var core, n := Trim(s), |VerbText(v)|;
    var form := VerbText(v) + " ALL";
    assert VerbText(v) + " ALL;" == form + ";";
    assert form[..n] == VerbText(v) && form[n + 1..] == "ALL";
    verb, all := ListedCore(core, form, n);
    tail := core[n + 4..] + r;
    Regroup(l, verb, [' '], all, core[n + 4..], r);
    if |core| > n + 4 {
      UpperIs(core, form + ";", n + 4, ';');
    } else {
      assert tail == r;
    }
  }

  lemma TrimIs(s: string)
    ensures Trim(s) == TrimRight(TrimLeft(s))
  {
  }

  lemma UpperIsName(w: string, form: string)
    requires Upper(w) == form && w != [] && forall i :: 0 <= i < |form| ==> 'A' <= form[i] <= 'Z'
    ensures ClassifierLimits.IsName(w) && Lower(w) == Lower(form)
    ensures forall i :: 0 <= i < |w| ==> Quiet(w[i])
  {
    forall i | 0 <= i < |w| ensures IsIdentStart(w[i]) && LowerChar(w[i]) == LowerChar(form[i]) && Quiet(w[i]) {
      assert Upper(w)[i] == form[i];
    }
  }

  lemma {:induction false} LeadTokens(l: string, x: string)
    requires Spaces(l)
    ensures Tokens(l + x) == Tokens(x) && Unquoted(l + x) == Unquoted(x)
  {
    hide Tokens, Unquoted, NamesClosed, QuietNames;
    if l == [] {
      assert l + x == x;
    } else {
      LeadTokens(l[1..], x);
      TokensCons(l[0], l[1..] + x);
      assert l + x == [l[0]] + (l[1..] + x);
    }
  }

  /** The listed statement itself: two words. */
  lemma HeadTokens(l: string, verb: string, all: string)
    requires Spaces(l) && ClassifierLimits.IsName(verb) && ClassifierLimits.IsName(all)
    ensures Tokens(l + verb + [' '] + all) == [Word(verb), Word(all)]
    ensures Unquoted(l + verb + [' '] + all)
  {
    hide Tokens, Unquoted, NamesClosed, QuietNames;
    var e: string := [];
    assert all + e == all;
    ClassifierLimits.EmptyText(e);
    ClassifierLimits.NameTokens(all, e);
    TokensCons(' ', all);
    ClassifierLimits.NameTokens(verb, [' '] + all);
    LeadTokens(l, verb + ([' '] + all));
    assert l + verb + [' '] + all == l + (verb + ([' '] + all));
    assert [Word(all)] + [] == [Word(all)] && [Word(verb)] + [Word(all)] == [Word(verb), Word(all)];
  }

  lemma HeadClass(lx: Lexicon, v: Verb, verb: string, all: string)
    requires Lower(verb) == Lower(VerbText(v))
    ensures ClassOf(lx, [Word(verb), Word(all)]) == VerbClass(v)
  {
    hide FirstOutside, Invokes, AfterFirst;
    var low := match v case Discard => "discard" case Reset => "reset" case Deallocate => "deallocate";
    assert Lower(VerbText(v)) == low;
    LeadingVerb(lx, verb, all);
  }

  lemma LeadingVerb(lx: Lexicon, verb: string, all: string)
    ensures Lower(verb) in {"discard", "reset"} ==> ClassOf(lx, [Word(verb), Word(all)]) == ClassUtility
    ensures Lower(verb) == "deallocate" ==> ClassOf(lx, [Word(verb), Word(all)]) == ClassUnknown
  {
    hide FirstOutside, Invokes, AfterFirst, Lower;
    assert LowerToks(Erase([Word(verb), Word(all)])) == [Word(Lower(verb)), Word(Lower(all))];
  }

  // ----- The whole text ----------------------------------------------------------------------------------

  lemma SpacesAreQuiet(l: string)
    requires Spaces(l)
    ensures forall i :: 0 <= i < |l| ==> Quiet(l[i])
  {
  }

  /** Without a semicolon. */
  lemma Alone(lx: Lexicon, s: string, v: Verb, p: string, tail: string)
    requires s == p + tail && Spaces(tail) && Unquoted(p) && ClassOf(lx, Tokens(p)) == VerbClass(v)
    requires forall i :: 0 <= i < |p| ==> Quiet(p[i])
    ensures Classify(lx, s) == VerbClass(v) && Rest(s) == []
  {
    hide Tokens, Unquoted, ClassOf, TopSemi, Quiet;
    SpacesAreQuiet(tail);
    QuietIsPlain(s, |s|, 0);
    assert s[|s|..] == [];
    ScanEnd(0);
    TailTokens(p, tail);
  }

  lemma {:induction false} TailTokens(p: string, tail: string)
    requires Spaces(tail) && Unquoted(p)
    ensures Tokens(p + tail) == Tokens(p) && Unquoted(p + tail)
    decreases |tail|
  {
    hide Tokens, Unquoted, NamesClosed;
    if tail == [] {
      assert p + tail == p;
    } else {
      var n := |tail| - 1;
      TailTokens(p, tail[..n]);
      BlankAfter(p + tail[..n], tail[n]);
      assert p + tail == (p + tail[..n]) + [tail[n]];
    }
  }

  /** A blank at the end adds neither tokens nor identifiers. */
  lemma {:induction false} BlankAfter(s: string, w: char)
    requires Unquoted(s) && IsSpace(w)
    ensures Tokens(s + [w]) == Tokens(s) && Unquoted(s + [w])
    decreases |s|
  {
    hide Tokens, UnitLen, UnitToks;
    var t := s + [w];
    if s == [] {
      TokensCons(w, []);
      assert [w] + [] == t;
    } else {
      UnitCut(t, |s|);
      assert t[..|s|] == s;
      TokensStep(s);
      TokensStep(t);
      var u := UnitLen(t);
      if u <= |s| {
        assert t[u..] == s[u..] + [w];
        BlankAfter(s[u..], w);
      } else {
        assert t[u..] == [] && s[UnitLen(s)..] == [];
      }
    }
  }

  /** With a semicolon: the first cut is there, whatever follows. */
  lemma CutThere(p: string, rest: string)
    requires Unquoted(p) && '"' !in p && forall i :: 0 <= i < |p| ==> Quiet(p[i])
    ensures var s := p + [';'] + rest; TopSemi(s, 0) == |p| && AtUnit(s, |p|) && Rest(s) == rest
  {
    hide TopSemi, AtUnit, Unquoted, Quiet, Tokens, TokSemi, QuietNames, NamesClosed;
    var s, t, k := p + [';'] + rest, p + [';'], |p|;
    QuietIsPlain(s, k, 0);
    SemiFirst(s[k..]);
    assert s[k + 1..] == rest;
    QuietIsPlain(t, k, 0);
    SemiFirst(t[k..]);
    QuietText(t);
    FirstSemi(t, 0);
    assert s[..k + 1] == t == t[..k + 1];
    SameUnits(t, s, k);
  }

  lemma {:induction false} QuietText(s: string)
    requires forall i :: 0 <= i < |s| ==> Quiet(s[i]) || s[i] == ';'
    requires '"' !in s
    ensures QuietNames(s)
    decreases |s|
  {
    hide UnitLen, Quiet;
    if s != [] { QuietText(s[UnitLen(s)..]); }
  }

  lemma {:induction false} BlankPieces(lx: Lexicon, r: string)
    requires Blank(r)
    ensures PieceClasses(lx, Split(r)) == []
  {
    hide Single, TopSemi;
    forall i | 0 <= i < |r| ensures Quiet(r[i]) { assert IsBlank(r[i]); }
    QuietIsPlain(r, |r|, 0);
    assert r[|r|..] == [];
    ScanEnd(0);
    SplitLast(r);
    TrimBlank(r);
    NoPieces(lx);
    if r != [] { assert [r][1..] == []; }
  }

  lemma {:induction false} TrimBlank(r: string)
    requires Blank(r)
    ensures Trim(r) == []
  {
    if r != [] {
      assert IsBlank(r[0]);
      TrimBlank(r[1..]);
    }
  }

  /** With a semicolon, the class is the best over the listed statement and the rest. */
  lemma Followed(lx: Lexicon, s: string, v: Verb, p: string, rest: string)
    requires s == p + [';'] + rest && Unquoted(p) && '"' !in p && ClassOf(lx, Tokens(p)) == VerbClass(v)
    requires forall i :: 0 <= i < |p| ==> Quiet(p[i])
    ensures Classify(lx, s) == Best(VerbClass(v), PieceClasses(lx, Split(rest))) && Rest(s) == rest
  {
    hide Tokens, Unquoted, ClassOf, TopSemi, Quiet, AtUnit, PieceClasses, NamesClosed, QuietNames, Split;
    var k := |p|;
    CutThere(p, rest);
    assert s[..k] == p && s[k + 1..] == rest;
    if Blank(rest) {
      AlignedCut(s);
      BlankTokens(rest);
      assert Tokens(s) == Tokens(p) + [Semi];
      ClassSnoc(lx, Tokens(p));
      BlankPieces(lx, rest);
    } else {
      SplitCut(s, k);
      UnquotedIsQuiet(p);
      PieceClassesStep(lx, p, Split(rest), ClassUnknown);
    }
  }

  /** The class of every listed text. */
  lemma ResetClass(lx: Lexicon, s: string, v: Verb)
    requires Says(s, v)
    ensures Classify(lx, s) == Best(VerbClass(v), RestClasses(lx, s))
  {
    hide Tokens, Unquoted, ClassOf, TopSemi, Quiet, PieceClasses, Split, Says, Upper, Classify, Rest, Best, Lower;
    var l, verb, all, tail := Listed(s, v);
    var p := l + verb + [' '] + all;
    VerbLetters(v);
    UpperIsName(verb, VerbText(v));
    UpperIsName(all, "ALL");
    HeadTokens(l, verb, all);
    HeadClass(lx, v, verb, all);
    HeadIsQuiet(l, verb, all);
    if Spaces(tail) {
      Alone(lx, s, v, p, tail);
      NothingFollows(lx, v);
    } else {
      assert tail == [';'] + tail[1..];
      assert s == p + [';'] + tail[1..];
      Followed(lx, s, v, p, tail[1..]);
    }
  }

  lemma VerbLetters(v: Verb)
    ensures forall i :: 0 <= i < |VerbText(v)| ==> 'A' <= VerbText(v)[i] <= 'Z'
  {
  }

  lemma HeadIsQuiet(l: string, verb: string, all: string)
    requires Spaces(l) && ClassifierLimits.IsName(verb) && ClassifierLimits.IsName(all)
    ensures var p := l + verb + [' '] + all; '"' !in p && forall i :: 0 <= i < |p| ==> Quiet(p[i])
  {
    var p := l + verb + [' '] + all;
    forall i | 0 <= i < |p| ensures Quiet(p[i]) && p[i] != '"' {
      assert p[i] == ' ' || (i < |l| && p[i] == l[i]) || IsIdentPart(p[i]);
    }
  }

  lemma NothingFollows(lx: Lexicon, v: Verb)
    ensures Best(VerbClass(v), PieceClasses(lx, Split([]))) == VerbClass(v)
  {
    BlankPieces(lx, []);
  }

  /** Utility statements, plain SELECTs and what is not recognized. */
  predicate Minor(cs: seq<StmtClass>) {
    forall i :: 0 <= i < |cs| ==> cs[i] in {ClassUnknown, ClassPlainSelect, ClassUtility}
  }

  /**
   Which listed texts reset a session. After DISCARD ALL and RESET ALL: those without a statement of
   a higher class than utility in the rest. After DEALLOCATE ALL, which is none itself: those with a
   utility statement and nothing higher in the rest, so never the bare statement.
   */
  lemma ResetIff(lx: Lexicon, s: string, v: Verb)
    requires Says(s, v) && |s| >= SHORTEST
    ensures Resets(lx, s) <==> Minor(RestClasses(lx, s)) && (v.Deallocate? ==> ClassUtility in RestClasses(lx, s))
  {
    hide Says, Classify, RestClasses;
    ResetClass(lx, s, v);
    BestIsUtility(VerbClass(v), RestClasses(lx, s));
  }

  lemma BestIsUtility(c: StmtClass, cs: seq<StmtClass>)
    requires c in {ClassUnknown, ClassUtility}
    ensures Best(c, cs) == ClassUtility <==> Minor(cs) && (c.ClassUnknown? ==> ClassUtility in cs)
  {
    hide Best;
    BestIsFirstHighest(c, cs);
    var r := Best(c, cs);
    assert Minor(cs) <==> NoneAbove(cs, ClassUtility);
    if !NoneAbove(cs, c) {
      var at: nat :| IsFirstHighest(cs, r, at);
      assert r in cs;
      assert Priority(r) > Priority(c);
    }
  }

  // ----- Instances -------------------------------------------------------------------------------------

  lemma SaysAlone(s: string, v: Verb)
    requires Upper(s) == VerbText(v) + " ALL" && s != [] && !IsSpace(s[0]) && !IsSpace(s[|s| - 1])
    ensures Says(s, v) && |s| >= SHORTEST
  {
    ClassifierLimits.NoTrim(s);
  }

  lemma SaysFirst(s: string, v: Verb, p: string, rest: string)
    requires s == p + [';'] + rest && Upper(p) == VerbText(v) + " ALL"
    requires p != [] && !IsSpace(p[0]) && rest != [] && !IsSpace(rest[|rest| - 1])
    ensures Says(s, v) && |s| >= SHORTEST
  {
    ClassifierLimits.NoTrim(s);
    var form := VerbText(v) + " ALL;";
    assert Upper(s)[..|form|] == Upper(p) + ";";
    assert VerbText(v) + " ALL" + ";" == form;
  }

  /** One further statement, free of anything the scanners react to. */
  lemma OneMoreStatement(lx: Lexicon, s: string, p: string, rest: string)
    requires s == p + [';'] + rest && Unquoted(p) && '"' !in p
    requires forall i :: 0 <= i < |p| ==> Quiet(p[i])
    requires rest != [] && !IsSpace(rest[0]) && !IsSpace(rest[|rest| - 1])
    requires forall i :: 0 <= i < |rest| ==> Quiet(rest[i])
    ensures RestClasses(lx, s) == [Single(lx, rest)]
  {
    hide Tokens, Unquoted, Single, TopSemi, Quiet, AtUnit, Trim;
    CutThere(p, rest);
    QuietIsPlain(rest, |rest|, 0);
    assert rest[|rest|..] == [];
    ScanEnd(0);
    SplitLast(rest);
    ClassifierLimits.NoTrim(rest);
    NoPieces(lx);
    assert [rest][1..] == [];
  }

  lemma TwoNames(s: string, verb: string, all: string)
    requires s == verb + [' '] + all && ClassifierLimits.IsName(verb) && ClassifierLimits.IsName(all)
    ensures Tokens(s) == [Word(verb), Word(all)] && Unquoted(s) && '"' !in s
    ensures forall i :: 0 <= i < |s| ==> Quiet(s[i])
  {
    var l: string := [];
    assert l + verb + [' '] + all == s;
    HeadTokens(l, verb, all);
    HeadIsQuiet(l, verb, all);
  }

  lemma UpperWords(v: Verb, verb: string, all: string)
    requires Upper(verb) == VerbText(v) && Upper(all) == "ALL"
    ensures Upper(verb + [' '] + all) == VerbText(v) + " ALL"
  {
    assert Upper(verb + [' '] + all) == Upper(verb) + " " + Upper(all);
    assert VerbText(v) + " " + "ALL" == VerbText(v) + " ALL";
  }

  /** Two statements of two words each. */
  lemma TwoStatements(lx: Lexicon, v: Verb, verb: string, all: string, w: string, x: string)
    requires Upper(verb) == VerbText(v) && Upper(all) == "ALL"
    requires ClassifierLimits.IsName(w) && ClassifierLimits.IsName(x)
    ensures var s := verb + [' '] + all + [';'] + (w + [' '] + x);
      Says(s, v) && |s| >= SHORTEST && RestClasses(lx, s) == [ClassOf(lx, [Word(w), Word(x)])]
  {
    hide Tokens, RestClasses, Says, ClassOf, Unquoted, Quiet, Upper, VerbText, Lower;
    var p, rest := verb + [' '] + all, w + [' '] + x;
    VerbLetters(v);
    UpperIsName(verb, VerbText(v));
    UpperIsName(all, "ALL");
    TwoNames(p, verb, all);
    TwoNames(rest, w, x);
    UpperWords(v, verb, all);
    SaysFirst(p + [';'] + rest, v, p, rest);
    OneMoreStatement(lx, p + [';'] + rest, p, rest);
  }

  /** On the list, but never a reset. */
  lemma DeallocateAlone(lx: Lexicon, s: string)
    requires s == "DEALLOCATE ALL"
    ensures IsPoolerResetQuery(s) && !Resets(lx, s)
  {
    hide Tokens, Classify, Split, PieceClasses, Says, TopSemi, Quiet, Resets;
    ResetStatement(s);
    ResetIff(lx, s, Deallocate);
    TwoNames(s, s[..10], s[11..]);
    NoSemicolon(s);
    BlankPieces(lx, []);
  }

  lemma ResetStatement(s: string)
    requires s == "DEALLOCATE ALL"
    ensures Says(s, Deallocate) && IsPoolerResetQuery(s) && |s| >= SHORTEST
    ensures s == s[..10] + [' '] + s[11..] && ClassifierLimits.IsName(s[..10]) && ClassifierLimits.IsName(s[11..])
  {
    SaysAlone(s, Deallocate);
  }

  lemma NoSemicolon(s: string)
    requires forall i :: 0 <= i < |s| ==> Quiet(s[i])
    ensures Rest(s) == []
  {
    QuietIsPlain(s, |s|, 0);
    assert s[|s|..] == [];
    ScanEnd(0);
  }

  /** A reset because of the statement that follows. */
  lemma DeallocateThenSet(lx: Lexicon, s: string, verb: string, all: string, w: string, x: string)
    requires verb == "DEALLOCATE" && all == "ALL" && w == "SET" && x == "x"
    requires s == verb + [' '] + all + [';'] + (w + [' '] + x)
    ensures Resets(lx, s)
  {
    hide Classify, RestClasses, Says, ClassOf;
    assert Upper(verb) == verb && Upper(all) == all;
    TwoStatements(lx, Deallocate, verb, all, w, x);
    SetClass(lx, w, x);
    ResetIff(lx, s, Deallocate);
  }

  lemma SetClass(lx: Lexicon, verb: string, x: string)
    requires verb == "SET"
    ensures ClassOf(lx, [Word(verb), Word(x)]) == ClassUtility
  {
    hide FirstOutside, Invokes, AfterFirst;
    assert Lower(verb) == "set";
    assert LowerToks(Erase([Word(verb), Word(x)])) == [Word(Lower(verb)), Word(Lower(x))];
  }

  /** On the list, and not a reset because of the statement that follows. */
  lemma DiscardThenBegin(lx: Lexicon, s: string, verb: string, all: string, w: string, x: string)
    requires verb == "DISCARD" && all == "ALL" && w == "BEGIN" && x == "WORK"
    requires s == verb + [' '] + all + [';'] + (w + [' '] + x)
    ensures IsPoolerResetQuery(s) && !Resets(lx, s)
  {
    hide Classify, RestClasses, Says, ClassOf;
    assert Upper(verb) == verb && Upper(all) == all;
    TwoStatements(lx, Discard, verb, all, w, x);
    BeginClass(lx, w, x);
    assert RestClasses(lx, s)[0] == ClassBegin;
    ResetIff(lx, s, Discard);
  }

  lemma BeginClass(lx: Lexicon, verb: string, x: string)
    requires verb == "BEGIN"
    ensures ClassOf(lx, [Word(verb), Word(x)]) == ClassBegin
  {
    hide FirstOutside, Invokes, AfterFirst;
    assert Lower(verb) == "begin";
    assert LowerToks(Erase([Word(verb), Word(x)])) == [Word(Lower(verb)), Word(Lower(x))];
  }

  // ----- In the processor -----------------------------------------------------------------------------------

  function Chars(b: Bytes): string {
    seq(|b|, i requires 0 <= i < |b| => b[i] as char)
  }

  /** The processor with the classifier and the list of this program. */
  ghost predicate Configured(cfg: Processor.Config, lx: Lexicon) {
    forall b :: cfg.classify(b) == Classify(lx, Chars(b)) && cfg.isReset(b) == IsPoolerResetQuery(Chars(b))
  }

  /** Dispatching a listed statement forgets the session's prepared statements, its COPY and its
      transaction group exactly as `ResetIff` says; any other statement leaves the first two alone. */
  lemma DispatchResets(cfg: Processor.Config, lx: Lexicon, l: Processor.Local, k: nat, ev: Event, v: Verb)
    requires Configured(cfg, lx) && cfg.pooler
    requires Says(Chars(ev.sql), v) && |ev.sql| >= SHORTEST
    ensures var o := Processor.Dispatch(cfg, l, k, ev); var rest := RestClasses(lx, Chars(ev.sql));
      if Minor(rest) && (v.Deallocate? ==> ClassUtility in rest)
      then o.marks[0].reset && o.local.stmts == map[] && o.local.copy.NoCopy? && o.local.tx == 0
      else !o.marks[0].reset && o.local.stmts == l.stmts && o.local.copy == l.copy
  {
    hide Classify, Says, RestClasses;
    ResetIff(lx, Chars(ev.sql), v);
  }

  lemma DispatchKeeps(cfg: Processor.Config, lx: Lexicon, l: Processor.Local, k: nat, ev: Event)
    requires Configured(cfg, lx) && !IsPoolerResetQuery(Chars(ev.sql))
    ensures var o := Processor.Dispatch(cfg, l, k, ev);
      !o.marks[0].reset && o.local.stmts == l.stmts && o.local.copy == l.copy
  {
    hide Classify, Says;
  }
}
