/**
 What the classes mean (pkg/filter/classifier.go): for every class, which statements have it, said of the
 words of the statement and not of the table that the classifier looks its leading word up in; and, for
 several statements in one text, which of their classes the text has.
 */
module Classes {
  import opened Core
  import opened Lexer
  import opened Classifier

  // ----- Words of a statement ----------------------------------------------------------------------
  // Tokens are meant with their words in lower case.

  predicate WordAt(ts: seq<Token>, i: nat, words: set<string>) {
    i < |ts| && ts[i].Word? && ts[i].text in words
  }

  predicate NoWords(ts: seq<Token>, i: nat, j: nat) {
    forall k :: i <= k < j && k < |ts| ==> !ts[k].Word?
  }

  /** The first word is one of `words`; the second word is `word`. */
  predicate LeadsAt(ts: seq<Token>, i: nat, words: set<string>) { WordAt(ts, i, words) && NoWords(ts, 0, i) }

  ghost predicate Leads(ts: seq<Token>, words: set<string>) { exists i: nat :: LeadsAt(ts, i, words) }

  predicate SecondAt(ts: seq<Token>, i: nat, j: nat, word: string) {
    i < j && i < |ts| && ts[i].Word? && NoWords(ts, 0, i) && NoWords(ts, i + 1, j) && WordAt(ts, j, {word})
  }

  ghost predicate Second(ts: seq<Token>, word: string) { exists i: nat, j: nat :: SecondAt(ts, i, j, word) }

  /** By how much the opening parentheses outnumber the closing ones. */
  function Balance(ts: seq<Token>): int {
    if ts == [] then 0
    else Balance(ts[..|ts| - 1]) + (match ts[|ts| - 1] case LParen => 1 case RParen => -1 case _ => 0)
  }

  /** Outside parentheses: nothing that was opened before `i` is still to be closed there. */
  predicate Outside(ts: seq<Token>, i: nat)
    requires i <= |ts|
  {
    forall j :: 0 <= j <= i ==> Balance(ts[j..i]) <= 0
  }

  predicate OutsideAt(ts: seq<Token>, i: nat, words: set<string>) { WordAt(ts, i, words) && Outside(ts, i) }

  ghost predicate HasOutside(ts: seq<Token>, words: set<string>) { exists i: nat :: OutsideAt(ts, i, words) }

  /** The first command outside parentheses is one of `words`. */
  predicate CommandAt(ts: seq<Token>, i: nat, words: set<string>) {
    && OutsideAt(ts, i, words)
    && forall j: nat :: j < i ==> !OutsideAt(ts, j, {"select", "insert", "update", "delete"})
  }

  ghost predicate Commands(ts: seq<Token>, words: set<string>) { exists i: nat :: CommandAt(ts, i, words) }

  /** The qualified name from `i` to `m`: words joined by dots. */
  predicate Chain(ts: seq<Token>, i: nat, m: nat)
    decreases |ts| - i
  {
    i <= m < |ts| && ts[i].Word? && (i == m || (Joins(ts, i) && Chain(ts, i + 2, m)))
  }

  /** A whole name that is followed by a parenthesis and is neither a keyword nor a built-in. */
  predicate CallFromTo(lx: Lexicon, ts: seq<Token>, i: nat, m: nat) {
    && NameStart(ts, i) && Chain(ts, i, m) && m + 1 < |ts| && ts[m].Word? && ts[m + 1].LParen?
    && ts[i].text !in lx.keywords && ts[m].text !in lx.keywords && ts[m].text !in lx.builtins
  }

  ghost predicate Calls(lx: Lexicon, ts: seq<Token>) { exists i: nat, m: nat :: CallFromTo(lx, ts, i, m) }

  // ----- What each class means ----------------------------------------------------------------------

  ghost predicate Selects(ts: seq<Token>) {
    Leads(ts, {"select"}) || (Leads(ts, {"with"}) && Commands(ts, {"select"}))
  }

  ghost predicate Means(lx: Lexicon, ts: seq<Token>, c: StmtClass) {
    match c
    case ClassCall => Leads(ts, {"call"})
    case ClassDML =>
      || Leads(ts, {"insert", "update", "delete"})
      || (Leads(ts, {"with"}) && Commands(ts, {"insert", "update", "delete"}))
    case ClassDDL => Leads(ts, {"create", "alter", "drop"})
    case ClassBegin => Leads(ts, {"begin", "start"})
    case ClassCommitRollback =>
      Leads(ts, {"commit", "end"}) || (Leads(ts, {"rollback"}) && !Second(ts, "to"))
    case ClassUtility =>
      || Leads(ts, {"savepoint", "release", "set", "reset", "discard"})
      || (Leads(ts, {"rollback"}) && Second(ts, "to"))
    case ClassCopyFrom => Leads(ts, {"copy"}) && HasOutside(ts, {"from"})
    case ClassProcSelect => Selects(ts) && Calls(lx, ts)
    case ClassPlainSelect => Selects(ts) && !Calls(lx, ts)
    case ClassUnknown =>
      || !Leads(ts, LEADS)
      || (Leads(ts, {"copy"}) && !HasOutside(ts, {"from"}))
      || (Leads(ts, {"with"}) && !Commands(ts, {"select", "insert", "update", "delete"}))
  }

  const LEADS: set<string> := {
    "call", "insert", "update", "delete", "create", "alter", "drop", "begin", "start", "commit", "end", "rollback",
    "savepoint", "release", "set", "reset", "discard", "copy", "select", "with"}

  function Lowered(toks: seq<Token>): seq<Token> { LowerToks(Erase(toks)) }

  // ----- The scans find those words -------------------------------------------------------------------

  /** The index of the first word from `k` on, or the length. */
  function FirstFrom(ts: seq<Token>, k: nat): (i: nat)
    requires k <= |ts|
    ensures k <= i <= |ts| && NoWords(ts, k, i) && (i < |ts| ==> ts[i].Word?)
    decreases |ts| - k
  {
    if k == |ts| || ts[k].Word? then k else FirstFrom(ts, k + 1)
  }

  lemma {:induction false} FirstWordFrom(ts: seq<Token>, k: nat)
    requires k <= |ts|
    ensures var i := FirstFrom(ts, k);
      && FirstWord(ts[k..]) == (if i < |ts| then ts[i].text else "")
      && AfterFirst(ts[k..]) == (if i < |ts| then ts[i + 1..] else [])
    decreases |ts| - k
  {
    if k < |ts| {
      assert ts[k..][1..] == ts[k + 1..];
      if !ts[k].Word? { FirstWordFrom(ts, k + 1); }
    }
  }

  lemma LeadsIff(ts: seq<Token>, words: set<string>)
    requires "" !in words
    ensures Leads(ts, words) <==> FirstWord(ts) in words
  {
    FirstWordFrom(ts, 0);
    assert ts[0..] == ts;
    var i := FirstFrom(ts, 0);
    if i < |ts| && ts[i].text in words { assert LeadsAt(ts, i, words); }
    if Leads(ts, words) {
      var j: nat :| LeadsAt(ts, j, words);
      assert j == i;
    }
  }

  lemma SecondIff(ts: seq<Token>, word: string)
    requires word != ""
    ensures Second(ts, word) <==> FirstWord(AfterFirst(ts)) == word
  {
    FirstWordFrom(ts, 0);
    assert ts[0..] == ts;
    var i := FirstFrom(ts, 0);
    if i < |ts| {
      FirstWordFrom(ts, i + 1);
      var j := FirstFrom(ts, i + 1);
      if j < |ts| && ts[j].text == word { assert SecondAt(ts, i, j, word); }
      if Second(ts, word) {
        var a: nat, b: nat :| SecondAt(ts, a, b, word);
        assert a == i;
        assert b == j;
      }
    }
  }

  // Parentheses.

  /** The scans' depth counter after `ts`: it never goes below zero. */
  function DepthOf(ts: seq<Token>): nat {
    if ts == [] then 0 else TokDepth(ts[|ts| - 1], DepthOf(ts[..|ts| - 1]))
  }

  /** It is the largest balance of any stretch that ends here. */
  lemma {:induction false} DepthIsMax(ts: seq<Token>, i: nat) returns (at: nat)
    requires i <= |ts|
    ensures at <= i && Balance(ts[at..i]) == DepthOf(ts[..i])
    ensures forall j :: 0 <= j <= i ==> Balance(ts[j..i]) <= DepthOf(ts[..i])
    decreases i
  {
    at := i;
    assert ts[i..i] == [];
    if i > 0 {
      var last := DepthIsMax(ts, i - 1);
      assert ts[..i][..i - 1] == ts[..i - 1];
      forall j | 0 <= j < i
        ensures Balance(ts[j..i]) == Balance(ts[j..i - 1]) + Balance([ts[i - 1]])
      {
        assert ts[j..i][..i - 1 - j] == ts[j..i - 1] && [ts[i - 1]][..0] == [];
      }
      assert [ts[i - 1]][..0] == [];
      if DepthOf(ts[..i]) > 0 || Balance(ts[last..i]) == 0 { at := last; }
    }
  }

  lemma OutsideIff(ts: seq<Token>, i: nat)
    requires i <= |ts|
    ensures Outside(ts, i) <==> DepthOf(ts[..i]) == 0
  {
    var at := DepthIsMax(ts, i);
  }

  lemma DepthStep(ts: seq<Token>, k: nat)
    requires k < |ts|
    ensures DepthOf(ts[..k + 1]) == TokDepth(ts[k], DepthOf(ts[..k]))
  {
    assert ts[..k + 1][..k] == ts[..k];
  }

  predicate NoneOutside(ts: seq<Token>, words: set<string>, k: nat) {
    forall j: nat :: j < k ==> !OutsideAt(ts, j, words)
  }

  /** The scan returns the first of `words` outside parentheses. */
  lemma {:induction false} ScanFrom(ts: seq<Token>, words: set<string>, k: nat)
    requires k <= |ts| && NoneOutside(ts, words, k)
    ensures var w := FirstOutside(ts[k..], words, DepthOf(ts[..k]));
      || (w == "" && NoneOutside(ts, words, |ts|))
      || (exists i: nat :: OutsideAt(ts, i, {w}) && w in words && NoneOutside(ts, words, i))
    decreases |ts| - k
  {
    hide DepthOf, Outside;
    if k < |ts| {
      assert ts[k..][1..] == ts[k + 1..];
      OutsideIff(ts, k);
      DepthStep(ts, k);
      if OutsideAt(ts, k, words) {
        assert OutsideAt(ts, k, {ts[k].text});
      } else {
        ScanFrom(ts, words, k + 1);
      }
    }
  }

  lemma ScanIff(ts: seq<Token>, words: set<string>)
    requires "" !in words
    ensures var w := FirstOutside(ts, words, 0);
      || (w == "" && NoneOutside(ts, words, |ts|))
      || (exists i: nat :: OutsideAt(ts, i, {w}) && w in words && NoneOutside(ts, words, i))
  {
    assert ts[0..] == ts && ts[..0] == [];
    ScanFrom(ts, words, 0);
  }

  lemma HasOutsideIff(ts: seq<Token>, word: string)
    requires word != ""
    ensures HasOutside(ts, {word}) <==> FirstOutside(ts, {word}, 0) != ""
  {
    hide FirstOutside, Outside;
    ScanIff(ts, {word});
  }

  lemma CommandsIff(ts: seq<Token>, words: set<string>)
    requires words <= COMMANDS
    ensures Commands(ts, words) <==> FirstOutside(ts, COMMANDS, 0) in words
  {
    hide FirstOutside, Outside;
    ScanIff(ts, COMMANDS);
    var w := FirstOutside(ts, COMMANDS, 0);
    if w != "" {
      var i: nat :| OutsideAt(ts, i, {w}) && w in COMMANDS && NoneOutside(ts, COMMANDS, i);
      assert OutsideAt(ts, i, COMMANDS);
      if w in words { assert CommandAt(ts, i, words); }
      if Commands(ts, words) {
        var j: nat :| CommandAt(ts, j, words);
        assert OutsideAt(ts, j, COMMANDS);
        assert j == i;
      }
    } else {
      forall j: nat ensures !CommandAt(ts, j, words) {
        assert OutsideAt(ts, j, words) ==> OutsideAt(ts, j, COMMANDS);
      }
    }
  }

  // Semicolons.

  predicate SemiAt(ts: seq<Token>, i: nat) { i < |ts| && ts[i].Semi? && Outside(ts, i) }

  predicate NoSemi(ts: seq<Token>, k: nat) { forall j: nat :: j < k ==> !SemiAt(ts, j) }

  lemma {:induction false} SemiFrom(ts: seq<Token>, k: nat)
    requires k <= |ts| && NoSemi(ts, k)
    ensures var n := TokSemi(ts[k..], DepthOf(ts[..k]));
      if n < 0 then NoSemi(ts, |ts|) else SemiAt(ts, k + n) && NoSemi(ts, k + n)
    decreases |ts| - k
  {
    hide DepthOf, Outside;
    if k < |ts| {
      assert ts[k..][1..] == ts[k + 1..];
      OutsideIff(ts, k);
      DepthStep(ts, k);
      if !SemiAt(ts, k) { SemiFrom(ts, k + 1); }
    }
  }

  /** A text's statements are separated by the semicolons outside parentheses: the first statement ends
      at the first of these. */
  lemma FirstSemiIff(ts: seq<Token>, k: nat)
    ensures TokSemi(ts, 0) == k <==> SemiAt(ts, k) && NoSemi(ts, k)
    ensures TokSemi(ts, 0) < 0 <==> NoSemi(ts, |ts|)
  {
    hide TokSemi, Outside;
    assert ts[0..] == ts && ts[..0] == [];
    SemiFrom(ts, 0);
  }

  // Calls.

  lemma {:induction false} ChainLen(ts: seq<Token>, i: nat, m: nat)
    requires Chain(ts, i, m) && !Joins(ts, m)
    ensures NameLen(ts[i..]) == m - i + 1
    decreases |ts| - i
  {
    if i < m {
      assert ts[i..][2..] == ts[i + 2..];
      ChainLen(ts, i + 2, m);
    }
  }

  lemma {:induction false} NameChain(ts: seq<Token>, i: nat)
    requires i < |ts| && ts[i].Word?
    ensures Chain(ts, i, i + NameLen(ts[i..]) - 1)
    decreases |ts| - i
  {
    if Joins(ts, i) {
      assert ts[i..][2..] == ts[i + 2..];
      NameChain(ts, i + 2);
    }
  }

  lemma CallIff(lx: Lexicon, ts: seq<Token>, i: nat)
    ensures CalledAt(lx, ts, i) <==> exists m: nat :: CallFromTo(lx, ts, i, m)
  {
    hide NameLen, Chain;
    if CalledAt(lx, ts, i) {
      NameChain(ts, i);
      assert CallFromTo(lx, ts, i, i + NameLen(ts[i..]) - 1);
    }
    if m: nat :| CallFromTo(lx, ts, i, m) {
      ChainEnds(ts, i, m);
      ChainLen(ts, i, m);
    }
  }

  lemma ChainEnds(ts: seq<Token>, i: nat, m: nat)
    requires Chain(ts, i, m)
    ensures i <= m < |ts|
  {
  }

  lemma CallsIff(lx: Lexicon, ts: seq<Token>)
    ensures Calls(lx, ts) <==> Invokes(lx, ts)
  {
    hide CalledAt, CallFromTo, Invokes;
    assert ts[0..] == ts;
    InvokesIff(lx, ts, 0);
    if Invokes(lx, ts) {
      var i :| 0 <= i < |ts| && CalledAt(lx, ts, i);
      CallIff(lx, ts, i);
    }
    if Calls(lx, ts) {
      var i: nat, m: nat :| CallFromTo(lx, ts, i, m);
      CallIff(lx, ts, i);
      CallStarts(lx, ts, i);
    }
  }

  lemma CallStarts(lx: Lexicon, ts: seq<Token>, i: nat)
    requires CalledAt(lx, ts, i)
    ensures i < |ts|
  {
  }

  // ----- One statement ---------------------------------------------------------------------------------

  /**
   The class of a statement, from its words: it has a class exactly when it is a statement of that kind.
   */
  lemma ClassIff(lx: Lexicon, toks: seq<Token>, c: StmtClass)
    ensures ClassOf(lx, toks) == c <==> Means(lx, Lowered(toks), c)
  {
    hide Leads, Second, HasOutside, Commands, Calls, FirstWord, AfterFirst, FirstOutside, Invokes, Verdict;
    var ts := Lowered(toks);
    var lead := FirstWord(ts);
    SecondIff(ts, "to");
    HasOutsideIff(ts, "from");
    CommandsIff(ts, {"select"});
    CommandsIff(ts, {"insert", "update", "delete"});
    CommandsIff(ts, COMMANDS);
    CallsIff(lx, ts);
    var second, from := FirstWord(AfterFirst(ts)) == "to", FirstOutside(ts, {"from"}, 0) != "";
    var primary, invokes := FirstOutside(ts, COMMANDS, 0), Invokes(lx, ts);
    VerdictMeans(lead, second, from, primary, invokes, c);
    LeadsIff(ts, {"select"});
    LeadsIff(ts, {"with"});
    match c
    case ClassCall => LeadsIff(ts, {"call"});
    case ClassDML => LeadsIff(ts, {"insert", "update", "delete"});
    case ClassDDL => LeadsIff(ts, {"create", "alter", "drop"});
    case ClassBegin => LeadsIff(ts, {"begin", "start"});
    case ClassCommitRollback => LeadsIff(ts, {"commit", "end"}); LeadsIff(ts, {"rollback"});
    case ClassUtility =>
      LeadsIff(ts, {"savepoint", "release", "set", "reset", "discard"});
      LeadsIff(ts, {"rollback"});
    case ClassCopyFrom => LeadsIff(ts, {"copy"});
    case ClassProcSelect =>
    case ClassPlainSelect =>
    case ClassUnknown =>
      LeadsIff(ts, {"copy"});
      LeadsIff(ts, LEADS);
  }

  /** The same of what the scans found. */
  predicate Found(lead: string, second: bool, from: bool, primary: string, invokes: bool, c: StmtClass) {
    var selects := lead in {"select"} || (lead in {"with"} && primary in {"select"});
    match c
    case ClassCall => lead in {"call"}
    case ClassDML =>
      lead in {"insert", "update", "delete"} || (lead in {"with"} && primary in {"insert", "update", "delete"})
    case ClassDDL => lead in {"create", "alter", "drop"}
    case ClassBegin => lead in {"begin", "start"}
    case ClassCommitRollback => lead in {"commit", "end"} || (lead in {"rollback"} && !second)
    case ClassUtility =>
      lead in {"savepoint", "release", "set", "reset", "discard"} || (lead in {"rollback"} && second)
    case ClassCopyFrom => lead in {"copy"} && from
    case ClassProcSelect => selects && invokes
    case ClassPlainSelect => selects && !invokes
    case ClassUnknown =>
      lead !in LEADS || (lead in {"copy"} && !from) || (lead in {"with"} && primary !in COMMANDS)
  }

  lemma VerdictMeans(lead: string, second: bool, from: bool, primary: string, invokes: bool, c: StmtClass)
    ensures Verdict(lead, second, from, primary, invokes) == c <==> Found(lead, second, from, primary, invokes, c)
  {
  }

  /** So for every text without a second statement. */
  lemma ClassifyIff(lx: Lexicon, s: string, c: StmtClass)
    requires IndexSemi(s) < 0
    ensures Classify(lx, s) == c <==> Means(lx, Lowered(Tokens(s)), c)
  {
    hide Tokens, IndexSemi, ClassOf, Means;
    ClassIff(lx, Tokens(s), c);
  }

  // ----- Several statements ------------------------------------------------------------------------------

  /** The classes that win over `c`, from the end of a transaction down to a plain SELECT. A write and a
      CALL are on a par: the first of them wins. */
  function Above(c: StmtClass): set<StmtClass> {
    match c
    case ClassCommitRollback => {}
    case ClassBegin => {ClassCommitRollback}
    case ClassDDL => {ClassCommitRollback, ClassBegin}
    case ClassDML => {ClassCommitRollback, ClassBegin, ClassDDL}
    case ClassCall => {ClassCommitRollback, ClassBegin, ClassDDL}
    case ClassCopyFrom => {ClassCommitRollback, ClassBegin, ClassDDL, ClassDML, ClassCall}
    case ClassProcSelect => {ClassCommitRollback, ClassBegin, ClassDDL, ClassDML, ClassCall, ClassCopyFrom}
    case ClassUtility =>
      {ClassCommitRollback, ClassBegin, ClassDDL, ClassDML, ClassCall, ClassCopyFrom, ClassProcSelect}
    case ClassPlainSelect =>
      {ClassCommitRollback, ClassBegin, ClassDDL, ClassDML, ClassCall, ClassCopyFrom, ClassProcSelect, ClassUtility}
    case ClassUnknown =>
      {ClassCommitRollback, ClassBegin, ClassDDL, ClassDML, ClassCall, ClassCopyFrom, ClassProcSelect, ClassUtility,
       ClassPlainSelect}
  }

  /** The class at `at` wins over the others. */
  predicate WinsAt(cs: seq<StmtClass>, at: nat) {
    && at < |cs|
    && (forall j :: 0 <= j < |cs| ==> cs[j] !in Above(cs[at]))
    && (cs[at] == ClassDML ==> ClassCall !in cs[..at])
    && (cs[at] == ClassCall ==> ClassDML !in cs[..at])
  }

  lemma AboveIff(c: StmtClass, d: StmtClass)
    ensures d in Above(c) <==> Priority(d) > Priority(c)
    ensures Priority(c) == Priority(d) ==> c == d || {c, d} == {ClassDML, ClassCall}
  {
  }

  /** The class of several statements is the one that wins; of none, unknown. */
  lemma BatchIff(cs: seq<StmtClass>, c: StmtClass)
    ensures Best(ClassUnknown, cs) == c <==>
      (exists at: nat :: WinsAt(cs, at) && cs[at] == c) || (cs == [] && c == ClassUnknown)
  {
    hide WinsAt, Best, IsFirstHighest, NoneAbove;
    var r := Best(ClassUnknown, cs);
    BestIsFirstHighest(ClassUnknown, cs);
    if cs != [] {
      var at: nat := 0;
      if NoneAbove(cs, ClassUnknown) {
        UnknownWins(cs);
      } else {
        at :| IsFirstHighest(cs, r, at);
        HighestWins(cs, r, at);
      }
      forall b: nat | WinsAt(cs, b) ensures b < |cs| && cs[b] == r { OneWins(cs, at, b); }
    } else {
      NoWinner(0);
      forall b: nat ensures !WinsAt(cs, b) { NoWinner(b); }
    }
  }

  lemma NoWinner(b: nat)
    ensures !WinsAt([], b) && NoneAbove([], ClassUnknown)
  {
  }

  lemma UnknownWins(cs: seq<StmtClass>)
    requires NoneAbove(cs, ClassUnknown) && cs != []
    ensures WinsAt(cs, 0) && cs[0] == ClassUnknown
  {
    forall j | 0 <= j < |cs| ensures cs[j] == ClassUnknown { AboveIff(cs[j], ClassUnknown); }
  }

  lemma HighestWins(cs: seq<StmtClass>, c: StmtClass, at: nat)
    requires IsFirstHighest(cs, c, at)
    ensures WinsAt(cs, at) && cs[at] == c
  {
    forall j | 0 <= j < |cs| ensures cs[j] !in Above(c) { AboveIff(c, cs[j]); }
  }

  lemma OneWins(cs: seq<StmtClass>, a: nat, b: nat)
    requires WinsAt(cs, a) && WinsAt(cs, b)
    ensures a < |cs| && b < |cs| && cs[a] == cs[b]
  {
    hide Above, Priority;
    AboveIff(cs[a], cs[b]);
    AboveIff(cs[b], cs[a]);
  }

  /** So for every text whose scanners are in step, statement by statement: `at` is the statement that
      gives the text its class. */
  lemma ClassifyBatchIff(lx: Lexicon, s: string, c: StmtClass)
    requires InStep(s) && Settled(s)
    ensures var gs := Groups(Tokens(s));
      Classify(lx, s) == c <==>
        exists at: nat :: WinsAt(GroupClasses(lx, gs), at) && Means(lx, Lowered(gs[at]), c)
  {
    hide InStep, Settled, Classify, Means, Tokens, Groups, WinsAt, Best, ClassOf;
    var gs := Groups(Tokens(s));
    var cs := GroupClasses(lx, gs);
    ClassifyByGroups(lx, s);
    BatchIff(cs, c);
    SomeGroup(Tokens(s));
    forall at: nat | WinsAt(cs, at) ensures at < |gs| && (cs[at] == c <==> Means(lx, Lowered(gs[at]), c)) {
      WinnerThere(cs, at);
      ClassIff(lx, gs[at], c);
    }
  }

  lemma WinnerThere(cs: seq<StmtClass>, at: nat)
    requires WinsAt(cs, at)
    ensures at < |cs|
  {
  }

  lemma SomeGroup(ts: seq<Token>)
    ensures Groups(ts) != []
  {
  }

  /** A batch with a write never has the class of a SELECT, and one with a COMMIT always ends a
      transaction. */
  lemma WritesAreNotHidden(cs: seq<StmtClass>)
    ensures ClassDML in cs ==>
      Best(ClassUnknown, cs) !in {ClassUnknown, ClassPlainSelect, ClassProcSelect, ClassUtility, ClassCopyFrom}
    ensures ClassCommitRollback in cs ==> Best(ClassUnknown, cs) == ClassCommitRollback
  {
    hide Best;
    BatchIff(cs, Best(ClassUnknown, cs));
  }
}
