/**
 The COPY statements on which capturing fails (module `Session`), as texts for this program's own
 classifier: a COPY from a file opens a COPY whose rows never come, and a batch that begins a
 transaction before a COPY is not taken for one.
 */
module CopyStatements {
  import opened Core
  import opened Lexer
  import opened Classifier
  import ClassifierLimits
  import PoolerReset
  import Processor
  import opened Capture
  import Session

  predicate IsName(w: string) { ClassifierLimits.IsName(w) }

  /** COPY t FROM, and what follows. */
  function CopyText(v: string, t: string, f: string, tail: string): string {
    v + ([' '] + (t + ([' '] + (f + ([' '] + tail)))))
  }

  lemma WordThen(w: string, rest: string)
    requires IsName(w)
    ensures Tokens(w + ([' '] + rest)) == [Word(w)] + Tokens(rest)
    ensures Unquoted(w + ([' '] + rest)) == Unquoted(rest)
  {
    hide Tokens, Unquoted, NamesClosed, QuietNames;
    TokensCons(' ', rest);
    ClassifierLimits.NameTokens(w, [' '] + rest);
  }

  lemma CopyTokens(v: string, t: string, f: string, tail: string)
    requires IsName(v) && IsName(t) && IsName(f)
    ensures Tokens(CopyText(v, t, f, tail)) == [Word(v), Word(t), Word(f)] + Tokens(tail)
    ensures Unquoted(CopyText(v, t, f, tail)) == Unquoted(tail)
  {
    hide Tokens, Unquoted, IsName;
    WordThen(f, tail);
    WordThen(t, f + ([' '] + tail));
    WordThen(v, t + ([' '] + (f + ([' '] + tail))));
    assert [Word(v)] + ([Word(t)] + ([Word(f)] + Tokens(tail))) == [Word(v), Word(t), Word(f)] + Tokens(tail);
  }

  lemma CopyClass(lx: Lexicon, v: string, t: string, f: string, more: seq<Token>)
    requires Lower(v) == "copy" && Lower(f) == "from"
    ensures ClassOf(lx, [Word(v), Word(t), Word(f)] + more) == ClassCopyFrom
  {
    hide Invokes, AfterFirst, Lower, LowerToks, Erase;
    var ts := [Word(Lower(v)), Word(Lower(t)), Word(Lower(f))] + LowerToks(Erase(more));
    LowerWords(v, t, f, more);
    FromIsThere(ts);
  }

  lemma FromIsThere(ts: seq<Token>)
    requires |ts| >= 3 && ts[0] == Word("copy") && ts[1].Word? && ts[2] == Word("from")
    ensures FirstOutside(ts, {"from"}, 0) == "from"
  {
    var u := ts[1..];
    var w := u[1..];
    assert w[0] == Word("from");
    assert FirstOutside(w, {"from"}, 0) == "from";
    assert TokDepth(u[0], 0) == 0 && TokDepth(ts[0], 0) == 0;
    assert FirstOutside(u, {"from"}, 0) == "from";
    assert "copy" != "from";
  }

  lemma LowerWords(v: string, t: string, f: string, more: seq<Token>)
    ensures LowerToks(Erase([Word(v), Word(t), Word(f)] + more))
         == [Word(Lower(v)), Word(Lower(t)), Word(Lower(f))] + LowerToks(Erase(more))
  {
    hide Lower;
  }

  lemma LiteralEnd(x: string)
    requires '\'' !in x
    ensures Tokens(Quoted(x, [])) == [Str] && Unquoted(Quoted(x, []))
  {
    hide Tokens, UnitLen, UnitToks;
    var s := Quoted(x, []);
    ClassifierLimits.SkippedLiteral(s, x, []);
    LiteralTokens(x, []);
    assert s[|x| + 2..] == [];
    ClassifierLimits.EmptyText(s[|x| + 2..]);
    assert [Str] + [] == [Str];
  }

  /** A COPY from a file has the COPY class. */
  lemma FileCopy(lx: Lexicon, v: string, t: string, f: string, path: string)
    requires IsName(v) && IsName(t) && IsName(f) && Lower(v) == "copy" && Lower(f) == "from" && '\'' !in path
    ensures Classify(lx, CopyText(v, t, f, Quoted(path, []))) == ClassCopyFrom
  {
    hide Tokens, Unquoted, Classify, ClassOf, Best, IsName, QuietNames, NamesClosed, CopyText;
    var s := CopyText(v, t, f, Quoted(path, []));
    LiteralEnd(path);
    CopyTokens(v, t, f, Quoted(path, []));
    CopyClass(lx, v, t, f, [Str]);
    UnquotedIsQuiet(s);
    ClassifyQuiet(lx, s);
    OneGroup(lx, Tokens(s));
  }

  lemma OneGroup(lx: Lexicon, ts: seq<Token>)
    requires Semi !in ts
    ensures Best(ClassUnknown, GroupClasses(lx, Groups(ts))) == ClassOf(lx, ts)
  {
    hide ClassOf;
    ClassifierLimits.NoSemiToken(ts, 0);
    assert GroupClasses(lx, Groups(ts)) == [ClassOf(lx, ts)];
    OnlyOne(ClassOf(lx, ts));
  }

  lemma OnlyOne(c: StmtClass)
    ensures Best(ClassUnknown, [c]) == c
  {
  }

  /** BEGIN and COPY FROM STDIN in one query have the class of BEGIN. */
  lemma BeginThenCopy(lx: Lexicon, b: string, v: string, t: string, f: string, x: string)
    requires IsName(b) && IsName(v) && IsName(t) && IsName(f) && IsName(x)
    requires Lower(b) == "begin" && Lower(v) == "copy" && Lower(f) == "from"
    ensures Classify(lx, b + ([';'] + CopyText(v, t, f, x))) == ClassBegin
  {
    hide Tokens, Unquoted, Classify, ClassOf, Best, IsName, QuietNames, NamesClosed, CopyText, TokSemi, TopSemi;
    var rest := CopyText(v, t, f, x);
    var s, e: string := b + ([';'] + rest), [];
    ClassifierLimits.EmptyText(e);
    NameAlone(x, e);
    CopyTokens(v, t, f, x);
    SemiThen(rest);
    NameThen(b, [';'] + rest);
    UnquotedIsQuiet(s);
    ClassifyQuiet(lx, s);
    var ts := [Word(v), Word(t), Word(f)] + [Word(x)];
    assert [Word(b)] + ([Semi] + ts) == [Word(b)] + [Semi] + ts;
    TwoGroups(lx, [Word(b)], ts);
    CopyClass(lx, v, t, f, [Word(x)]);
    BeginClass(lx, b);
  }

  lemma NameThen(w: string, rest: string)
    requires IsName(w) && rest != [] && !IsIdentPart(rest[0])
    ensures Tokens(w + rest) == [Word(w)] + Tokens(rest) && Unquoted(w + rest) == Unquoted(rest)
  {
    ClassifierLimits.NameTokens(w, rest);
  }

  lemma NameAlone(x: string, e: string)
    requires IsName(x) && e == []
    ensures Tokens(x) == [Word(x)] && Unquoted(x)
  {
    hide Tokens, Unquoted;
    ClassifierLimits.EmptyText(e);
    ClassifierLimits.NameTokens(x, e);
    assert x + e == x && [Word(x)] + [] == [Word(x)];
  }

  lemma SemiThen(rest: string)
    ensures Tokens([';'] + rest) == [Semi] + Tokens(rest) && Unquoted([';'] + rest) == Unquoted(rest)
  {
    hide Tokens, Unquoted, TopSemi, TokSemi, NamesClosed, QuietNames;
    SemiFirst([';'] + rest);
    assert ([';'] + rest)[1..] == rest;
  }

  lemma TwoGroups(lx: Lexicon, a: seq<Token>, b: seq<Token>)
    requires |a| == 1 && a[0].Word? && Semi !in b
    ensures Best(ClassUnknown, GroupClasses(lx, Groups(a + [Semi] + b)))
         == Best(Better(ClassUnknown, ClassOf(lx, a)), [ClassOf(lx, b)])
  {
    hide ClassOf;
    var ts := a + [Semi] + b;
    assert ts[1..][0] == Semi;
    assert TokSemi(ts, 0) == 1;
    GroupsCut(ts, a, b);
    ClassifierLimits.NoSemiToken(b, 0);
    assert GroupClasses(lx, Groups(ts)) == [ClassOf(lx, a)] + [ClassOf(lx, b)];
    OneMore(ClassUnknown, ClassOf(lx, a), [ClassOf(lx, b)]);
  }

  lemma BeginClass(lx: Lexicon, b: string)
    requires Lower(b) == "begin"
    ensures ClassOf(lx, [Word(b)]) == ClassBegin
    ensures Best(Better(ClassUnknown, ClassBegin), [ClassCopyFrom]) == ClassBegin
  {
    hide FirstOutside, Invokes, AfterFirst, Lower;
    assert LowerToks(Erase([Word(b)])) == [Word(Lower(b))];
  }

  // ----- In the processor ---------------------------------------------------------------------

  /** With this program's classifier a COPY from a file is never captured, and neither are the rows of a
      COPY that stands in one query with BEGIN. */
  lemma CopiesAreLost(cfg: Processor.Config, lx: Lexicon, copy: Bytes, batch: Bytes, rows: Session.Rows,
      b: string, v: string, t: string, f: string, x: string, path: string)
    requires PoolerReset.Configured(cfg, lx) && |copy| <= cfg.maxSql && |batch| <= cfg.maxSql
    requires IsName(b) && IsName(v) && IsName(t) && IsName(f) && IsName(x) && '\'' !in path
    requires Lower(b) == "begin" && Lower(v) == "copy" && Lower(f) == "from"
    requires PoolerReset.Chars(copy) == CopyText(v, t, f, Quoted(path, []))
    requires PoolerReset.Chars(batch) == b + ([';'] + CopyText(v, t, f, x))
    ensures Session.Captured(cfg, map[], None, [Session.Simple(copy, None)]) == []
    ensures Session.Captured(cfg, map[], None, [Session.Simple(batch, Some(rows))])
         == [Content(batch, [], [], [], false)]
  {
    hide Classify, CopyText, IsName, PoolerReset.IsPoolerResetQuery, Session.Data;
    FileCopy(lx, v, t, f, path);
    BeginThenCopy(lx, b, v, t, f, x);
    var p, q := Session.Simple(copy, None), Session.Simple(batch, Some(rows));
    assert [p][1..] == [] && [q][1..] == [];
  }
}
