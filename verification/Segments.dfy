/**
 What the replay guard takes for quoted (pkg/replayguard/replayguard.go), as a grammar: which sequences of
 plain and quoted parts are the segmentation of their text. Module `Guard` has the scanners.
 */
module Segments {
  import opened Guard

  // ----- The grammar ---------------------------------------------------------------------------

  /** A dollar tag: letters, digits and underscores between two dollars, or nothing. */
  predicate IsTag(o: string) {
    && |o| >= 2 && o[0] == '$' && o[|o| - 1] == '$'
    && forall i :: 0 < i < |o| - 1 ==>
         'a' <= o[i] <= 'z' || 'A' <= o[i] <= 'Z' || '0' <= o[i] <= '9' || o[i] == '_'
  }

  predicate TagFrom(s: string, i: nat, j: nat) { i < j <= |s| && IsTag(s[i..j]) }

  /** A quoted part starts at `i`: with a quote, or with a tag. */
  ghost predicate StartsAt(s: string, i: nat)
    requires i < |s|
  {
    s[i] == '\'' || exists j: nat :: TagFrom(s, i, j)
  }

  /** No quoted part starts in `p`, also when `next` follows. */
  ghost predicate AllPlain(p: string, next: string) {
    forall i :: 0 <= i < |p| ==> !StartsAt(p + next, i)
  }

  /** The inside of a literal: every quote in it is doubled. */
  predicate Doubled(b: string) {
    b == [] || (if b[0] != '\'' then Doubled(b[1..]) else |b| >= 2 && b[1] == '\'' && Doubled(b[2..]))
  }

  /** A literal could end at `n`. */
  predicate ClosesAt(s: string, n: nat) {
    n < |s| && s[n] == '\'' && Doubled(s[..n]) && (n + 1 == |s| || s[n + 1] != '\'')
  }

  predicate Occurs(pat: string, s: string, i: nat) { i <= |s| && pat <= s[i..] }

  /** The quoted part `b`, opened by `o` and followed by `o` and `t`, ends there. */
  predicate Encloses(o: string, b: string, t: string) {
    if o == "'" then ClosesAt(b + o + t, |b|)
    else forall i: nat :: i < |b| ==> !Occurs(o, b + o + t, i)
  }

  ghost predicate NeverEnds(o: string, b: string) {
    if o == "'" then forall n: nat :: !ClosesAt(b, n) else forall i: nat :: !Occurs(o, b, i)
  }

  ghost predicate Proper(c: Cut) {
    match c
    case Last(p) => AllPlain(p, [])
    case Open(p, o, b) => (o == "'" || IsTag(o)) && AllPlain(p, o) && NeverEnds(o, b)
    case Piece(p, o, b, rest) =>
      (o == "'" || IsTag(o)) && AllPlain(p, o) && Encloses(o, b, Text(rest)) && Proper(rest)
  }

  // ----- The scanner's opener --------------------------------------------------------------------

  /** The tag at the front, if there is one, ends at the first dollar. */
  lemma {:induction false} TagEndIff(s: string, n: nat)
    ensures TagEnd(s) == n <==> n < |s| && s[n] == '$' && forall i :: 0 <= i < n ==> IsTagChar(s[i])
  {
    if s != [] && s[0] != '$' {
      if n > 0 {
        TagEndIff(s[1..], n - 1);
        assert forall i :: 1 <= i < |s| ==> s[i] == s[1..][i - 1];
      }
    }
  }

  lemma TagAt(s: string, j: nat)
    requires 0 < j < |s|
    ensures IsTag(s[..j + 1]) <==> s[0] == '$' && TagEnd(s[1..]) == j - 1
  {
    var t := s[..j + 1];
    TagEndIff(s[1..], j - 1);
    assert forall i :: 0 < i < j ==> s[1..][i - 1] == s[i] == t[i];
    if TagEnd(s[1..]) == j - 1 {
      forall i | 0 < i < j ensures IsTagChar(t[i]) { assert IsTagChar(s[1..][i - 1]); }
    }
    if IsTag(t) {
      forall i | 0 <= i < j - 1 ensures IsTagChar(s[1..][i]) { assert t[i + 1] == s[1..][i]; }
    }
  }

  lemma OpenerIff(s: string)
    requires s != []
    ensures Opener(s) != [] <==> StartsAt(s, 0)
  {
    hide TagEnd, IsTag;
    if s[0] == '$' && TagEnd(s[1..]) >= 0 {
      var j := TagEnd(s[1..]) + 1;
      TagAt(s, j);
      assert s[0..j + 1] == s[..j + 1];
      assert TagFrom(s, 0, j + 1);
    }
    if j: nat :| TagFrom(s, 0, j) {
      if j < 2 { NoTag(s[0..j]); }
      assert s[0..j] == s[..j];
      TagAt(s, j - 1);
    }
  }

  lemma WholeOpener(o: string)
    ensures (o != [] && Opener(o) == o) <==> o == "'" || IsTag(o)
  {
    hide TagEnd, IsTag;
    if |o| >= 2 {
      TagAt(o, |o| - 1);
      assert o[..|o|] == o;
    } else if |o| == 1 {
      NoTag(o);
      assert o[1..] == [];
      NoTagEnd();
    }
    NoTag([]);
  }

  lemma NoTagEnd()
    ensures TagEnd([]) == -1
  {
  }

  lemma NoTag(o: string)
    requires |o| < 2
    ensures !IsTag(o)
  {
  }

  lemma StartsTail(s: string, i: nat)
    requires i < |s|
    ensures StartsAt(s, i) <==> StartsAt(s[i..], 0)
  {
    hide IsTag;
    var t := s[i..];
    if j: nat :| TagFrom(s, i, j) {
      assert t[0..j - i] == s[i..j];
      assert TagFrom(t, 0, j - i);
    }
    if j: nat :| TagFrom(t, 0, j) {
      assert s[i..i + j] == t[0..j];
      assert TagFrom(s, i, i + j);
    }
  }

  lemma {:induction false} ClearIsPlain(p: string, o: string)
    ensures Clear(p, o) <==> AllPlain(p, o)
  {
    hide Opener, StartsAt;
    if p != [] {
      OpenerIff(p + o);
      ClearIsPlain(p[1..], o);
      assert (p + o)[1..] == p[1..] + o;
      forall i | 0 < i < |p| ensures StartsAt(p + o, i) <==> StartsAt(p[1..] + o, i - 1) {
        StartsTail(p + o, i);
        StartsTail(p[1..] + o, i - 1);
        assert (p + o)[i..] == (p[1..] + o)[i - 1..];
      }
      if AllPlain(p[1..], o) && !StartsAt(p + o, 0) {
        forall i | 0 <= i < |p| ensures !StartsAt(p + o, i) {
          if i > 0 { assert !StartsAt(p[1..] + o, i - 1); }
        }
      }
      if AllPlain(p, o) {
        forall i | 0 <= i < |p[1..]| ensures !StartsAt(p[1..] + o, i) { assert !StartsAt(p + o, i + 1); }
      }
    }
  }

  // ----- Where quoted parts end --------------------------------------------------------------------

  lemma {:induction false} QuoteBodyIff(s: string, n: nat)
    ensures QuoteBody(s) == n <==> ClosesAt(s, n)
    decreases |s|
  {
    if s != [] && n < |s| {
      if s[0] != '\'' {
        if n > 0 {
          QuoteBodyIff(s[1..], n - 1);
          assert s[..n][1..] == s[1..][..n - 1];
        }
      } else if |s| > 1 && s[1] == '\'' {
        if n >= 2 {
          QuoteBodyIff(s[2..], n - 2);
          assert s[..n][2..] == s[2..][..n - 2];
        }
      }
    }
  }

  lemma OccursTail(pat: string, s: string, i: nat)
    requires s != []
    ensures Occurs(pat, s, i + 1) <==> Occurs(pat, s[1..], i)
    ensures Occurs(pat, s, 0) <==> pat <= s
  {
    assert s[0..] == s;
    if i < |s| { assert s[i + 1..] == s[1..][i..]; }
  }

  predicate NotBefore(pat: string, s: string, n: nat) { forall i: nat :: i < n ==> !Occurs(pat, s, i) }

  /** The search finds the first occurrence, if there is one. */
  lemma {:induction false} FindFirst(s: string, pat: string)
    ensures var n := Find(s, pat);
      if n >= 0 then Occurs(pat, s, n) && NotBefore(pat, s, n) else NotBefore(pat, s, |s| + 1)
  {
    hide Occurs;
    if s == [] {
      NoOccurrence(pat);
    } else {
      OccursTail(pat, s, 0);
      if !(pat <= s) {
        FindFirst(s[1..], pat);
        var n := Find(s[1..], pat);
        var top := if n >= 0 then n else |s|;
        forall i: nat | i < top + 1 ensures !Occurs(pat, s, i) { if i > 0 { OccursTail(pat, s, i - 1); } }
        if n >= 0 { OccursTail(pat, s, n); }
      }
    }
  }

  lemma NoOccurrence(pat: string)
    ensures if pat == [] then Occurs(pat, [], 0) && Find([], pat) == 0
            else Find([], pat) < 0 && NotBefore(pat, [], 1)
  {
  }

  lemma EnclosesIff(o: string, b: string, t: string)
    requires o != []
    ensures BodyLen(b + o + t, o) == |b| <==> Encloses(o, b, t)
  {
    var s := b + o + t;
    if o == "'" {
      QuoteBodyIff(s, |b|);
    } else {
      assert s[|b|..] == o + t;
      assert Occurs(o, s, |b|);
      FindFirst(s, o);
    }
  }

  lemma NeverEndsIff(o: string, b: string)
    requires o != []
    ensures BodyLen(b, o) < 0 <==> NeverEnds(o, b)
  {
    if o == "'" {
      forall n: nat ensures QuoteBody(b) == n <==> ClosesAt(b, n) { QuoteBodyIff(b, n); }
      var n := QuoteBody(b);
      if n >= 0 { assert ClosesAt(b, n); }
    } else {
      FindFirst(b, o);
    }
  }

  // ----- Segmentations -----------------------------------------------------------------------------

  lemma {:induction false} ProperIff(c: Cut)
    ensures WellCut(c) <==> Proper(c)
  {
    hide Opener, BodyLen, Clear, AllPlain, IsTag, Encloses, NeverEnds;
    match c
    case Last(p) => ClearIsPlain(p, []);
    case Open(p, o, b) =>
      WholeOpener(o);
      ClearIsPlain(p, o);
      if o != [] { NeverEndsIff(o, b); }
    case Piece(p, o, b, rest) =>
      WholeOpener(o);
      ClearIsPlain(p, o);
      if o != [] { EnclosesIff(o, b, Text(rest)); }
      ProperIff(rest);
  }

  /**
   The guard's reading of a text. It cuts a text into given parts exactly when they make up the text and
   are proper: quoted parts between quotes, with quotes inside doubled and none following, or between
   equal dollar tags, of which the closing one is the first; and plain parts in which nothing opens.
   */
  lemma CutIff(s: string, c: Cut)
    ensures CutOf(s) == c <==> Text(c) == s && Proper(c)
  {
    hide CutOf, WellCut, Proper, Text;
    ProperIff(c);
    if CutOf(s) == c {
      CutIsWell(s);
      CutIsPartition(s);
    }
    if Proper(c) { WellCutIsCut(c); }
  }

  /** The quoted parts when they are emptied: two openers, or an opening quote alone, or, after a tag that
      never comes again, the text as it is. */
  function Emptied(c: Cut): seq<string> {
    match c
    case Last(_) => []
    case Piece(_, o, _, rest) => [o + o] + Emptied(rest)
    case Open(_, o, b) => [if o == "'" then "'" else o + b]
  }

  lemma {:induction false} ElideInterleaves(c: Cut)
    ensures Text(Elide(c)) == Interleave(Plains(c), Emptied(c))
  {
    match c
    case Last(p) =>
      assert [p][1..] == [];
    case Open(p, o, b) =>
      assert [p][1..] == [] && Emptied(c)[1..] == [];
      assert o + [] == o;
      assert p + o + b + [] == p + (o + b) + [] && p + o + [] == p + o;
    case Piece(p, o, b, rest) =>
      ElideInterleaves(rest);
      assert Plains(c)[1..] == Plains(rest) && Emptied(c)[1..] == Emptied(rest);
      assert p + o + [] + o + Text(Elide(rest)) == p + (o + o) + Text(Elide(rest));
  }

  /** Stripping keeps the plain parts and empties the quoted ones. */
  lemma StripKeepsPlain(s: string)
    ensures Strip(s) == Interleave(Plains(CutOf(s)), Emptied(CutOf(s)))
  {
    ElideInterleaves(CutOf(s));
  }
}
