/** The seller's sentence as it will be stored: white space and length normalized, and nothing else. */
module Candidate {
  import opened Base
  import opened Text

  const CANDIDATE_MAX_CHARS := 2000

  const NBSP := '\U{00A0}'

  /** Carriage returns, alone or before a line feed, become line feeds. */
  function LineFeeds(s: string): string {
    if s == "" then ""
    else if s[0] == '\r' then ['\n'] + LineFeeds(if |s| > 1 && s[1] == '\n' then s[2..] else s[1..])
    else [s[0]] + LineFeeds(s[1..])
  }

  predicate Blank(c: char) { c == ' ' || c == '\t' || c == NBSP }

  /** Every run of blanks becomes one space. */
  function Spaces(s: string): string {
    if s == "" then ""
    else if Blank(s[0]) then
      if |s| > 1 && Blank(s[1]) then Spaces(s[1..]) else [' '] + Spaces(s[1..])
    else [s[0]] + Spaces(s[1..])
  }

  /** How many characters one edge takes: a line feed, with one space before it and one behind it. */
  function Edge(s: string): nat
    requires s != ""
    ensures 1 <= Edge(s) <= |s|
  {
    if s[0] == '\n' then (if |s| > 1 && s[1] == ' ' then 2 else 1)
    else if s[0] == ' ' && |s| > 1 && s[1] == '\n' then (if |s| > 2 && s[2] == ' ' then 3 else 2)
    else 1
  }

  /** A line feed takes the space before it and the space behind it. */
  function Edges(s: string): string {
    if s == "" then "" else [if Edge(s) > 1 then '\n' else s[0]] + Edges(s[Edge(s)..])
  }

  /** Every run of line feeds becomes one. */
  function Lines(s: string): string {
    if s == "" then ""
    else if s[0] == '\n' && |s| > 1 && s[1] == '\n' then Lines(s[1..])
    else [s[0]] + Lines(s[1..])
  }

  function Squeezed(text: string): string { Trim(Lines(Edges(Spaces(LineFeeds(text))))) }

  function NormalizeContent(text: string): string { First(Squeezed(text), CANDIDATE_MAX_CHARS) }

  /* ---- what a normalized text looks like ---- */

  /** No two neighbours a normal form may not have. */
  predicate Apart(a: char, b: char) {
    && !(Blank(a) && Blank(b))
    && !(a == '\n' && b == '\n')
    && !(a == ' ' && b == '\n') && !(a == '\n' && b == ' ')
  }

  predicate Plain(c: char) { c != '\r' && c != '\t' && c != NBSP }

  ghost predicate AllPlain(s: string) { forall i :: 0 <= i < |s| ==> Plain(s[i]) }

  ghost predicate Neighbours(s: string) { forall i, j :: 0 <= i && j == i + 1 && j < |s| ==> Apart(s[i], s[j]) }

  /** No carriage return, no tab, no run of spaces, no blank line, no space beside a line feed. */
  ghost predicate Tidy(s: string) { AllPlain(s) && Neighbours(s) }

  ghost predicate NoCr(s: string) { forall i :: 0 <= i < |s| ==> s[i] != '\r' }

  /** Single blanks only, and all of them spaces. */
  ghost predicate Spaced(s: string) {
    AllPlain(s) && forall i, j :: 0 <= i && j == i + 1 && j < |s| ==> !(s[i] == ' ' && s[j] == ' ')
  }

  ghost predicate EdgeFree(s: string) {
    AllPlain(s) && forall i, j :: 0 <= i && j == i + 1 && j < |s| ==>
      !(s[i] == ' ' && s[j] == ' ') && !(s[i] == ' ' && s[j] == '\n') && !(s[i] == '\n' && s[j] == ' ')
  }

  lemma {:induction false} LineFeedsClean(s: string)
    ensures NoCr(LineFeeds(s)) && Ink(LineFeeds(s)) == Ink(s)
  {
    if s != "" {
      if s[0] == '\r' && |s| > 1 && s[1] == '\n' {
        LineFeedsClean(s[2..]);
        assert s[1..][1..] == s[2..];
        InkConcat(['\n'], LineFeeds(s[2..]));
      } else {
        LineFeedsClean(s[1..]);
        InkConcat(LineFeeds(s)[..1], LineFeeds(s[1..]));
        assert LineFeeds(s) == LineFeeds(s)[..1] + LineFeeds(s[1..]);
      }
    }
  }

  lemma {:induction false} SpacesInk(s: string)
    ensures Ink(Spaces(s)) == Ink(s)
  {
    if s != "" {
      SpacesInk(s[1..]);
      if !(Blank(s[0]) && |s| > 1 && Blank(s[1])) {
        InkConcat(Spaces(s)[..1], Spaces(s[1..]));
        assert Spaces(s) == Spaces(s)[..1] + Spaces(s[1..]);
      }
    }
  }

  lemma {:induction false} SpacesClean(s: string)
    requires NoCr(s)
    ensures Spaced(Spaces(s))
    ensures Spaces(s) != "" && Spaces(s)[0] == ' ' ==> s != "" && Blank(s[0])
  {
    hide IsSpace, Ink;
    if s != "" {
      assert NoCr(s[1..]);
      SpacesClean(s[1..]);
      if !(Blank(s[0]) && |s| > 1 && Blank(s[1])) {
        var c := if Blank(s[0]) then ' ' else s[0];
        assert Plain(c);
        SpacedCons(c, Spaces(s[1..]));
      }
    }
  }

  lemma SpacedCons(c: char, s: string)
    requires Plain(c) && Spaced(s)
    requires !(c == ' ' && s != "" && s[0] == ' ')
    ensures Spaced([c] + s)
  {
    var t := [c] + s;
    assert forall i :: 0 < i < |t| ==> t[i] == s[i - 1];
  }

  lemma {:induction false} EdgesInk(s: string)
    ensures Ink(Edges(s)) == Ink(s)
    decreases |s|
  {
    if s != "" {
      var k := Edge(s);
      EdgesInk(s[k..]);
      InkConcat([if k > 1 then '\n' else s[0]], Edges(s[k..]));
      InkConcat(s[..k], s[k..]);
      assert s == s[..k] + s[k..];
      SmallInk(s[..k]);
      SmallInk(['\n']);
      if k == 1 { assert s[..1] == [s[0]]; }
    }
  }

  /** White space has no ink. */
  lemma {:induction false} SmallInk(s: string)
    requires |s| <= 3
    ensures (forall i :: 0 <= i < |s| ==> IsSpace(s[i])) ==> Ink(s) == ""
    decreases |s|
  {
    if s != "" && forall i :: 0 <= i < |s| ==> IsSpace(s[i]) { SmallInk(s[1..]); }
  }

  lemma SpacedTail(s: string, k: nat)
    requires Spaced(s) && k <= |s|
    ensures Spaced(s[k..])
  {
    assert forall i :: 0 <= i < |s[k..]| ==> s[k..][i] == s[k + i];
  }

  lemma {:induction false} EdgesClean(s: string)
    requires Spaced(s)
    ensures EdgeFree(Edges(s))
    ensures s == "" <==> Edges(s) == ""
    ensures s != "" ==> (Edges(s)[0] == s[0] || (s[0] == ' ' && Edges(s)[0] == '\n'))
    decreases |s|
  {
    if s != "" {
      var k := Edge(s);
      SpacedTail(s, k);
      EdgesClean(s[k..]);
      var c := if k > 1 then '\n' else s[0];
      var rest := Edges(s[k..]);
      assert Edges(s) == [c] + rest;
      if rest != "" {
        assert s[k..][0] == s[k];
        assert !(c == ' ' && rest[0] == ' ') && !(c == ' ' && rest[0] == '\n') && !(c == '\n' && rest[0] == ' ');
      }
      EdgeFreeCons(c, rest);
    }
  }

  lemma EdgeFreeCons(c: char, rest: string)
    requires EdgeFree(rest) && Plain(c)
    requires rest != "" ==>
      !(c == ' ' && rest[0] == ' ') && !(c == ' ' && rest[0] == '\n') && !(c == '\n' && rest[0] == ' ')
    ensures EdgeFree([c] + rest)
  {
    var r := [c] + rest;
    forall i, j | 0 <= i && j == i + 1 && j < |r|
      ensures !(r[i] == ' ' && r[j] == ' ') && !(r[i] == ' ' && r[j] == '\n') && !(r[i] == '\n' && r[j] == ' ')
    {
      if i > 0 { assert r[i] == rest[i - 1] && r[j] == rest[j - 1]; }
    }
  }

  lemma {:induction false} LinesClean(s: string)
    requires EdgeFree(s)
    ensures Tidy(Lines(s)) && Ink(Lines(s)) == Ink(s)
    ensures s != "" ==> Lines(s) != "" && Lines(s)[0] == s[0]
  {
    if s != "" {
      LinesClean(s[1..]);
      if !(s[0] == '\n' && |s| > 1 && s[1] == '\n') {
        InkConcat([s[0]], Lines(s[1..]));
        var r := Lines(s);
        assert r == [s[0]] + Lines(s[1..]);
        forall i, j | 0 <= i && j == i + 1 && j < |r| ensures Apart(r[i], r[j]) {
          if i > 0 { assert r[i] == Lines(s[1..])[i - 1] && r[j] == Lines(s[1..])[j - 1]; }
        }
      }
    }
  }

  lemma CutsStayTidy(part: string, s: string)
    requires Tidy(s) && Within(part, s)
    ensures Tidy(part)
  {
    var k :| At(part, s, k);
    assert forall i :: 0 <= i < |part| ==> part[i] == s[k + i];
  }

  lemma SqueezedIsTidy(text: string)
    ensures Tidy(Squeezed(text)) && Trimmed(Squeezed(text)) && Ink(Squeezed(text)) == Ink(text)
  {
    LineFeedsClean(text);
    SpacesClean(LineFeeds(text));
    SpacesInk(LineFeeds(text));
    EdgesClean(Spaces(LineFeeds(text)));
    EdgesInk(Spaces(LineFeeds(text)));
    var lines := Lines(Edges(Spaces(LineFeeds(text))));
    LinesClean(Edges(Spaces(LineFeeds(text))));
    TrimTrims(lines);
    TrimInk(lines);
    CutsStayTidy(Trim(lines), lines);
  }

  /* ---- a tidy text is left alone ---- */

  lemma {:induction false} TidyTail(s: string)
    requires Tidy(s) && s != ""
    ensures Tidy(s[1..])
  {
    assert At(s[1..], s, 1);
    CutsStayTidy(s[1..], s);
  }

  lemma {:induction false} TidyStays(s: string)
    requires Tidy(s)
    ensures LineFeeds(s) == s && Spaces(s) == s && Edges(s) == s && Lines(s) == s
  {
    if s != "" {
      TidyTail(s);
      TidyStays(s[1..]);
      assert s == [s[0]] + s[1..];
      if |s| > 1 { assert Apart(s[0], s[1]); }
    }
  }

  /**
   * Main result. Whatever the seller typed, its normal form is tidy, at most 2000 characters, and the
   * seller's own characters in their order: all of them when it fits, the first of them otherwise.
   */
  lemma NormalFormIsTheSellersText(text: string)
    ensures var n := NormalizeContent(text);
      && Tidy(n) && |n| == (if |Squeezed(text)| < 2000 then |Squeezed(text)| else 2000)
      && IsPrefix(Ink(n), Ink(text))
      && (|Squeezed(text)| <= 2000 ==> Ink(n) == Ink(text) && Trimmed(n))
  {
    SqueezedIsTidy(text);
    var s := Squeezed(text);
    var n := NormalizeContent(text);
    assert n == s[..|n|];
    assert At(n, s, 0);
    CutsStayTidy(n, s);
    InkConcat(n, s[|n|..]);
    assert s == n + s[|n|..];
  }

  /** Normalizing a normal form only trims it. */
  lemma TwiceIsTrimmed(text: string)
    ensures NormalizeContent(NormalizeContent(text)) == Trim(NormalizeContent(text))
  {
    NormalFormIsTheSellersText(text);
    var n := NormalizeContent(text);
    TidyStays(n);
    TrimTrims(n);
    assert Squeezed(n) == Trim(n);
  }

  /**
   * Main result. Idempotent exactly when the cut did not end in white space, in particular whenever the
   * text fits; otherwise a second application is a proper prefix that no third one changes.
   */
  lemma NormalizingTwice(text: string)
    ensures var n := NormalizeContent(text);
      var again := NormalizeContent(n);
      && (again == n <==> n == "" || !IsSpace(n[|n| - 1]))
      && (|Squeezed(text)| <= CANDIDATE_MAX_CHARS ==> again == n)
      && IsPrefix(again, n)
      && NormalizeContent(again) == again
  {
    var n := NormalizeContent(text);
    TwiceIsTrimmed(text);
    TwiceIsTrimmed(n);
    NormalFormIsTheSellersText(text);
    SqueezedIsTidy(text);
    TrimTrims(n);
    TrimTrims(Trim(n));
    StartsInked(text);
    TrimEndCuts(n);
    if n != "" { assert TrimStart(n) == n; }
  }

  lemma StartsInked(text: string)
    ensures NormalizeContent(text) == "" || !IsSpace(NormalizeContent(text)[0])
  {
    SqueezedIsTidy(text);
  }

  /* ---- the same in one pass: which spacings share a normal form ---- */

  predicate Gap(c: char) { Blank(c) || c == '\n' || c == '\r' }

  predicate AllGap(s: string) { forall i :: 0 <= i < |s| ==> Gap(s[i]) }

  function GapEnd(s: string): (n: nat)
    ensures n <= |s| && AllGap(s[..n]) && (n == |s| || !Gap(s[n]))
  {
    if s == "" || !Gap(s[0]) then 0
    else
      assert s[..1 + GapEnd(s[1..])] == [s[0]] + s[1..][..GapEnd(s[1..])];
      1 + GapEnd(s[1..])
  }

  predicate HasBreak(g: string) { '\n' in g || '\r' in g }

  /** What a gap becomes: a line feed when it breaks the line, one space otherwise. */
  function GapForm(g: string): string {
    if g == "" then "" else if HasBreak(g) then "\n" else " "
  }

  /** The text with every gap between its words in its form. */
  function Respaced(s: string): string
    decreases |s|
  {
    if s == "" then ""
    else
      var n := GapEnd(s);
      if n > 0 then GapForm(s[..n]) + Respaced(s[n..]) else [s[0]] + Respaced(s[1..])
  }

  function Passes(s: string): string { Lines(Edges(Spaces(LineFeeds(s)))) }

  predicate StartsInk(s: string) { s == "" || !Gap(s[0]) }

  predicate EndsInk(s: string) { s == "" || !Gap(s[|s| - 1]) }

  lemma {:induction false} LineFeedsKeep(s: string)
    ensures (LineFeeds(s) == "" <==> s == "") && ('\n' in LineFeeds(s) <==> HasBreak(s))
    ensures AllGap(s) ==> AllGap(LineFeeds(s))
    ensures s != "" && !Gap(s[0]) ==> LineFeeds(s)[0] == s[0]
    decreases |s|
  {
    if s != "" {
      var k := if s[0] == '\r' && |s| > 1 && s[1] == '\n' then 2 else 1;
      assert s == s[..k] + s[k..] && AllGap(s) ==> AllGap(s[k..]);
      LineFeedsKeep(s[k..]);
    }
  }

  lemma {:induction false} SpacesKeep(s: string)
    ensures (Spaces(s) == "" <==> s == "") && ('\n' in Spaces(s) <==> '\n' in s)
    ensures AllGap(s) ==> AllGap(Spaces(s))
    ensures s != "" && !Gap(s[0]) ==> Spaces(s)[0] == s[0]
  {
    if s != "" {
      assert s == [s[0]] + s[1..] && AllGap(s) ==> AllGap(s[1..]);
      SpacesKeep(s[1..]);
    }
  }

  lemma {:induction false} EdgesKeep(s: string)
    ensures (Edges(s) == "" <==> s == "") && ('\n' in Edges(s) <==> '\n' in s)
    ensures AllGap(s) ==> AllGap(Edges(s))
    ensures s != "" && !Gap(s[0]) ==> Edges(s)[0] == s[0]
    decreases |s|
  {
    if s != "" {
      var k := Edge(s);
      assert s == s[..k] + s[k..] && AllGap(s) ==> AllGap(s[k..]);
      EdgesKeep(s[k..]);
      BreakTaken(s);
    }
  }

  /** An edge takes more than one character exactly around a line feed. */
  lemma BreakTaken(s: string)
    requires s != ""
    ensures '\n' in s[..Edge(s)] <==> Edge(s) > 1 || s[0] == '\n'
  {
    var k := Edge(s);
    if k > 1 { assert s[..k][0] == s[0] && s[..k][1] == s[1]; } else { assert s[..1] == [s[0]]; }
  }

  lemma {:induction false} LinesKeep(s: string)
    ensures (Lines(s) == "" <==> s == "") && ('\n' in Lines(s) <==> '\n' in s)
    ensures AllGap(s) ==> AllGap(Lines(s))
    ensures s != "" && !Gap(s[0]) ==> Lines(s)[0] == s[0]
  {
    if s != "" {
      assert s == [s[0]] + s[1..] && AllGap(s) ==> AllGap(s[1..]);
      LinesKeep(s[1..]);
    }
  }

  /** No pass looks across the end of a gap. */
  lemma {:induction false} LineFeedsSplit(g: string, b: string)
    requires AllGap(g) && StartsInk(b)
    ensures LineFeeds(g + b) == LineFeeds(g) + LineFeeds(b)
    decreases |g|
  {
    if g == "" {
      assert g + b == b;
    } else {
      var k := FeedWithin(g, b);
      hide Gap, StartsInk, LineFeeds;
      LineFeedsSplit(g[k..], b);
    }
  }

  lemma FeedWithin(g: string, b: string) returns (k: nat)
    requires g != "" && AllGap(g) && StartsInk(b)
    ensures 1 <= k <= |g| && AllGap(g[k..])
    ensures LineFeeds(g) == [if g[0] == '\r' then '\n' else g[0]] + LineFeeds(g[k..])
    ensures LineFeeds(g + b) == [if g[0] == '\r' then '\n' else g[0]] + LineFeeds(g[k..] + b)
  {
    k := if g[0] == '\r' && |g| > 1 && g[1] == '\n' then 2 else 1;
    assert g == g[..k] + g[k..];
    assert (g + b)[0] == g[0] && (g + b)[k..] == g[k..] + b;
  }

  lemma {:induction false} SpacesSplit(g: string, b: string)
    requires AllGap(g) && StartsInk(b)
    ensures Spaces(g + b) == Spaces(g) + Spaces(b)
  {
    if g == "" {
      assert g + b == b;
    } else {
      assert (g + b)[1..] == g[1..] + b;
      SpacesSplit(g[1..], b);
    }
  }

  lemma EdgeWithin(g: string, b: string)
    requires g != "" && AllGap(g) && StartsInk(b)
    ensures Edge(g + b) == Edge(g) && (g + b)[Edge(g)..] == g[Edge(g)..] + b && (g + b)[0] == g[0]
    ensures AllGap(g[Edge(g)..])
  {
    assert g == g[..Edge(g)] + g[Edge(g)..];
  }

  lemma {:induction false} EdgesSplit(g: string, b: string)
    requires AllGap(g) && StartsInk(b)
    ensures Edges(g + b) == Edges(g) + Edges(b)
    decreases |g|
  {
    if g == "" {
      assert g + b == b;
    } else {
      EdgeWithin(g, b);
      hide Edge, Gap, StartsInk;
      EdgesSplit(g[Edge(g)..], b);
    }
  }

  lemma {:induction false} LinesSplit(g: string, b: string)
    requires AllGap(g) && StartsInk(b)
    ensures Lines(g + b) == Lines(g) + Lines(b)
  {
    if g == "" {
      assert g + b == b;
    } else {
      assert (g + b)[1..] == g[1..] + b;
      LinesSplit(g[1..], b);
    }
  }

  lemma PassesSplit(g: string, b: string)
    requires AllGap(g) && StartsInk(b)
    ensures Passes(g + b) == Passes(g) + Passes(b)
  {
    LineFeedsSplit(g, b);
    LineFeedsKeep(g);
    LineFeedsKeep(b);
    var g1, b1 := LineFeeds(g), LineFeeds(b);
    SpacesSplit(g1, b1);
    SpacesKeep(g1);
    SpacesKeep(b1);
    var g2, b2 := Spaces(g1), Spaces(b1);
    EdgesSplit(g2, b2);
    EdgesKeep(g2);
    EdgesKeep(b2);
    LinesSplit(Edges(g2), Edges(b2));
  }

  /** The passes turn a gap into its form. */
  lemma GapPasses(g: string)
    requires AllGap(g)
    ensures Passes(g) == GapForm(g)
  {
    LineFeedsClean(g);
    LineFeedsKeep(g);
    SpacesClean(LineFeeds(g));
    SpacesKeep(LineFeeds(g));
    EdgesClean(Spaces(LineFeeds(g)));
    EdgesKeep(Spaces(LineFeeds(g)));
    LinesClean(Edges(Spaces(LineFeeds(g))));
    LinesKeep(Edges(Spaces(LineFeeds(g))));
    ShortGap(Passes(g));
  }

  lemma TwoGaps(a: char, b: char)
    requires Gap(a) && Gap(b) && Plain(a) && Plain(b)
    ensures !Apart(a, b)
  {
  }

  lemma ShortGap(s: string)
    requires Tidy(s) && AllGap(s)
    ensures s == "" || s == "\n" || s == " "
  {
    if |s| > 1 { TwoGaps(s[0], s[1]); }
    if |s| == 1 { assert Gap(s[0]) && Plain(s[0]); }
  }

  /** A character of ink stays and is not looked across. */
  lemma InkPasses(c: char, b: string)
    requires !Gap(c)
    ensures Passes([c] + b) == [c] + Passes(b)
  {
    assert ([c] + b)[1..] == b;
    assert LineFeeds([c] + b) == [c] + LineFeeds(b);
    var b1 := LineFeeds(b);
    assert ([c] + b1)[1..] == b1;
    assert Spaces([c] + b1) == [c] + Spaces(b1);
    var b2 := Spaces(b1);
    assert ([c] + b2)[1..] == b2 && Edge([c] + b2) == 1;
    assert Edges([c] + b2) == [c] + Edges(b2);
    var b3 := Edges(b2);
    assert ([c] + b3)[1..] == b3;
    assert Lines([c] + b3) == [c] + Lines(b3);
  }

  /**
   * Main result. The four passes are one: every gap of blanks and line ends becomes its form, and nothing else
   * changes.
   */
  lemma {:induction false} OnePass(s: string)
    ensures Passes(s) == Respaced(s)
    ensures NormalizeContent(s) == First(Trim(Respaced(s)), CANDIDATE_MAX_CHARS)
    decreases |s|
  {
    if s != "" {
      var n := GapEnd(s);
      if n > 0 {
        assert s == s[..n] + s[n..];
        OnePass(s[n..]);
        PassesSplit(s[..n], s[n..]);
        GapPasses(s[..n]);
      } else {
        assert s == [s[0]] + s[1..];
        OnePass(s[1..]);
        InkPasses(s[0], s[1..]);
      }
    }
  }

  lemma {:induction false} GapEndOf(g: string, b: string)
    requires AllGap(g) && StartsInk(b)
    ensures GapEnd(g + b) == |g|
  {
    if g == "" {
      assert g + b == b;
    } else {
      assert (g + b)[0] == g[0] && (g + b)[1..] == g[1..] + b;
      GapEndOf(g[1..], b);
    }
  }

  lemma {:induction false} GapEndsBeforeInk(a: string)
    requires a != "" && !Gap(a[|a| - 1])
    ensures GapEnd(a) < |a|
  {
    if Gap(a[0]) { GapEndsBeforeInk(a[1..]); }
  }

  /** What respacing takes first: a whole gap, or one character of ink. */
  function Taken(s: string): nat
    requires s != ""
    ensures 1 <= Taken(s) <= |s|
  {
    if GapEnd(s) > 0 then GapEnd(s) else 1
  }

  function TakenForm(s: string): string
    requires s != ""
  {
    if GapEnd(s) > 0 then GapForm(s[..GapEnd(s)]) else [s[0]]
  }

  lemma RespacedStep(s: string)
    requires s != ""
    ensures Respaced(s) == TakenForm(s) + Respaced(s[Taken(s)..])
  {
    hide GapForm, GapEnd;
  }

  lemma TakenWithin(a: string, rest: string)
    requires a != "" && EndsInk(a)
    ensures EndsInk(a[Taken(a)..])
    ensures Taken(a + rest) == Taken(a) && TakenForm(a + rest) == TakenForm(a)
    ensures (a + rest)[Taken(a)..] == a[Taken(a)..] + rest
  {
    hide GapForm, GapEnd;
    GapEndsBeforeInk(a);
    var n := GapEnd(a);
    assert a[..n] + (a[n..] + rest) == a + rest;
    GapEndOf(a[..n], a[n..] + rest);
    assert (a + rest)[..n] == a[..n];
  }

  lemma RespacedTaken(a: string, rest: string)
    requires a != "" && EndsInk(a)
    ensures var tail := a[Taken(a)..];
      && EndsInk(tail)
      && Respaced(a) == TakenForm(a) + Respaced(tail)
      && Respaced(a + rest) == TakenForm(a) + Respaced(tail + rest)
  {
    hide Respaced, Taken, TakenForm, EndsInk, GapEnd, GapForm;
    TakenWithin(a, rest);
    RespacedStep(a);
    RespacedStep(a + rest);
  }

  /** A text can be respaced in parts, cut behind ink. */
  lemma {:induction false} RespacedSplit(a: string, rest: string)
    requires EndsInk(a)
    ensures Respaced(a + rest) == Respaced(a) + Respaced(rest)
    decreases |a|
  {
    if a == "" {
      assert a + rest == rest;
    } else {
      RespacedTaken(a, rest);
      hide *;
      var tail := a[Taken(a)..];
      RespacedSplit(tail, rest);
      Regroup(TakenForm(a), Respaced(tail), Respaced(rest));
    }
  }

  lemma Regroup(a: string, b: string, c: string)
    ensures a + (b + c) == (a + b) + c
  {
  }

  /** Main result. Writing one gap for another of the same form, line break or none, leaves the normal form as it is. */
  lemma GapsAreInterchangeable(a: string, g: string, h: string, b: string)
    requires EndsInk(a) && StartsInk(b)
    requires g != "" && h != "" && AllGap(g) && AllGap(h) && (HasBreak(g) <==> HasBreak(h))
    ensures NormalizeContent(a + g + b) == NormalizeContent(a + h + b)
  {
    OneGap(a, g, b);
    OneGap(a, h, b);
    OnePass(a + g + b);
    OnePass(a + h + b);
  }

  lemma OneGap(a: string, g: string, b: string)
    requires EndsInk(a) && StartsInk(b) && g != "" && AllGap(g)
    ensures Respaced(a + g + b) == Respaced(a) + (GapForm(g) + Respaced(b))
  {
    GapTaken(g, b);
    hide *;
    assert a + g + b == a + (g + b);
    RespacedSplit(a, g + b);
  }

  lemma GapTaken(g: string, b: string)
    requires StartsInk(b) && g != "" && AllGap(g)
    ensures Respaced(g + b) == GapForm(g) + Respaced(b)
  {
    GapEndOf(g, b);
    hide GapForm, GapEnd, Gap, StartsInk;
    assert (g + b)[..|g|] == g && (g + b)[|g|..] == b;
  }

  /* ---- which texts share a normal form ---- */

  /** The same text but for its gaps, each of which breaks the line in both or in neither. */
  predicate SameButGaps(a: string, b: string)
    decreases |a|
  {
    if a == "" || b == "" then a == b
    else
      var m, n := GapEnd(a), GapEnd(b);
      if m > 0 && n > 0 then (HasBreak(a[..m]) <==> HasBreak(b[..n])) && SameButGaps(a[m..], b[n..])
      else m == 0 && n == 0 && a[0] == b[0] && SameButGaps(a[1..], b[1..])
  }

  lemma SameFirst(a: string, b: string)
    requires a != "" && b != ""
    ensures |TakenForm(a)| == 1 && |TakenForm(b)| == 1
    ensures SameButGaps(a, b) <==> TakenForm(a) == TakenForm(b) && SameButGaps(a[Taken(a)..], b[Taken(b)..])
  {
    assert GapEnd(a) == 0 ==> !Gap(a[0]);
    assert GapEnd(b) == 0 ==> !Gap(b[0]);
  }

  lemma {:induction false} SameSpacing(a: string, b: string)
    ensures Respaced(a) == Respaced(b) <==> SameButGaps(a, b)
    decreases |a|
  {
    if a != "" { RespacedStep(a); }
    if b != "" { RespacedStep(b); }
    if a != "" && b != "" {
      SameFirst(a, b);
      SameSpacing(a[Taken(a)..], b[Taken(b)..]);
      hide Respaced, TakenForm, Taken, SameButGaps;
      HeadAndTail(TakenForm(a), Respaced(a[Taken(a)..]), TakenForm(b), Respaced(b[Taken(b)..]));
    }
  }

  lemma HeadAndTail(a: string, x: string, b: string, y: string)
    requires |a| == 1 && |b| == 1
    ensures a + x == b + y <==> a == b && x == y
  {
    assert (a + x)[..1] == a && (b + y)[..1] == b && (a + x)[1..] == x && (b + y)[1..] == y;
  }

  predicate AllSpace(s: string) { forall i :: 0 <= i < |s| ==> IsSpace(s[i]) }

  lemma TakenIsSpace(s: string)
    requires s != ""
    ensures |TakenForm(s)| == 1
    ensures if GapEnd(s) > 0 then AllSpace(s[..GapEnd(s)]) && IsSpace(TakenForm(s)[0]) else TakenForm(s)[0] == s[0]
  {
    assert forall c :: Gap(c) ==> IsSpace(c);
  }

  lemma {:induction false} TrimStartSkips(g: string, b: string)
    requires AllSpace(g)
    ensures TrimStart(g + b) == TrimStart(b)
  {
    if g == "" {
      assert g + b == b;
    } else {
      assert (g + b)[0] == g[0] && (g + b)[1..] == g[1..] + b;
      TrimStartSkips(g[1..], b);
    }
  }

  lemma {:induction false} TrimEndSkips(a: string, g: string)
    requires AllSpace(g)
    ensures TrimEnd(a + g) == TrimEnd(a)
  {
    if g == "" {
      assert a + g == a;
    } else {
      var n := |g| - 1;
      assert (a + g)[|a + g| - 1] == g[n] && (a + g)[..|a + g| - 1] == a + g[..n];
      TrimEndSkips(a, g[..n]);
    }
  }

  /** Respacing and trimming the front commute. */
  lemma {:induction false} RespacedTrimStart(s: string)
    ensures TrimStart(Respaced(s)) == Respaced(TrimStart(s))
    decreases |s|
  {
    if s != "" {
      RespacedStep(s);
      TakenIsSpace(s);
      var rest := s[Taken(s)..];
      hide Respaced, TakenForm;
      if IsSpace(s[0]) {
        assert AllSpace(s[..Taken(s)]) && AllSpace(TakenForm(s));
        hide IsSpace;
        RespacedTrimStart(rest);
        TrimStartSkips(TakenForm(s), Respaced(rest));
        TrimStartSkips(s[..Taken(s)], rest);
        assert s == s[..Taken(s)] + rest;
      } else {
        assert GapEnd(s) == 0;
      }
    }
  }

  lemma {:induction false} RespacedSpace(s: string)
    requires AllSpace(s)
    ensures AllSpace(Respaced(s))
    decreases |s|
  {
    if s != "" {
      RespacedStep(s);
      TakenIsSpace(s);
      hide Respaced, TakenForm, IsSpace;
      assert s[0] in s && forall i :: 0 <= i < |s[Taken(s)..]| ==> s[Taken(s)..][i] == s[Taken(s) + i];
      RespacedSpace(s[Taken(s)..]);
    }
  }

  /** A last character of ink stays last. */
  lemma {:induction false} RespacedLast(a: string)
    requires a != "" && EndsInk(a)
    ensures Respaced(a) != "" && Respaced(a)[|Respaced(a)| - 1] == a[|a| - 1]
    decreases |a|
  {
    RespacedStep(a);
    GapEndsBeforeInk(a);
    TakenIsSpace(a);
    hide Respaced, TakenForm;
    if Taken(a) < |a| { RespacedLast(a[Taken(a)..]); }
  }

  lemma RespacedTrimEnd(s: string)
    ensures TrimEnd(Respaced(s)) == Respaced(TrimEnd(s))
  {
    TrimEndCuts(s);
    var core := TrimEnd(s);
    var rest := s[|core|..];
    assert s == core + rest;
    RestIsSpace(s);
    assert EndsInk(core);
    RespacedSplit(core, rest);
    RespacedSpace(rest);
    TrimEndSkips(Respaced(core), Respaced(rest));
    if core != "" { RespacedLast(core); }
  }

  lemma {:induction false} RestIsSpace(s: string)
    ensures |TrimEnd(s)| <= |s| && AllSpace(s[|TrimEnd(s)|..])
  {
    if s != "" && IsSpace(s[|s| - 1]) {
      var n, k := |s| - 1, |TrimEnd(s[..|s| - 1])|;
      RestIsSpace(s[..n]);
      hide IsSpace;
      assert s[k..] == s[..n][k..] + [s[n]];
    }
  }

  lemma RespacedTrim(s: string)
    ensures Trim(Respaced(s)) == Respaced(Trim(s))
  {
    RespacedTrimStart(s);
    RespacedTrimEnd(TrimStart(s));
  }

  /**
   * Main result. Texts that are the same but for their gaps and for white space around them share a normal
   * form, and texts that fit share one only then.
   */
  lemma SharedNormalForm(a: string, b: string)
    ensures SameButGaps(Trim(a), Trim(b)) ==> NormalizeContent(a) == NormalizeContent(b)
    ensures |Squeezed(a)| <= CANDIDATE_MAX_CHARS && |Squeezed(b)| <= CANDIDATE_MAX_CHARS ==>
      (NormalizeContent(a) == NormalizeContent(b) <==> SameButGaps(Trim(a), Trim(b)))
    ensures NormalizeContent(a) == NormalizeContent(b) <==>
      First(Trim(Respaced(a)), CANDIDATE_MAX_CHARS) == First(Trim(Respaced(b)), CANDIDATE_MAX_CHARS)
  {
    OnePass(a);
    OnePass(b);
    RespacedTrim(a);
    RespacedTrim(b);
    SameSpacing(Trim(a), Trim(b));
    hide Trim, Respaced, SameButGaps, LineFeeds, Spaces, Edges, Lines;
  }
}
