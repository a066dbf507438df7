/**
 * Saying each sentence once: entries are split into sentences, and a sentence already said, in the same or
 * a near form, is dropped.
 */
module SentenceDedupe {
  import opened Base
  import opened Text

  predicate Ends(c: char) { c == '.' || c == '!' || c == '?' }

  /** White space right behind the end of a sentence. */
  predicate BreaksAt(s: string, i: nat)
    requires i < |s|
  {
    i > 0 && Ends(s[i - 1]) && IsSpace(s[i])
  }

  /** Splits where white space follows a full stop, an exclamation or a question mark; that space is dropped. */
  function SplitFrom(s: string, start: nat, i: nat): seq<string>
    requires start <= i <= |s|
    decreases |s| - i
  {
    if i == |s| then [s[start..]]
    else if BreaksAt(s, i) then
      [s[start..i]] + SplitFrom(s, SpaceEnd(s, i + 1), SpaceEnd(s, i + 1))
    else SplitFrom(s, start, i + 1)
  }

  /** The sentences of one entry, trimmed, the empty ones dropped. */
  function Sentences(entry: string): seq<string> { Cleaned(SplitFrom(entry, 0, 0)) }

  function Cleaned(parts: seq<string>): seq<string> {
    if parts == [] then []
    else (if Trim(parts[0]) == "" then [] else [Trim(parts[0])]) + Cleaned(parts[1..])
  }

  function Join(parts: seq<string>): string {
    if parts == [] then "" else if |parts| == 1 then parts[0] else parts[0] + " " + Join(parts[1..])
  }

  /** The near-duplicate family of a sentence: the first pattern that matches, if any. */
  type FamilyOf = string -> Option<nat>

  /* ---- the specification: one pass over all sentences ---- */

  datatype Said = Said(sentences: set<string>, families: set<nat>)

  predicate Repeats(said: Said, one: string, family: FamilyOf) {
    one in said.sentences || (family(one).Some? && family(one).value in said.families)
  }

  function Say(said: Said, one: string, family: FamilyOf): Said {
    Said(said.sentences + {one}, said.families + if family(one).Some? then {family(one).value} else {})
  }

  function Kept(said: Said, sentences: seq<string>, family: FamilyOf): seq<string>
    decreases |sentences|
  {
    if sentences == [] then []
    else if Repeats(said, sentences[0], family) then Kept(said, sentences[1..], family)
    else [sentences[0]] + Kept(Say(said, sentences[0], family), sentences[1..], family)
  }

  function Heard(said: Said, one: string, family: FamilyOf): Said {
    if Repeats(said, one, family) then said else Say(said, one, family)
  }

  function SaidAfter(said: Said, sentences: seq<string>, family: FamilyOf): Said
    decreases |sentences|
  {
    if sentences == [] then said else SaidAfter(Heard(said, sentences[0], family), sentences[1..], family)
  }

  function Entry(kept: seq<string>): seq<string> { if kept == [] then [] else [Join(kept)] }

  function Deduped(said: Said, entries: seq<string>, family: FamilyOf): seq<string>
    decreases |entries|
  {
    if entries == [] then []
    else
      var sentences := Sentences(entries[0]);
      Entry(Kept(said, sentences, family)) + Deduped(SaidAfter(said, sentences, family), entries[1..], family)
  }

  const NOTHING := Said({}, {})

  function DedupeSpec(entries: seq<string>, family: FamilyOf): seq<string> { Deduped(NOTHING, entries, family) }

  /* ---- the loops ---- */

  method DedupeNear(entries: seq<string>, family: FamilyOf) returns (out: seq<string>)
    ensures out == DedupeSpec(entries, family)
  {
    hide Deduped, Sentences, SaidAfter, Kept, Join;
    out := [];
    var said := NOTHING;
    assert entries[0..] == entries;
    for e := 0 to |entries|
      invariant out + Deduped(said, entries[e..], family) == DedupeSpec(entries, family)
    {
      var kept, after := KeepNew(said, Sentences(entries[e]), family);
      NextEntry(said, entries, e, family);
      Regroup(out, Entry(kept), Deduped(after, entries[e + 1..], family));
      said := after;
      if |kept| > 0 { out := out + [Join(kept)]; }
    }
    NoEntry(said, entries, family);
    assert out + [] == out;
  }

  lemma NextEntry(said: Said, entries: seq<string>, e: nat, family: FamilyOf)
    requires e < |entries|
    ensures var xs := Sentences(entries[e]);
      Deduped(said, entries[e..], family)
      == Entry(Kept(said, xs, family)) + Deduped(SaidAfter(said, xs, family), entries[e + 1..], family)
  {
    assert entries[e..][0] == entries[e] && entries[e..][1..] == entries[e + 1..];
  }

  lemma NoEntry(said: Said, entries: seq<string>, family: FamilyOf)
    ensures Deduped(said, entries[|entries|..], family) == []
  {
  }

  lemma Regroup(a: seq<string>, b: seq<string>, c: seq<string>)
    ensures a + (b + c) == (a + b) + c
    ensures b == [] ==> a + (b + c) == a + c
  {
  }

  method KeepNew(said: Said, sentences: seq<string>, family: FamilyOf) returns (kept: seq<string>, after: Said)
    ensures kept == Kept(said, sentences, family) && after == SaidAfter(said, sentences, family)
  {
    hide Kept, SaidAfter;
    var seen, seenKey := said.sentences, said.families;
    kept := [];
    assert sentences[0..] == sentences;
    for k := 0 to |sentences|
      invariant kept + Kept(Said(seen, seenKey), sentences[k..], family) == Kept(said, sentences, family)
      invariant SaidAfter(Said(seen, seenKey), sentences[k..], family) == SaidAfter(said, sentences, family)
    {
      var one := sentences[k];
      NextSentence(Said(seen, seenKey), sentences, k, family);
      var key := family(one);
      ghost var before := Said(seen, seenKey);
      if one !in seen && (key.None? || key.value !in seenKey) {
        if key.Some? { seenKey := seenKey + {key.value}; }
        seen := seen + {one};
        kept := kept + [one];
        assert Said(seen, seenKey) == Say(before, one, family);
      }
    }
    after := Said(seen, seenKey);
    NoSentence(after, sentences, family);
  }

  lemma NextSentence(said: Said, xs: seq<string>, k: nat, family: FamilyOf)
    requires k < |xs|
    ensures var rest := Kept(Heard(said, xs[k], family), xs[k + 1..], family);
      && Kept(said, xs[k..], family) == (if Repeats(said, xs[k], family) then rest else [xs[k]] + rest)
      && SaidAfter(said, xs[k..], family) == SaidAfter(Heard(said, xs[k], family), xs[k + 1..], family)
  {
    assert xs[k..][0] == xs[k] && xs[k..][1..] == xs[k + 1..];
  }

  lemma NoSentence(said: Said, xs: seq<string>, family: FamilyOf)
    ensures Kept(said, xs[|xs|..], family) == [] && SaidAfter(said, xs[|xs|..], family) == said
  {
  }

  /* ---- sentences ---- */

  ghost predicate Unbroken(s: string) { forall i :: 0 <= i < |s| ==> !BreaksAt(s, i) }

  ghost predicate Sentence(x: string) { x != "" && Trimmed(x) && Unbroken(x) }

  predicate Closed(x: string) { x != "" && Ends(x[|x| - 1]) }

  ghost predicate Proper(xs: seq<string>) {
    && (forall i :: 0 <= i < |xs| ==> Sentence(xs[i]))
    && (forall i :: 0 <= i < |xs| - 1 ==> Closed(xs[i]))
  }

  ghost predicate ProperParts(parts: seq<string>) {
    && parts != []
    && (forall i :: 0 <= i < |parts| ==> Unbroken(parts[i]))
    && (forall i :: 0 <= i < |parts| - 1 ==> Closed(parts[i]))
  }

  lemma {:induction false} SpaceEndStops(s: string, i: nat)
    requires i <= |s|
    ensures SpaceEnd(s, i) == |s| || !IsSpace(s[SpaceEnd(s, i)])
    decreases |s| - i
  {
    if i < |s| && IsSpace(s[i]) { SpaceEndStops(s, i + 1); }
  }

  lemma {:induction false} PartsAreProper(s: string, start: nat, i: nat)
    requires start <= i <= |s|
    requires forall j :: start <= j < i ==> !BreaksAt(s, j)
    requires start == 0 || start == |s| || !IsSpace(s[start])
    ensures ProperParts(SplitFrom(s, start, i))
    decreases |s| - i
  {
    if i == |s| {
      PieceUnbroken(s, start, i);
      assert s[start..i] == s[start..];
    } else if BreaksAt(s, i) {
      var next := SpaceEnd(s, i + 1);
      SpaceEndStops(s, i + 1);
      PartsAreProper(s, next, next);
      PieceUnbroken(s, start, i);
      var rest := SplitFrom(s, next, next);
      assert s[start..i][|s[start..i]| - 1] == s[i - 1];
      var parts := [s[start..i]] + rest;
      forall k | 0 <= k < |parts| ensures Unbroken(parts[k]) { if k > 0 { assert parts[k] == rest[k - 1]; } }
      forall k | 0 <= k < |parts| - 1 ensures Closed(parts[k]) { if k > 0 { assert parts[k] == rest[k - 1]; } }
    } else {
      PartsAreProper(s, start, i + 1);
    }
  }

  lemma PieceUnbroken(s: string, start: nat, end: nat)
    requires start <= end <= |s| && forall j :: start <= j < end ==> !BreaksAt(s, j)
    ensures Unbroken(s[start..end])
  {
    var x := s[start..end];
    forall i | 0 <= i < |x| ensures !BreaksAt(x, i) {
      assert !BreaksAt(s, start + i);
      if i > 0 { assert x[i - 1] == s[start + i - 1] && x[i] == s[start + i]; }
    }
  }

  lemma TrimKeeps(x: string)
    requires Unbroken(x)
    ensures Unbroken(Trim(x))
    ensures Closed(x) ==> Closed(Trim(x))
  {
    TrimTrims(x);
    TrimStartCuts(x);
    TrimEndCuts(TrimStart(x));
    var k :| At(Trim(x), x, k);
    forall i | 0 <= i < |Trim(x)| ensures !BreaksAt(Trim(x), i) {
      assert !BreaksAt(x, k + i);
      if i > 0 { assert Trim(x)[i - 1] == x[k + i - 1] && Trim(x)[i] == x[k + i]; }
    }
    if Closed(x) { ClosedStays(x); }
  }

  lemma {:induction false} ClosedStays(x: string)
    requires Closed(x)
    ensures Closed(TrimStart(x)) && Closed(Trim(x))
  {
    if IsSpace(x[0]) {
      assert |x| > 1;
      ClosedStays(x[1..]);
    }
  }

  lemma {:induction false} CleanedAreProper(parts: seq<string>)
    requires ProperParts(parts)
    ensures Proper(Cleaned(parts))
  {
    TrimKeeps(parts[0]);
    TrimTrims(parts[0]);
    if |parts| > 1 {
      assert forall i :: 0 <= i < |parts[1..]| ==> parts[1..][i] == parts[i + 1];
      CleanedAreProper(parts[1..]);
      var rest := Cleaned(parts[1..]);
      var xs := Cleaned(parts);
      assert Trim(parts[0]) != "" && xs == [Trim(parts[0])] + rest;
    } else {
      assert Cleaned(parts[1..]) == [];
    }
  }

  lemma SentencesAreProper(entry: string)
    ensures Proper(Sentences(entry))
  {
    PartsAreProper(entry, 0, 0);
    CleanedAreProper(SplitFrom(entry, 0, 0));
  }

  /* ---- where an entry breaks ---- */

  /** Everything but white space that the sentences say, in order. */
  function InkOf(xs: seq<string>): string { if xs == [] then "" else Ink(xs[0]) + InkOf(xs[1..]) }

  lemma {:induction false} SpaceIsInkless(s: string, i: nat)
    requires i <= |s|
    ensures Ink(s[i..SpaceEnd(s, i)]) == ""
    decreases |s| - i
  {
    if i < |s| && IsSpace(s[i]) {
      SpaceIsInkless(s, i + 1);
      assert s[i..SpaceEnd(s, i)][1..] == s[i + 1..SpaceEnd(s, i + 1)];
    }
  }

  lemma BreakInk(s: string, start: nat, i: nat, next: nat)
    requires start <= i < next <= |s| && Ink(s[i..next]) == ""
    ensures Ink(s[start..]) == Ink(s[start..i]) + Ink(s[next..])
  {
    assert s[start..] == s[start..i] + (s[i..next] + s[next..]);
    InkConcat(s[start..i], s[i..next] + s[next..]);
    InkConcat(s[i..next], s[next..]);
  }

  lemma {:induction false} PartsInk(s: string, start: nat, i: nat)
    requires start <= i <= |s|
    ensures InkOf(SplitFrom(s, start, i)) == Ink(s[start..])
    decreases |s| - i
  {
    hide Ink, IsSpace, Ends;
    if i < |s| {
      if BreaksAt(s, i) {
        var next := SpaceEnd(s, i + 1);
        PartsInk(s, next, next);
        SpaceAfterBreak(s, i);
        BreakInk(s, start, i, next);
      } else {
        PartsInk(s, start, i + 1);
      }
    }
  }

  lemma SpaceAfterBreak(s: string, i: nat)
    requires i < |s| && BreaksAt(s, i)
    ensures Ink(s[i..SpaceEnd(s, i + 1)]) == ""
  {
    SpaceIsInkless(s, i + 1);
    assert s[i..SpaceEnd(s, i + 1)][1..] == s[i + 1..SpaceEnd(s, i + 1)];
  }

  lemma {:induction false} CleanedInk(parts: seq<string>)
    ensures InkOf(Cleaned(parts)) == InkOf(parts)
  {
    hide Ink, Trim;
    if parts != [] {
      CleanedInk(parts[1..]);
      TrimInk(parts[0]);
      BlankIsInkless(parts[0]);
      var rest := Cleaned(parts[1..]);
      if Trim(parts[0]) == "" { assert [] + rest == rest; } else { assert ([Trim(parts[0])] + rest)[1..] == rest; }
    }
  }

  /**
   * An entry breaks behind a full stop, an exclamation or a question mark that white space follows, there and
   * nowhere else; each sentence is trimmed and says something, and together they say all the entry says.
   */
  lemma WhereItBreaks(entry: string)
    ensures var xs := Sentences(entry);
      && InkOf(xs) == Ink(entry)
      && (forall k :: 0 <= k < |xs| ==> xs[k] != "" && Trim(xs[k]) == xs[k])
      && (forall k, i, j :: 0 <= k < |xs| && 0 <= i && j == i + 1 && j < |xs[k]| ==>
           !(xs[k][i] in {'.', '!', '?'} && IsSpace(xs[k][j])))
      && (forall k :: 0 <= k < |xs| - 1 ==> xs[k][|xs[k]| - 1] in {'.', '!', '?'})
  {
    SentencesAreProper(entry);
    PartsInk(entry, 0, 0);
    assert entry[0..] == entry;
    CleanedInk(SplitFrom(entry, 0, 0));
    var xs := Sentences(entry);
    hide SplitFrom, Cleaned, Sentences;
    forall k | 0 <= k < |xs| ensures xs[k] != "" && Trim(xs[k]) == xs[k] { TrimTrims(xs[k]); }
    forall k, i, j | 0 <= k < |xs| && 0 <= i && j == i + 1 && j < |xs[k]|
      ensures !(xs[k][i] in {'.', '!', '?'} && IsSpace(xs[k][j]))
    {
      assert !BreaksAt(xs[k], j);
    }
  }

  /* ---- joining and splitting again ---- */

  lemma {:induction false} SpaceEndShifts(a: string, b: string, i: nat)
    requires i <= |b|
    ensures SpaceEnd(a + b, |a| + i) == |a| + SpaceEnd(b, i)
    decreases |b| - i
  {
    if i < |b| && IsSpace(b[i]) { SpaceEndShifts(a, b, i + 1); }
  }

  /** What was read before a break does not matter behind it. */
  lemma {:induction false} SplitShifts(a: string, b: string, start: nat, i: nat)
    requires a != "" && !Ends(a[|a| - 1]) && start <= i <= |b|
    ensures SplitFrom(a + b, |a| + start, |a| + i) == SplitFrom(b, start, i)
    decreases |b| - i
  {
    hide IsSpace, Ends, BreaksAt, SpaceEnd, SplitFrom;
    SplitOnce(b, start, i);
    SplitOnce(a + b, |a| + start, |a| + i);
    if i == |b| {
      assert (a + b)[|a| + start..] == b[start..];
    } else {
      BreaksShift(a, b, i);
      if BreaksAt(b, i) {
        SpaceEndShifts(a, b, i + 1);
        assert (a + b)[|a| + start..|a| + i] == b[start..i];
        var next := SpaceEnd(b, i + 1);
        SplitShifts(a, b, next, next);
      } else {
        SplitShifts(a, b, start, i + 1);
      }
    }
  }

  lemma SplitOnce(s: string, start: nat, i: nat)
    requires start <= i <= |s|
    ensures SplitFrom(s, start, i) ==
      if i == |s| then [s[start..]]
      else if BreaksAt(s, i) then [s[start..i]] + SplitFrom(s, SpaceEnd(s, i + 1), SpaceEnd(s, i + 1))
      else SplitFrom(s, start, i + 1)
  {
    hide BreaksAt, SpaceEnd;
  }

  lemma BreaksShift(a: string, b: string, i: nat)
    requires a != "" && !Ends(a[|a| - 1]) && i < |b|
    ensures BreaksAt(a + b, |a| + i) <==> BreaksAt(b, i)
  {
    hide IsSpace, Ends;
    var s := a + b;
    assert s[|a| + i] == b[i] && s[|a| + i - 1] == if i == 0 then a[|a| - 1] else b[i - 1];
  }

  /** Reading an unbroken sentence finds no break inside it. */
  lemma {:induction false} ReadsThrough(x: string, tail: string, i: nat)
    requires Unbroken(x) && i <= |x|
    ensures SplitFrom(x + tail, 0, i) == SplitFrom(x + tail, 0, |x|)
    decreases |x| - i
  {
    if i < |x| {
      assert !BreaksAt(x, i) && (x + tail)[i] == x[i] && (i > 0 ==> (x + tail)[i - 1] == x[i - 1]);
      ReadsThrough(x, tail, i + 1);
    }
  }

  lemma OneSentence(x: string)
    requires Unbroken(x)
    ensures SplitFrom(x, 0, 0) == [x]
  {
    ReadsThrough(x, "", 0);
    assert x + "" == x;
  }

  lemma FirstOfMany(x: string, rest: string)
    requires Sentence(x) && Closed(x) && rest != "" && !IsSpace(rest[0])
    ensures SplitFrom(x + " " + rest, 0, 0) == [x] + SplitFrom(rest, 0, 0)
  {
    var s := x + " " + rest;
    assert s == x + (" " + rest);
    ReadsThrough(x, " " + rest, 0);
    assert s[|x|] == ' ' && s[|x| - 1] == x[|x| - 1] && s[|x| + 1] == rest[0] && s[0..|x|] == x;
    assert SpaceEnd(s, |x| + 1) == |x| + 1;
    SplitShifts(x + " ", rest, 0, 0);
  }

  lemma {:induction false} CleanedKeeps(xs: seq<string>)
    requires forall i :: 0 <= i < |xs| ==> Sentence(xs[i])
    ensures Cleaned(xs) == xs
  {
    if xs != [] {
      TrimTrims(xs[0]);
      CleanedKeeps(xs[1..]);
    }
  }

  lemma {:induction false} JoinStarts(xs: seq<string>)
    requires Proper(xs) && xs != []
    ensures Join(xs) != "" && !IsSpace(Join(xs)[0])
  {
    assert Sentence(xs[0]);
    if |xs| > 1 { assert Join(xs)[0] == xs[0][0]; }
  }

  lemma ProperTail(xs: seq<string>)
    requires Proper(xs) && xs != []
    ensures Proper(xs[1..])
  {
    assert forall i :: 0 <= i < |xs[1..]| ==> xs[1..][i] == xs[i + 1];
  }

  /** Main result. Joining sentences and splitting the entry again gives the sentences back. */
  lemma {:induction false} Resplit(xs: seq<string>)
    requires Proper(xs) && xs != []
    ensures SplitFrom(Join(xs), 0, 0) == xs && Sentences(Join(xs)) == xs
  {
    assert Sentence(xs[0]);
    if |xs| == 1 {
      OneSentence(xs[0]);
    } else {
      ProperTail(xs);
      Resplit(xs[1..]);
      JoinStarts(xs[1..]);
      assert Closed(xs[0]);
      FirstOfMany(xs[0], Join(xs[1..]));
    }
    CleanedKeeps(xs);
  }

  /* ---- the whole answer ---- */

  /** All the sentences of all entries, in order. */
  function AllSentences(entries: seq<string>): seq<string> {
    if entries == [] then [] else Sentences(entries[0]) + AllSentences(entries[1..])
  }

  lemma {:induction false} KeptConcat(said: Said, xs: seq<string>, ys: seq<string>, family: FamilyOf)
    ensures Kept(said, xs + ys, family) == Kept(said, xs, family) + Kept(SaidAfter(said, xs, family), ys, family)
    decreases |xs|
  {
    if xs == [] {
      assert xs + ys == ys;
    } else {
      assert (xs + ys)[0] == xs[0] && (xs + ys)[1..] == xs[1..] + ys;
      KeptConcat(Heard(said, xs[0], family), xs[1..], ys, family);
    }
  }

  predicate SameThing(a: string, b: string, family: FamilyOf) {
    a == b || (family(a).Some? && family(a) == family(b))
  }

  /** A sentence repeats what was heard when it repeats what was said before, or the last one. */
  lemma RepeatsMore(said: Said, one: string, x: string, family: FamilyOf)
    ensures !Repeats(said, one, family) ==>
      (Repeats(Heard(said, one, family), x, family) <==> Repeats(said, x, family) || SameThing(one, x, family))
  {
  }

  ghost predicate Picks(at: seq<nat>, part: seq<string>, whole: seq<string>) {
    && |at| == |part|
    && (forall i :: 0 <= i < |at| ==> at[i] < |whole| && whole[at[i]] == part[i])
    && (forall i, j :: 0 <= i < j < |at| ==> at[i] < at[j])
  }

  /** The positions of what is kept, counted from `from`. */
  function Positions(said: Said, xs: seq<string>, family: FamilyOf, from: nat): seq<nat>
    decreases |xs|
  {
    if xs == [] then []
    else
      (if Repeats(said, xs[0], family) then [] else [from])
      + Positions(Heard(said, xs[0], family), xs[1..], family, from + 1)
  }

  lemma {:induction false} PositionsPick(said: Said, xs: seq<string>, family: FamilyOf, from: nat)
    ensures var at := Positions(said, xs, family, from);
      && |at| == |Kept(said, xs, family)|
      && (forall i :: 0 <= i < |at| ==> from <= at[i] < from + |xs| && xs[at[i] - from] == Kept(said, xs, family)[i])
      && (forall i, j :: 0 <= i < j < |at| ==> at[i] < at[j])
    decreases |xs|
  {
    if xs != [] {
      var next := Heard(said, xs[0], family);
      PositionsPick(next, xs[1..], family, from + 1);
      var rest := Positions(next, xs[1..], family, from + 1);
      forall i | 0 <= i < |rest| ensures xs[rest[i] - from] == Kept(next, xs[1..], family)[i] {
        assert xs[1..][rest[i] - from - 1] == xs[rest[i] - from];
      }
    }
  }

  lemma {:induction false} KeptOrRepeated(said: Said, xs: seq<string>, family: FamilyOf, from: nat, k: nat)
    requires k < |xs|
    ensures from + k in Positions(said, xs, family, from) <==> !Repeats(SaidAfter(said, xs[..k], family), xs[k], family)
    decreases |xs|
  {
    var next := Heard(said, xs[0], family);
    var rest := Positions(next, xs[1..], family, from + 1);
    PositionsPick(next, xs[1..], family, from + 1);
    if k == 0 {
      assert from !in rest;
    } else {
      KeptOrRepeated(next, xs[1..], family, from + 1, k - 1);
      TailOfTake(xs, k);
    }
  }

  lemma TailOfTake(xs: seq<string>, k: nat)
    requires 0 < k < |xs|
    ensures xs[..k][0] == xs[0] && xs[..k][1..] == xs[1..][..k - 1] && xs[1..][k - 1] == xs[k]
  {
    assert xs[..k][1..] == xs[1..k];
    assert xs[1..][..k - 1] == xs[1..k];
  }

  /** What was said after some sentences is exactly what was kept of them. */
  lemma {:induction false} SaidIsKept(said: Said, xs: seq<string>, family: FamilyOf)
    ensures var after := SaidAfter(said, xs, family);
      && after.sentences == said.sentences + (set x | x in Kept(said, xs, family))
      && forall f :: f in after.families <==>
           f in said.families || exists x :: x in Kept(said, xs, family) && family(x) == Some(f)
    decreases |xs|
  {
    if xs != [] {
      SaidIsKept(Heard(said, xs[0], family), xs[1..], family);
      if !Repeats(said, xs[0], family) {
        var rest := Kept(Say(said, xs[0], family), xs[1..], family);
        var all := Kept(said, xs, family);
        assert all == [xs[0]] + rest;
        assert forall x :: x in all <==> x == xs[0] || x in rest;
      }
    }
  }

  /** Every entry of the answer re-splits into the sentences kept of it. */
  lemma {:induction false} AnswerSentences(said: Said, entries: seq<string>, family: FamilyOf)
    ensures AllSentences(Deduped(said, entries, family)) == Kept(said, AllSentences(entries), family)
    decreases |entries|
  {
    if entries != [] {
      var xs := Sentences(entries[0]);
      var kept := Kept(said, xs, family);
      var after := SaidAfter(said, xs, family);
      AnswerSentences(after, entries[1..], family);
      KeptConcat(said, xs, AllSentences(entries[1..]), family);
      KeptIsProper(said, entries[0], family);
      var rest := Deduped(after, entries[1..], family);
      if kept == [] {
        assert Entry(kept) + rest == rest;
      } else {
        Resplit(kept);
        assert (Entry(kept) + rest)[0] == Join(kept) && (Entry(kept) + rest)[1..] == rest;
      }
    }
  }

  lemma KeptIsProper(said: Said, entry: string, family: FamilyOf)
    ensures Proper(Kept(said, Sentences(entry), family))
  {
    SentencesAreProper(entry);
    var xs := Sentences(entry);
    PositionsPick(said, xs, family, 0);
    var at := Positions(said, xs, family, 0);
    var kept := Kept(said, xs, family);
    forall i | 0 <= i < |kept| - 1 ensures Closed(kept[i]) { assert at[i] < at[i + 1]; }
  }

  ghost predicate NothingTwice(xs: seq<string>, family: FamilyOf) {
    forall i, j :: 0 <= i < j < |xs| ==> !SameThing(xs[i], xs[j], family)
  }

  lemma {:induction false} KeptOnce(said: Said, xs: seq<string>, family: FamilyOf)
    ensures NothingTwice(Kept(said, xs, family), family)
    ensures forall x :: x in Kept(said, xs, family) ==> !Repeats(said, x, family)
    decreases |xs|
  {
    if xs != [] {
      var rest := Kept(Heard(said, xs[0], family), xs[1..], family);
      KeptOnce(Heard(said, xs[0], family), xs[1..], family);
      if !Repeats(said, xs[0], family) {
        forall x | x in rest ensures !Repeats(said, x, family) && !SameThing(xs[0], x, family) {
          RepeatsMore(said, xs[0], x, family);
        }
        var all := Kept(said, xs, family);
        assert all == [xs[0]] + rest;
        forall i, j | 0 <= i < j < |all| ensures !SameThing(all[i], all[j], family) {
          assert all[j] == rest[j - 1];
          if i > 0 { assert all[i] == rest[i - 1]; }
        }
      }
    }
  }

  /**
   * Main result. The answer's sentences are a subsequence of the input's, with no exact repeat and at most
   * one of each near family; and every sentence left out is repeated, or near-repeated, by one kept before it.
   */
  lemma SaysEachThingOnce(entries: seq<string>, family: FamilyOf) returns (at: seq<nat>)
    ensures var xs := AllSentences(entries);
      var answer := AllSentences(DedupeSpec(entries, family));
      && Picks(at, answer, xs)
      && NothingTwice(answer, family)
      && forall k :: 0 <= k < |xs| && k !in at ==> exists m :: 0 <= m < k && SameThing(xs[m], xs[k], family) && m in at
  {
    hide Kept, Repeats, SaidAfter, SameThing, Positions, AllSentences, Deduped, NothingTwice;
    var xs := AllSentences(entries);
    AnswerSentences(NOTHING, entries, family);
    KeptOnce(NOTHING, xs, family);
    PositionsPick(NOTHING, xs, family, 0);
    at := Positions(NOTHING, xs, family, 0);
    forall k | 0 <= k < |xs| && k !in at ensures exists m :: 0 <= m < k && SameThing(xs[m], xs[k], family) && m in at {
      KeptOrRepeated(NOTHING, xs, family, 0, k);
      var m := SaidBefore(xs, family, k);
    }
  }

  lemma KeptTwin(xs: seq<string>, one: string, family: FamilyOf) returns (i: nat)
    requires Repeats(SaidAfter(NOTHING, xs, family), one, family)
    ensures i < |Kept(NOTHING, xs, family)| && SameThing(Kept(NOTHING, xs, family)[i], one, family)
  {
    hide Kept, SaidAfter;
    SaidIsKept(NOTHING, xs, family);
    var kept := Kept(NOTHING, xs, family);
    var x :| x in kept && SameThing(x, one, family);
    i :| 0 <= i < |kept| && kept[i] == x;
  }

  /** What a repeated sentence repeats is an earlier one that was kept. */
  lemma SaidBefore(xs: seq<string>, family: FamilyOf, k: nat) returns (m: nat)
    requires k < |xs| && Repeats(SaidAfter(NOTHING, xs[..k], family), xs[k], family)
    ensures m < k && SameThing(xs[m], xs[k], family) && m in Positions(NOTHING, xs, family, 0)
  {
    hide Kept, Repeats, SaidAfter, SameThing, Positions;
    var i := KeptTwin(xs[..k], xs[k], family);
    PositionsPick(NOTHING, xs[..k], family, 0);
    m := Positions(NOTHING, xs[..k], family, 0)[i];
    KeptOrRepeated(NOTHING, xs[..k], family, 0, m);
    KeptOrRepeated(NOTHING, xs, family, 0, m);
    assert xs[..k][..m] == xs[..m];
  }

  /* ---- applying it again ---- */

  lemma {:induction false} KeepsAll(said: Said, xs: seq<string>, family: FamilyOf)
    requires NothingTwice(xs, family) && forall x :: x in xs ==> !Repeats(said, x, family)
    ensures Kept(said, xs, family) == xs
    decreases |xs|
  {
    if xs != [] {
      var rest := xs[1..];
      forall i | 0 <= i < |rest| ensures !Repeats(Heard(said, xs[0], family), rest[i], family) {
        assert rest[i] == xs[i + 1];
        RepeatsMore(said, xs[0], rest[i], family);
      }
      forall i, j | 0 <= i < j < |rest| ensures !SameThing(rest[i], rest[j], family) {
        assert rest[i] == xs[i + 1] && rest[j] == xs[j + 1];
      }
      KeepsAll(Heard(said, xs[0], family), rest, family);
    }
  }

  /** Two halves of a text in which nothing is said twice. */
  lemma Halves(said: Said, xs: seq<string>, rest: seq<string>, family: FamilyOf)
    requires NothingTwice(xs + rest, family) && forall x :: x in xs + rest ==> !Repeats(said, x, family)
    ensures NothingTwice(xs, family) && NothingTwice(rest, family)
    ensures Kept(said, xs, family) == xs
    ensures forall x :: x in rest ==> !Repeats(SaidAfter(said, xs, family), x, family)
  {
    var all := xs + rest;
    forall i, j | 0 <= i < j < |xs| ensures !SameThing(xs[i], xs[j], family) {
      assert all[i] == xs[i] && all[j] == xs[j];
    }
    forall i, j | 0 <= i < j < |rest| ensures !SameThing(rest[i], rest[j], family) {
      assert all[|xs| + i] == rest[i] && all[|xs| + j] == rest[j];
    }
    KeepsAll(said, xs, family);
    SaidIsKept(said, xs, family);
    forall j | 0 <= j < |rest| ensures !Repeats(SaidAfter(said, xs, family), rest[j], family) {
      assert all[|xs| + j] == rest[j] && rest[j] in all;
      assert forall i :: 0 <= i < |xs| ==> all[i] == xs[i] && !SameThing(all[i], all[|xs| + j], family);
    }
  }

  ghost predicate AreJoins(entries: seq<string>) {
    forall i :: 0 <= i < |entries| ==> Sentences(entries[i]) != [] && Join(Sentences(entries[i])) == entries[i]
  }

  /** Entries that are each the join of their own sentences, with nothing said twice overall. */
  lemma {:induction false} StaysAsItIs(said: Said, entries: seq<string>, family: FamilyOf)
    requires AreJoins(entries)
    requires NothingTwice(AllSentences(entries), family)
    requires forall x :: x in AllSentences(entries) ==> !Repeats(said, x, family)
    ensures Deduped(said, entries, family) == entries
    decreases |entries|
  {
    hide Sentences, Join, Repeats, SaidAfter, Kept, NothingTwice;
    if entries != [] {
      var xs := Sentences(entries[0]);
      Halves(said, xs, AllSentences(entries[1..]), family);
      StaysAsItIs(SaidAfter(said, xs, family), entries[1..], family);
    }
  }

  lemma {:induction false} EntriesAreJoins(said: Said, entries: seq<string>, family: FamilyOf)
    ensures AreJoins(Deduped(said, entries, family))
    decreases |entries|
  {
    hide Sentences, Join;
    if entries != [] {
      var xs := Sentences(entries[0]);
      var kept := Kept(said, xs, family);
      KeptIsProper(said, entries[0], family);
      if kept != [] { Resplit(kept); }
      EntriesAreJoins(SaidAfter(said, xs, family), entries[1..], family);
      var rest := Deduped(SaidAfter(said, xs, family), entries[1..], family);
      var out := Entry(kept) + rest;
      forall i | 0 <= i < |out| ensures Sentences(out[i]) != [] && Join(Sentences(out[i])) == out[i] {
        if i >= |Entry(kept)| { assert out[i] == rest[i - |Entry(kept)|]; }
      }
    }
  }

  /** Main result. Reapplied, the dedupe changes nothing. */
  lemma Idempotent(entries: seq<string>, family: FamilyOf)
    ensures DedupeSpec(DedupeSpec(entries, family), family) == DedupeSpec(entries, family)
  {
    var out := DedupeSpec(entries, family);
    AnswerSentences(NOTHING, entries, family);
    KeptOnce(NOTHING, AllSentences(entries), family);
    EntriesAreJoins(NOTHING, entries, family);
    StaysAsItIs(NOTHING, out, family);
  }
}
