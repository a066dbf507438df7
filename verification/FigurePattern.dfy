/** The figures a text states: a number or a range of two, and a unit, as one pattern finds them left to right. */
module FigurePattern {
  import opened Base
  import opened Text
  import opened Candidate
  import opened KnowledgeFence

  predicate IsDigit(c: char) { '0' <= c <= '9' }

  function DigitsEnd(s: string, i: nat): (j: nat)
    requires i <= |s|
    ensures i <= j <= |s| && (j == |s| || !IsDigit(s[j]))
    ensures forall k :: i <= k < j ==> IsDigit(s[k])
    decreases |s| - i
  {
    if i < |s| && IsDigit(s[i]) then DigitsEnd(s, i + 1) else i
  }

  /** Where a number that starts at `i` may end: behind its decimals, if it has any, and behind its whole part. */
  function NumberEnds(s: string, i: nat): (ends: seq<nat>)
    requires i <= |s|
    ensures forall k :: 0 <= k < |ends| ==> i < ends[k] <= |s|
  {
    var e := DigitsEnd(s, i);
    if e == i then []
    else if e < |s| && (s[e] == '.' || s[e] == ',') && DigitsEnd(s, e + 1) > e + 1 then [DigitsEnd(s, e + 1), e]
    else [e]
  }

  const UNITS := ["영업일", "일", "시간", "주", "개월", "원", "%", "mm", "cm", "km", "kg", "g", "m"]

  /** A unit counts when no small letter follows it. */
  predicate UnitAt(s: string, i: nat, unit: string)
    requires i <= |s|
  {
    At(unit, s, i) && (i + |unit| == |s| || !('a' <= s[i + |unit|] <= 'z'))
  }

  function FirstUnit(s: string, i: nat, units: seq<string>): (u: Option<string>)
    requires i <= |s|
    ensures u.Some? ==> u.value in units && UnitAt(s, i, u.value)
  {
    if units == [] then None else if UnitAt(s, i, units[0]) then Some(units[0]) else FirstUnit(s, i, units[1..])
  }

  datatype Found = Found(figure: Match, end: nat)

  /** A figure whose last number ends at `e`: white space, then a unit. */
  function Closed(s: string, value: string, upper: Option<string>, e: nat): (found: Option<Found>)
    requires e <= |s|
    ensures found.Some? ==> e <= found.value.end <= |s|
  {
    var u := SpaceEnd(s, e);
    var unit := FirstUnit(s, u, UNITS);
    if unit.Some? then Some(Found(Match(value, upper, unit.value), u + |unit.value|)) else None
  }

  function FirstClosed(s: string, value: string, from: nat, ends: seq<nat>): (found: Option<Found>)
    requires forall k :: 0 <= k < |ends| ==> from < ends[k] <= |s|
    ensures found.Some? ==> from < found.value.end <= |s|
  {
    if ends == [] then None
    else
      var e := ends[0];
      var found := Closed(s, value, Some(s[from..e]), e);
      if found.Some? then found else FirstClosed(s, value, from, ends[1..])
  }

  /** The second number of a range that begins behind `e`. */
  function Ranged(s: string, value: string, e: nat): (found: Option<Found>)
    requires e <= |s|
    ensures found.Some? ==> e < found.value.end <= |s|
  {
    var dash := SpaceEnd(s, e);
    if dash < |s| && (s[dash] == '~' || s[dash] == '-' || s[dash] == '–') then
      var from := SpaceEnd(s, dash + 1);
      FirstClosed(s, value, from, NumberEnds(s, from))
    else None
  }

  function FirstFigure(s: string, i: nat, ends: seq<nat>): (found: Option<Found>)
    requires i <= |s| && forall k :: 0 <= k < |ends| ==> i < ends[k] <= |s|
    ensures found.Some? ==> i < found.value.end <= |s|
  {
    if ends == [] then None
    else
      var value := s[i..ends[0]];
      var ranged := Ranged(s, value, ends[0]);
      var single := Closed(s, value, None, ends[0]);
      if ranged.Some? then ranged else if single.Some? then single else FirstFigure(s, i, ends[1..])
  }

  /** Every figure, left to right, none overlapping another. */
  function FiguresFrom(s: string, i: nat): seq<Match>
    requires i <= |s|
    decreases |s| - i
  {
    if i == |s| then []
    else
      var found := FirstFigure(s, i, NumberEnds(s, i));
      if found.Some? then [found.value.figure] + FiguresFrom(s, found.value.end)
      else FiguresFrom(s, i + 1)
  }

  function FigureMatches(s: string): seq<Match> { FiguresFrom(s, 0) }

  /* ---- what counts as a figure, written out ---- */

  ghost predicate AllDigits(x: string) { x != "" && forall k :: 0 <= k < |x| ==> IsDigit(x[k]) }

  /** Digits, with or without decimals behind a full stop or a comma. */
  ghost predicate IsNumber(x: string) {
    AllDigits(x)
    || exists k :: 0 < k < |x| && (x[k] == '.' || x[k] == ',') && AllDigits(x[..k]) && AllDigits(x[k + 1..])
  }

  ghost predicate NumberIn(s: string, i: int, e: int) { 0 <= i <= e <= |s| && IsNumber(s[i..e]) }

  ghost predicate OnlySpace(s: string, i: int, e: int) {
    0 <= i <= e <= |s| && forall k :: i <= k < e ==> IsSpace(s[k])
  }

  /** A unit of the list from `u` to `e`, and no small letter behind it. */
  ghost predicate UnitIn(s: string, u: int, e: int, unit: string) {
    && 0 <= u <= e <= |s| && s[u..e] == unit && (e == |s| || !('a' <= s[e] <= 'z'))
    && unit in {"영업일", "일", "시간", "주", "개월", "원", "%", "mm", "cm", "km", "kg", "g", "m"}
  }

  predicate DashAt(s: string, d: int) { 0 <= d < |s| && s[d] in {'~', '-', '–'} }

  /** From `i` to `e`: a number and its unit. */
  ghost predicate ReadsOne(s: string, i: int, e: int, m: Match, a: int, u: int) {
    && m.upper == None && NumberIn(s, i, a) && s[i..a] == m.value
    && OnlySpace(s, a, u) && UnitIn(s, u, e, m.unit)
  }

  /** From `i` to `e`: two numbers with a dash between, and their unit. */
  ghost predicate ReadsRange(s: string, i: int, e: int, m: Match, a: int, d: int, b: int, c: int, u: int) {
    && NumberIn(s, i, a) && s[i..a] == m.value && OnlySpace(s, a, d) && DashAt(s, d)
    && OnlySpace(s, d + 1, b) && NumberIn(s, b, c) && m.upper == Some(s[b..c])
    && OnlySpace(s, c, u) && UnitIn(s, u, e, m.unit)
  }

  ghost predicate Reads(s: string, i: int, e: int, m: Match) {
    || (exists a, u :: ReadsOne(s, i, e, m, a, u))
    || (exists a, d, b, c, u :: ReadsRange(s, i, e, m, a, d, b, c, u))
  }

  /* ---- the pattern finds one where there is one ---- */

  lemma {:induction false} SpacesAre(s: string, i: nat, u: nat)
    requires i <= u <= |s| && OnlySpace(s, i, u) && (u == |s| || !IsSpace(s[u]))
    ensures SpaceEnd(s, i) == u
    decreases |s| - i
  {
    if i < u { SpacesAre(s, i + 1, u); }
  }

  lemma {:induction false} SpacesOnly(s: string, i: nat)
    requires i <= |s|
    ensures OnlySpace(s, i, SpaceEnd(s, i))
    decreases |s| - i
  {
    if i < |s| && IsSpace(s[i]) { SpacesOnly(s, i + 1); }
  }

  lemma {:induction false} DigitsAre(s: string, i: nat, e: nat)
    requires i <= e <= |s| && (forall k :: i <= k < e ==> IsDigit(s[k])) && (e == |s| || !IsDigit(s[e]))
    ensures DigitsEnd(s, i) == e
    decreases |s| - i
  {
    if i < e { DigitsAre(s, i + 1, e); }
  }

  lemma Around(s: string, i: nat, p: nat, e: nat)
    requires i <= p < e <= |s|
    ensures s[i..e][..p - i] == s[i..p] && s[i..e][p - i] == s[p] && s[i..e][p - i + 1..] == s[p + 1..e]
  {
  }

  lemma DecimalIsNumber(s: string, i: nat, p: nat, e: nat)
    requires i < p < e <= |s| && (s[p] == '.' || s[p] == ',') && AllDigits(s[i..p]) && AllDigits(s[p + 1..e])
    ensures NumberIn(s, i, e)
  {
    hide AllDigits;
    var x, k := s[i..e], p - i;
    Around(s, i, p, e);
  }

  lemma EndsAreNumbers(s: string, i: nat, e: nat)
    requires i <= |s| && e in NumberEnds(s, i)
    ensures NumberIn(s, i, e)
  {
    var p := DigitsEnd(s, i);
    assert AllDigits(s[i..p]);
    if e != p {
      assert AllDigits(s[p + 1..e]);
      DecimalIsNumber(s, i, p, e);
    }
  }

  lemma WholeIsAnEnd(s: string, i: nat, e: nat)
    requires i <= e <= |s| && AllDigits(s[i..e]) && (e == |s| || !IsDigit(s[e]))
    ensures e in NumberEnds(s, i)
  {
    forall k | i <= k < e ensures IsDigit(s[k]) { assert s[k] == s[i..e][k - i]; }
    DigitsAre(s, i, e);
  }

  lemma DecimalIsAnEnd(s: string, i: nat, p: nat, e: nat)
    requires i <= p < e <= |s| && (s[p] == '.' || s[p] == ',') && (e == |s| || !IsDigit(s[e]))
    requires AllDigits(s[i..p]) && AllDigits(s[p + 1..e])
    ensures e in NumberEnds(s, i)
  {
    forall k | i <= k < p ensures IsDigit(s[k]) { assert s[k] == s[i..p][k - i]; }
    forall k | p + 1 <= k < e ensures IsDigit(s[k]) { assert s[k] == s[p + 1..e][k - p - 1]; }
    DigitsAre(s, i, p);
    DigitsAre(s, p + 1, e);
  }

  lemma NumbersAreEnds(s: string, i: nat, e: nat)
    requires NumberIn(s, i, e) && (e == |s| || !IsDigit(s[e]))
    ensures e in NumberEnds(s, i)
  {
    hide AllDigits, NumberEnds;
    var x := s[i..e];
    if AllDigits(x) {
      WholeIsAnEnd(s, i, e);
    } else {
      var k :| 0 < k < |x| && (x[k] == '.' || x[k] == ',') && AllDigits(x[..k]) && AllDigits(x[k + 1..]);
      Around(s, i, i + k, e);
      DecimalIsAnEnd(s, i, i + k, e);
    }
  }

  lemma NumberStarts(s: string, i: int, e: int)
    requires NumberIn(s, i, e)
    ensures i < e && IsDigit(s[i]) && !IsSpace(s[i])
  {
    var x := s[i..e];
    if !AllDigits(x) {
      var k :| 0 < k < |x| && (x[k] == '.' || x[k] == ',') && AllDigits(x[..k]) && AllDigits(x[k + 1..]);
      assert IsDigit(x[..k][0]);
    }
    assert s[i] == x[0];
  }

  lemma UnitStarts(s: string, u: int, e: int, unit: string)
    requires UnitIn(s, u, e, unit)
    ensures u < e && !IsDigit(s[u]) && !IsSpace(s[u]) && unit in UNITS && UnitAt(s, u, unit)
  {
    assert unit != "" && !IsDigit(unit[0]) && !IsSpace(unit[0]);
    assert s[u] == s[u..e][0];
    UnitListed(unit);
  }

  lemma UnitListed(unit: string)
    ensures unit in UNITS <==>
      unit in {"영업일", "일", "시간", "주", "개월", "원", "%", "mm", "cm", "km", "kg", "g", "m"}
  {
    if unit in {"영업일", "일", "시간", "주", "개월", "원", "%", "mm", "cm", "km", "kg", "g", "m"} {
      assert UNITS[0] == "영업일" && UNITS[1] == "일" && UNITS[2] == "시간" && UNITS[3] == "주";
      assert UNITS[4] == "개월" && UNITS[5] == "원" && UNITS[6] == "%" && UNITS[7] == "mm";
      assert UNITS[8] == "cm" && UNITS[9] == "km" && UNITS[10] == "kg" && UNITS[11] == "g" && UNITS[12] == "m";
    }
  }

  lemma {:induction false} UnitFound(s: string, i: nat, unit: string, units: seq<string>)
    requires i <= |s| && unit in units && UnitAt(s, i, unit)
    ensures FirstUnit(s, i, units).Some?
  {
    hide UnitAt;
    if !UnitAt(s, i, units[0]) { UnitFound(s, i, unit, units[1..]); }
  }

  /** White space and then a unit: a figure whose last number ends at `a` is closed, and only then. */
  lemma ClosesThere(s: string, value: string, upper: Option<string>, a: nat, u: int, e: int, unit: string)
    requires OnlySpace(s, a, u) && UnitIn(s, u, e, unit)
    ensures Closed(s, value, upper, a).Some?
    ensures a == |s| || !IsDigit(s[a])
  {
    UnitStarts(s, u, e, unit);
    SpacesAre(s, a, u);
    UnitFound(s, u, unit, UNITS);
    hide UNITS, FirstUnit;
  }

  lemma ClosedIs(s: string, value: string, upper: Option<string>, a: nat)
    requires a <= |s| && Closed(s, value, upper, a).Some?
    ensures var found := Closed(s, value, upper, a).value;
      var u := SpaceEnd(s, a);
      && found.figure.value == value && found.figure.upper == upper
      && OnlySpace(s, a, u) && UnitIn(s, u, found.end, found.figure.unit)
  {
    hide UNITS, FirstUnit;
    SpacesOnly(s, a);
    UnitListed(Closed(s, value, upper, a).value.figure.unit);
  }

  lemma {:induction false} SomeClosed(s: string, value: string, from: nat, ends: seq<nat>, c: nat)
    requires (forall k :: 0 <= k < |ends| ==> from < ends[k] <= |s|) && c in ends
    requires Closed(s, value, Some(s[from..c]), c).Some?
    ensures FirstClosed(s, value, from, ends).Some?
  {
    hide Closed;
    if ends[0] != c { SomeClosed(s, value, from, ends[1..], c); }
  }

  lemma {:induction false} ClosedAtOne(s: string, value: string, from: nat, ends: seq<nat>) returns (c: nat)
    requires (forall k :: 0 <= k < |ends| ==> from < ends[k] <= |s|) && FirstClosed(s, value, from, ends).Some?
    ensures c in ends && FirstClosed(s, value, from, ends) == Closed(s, value, Some(s[from..c]), c)
  {
    hide Closed;
    c := ends[0];
    if Closed(s, value, Some(s[from..c]), c).None? { c := ClosedAtOne(s, value, from, ends[1..]); }
  }

  lemma RangeUnfolds(s: string, value: string, a: nat, d: nat, b: nat)
    requires DashAt(s, d) && a <= d && b <= |s| && SpaceEnd(s, a) == d && SpaceEnd(s, d + 1) == b
    ensures Ranged(s, value, a) == FirstClosed(s, value, b, NumberEnds(s, b))
  {
    hide FirstClosed, NumberEnds, SpaceEnd;
  }

  lemma RangeHasDash(s: string, value: string, a: nat)
    requires a <= |s| && Ranged(s, value, a).Some?
    ensures DashAt(s, SpaceEnd(s, a))
  {
    hide FirstClosed, NumberEnds, SpaceEnd;
  }

  lemma RangeIs(s: string, i: nat, a: nat)
    requires NumberIn(s, i, a) && Ranged(s, s[i..a], a).Some?
    ensures var found := Ranged(s, s[i..a], a).value; Reads(s, i, found.end, found.figure)
  {
    hide Closed, NumberEnds, UnitIn, NumberIn, SpaceEnd, Ranged, FirstClosed, OnlySpace, DashAt, Reads;
    NumberBounds(s, i, a);
    var value := s[i..a];
    RangeHasDash(s, value, a);
    var d := SpaceEnd(s, a);
    DashBounds(s, d);
    var b := SpaceEnd(s, d + 1);
    SpacesOnly(s, a);
    SpacesOnly(s, d + 1);
    RangeUnfolds(s, value, a, d, b);
    var c := ClosedAtOne(s, value, b, NumberEnds(s, b));
    EndsAreNumbers(s, b, c);
    ClosedIs(s, value, Some(s[b..c]), c);
    var found := Ranged(s, value, a).value;
    IsRange(s, i, found.end, found.figure, a, d, b, c, SpaceEnd(s, c));
  }

  lemma NumberBounds(s: string, i: int, e: int)
    requires NumberIn(s, i, e)
    ensures 0 <= i <= e <= |s|
  {
  }

  lemma DashBounds(s: string, d: int)
    requires DashAt(s, d)
    ensures 0 <= d < |s|
  {
  }

  lemma IsRange(s: string, i: int, e: int, m: Match, a: int, d: int, b: int, c: int, u: int)
    requires NumberIn(s, i, a) && s[i..a] == m.value && OnlySpace(s, a, d) && DashAt(s, d)
    requires OnlySpace(s, d + 1, b) && NumberIn(s, b, c) && m.upper == Some(s[b..c])
    requires OnlySpace(s, c, u) && UnitIn(s, u, e, m.unit)
    ensures Reads(s, i, e, m)
  {
    hide UnitIn, NumberIn, OnlySpace, DashAt;
    assert ReadsRange(s, i, e, m, a, d, b, c, u);
  }

  lemma SpaceOrDash(s: string, a: nat, d: nat)
    requires OnlySpace(s, a, d) && DashAt(s, d)
    ensures SpaceEnd(s, a) == d && !IsDigit(s[a])
  {
    SpacesAre(s, a, d);
  }

  lemma RangeFound(s: string, i: int, e: int, m: Match, a: int, d: int, b: int, c: int, u: int)
    requires ReadsRange(s, i, e, m, a, d, b, c, u)
    ensures Ranged(s, s[i..a], a).Some? && (a == |s| || !IsDigit(s[a]))
  {
    hide Closed, NumberEnds, UnitIn, NumberIn, DashAt, OnlySpace, SpaceEnd, Ranged, FirstClosed, IsDigit, IsSpace;
    RangeBounds(s, i, e, m, a, d, b, c, u);
    NumberStarts(s, b, c);
    SpaceOrDash(s, a, d);
    SpacesAre(s, d + 1, b);
    RangeUnfolds(s, s[i..a], a, d, b);
    ClosesThere(s, s[i..a], Some(s[b..c]), c, u, e, m.unit);
    NumbersAreEnds(s, b, c);
    SomeClosed(s, s[i..a], b, NumberEnds(s, b), c);
  }

  lemma RangeBounds(s: string, i: int, e: int, m: Match, a: int, d: int, b: int, c: int, u: int)
    requires ReadsRange(s, i, e, m, a, d, b, c, u)
    ensures 0 <= i <= a <= d < b <= c <= u <= e <= |s|
  {
  }

  lemma {:induction false} FigureIs(s: string, i: nat, ends: seq<nat>)
    requires i <= |s| && (forall k :: 0 <= k < |ends| ==> i < ends[k] <= |s| && NumberIn(s, i, ends[k]))
    requires FirstFigure(s, i, ends).Some?
    ensures var found := FirstFigure(s, i, ends).value; Reads(s, i, found.end, found.figure)
  {
    hide Closed, Ranged, Reads, NumberIn;
    var a := ends[0];
    if Ranged(s, s[i..a], a).Some? {
      RangeIs(s, i, a);
    } else if Closed(s, s[i..a], None, a).Some? {
      ClosedIs(s, s[i..a], None, a);
      SingleIs(s, i, a, Closed(s, s[i..a], None, a).value);
    } else {
      FigureIs(s, i, ends[1..]);
    }
  }

  lemma SingleIs(s: string, i: nat, a: nat, found: Found)
    requires NumberIn(s, i, a) && found.figure.value == s[i..a] && found.figure.upper == None
    requires OnlySpace(s, a, SpaceEnd(s, a)) && UnitIn(s, SpaceEnd(s, a), found.end, found.figure.unit)
    ensures Reads(s, i, found.end, found.figure)
  {
    hide UnitIn, NumberIn, OnlySpace;
    assert ReadsOne(s, i, found.end, found.figure, a, SpaceEnd(s, a));
  }

  lemma {:induction false} FigureAmong(s: string, i: nat, ends: seq<nat>, a: nat)
    requires i <= |s| && (forall k :: 0 <= k < |ends| ==> i < ends[k] <= |s|) && a in ends
    requires Ranged(s, s[i..a], a).Some? || Closed(s, s[i..a], None, a).Some?
    ensures FirstFigure(s, i, ends).Some?
  {
    hide Closed, Ranged;
    if ends[0] != a { FigureAmong(s, i, ends[1..], a); }
  }

  /** The pattern finds a figure at a place exactly when one can be read there, and what it finds is one. */
  lemma FoundIffRead(s: string, i: nat)
    requires i <= |s|
    ensures var found := FirstFigure(s, i, NumberEnds(s, i));
      && (found.Some? ==> Reads(s, i, found.value.end, found.value.figure))
      && (found.None? ==> forall e, m :: !Reads(s, i, e, m))
  {
    hide FirstFigure, NumberEnds, ReadsOne, ReadsRange;
    forall e | e in NumberEnds(s, i) ensures NumberIn(s, i, e) { EndsAreNumbers(s, i, e); }
    if FirstFigure(s, i, NumberEnds(s, i)).Some? {
      FigureIs(s, i, NumberEnds(s, i));
    } else {
      forall e, m ensures !Reads(s, i, e, m) {
        if Reads(s, i, e, m) { ReadIsFound(s, i, e, m); }
      }
    }
  }

  lemma ReadIsFound(s: string, i: nat, e: int, m: Match)
    requires i <= |s| && Reads(s, i, e, m)
    ensures FirstFigure(s, i, NumberEnds(s, i)).Some?
  {
    hide FirstFigure, NumberEnds, UnitIn, Closed, Ranged;
    if a, u :| ReadsOne(s, i, e, m, a, u) {
      ClosesThere(s, s[i..a], None, a, u, e, m.unit);
      NumbersAreEnds(s, i, a);
      FigureAmong(s, i, NumberEnds(s, i), a);
    } else {
      var a, d, b, c, u :| ReadsRange(s, i, e, m, a, d, b, c, u);
      RangeFound(s, i, e, m, a, d, b, c, u);
      NumbersAreEnds(s, i, a);
      FigureAmong(s, i, NumberEnds(s, i), a);
    }
  }

  /** The figures `ms` stand one behind the other between the given places, each where one can be read. */
  ghost predicate StandAt(s: string, ms: seq<Match>, at: seq<nat>, ends: seq<nat>, from: nat) {
    && |at| == |ends| == |ms|
    && (forall k :: 0 <= k < |ms| ==> from <= at[k] < ends[k] <= |s| && Reads(s, at[k], ends[k], ms[k]))
    && (forall k, l :: 0 <= k < l < |ms| ==> ends[k] <= at[l])
  }

  /** A place no figure covers. */
  ghost predicate Uncovered(i: int, at: seq<nat>, ends: seq<nat>)
    requires |at| == |ends|
  {
    forall k :: 0 <= k < |at| ==> !(at[k] <= i < ends[k])
  }

  lemma StandMore(s: string, first: Match, rest: seq<Match>, i: nat, end: nat, at: seq<nat>, ends: seq<nat>, from: nat)
    requires from <= i < end <= |s| && Reads(s, i, end, first) && StandAt(s, rest, at, ends, end)
    ensures StandAt(s, [first] + rest, [i] + at, [end] + ends, from)
  {
    hide Reads;
  }

  ghost predicate NoneUncovered(s: string, i: nat, at: seq<nat>, ends: seq<nat>)
    requires |at| == |ends|
  {
    forall j :: i <= j < |s| && Uncovered(j, at, ends) ==> forall e, m :: !Reads(s, j, e, m)
  }

  lemma CoverMore(s: string, i: nat, end: nat, at: seq<nat>, ends: seq<nat>)
    requires i < end && |at| == |ends| && NoneUncovered(s, end, at, ends)
    ensures NoneUncovered(s, i, [i] + at, [end] + ends)
  {
    hide Reads;
    var at', ends' := [i] + at, [end] + ends;
    forall j | i <= j < |s| && Uncovered(j, at', ends') ensures forall e, m :: !Reads(s, j, e, m) {
      assert at'[0] == i && ends'[0] == end;
      assert forall k :: 0 <= k < |at| ==> at[k] == at'[k + 1] && ends[k] == ends'[k + 1];
      assert Uncovered(j, at, ends);
    }
  }

  lemma NoneHere(s: string, i: nat, at: seq<nat>, ends: seq<nat>)
    requires |at| == |ends| && NoneUncovered(s, i + 1, at, ends) && forall e, m :: !Reads(s, i, e, m)
    ensures NoneUncovered(s, i, at, ends)
  {
    hide Reads, Uncovered;
  }

  lemma StandLater(s: string, ms: seq<Match>, at: seq<nat>, ends: seq<nat>, from: nat)
    requires StandAt(s, ms, at, ends, from + 1)
    ensures StandAt(s, ms, at, ends, from)
  {
    hide Reads;
  }

  lemma {:induction false} StandFrom(s: string, i: nat) returns (at: seq<nat>, ends: seq<nat>)
    requires i <= |s|
    ensures StandAt(s, FiguresFrom(s, i), at, ends, i) && NoneUncovered(s, i, at, ends)
    decreases |s| - i
  {
    at, ends := [], [];
    if i < |s| {
      hide FirstFigure, NumberEnds, Reads, NoneUncovered, StandAt;
      FoundIffRead(s, i);
      var found := FirstFigure(s, i, NumberEnds(s, i));
      if found.Some? {
        var end := found.value.end;
        at, ends := StandFrom(s, end);
        StandSized(s, FiguresFrom(s, end), at, ends, end);
        StandMore(s, found.value.figure, FiguresFrom(s, end), i, end, at, ends, i);
        CoverMore(s, i, end, at, ends);
        at, ends := [i] + at, [end] + ends;
      } else {
        at, ends := StandFrom(s, i + 1);
        StandSized(s, FiguresFrom(s, i + 1), at, ends, i + 1);
        StandLater(s, FiguresFrom(s, i + 1), at, ends, i);
        NoneHere(s, i, at, ends);
      }
    }
  }

  lemma StandSized(s: string, ms: seq<Match>, at: seq<nat>, ends: seq<nat>, from: nat)
    requires StandAt(s, ms, at, ends, from)
    ensures |at| == |ends| == |ms|
  {
    hide Reads;
  }

  /**
   * Main result. The figures of a text are read off it from left to right, none overlapping another, each a
   * number or a range with a listed unit; and where none of them stands, none can be read.
   */
  lemma FiguresOfAText(s: string) returns (at: seq<nat>, ends: seq<nat>)
    ensures StandAt(s, FigureMatches(s), at, ends, 0) && NoneUncovered(s, 0, at, ends)
  {
    at, ends := StandFrom(s, 0);
  }

  /* ---- two texts, both ways round ---- */

  const FEW := "2일"
  const MORE := "2일, 3일"

  /** A single digit and a day, not followed by a small letter, is one figure. */
  lemma DigitDay(s: string, i: nat)
    requires i + 2 <= |s| && IsDigit(s[i]) && s[i + 1] == '일' && (i + 2 < |s| ==> !('a' <= s[i + 2] <= 'z'))
    ensures FiguresFrom(s, i) == [Match([s[i]], None, "일")] + FiguresFrom(s, i + 2)
  {
    var e := i + 1;
    assert DigitsEnd(s, i) == e && NumberEnds(s, i) == [e];
    assert s[i..e] == [s[i]] && SpaceEnd(s, e) == e;
    assert Ranged(s, [s[i]], e) == None;
    DayUnit(s, e);
    assert Closed(s, [s[i]], None, e) == Some(Found(Match([s[i]], None, "일"), i + 2));
  }

  lemma SecondUnit(s: string, e: nat, units: seq<string>)
    requires e <= |s| && |units| >= 2 && !UnitAt(s, e, units[0]) && UnitAt(s, e, units[1])
    ensures FirstUnit(s, e, units) == Some(units[1])
  {
    hide UnitAt;
    assert units[1..][0] == units[1];
  }

  lemma StartsOtherwise(part: string, s: string, i: nat)
    requires part != "" && i < |s| && part[0] != s[i]
    ensures !At(part, s, i)
  {
  }

  lemma DayUnit(s: string, e: nat)
    requires e < |s| && s[e] == '일' && (e + 1 < |s| ==> !('a' <= s[e + 1] <= 'z'))
    ensures FirstUnit(s, e, UNITS) == Some("일")
  {
    assert UNITS[0] == "영업일" && UNITS[1] == "일" && |UNITS| >= 2;
    hide UNITS;
    StartsOtherwise("영업일", s, e);
    assert At("일", s, e) by { assert s[e..e + 1] == [s[e]]; }
    hide FirstUnit;
    SecondUnit(s, e, UNITS);
  }

  lemma NoFigureHere(s: string, i: nat)
    requires i < |s| && !IsDigit(s[i])
    ensures FiguresFrom(s, i) == FiguresFrom(s, i + 1)
  {
  }

  /** A digit and a day, alone. */
  lemma OneDay(s: string)
    requires |s| == 2 && IsDigit(s[0]) && s[1] == '일'
    ensures FigureMatches(s) == [Match([s[0]], None, "일")]
  {
    assert FiguresFrom(s, 2) == [];
    hide FiguresFrom;
    DigitDay(s, 0);
  }

  /** Two of them with a comma between. */
  lemma TwoDays(s: string)
    requires |s| == 6 && IsDigit(s[0]) && s[1] == '일' && s[2] == ',' && s[3] == ' ' && IsDigit(s[4]) && s[5] == '일'
    ensures FigureMatches(s) == [Match([s[0]], None, "일"), Match([s[4]], None, "일")]
  {
    assert FiguresFrom(s, 6) == [];
    hide FiguresFrom;
    DigitDay(s, 0);
    NoFigureHere(s, 2);
    NoFigureHere(s, 3);
    DigitDay(s, 4);
  }

  lemma WhatTheyState()
    ensures FigureMatches(FEW) == [Match("2", None, "일")]
    ensures FigureMatches(MORE) == [Match("2", None, "일"), Match("3", None, "일")]
  {
    hide FigureMatches;
    OneDay(FEW);
    TwoDays(MORE);
    assert [FEW[0]] == "2" && [MORE[0]] == "2" && [MORE[4]] == "3";
  }

  lemma BothNormal()
    ensures NormalizeContent(FEW) == FEW && NormalizeContent(MORE) == MORE
  {
    PlainText(FEW);
    PlainText(MORE);
  }

  lemma PlainText(s: string)
    requires Tidy(s) && Trimmed(s) && |s| <= CANDIDATE_MAX_CHARS
    ensures NormalizeContent(s) == s
  {
    TidyStays(s);
    TrimTrims(s);
  }

  /** A row that says two figures takes a candidate that says one of them; the other way round they contradict. */
  lemma OneWayOnly(row: Existing, other: Existing, title: string)
    requires row.body == MORE && other.body == FEW && Trim(row.title) != Trim(title) && Trim(other.title) != Trim(title)
    ensures Judge([row], FEW, title, FigureMatches) == Fine
    ensures Judge([other], MORE, title, FigureMatches) == Conflict(other, DifferentFigure)
  {
    BothNormal();
    WhatTheyState();
    hide NormalizeContent, FigureMatches;
    assert |FEW| == 2 && |MORE| == 6;
    LeavingAFigureOut([row], FEW, title, FigureMatches);
    LeavingAFigureOut([other], MORE, title, FigureMatches);
    Stays(FigureMatches(FEW), FigureMatches(MORE));
    Adds(FigureMatches(MORE), FigureMatches(FEW));
    JudgeIsJudged([other], MORE, title, FigureMatches);
  }

  lemma Stays(mine: seq<Match>, theirs: seq<Match>)
    requires forall m :: m in mine ==> m in theirs
    ensures AddsNoValue(mine, theirs)
  {
  }

  lemma Adds(mine: seq<Match>, theirs: seq<Match>)
    requires theirs == [Match("2", None, "일")] && mine == theirs + [Match("3", None, "일")]
    ensures !AddsNoValue(mine, theirs)
  {
    assert mine[1] in mine && mine[1].unit == "일" && ValueOf(mine[1]) == "3";
    assert theirs[0] in theirs;
    assert States(mine, "일", "3") && StatesUnit(theirs, "일");
    assert "2"[0] != "3"[0];
    assert !States(theirs, "일", "3");
  }
}
