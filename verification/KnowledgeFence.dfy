/** The fence before a save: a candidate that repeats or contradicts what already stands in its scope. */
module KnowledgeFence {
  import opened Base
  import opened Text
  import opened Candidate

  datatype Scope = Org | Product

  /** A stored rule or document; the type is the rule type of an ORG row and the source type of a PRODUCT row. */
  datatype Existing = Existing(id: string, title: string, body: string, kind: string, variantId: Option<string>)

  datatype Reason = SameTitle | DifferentFigure

  datatype Verdict = Fine | Duplicate(existing: Existing) | Conflict(existing: Existing, reason: Reason)

  /** One figure the text states, as the pattern over figures finds it. */
  datatype Match = Match(value: string, upper: Option<string>, unit: string)

  const UNTYPED_ORG_KINDS := {"GENERAL_CS_FAQ", "OTHER"}

  function ValueOf(m: Match): string {
    if m.upper.Some? && m.upper.value != "" then m.value + "~" + m.upper.value else m.value
  }

  /** Figures by unit: a unit is present when some match states it, with exactly the values stated for it. */
  method FiguresOf(matches: seq<Match>) returns (figures: map<string, set<string>>)
    ensures figures == Figures(matches)
  {
    figures := map[];
    NoFigures();
    hide *;
    for i := 0 to |matches|
      invariant figures == Figures(matches[..i])
    {
      var m := matches[i];
      var known := if m.unit in figures then figures[m.unit] else {};
      figures := figures[m.unit := known + {ValueOf(m)}];
      assert matches[..i + 1] == matches[..i] + [m];
      FiguresMore(matches[..i], m);
    }
    assert matches[..|matches|] == matches;
  }

  ghost function Figures(matches: seq<Match>): map<string, set<string>> {
    map u | u in Units(matches) :: ValuesFor(u, matches)
  }

  function Units(matches: seq<Match>): set<string> { set m | m in matches :: m.unit }

  function ValuesFor(unit: string, matches: seq<Match>): set<string> {
    set m | m in matches && m.unit == unit :: ValueOf(m)
  }

  lemma NoFigures()
    ensures Figures([]) == map[]
  {
    assert Units([]) == {};
  }

  lemma FiguresMore(ms: seq<Match>, m: Match)
    ensures Figures(ms + [m]) ==
      Figures(ms)[m.unit := (if m.unit in Figures(ms) then Figures(ms)[m.unit] else {}) + {ValueOf(m)}]
  {
    var left := Figures(ms + [m]);
    var right := Figures(ms)[m.unit := (if m.unit in Figures(ms) then Figures(ms)[m.unit] else {}) + {ValueOf(m)}];
    assert forall x :: x in ms + [m] <==> x in ms || x == m;
    forall u ensures (u in left <==> u in right) && (u in left ==> left[u] == right[u]) {
      if u in left { assert forall v :: v in left[u] <==> v in right[u]; }
    }
  }

  predicate InScope(e: Existing, scope: Scope, kind: string, variantId: Option<string>) {
    match scope
    case Org => e.kind == kind || e.kind in UNTYPED_ORG_KINDS
    case Product => e.variantId == variantId || e.variantId.None?
  }

  /** A unit both state, for which the candidate states a value the other does not. */
  ghost predicate Contradicts(mine: map<string, set<string>>, theirs: map<string, set<string>>) {
    exists unit :: unit in mine && unit in theirs && !(mine[unit] <= theirs[unit])
  }

  ghost predicate IsFirst(rows: seq<Existing>, e: Existing, holds: Existing -> bool) {
    exists i :: 0 <= i < |rows| && rows[i] == e && holds(e) && forall j :: 0 <= j < i ==> !holds(rows[j])
  }

  ghost predicate NoneOf(rows: seq<Existing>, holds: Existing -> bool) {
    forall i :: 0 <= i < |rows| ==> !holds(rows[i])
  }

  ghost function Repeating(content: string): Existing -> bool {
    (e: Existing) => NormalizeContent(e.body) == NormalizeContent(content)
  }

  ghost function Titled(title: string): Existing -> bool { (e: Existing) => Trim(e.title) == Trim(title) }

  ghost function Differing(content: string, matches: string -> seq<Match>): Existing -> bool {
    (e: Existing) =>
      Contradicts(Figures(matches(NormalizeContent(content))), Figures(matches(NormalizeContent(e.body))))
  }

  /** What the verdict means, for the rows of the scope in their listed order. */
  ghost predicate Judged(
    v: Verdict, rows: seq<Existing>, content: string, title: string, matches: string -> seq<Match>)
  {
    match v
    case Duplicate(e) => IsFirst(rows, e, Repeating(content))
    case Conflict(e, SameTitle) => NoneOf(rows, Repeating(content)) && IsFirst(rows, e, Titled(title))
    case Conflict(e, DifferentFigure) =>
      NoneOf(rows, Repeating(content)) && NoneOf(rows, Titled(title)) && IsFirst(rows, e, Differing(content, matches))
    case Fine =>
      NoneOf(rows, Repeating(content)) && NoneOf(rows, Titled(title)) && NoneOf(rows, Differing(content, matches))
  }

  /** The first row that satisfies `holds`, or none. */
  ghost predicate Finds(found: Option<Existing>, rows: seq<Existing>, holds: Existing -> bool) {
    if found.Some? then IsFirst(rows, found.value, holds) else NoneOf(rows, holds)
  }

  function Filtered(rows: seq<Existing>, scope: Scope, kind: string, variantId: Option<string>): seq<Existing> {
    if rows == [] then []
    else
      Filtered(rows[..|rows| - 1], scope, kind, variantId)
      + if InScope(rows[|rows| - 1], scope, kind, variantId) then [rows[|rows| - 1]] else []
  }

  method JudgeCandidate(
    content: string, title: string, existing: seq<Existing>, scope: Scope, kind: string, variantId: Option<string>,
    matches: string -> seq<Match>
  ) returns (v: Verdict)
    ensures Judged(v, Filtered(existing, scope, kind, variantId), content, title, matches)
  {
    var rows := Filtered(existing, scope, kind, variantId);
    var repeat := FindRepeat(rows, content);
    if repeat.Some? { return Duplicate(repeat.value); }
    var titled := FindTitled(rows, title);
    if titled.Some? { return Conflict(titled.value, SameTitle); }
    var differing := FindDiffering(rows, content, matches);
    v := if differing.Some? then Conflict(differing.value, DifferentFigure) else Fine;
  }

  /* ---- the verdict as a function ---- */

  ghost function FirstThat(rows: seq<Existing>, holds: Existing -> bool): Option<Existing> {
    if rows == [] then None else if holds(rows[0]) then Some(rows[0]) else FirstThat(rows[1..], holds)
  }

  ghost function Judge(rows: seq<Existing>, content: string, title: string, matches: string -> seq<Match>): Verdict {
    var repeat := FirstThat(rows, Repeating(content));
    var titled := FirstThat(rows, Titled(title));
    var differing := FirstThat(rows, Differing(content, matches));
    if repeat.Some? then Duplicate(repeat.value)
    else if titled.Some? then Conflict(titled.value, SameTitle)
    else if differing.Some? then Conflict(differing.value, DifferentFigure)
    else Fine
  }

  lemma {:induction false} FirstThatFinds(rows: seq<Existing>, holds: Existing -> bool)
    ensures Finds(FirstThat(rows, holds), rows, holds)
  {
    if rows != [] && !holds(rows[0]) {
      FirstThatFinds(rows[1..], holds);
      var found := FirstThat(rows[1..], holds);
      if found.Some? {
        var i :| 0 <= i < |rows[1..]| && rows[1..][i] == found.value && forall j :: 0 <= j < i ==> !holds(rows[1..][j]);
        assert rows[i + 1] == found.value;
        forall j | 0 <= j < i + 1 ensures !holds(rows[j]) { if j > 0 { assert rows[j] == rows[1..][j - 1]; } }
      } else {
        forall j | 0 <= j < |rows| ensures !holds(rows[j]) { if j > 0 { assert rows[j] == rows[1..][j - 1]; } }
      }
    }
  }

  lemma JudgeIsJudged(rows: seq<Existing>, content: string, title: string, matches: string -> seq<Match>)
    ensures Judged(Judge(rows, content, title, matches), rows, content, title, matches)
  {
    FirstThatFinds(rows, Repeating(content));
    FirstThatFinds(rows, Titled(title));
    FirstThatFinds(rows, Differing(content, matches));
  }

  method FindRepeat(rows: seq<Existing>, content: string) returns (found: Option<Existing>)
    ensures Finds(found, rows, Repeating(content))
  {
    hide NormalizeContent;
    var norm := NormalizeContent(content);
    for i := 0 to |rows|
      invariant forall j :: 0 <= j < i ==> !Repeating(content)(rows[j])
    {
      if NormalizeContent(rows[i].body) == norm { return Some(rows[i]); }
    }
    found := None;
  }

  method FindTitled(rows: seq<Existing>, title: string) returns (found: Option<Existing>)
    ensures Finds(found, rows, Titled(title))
  {
    for i := 0 to |rows|
      invariant forall j :: 0 <= j < i ==> !Titled(title)(rows[j])
    {
      if Trim(rows[i].title) == Trim(title) { return Some(rows[i]); }
    }
    found := None;
  }

  method FindDiffering(
    rows: seq<Existing>, content: string, matches: string -> seq<Match>) returns (found: Option<Existing>)
    ensures Finds(found, rows, Differing(content, matches))
  {
    hide NormalizeContent, Contradicts, Figures;
    var mine := FiguresOf(matches(NormalizeContent(content)));
    for i := 0 to |rows|
      invariant forall j :: 0 <= j < i ==> !Differing(content, matches)(rows[j])
    {
      var theirs := FiguresOf(matches(NormalizeContent(rows[i].body)));
      var differs := SomeUnitDiffers(mine, theirs);
      if differs { return Some(rows[i]); }
    }
    found := None;
  }

  method SomeUnitDiffers(mine: map<string, set<string>>, theirs: map<string, set<string>>) returns (differs: bool)
    ensures differs <==> Contradicts(mine, theirs)
  {
    var units := mine.Keys;
    while units != {}
      invariant units <= mine.Keys
      invariant forall u :: u in mine && u in theirs && u !in units ==> mine[u] <= theirs[u]
      decreases units
    {
      var unit :| unit in units;
      if unit in theirs && exists v :: v in mine[unit] && v !in theirs[unit] { return true; }
      units := units - {unit};
    }
    differs := false;
  }

  lemma {:induction false} FilteredHas(
    rows: seq<Existing>, e: Existing, scope: Scope, kind: string, variantId: Option<string>)
    ensures e in Filtered(rows, scope, kind, variantId) <==> e in rows && InScope(e, scope, kind, variantId)
  {
    if rows != [] {
      FilteredHas(rows[..|rows| - 1], e, scope, kind, variantId);
      assert rows == rows[..|rows| - 1] + [rows[|rows| - 1]];
    }
  }

  /** Who is read against whom: rules of the same type or of none, facts of the same variant or of the listing. */
  predicate Concerns(e: Existing, scope: Scope, kind: string, variantId: Option<string>) {
    || (scope == Org && (e.kind == kind || e.kind == "GENERAL_CS_FAQ" || e.kind == "OTHER"))
    || (scope == Product && (e.variantId == variantId || e.variantId == None))
  }

  /** The rows judged are all that concern the candidate, in the order they were read. */
  lemma {:induction false} ReadsWhatConcerns(
    rows: seq<Existing>, more: seq<Existing>, e: Existing, scope: Scope, kind: string, variantId: Option<string>)
    ensures e in Filtered(rows, scope, kind, variantId) <==> e in rows && Concerns(e, scope, kind, variantId)
    ensures Filtered(rows + more, scope, kind, variantId)
      == Filtered(rows, scope, kind, variantId) + Filtered(more, scope, kind, variantId)
    decreases |more|
  {
    FilteredHas(rows, e, scope, kind, variantId);
    hide InScope;
    if more == [] {
      assert rows + more == rows;
    } else {
      var n := |more| - 1;
      assert (rows + more)[..|rows + more| - 1] == rows + more[..n];
      ReadsWhatConcerns(rows, more[..n], e, scope, kind, variantId);
    }
    ConcernsIt(e, scope, kind, variantId);
  }

  lemma ConcernsIt(e: Existing, scope: Scope, kind: string, variantId: Option<string>)
    ensures InScope(e, scope, kind, variantId) <==> Concerns(e, scope, kind, variantId)
  {
  }

  /**
   * Main result. A sentence that was saved in a scope is judged a duplicate there ever after, however it is
   * titled the next time, whenever the normal forms agree and its row is among those read; a rule of no type
   * and a fact of the whole listing count for every question of their scope.
   */
  lemma SavedIsADuplicate(
    v: Verdict, said: string, again: string, title: string, existing: seq<Existing>, row: Existing,
    scope: Scope, kind: string, variantId: Option<string>, matches: string -> seq<Match>)
    requires row in existing && row.body == NormalizeContent(said)
    requires Concerns(row, scope, kind, variantId)
    requires NormalizeContent(again) == NormalizeContent(said)
    requires Judged(v, Filtered(existing, scope, kind, variantId), NormalizeContent(again), title, matches)
    ensures v.Duplicate?
  {
    var rows := Filtered(existing, scope, kind, variantId);
    FilteredHas(existing, row, scope, kind, variantId);
    var i :| 0 <= i < |rows| && rows[i] == row;
    assert Repeating(NormalizeContent(again))(rows[i]);
  }

  /** In particular when it was only spaced otherwise: the same but for its gaps and the white space around it. */
  lemma RespacedIsADuplicate(
    v: Verdict, said: string, again: string, title: string, existing: seq<Existing>, row: Existing,
    scope: Scope, kind: string, variantId: Option<string>, matches: string -> seq<Match>)
    requires row in existing && row.body == NormalizeContent(said)
    requires Concerns(row, scope, kind, variantId)
    requires SameButGaps(Trim(again), Trim(said))
    requires Judged(v, Filtered(existing, scope, kind, variantId), NormalizeContent(again), title, matches)
    ensures v.Duplicate?
  {
    hide NormalizeContent, Judged, SameButGaps, Trim;
    SharedNormalForm(again, said);
    SavedIsADuplicate(v, said, again, title, existing, row, scope, kind, variantId, matches);
  }

  /** Only rows of the scope can be held against a candidate, and with none read everything is fine. */
  lemma OnlyTheScopeJudges(
    v: Verdict, content: string, title: string, existing: seq<Existing>, scope: Scope, kind: string,
    variantId: Option<string>,
    matches: string -> seq<Match>)
    requires Judged(v, Filtered(existing, scope, kind, variantId), content, title, matches)
    ensures !v.Fine? ==> v.existing in existing && Concerns(v.existing, scope, kind, variantId)
    ensures existing == [] ==> v.Fine?
  {
    if !v.Fine? { FilteredHas(existing, v.existing, scope, kind, variantId); }
  }

  /** The verdict is determined: a candidate has exactly one. */
  lemma OneVerdict(
    a: Verdict, b: Verdict, rows: seq<Existing>, content: string, title: string, matches: string -> seq<Match>)
    requires Judged(a, rows, content, title, matches) && Judged(b, rows, content, title, matches)
    ensures a == b
  {
    hide Repeating, Titled, Differing;
    if a.Fine? || b.Fine? {
    } else if a.Conflict? && b.Conflict? && a.reason == b.reason {
    }
  }

  /**
   * The checks come in turn, each over all the rows: a row of the same normal form makes a duplicate of the
   * first such row; else a row of the same title, trimmed, a conflict of title with the first such row; and
   * only then figures are compared.
   */
  lemma ChecksComeInTurn(v: Verdict, rows: seq<Existing>, content: string, title: string,
    matches: string -> seq<Match>, i: nat)
    requires Judged(v, rows, content, title, matches) && i < |rows|
    ensures NormalizeContent(rows[i].body) == NormalizeContent(content)
      && (forall j :: 0 <= j < i ==> NormalizeContent(rows[j].body) != NormalizeContent(content))
      ==> v == Duplicate(rows[i])
    ensures (forall j :: 0 <= j < |rows| ==> NormalizeContent(rows[j].body) != NormalizeContent(content))
      && Trim(rows[i].title) == Trim(title) && (forall j :: 0 <= j < i ==> Trim(rows[j].title) != Trim(title))
      ==> v == Conflict(rows[i], SameTitle)
  {
    hide NormalizeContent, Trim, Differing;
    assert forall j :: 0 <= j < |rows| ==>
      (Repeating(content)(rows[j]) <==> NormalizeContent(rows[j].body) == NormalizeContent(content));
    assert forall j :: 0 <= j < |rows| ==> (Titled(title)(rows[j]) <==> Trim(rows[j].title) == Trim(title));
  }

  function Ending(m: Match): string { if m.upper.GetOr("") == "" then "" else "~" + m.upper.value }

  /** A range is one value, told from every number and from every other range. */
  lemma RangesAreTold(a: Match, b: Match)
    requires '~' !in a.value && '~' !in b.value
    ensures ValueOf(a) == ValueOf(b) <==> a.value == b.value && a.upper.GetOr("") == b.upper.GetOr("")
  {
    var p, q := Ending(a), Ending(b);
    assert ValueOf(a) == a.value + p by { assert p != "" ==> ValueOf(a) == a.value + p; }
    assert ValueOf(b) == b.value + q by { assert q != "" ==> ValueOf(b) == b.value + q; }
    assert p != "" ==> p[1..] == a.upper.value;
    assert q != "" ==> q[1..] == b.upper.value;
    Told(a.value, p, b.value, q);
  }

  /** Up to the first tilde. */
  lemma Told(x: string, p: string, y: string, q: string)
    requires '~' !in x && '~' !in y && (p == "" || p[0] == '~') && (q == "" || q[0] == '~')
    ensures x + p == y + q <==> x == y && p == q
  {
    if |x| < |y| {
      Shorter(x, p, y, q);
    } else if |y| < |x| {
      Shorter(y, q, x, p);
    } else {
      assert (x + p)[..|x|] == x && (x + p)[|x|..] == p;
      assert (y + q)[..|y|] == y && (y + q)[|y|..] == q;
    }
  }

  lemma Shorter(x: string, p: string, y: string, q: string)
    requires |x| < |y| && '~' !in y && (p == "" || p[0] == '~')
    ensures x + p != y + q
  {
    assert (y + q)[|x|] == y[|x|];
    if p != "" { assert (x + p)[|x|] == '~'; }
  }

  /** A text states this value for this unit. */
  ghost predicate States(ms: seq<Match>, unit: string, value: string) {
    exists m :: m in ms && m.unit == unit && ValueOf(m) == value
  }

  ghost predicate StatesUnit(ms: seq<Match>, unit: string) { exists m :: m in ms && m.unit == unit }

  /** Wherever both texts state a unit, every value `mine` states for it is one `theirs` states. */
  ghost predicate AddsNoValue(mine: seq<Match>, theirs: seq<Match>) {
    forall unit, value :: States(mine, unit, value) && StatesUnit(theirs, unit) ==> States(theirs, unit, value)
  }

  lemma ContradictsByAValue(mine: seq<Match>, theirs: seq<Match>)
    ensures Contradicts(Figures(mine), Figures(theirs)) <==> !AddsNoValue(mine, theirs)
  {
    var a, b := Figures(mine), Figures(theirs);
    forall unit, value ensures States(mine, unit, value) <==> unit in a && value in a[unit] {
      Stated(mine, unit, value);
    }
    forall unit, value ensures States(theirs, unit, value) <==> unit in b && value in b[unit] {
      Stated(theirs, unit, value);
    }
    forall unit ensures StatesUnit(theirs, unit) <==> unit in b { UnitStated(theirs, unit); }
    hide Figures, States, StatesUnit;
    if unit :| unit in a && unit in b && !(a[unit] <= b[unit]) {
      var value :| value in a[unit] && value !in b[unit];
      assert States(mine, unit, value) && StatesUnit(theirs, unit) && !States(theirs, unit, value);
    }
    if !AddsNoValue(mine, theirs) {
      var unit, value :| States(mine, unit, value) && StatesUnit(theirs, unit) && !States(theirs, unit, value);
      assert unit in a && unit in b && value in a[unit] && value !in b[unit];
    }
  }

  lemma Stated(ms: seq<Match>, unit: string, value: string)
    ensures States(ms, unit, value) <==> unit in Figures(ms) && value in Figures(ms)[unit]
  {
  }

  lemma UnitStated(ms: seq<Match>, unit: string)
    ensures StatesUnit(ms, unit) <==> unit in Figures(ms)
  {
  }

  /**
   * The figure check looks one way. Against rows that neither repeat the candidate nor share its title, the
   * candidate is fine if and only if it adds no value to a unit any of them states; leaving values out is
   * never a contradiction.
   */
  lemma LeavingAFigureOut(rows: seq<Existing>, content: string, title: string, matches: string -> seq<Match>)
    requires NoneOf(rows, Repeating(content)) && NoneOf(rows, Titled(title))
    ensures Judge(rows, content, title, matches).Fine? <==>
      forall i :: 0 <= i < |rows| ==>
        AddsNoValue(matches(NormalizeContent(content)), matches(NormalizeContent(rows[i].body)))
  {
    hide NormalizeContent, AddsNoValue, Contradicts, Figures;
    JudgeIsJudged(rows, content, title, matches);
    forall i | 0 <= i < |rows|
      ensures Differing(content, matches)(rows[i])
        <==> !AddsNoValue(matches(NormalizeContent(content)), matches(NormalizeContent(rows[i].body)))
    {
      ContradictsByAValue(matches(NormalizeContent(content)), matches(NormalizeContent(rows[i].body)));
    }
  }
}
