/** Which variant of a listing an answer names: a whole option name, or one of its tokens. */
module VariantNaming {
  import opened Text

  datatype Variant = Variant(id: string, name: string)

  datatype VariantAnswer = Named(id: string, name: string) | Generic | Unresolved

  predicate Contains(text: string, part: string) {
    exists i :: 0 <= i <= |text| && At(part, text, i)
  }

  predicate Separates(c: char) { IsSpace(c) || c in {'/', ',', '(', ')', '·'} }

  predicate HasDigit(s: string) { exists i :: 0 <= i < |s| && '0' <= s[i] <= '9' }

  predicate IsToken(s: string) { |s| >= 2 && HasDigit(s) }

  /** The pieces of a name between separators, `piece` being the one under way. */
  function Pieces(s: string, piece: string): seq<string> {
    if s == "" then [piece]
    else if Separates(s[0]) then [piece] + Pieces(s[1..], "")
    else Pieces(s[1..], piece + [s[0]])
  }

  function Tokens(name: string): set<string> { set p | p in Pieces(name, "") && IsToken(p) }

  /* ---- what a token is, written out ---- */

  predicate Parts(c: char) { IsSpace(c) || c == '/' || c == ',' || c == '(' || c == ')' || c == '·' }

  /** `s[i..j]` holds nothing that parts, and stands between two that do, or an end. */
  ghost predicate StandsAlone(s: string, i: int, j: int) {
    && 0 <= i <= j <= |s| && (i == 0 || Parts(s[i - 1])) && (j == |s| || Parts(s[j]))
    && forall k :: i <= k < j ==> !Parts(s[k])
  }

  ghost predicate PieceOf(p: string, s: string) { exists i, j :: StandsAlone(s, i, j) && s[i..j] == p }

  lemma FirstPiece(piece: string, c: char, rest: string, p: string)
    requires Parts(c) && forall k :: 0 <= k < |piece| ==> !Parts(piece[k])
    ensures PieceOf(p, piece + [c] + rest) <==> p == piece || PieceOf(p, rest)
  {
    hide Parts;
    var s := piece + [c] + rest;
    if p == piece { assert StandsAlone(s, 0, |piece|) && s[0..|piece|] == piece; }
    if i, j :| StandsAlone(rest, i, j) && rest[i..j] == p { LaterPiece(piece, c, rest, i, j); }
    if i, j :| StandsAlone(s, i, j) && s[i..j] == p {
      if i <= |piece| { IsThePiece(piece, c, rest, i, j); } else { EarlierCut(piece, c, rest, i, j); }
    }
  }

  lemma IsThePiece(piece: string, c: char, rest: string, i: int, j: int)
    requires Parts(c) && forall k :: 0 <= k < |piece| ==> !Parts(piece[k])
    requires StandsAlone(piece + [c] + rest, i, j) && i <= |piece|
    ensures i == 0 && j == |piece| && (piece + [c] + rest)[i..j] == piece
  {
    hide Parts;
    var s := piece + [c] + rest;
    assert s[|piece|] == c && s[0..|piece|] == piece;
    assert forall k :: 0 <= k < |piece| ==> !Parts(s[k]);
  }

  lemma LaterPiece(piece: string, c: char, rest: string, i: int, j: int)
    requires Parts(c) && StandsAlone(rest, i, j)
    ensures var s, n := piece + [c] + rest, |piece| + 1; StandsAlone(s, i + n, j + n) && s[i + n..j + n] == rest[i..j]
  {
    hide Parts;
    var s, n := piece + [c] + rest, |piece| + 1;
    assert s[n..] == rest && s[n - 1] == c;
    ShiftedSlice(s, n, i + n, j + n);
    forall k | i + n <= k < j + n ensures !Parts(s[k]) { assert s[k] == rest[k - n]; }
    if i > 0 { assert s[i + n - 1] == rest[i - 1]; }
    if j < |rest| { assert s[j + n] == rest[j]; }
  }

  lemma ShiftedSlice(s: string, n: nat, i: nat, j: nat)
    requires n <= i <= j <= |s|
    ensures s[i..j] == s[n..][i - n..j - n]
  {
  }

  lemma EarlierCut(piece: string, c: char, rest: string, i: int, j: int)
    requires StandsAlone(piece + [c] + rest, i, j) && i > |piece|
    ensures var n := |piece| + 1; StandsAlone(rest, i - n, j - n) && rest[i - n..j - n] == (piece + [c] + rest)[i..j]
  {
    hide Parts;
    var s, n := piece + [c] + rest, |piece| + 1;
    assert s[n..] == rest;
    ShiftedSlice(s, n, i, j);
    forall k | i - n <= k < j - n ensures !Parts(rest[k]) { assert s[k + n] == rest[k]; }
    if i > n { assert s[i - 1] == rest[i - n - 1]; }
    if j < |s| { assert s[j] == rest[j - n]; }
  }

  lemma {:induction false} PiecesAre(s: string, piece: string, p: string)
    requires forall k :: 0 <= k < |piece| ==> !Parts(piece[k])
    ensures p in Pieces(s, piece) <==> PieceOf(p, piece + s)
    decreases |s|
  {
    if s == "" {
      OnePiece(piece, p);
      assert piece + s == piece;
    } else if Separates(s[0]) {
      PiecesAre(s[1..], "", p);
      assert "" + s[1..] == s[1..] && piece + [s[0]] + s[1..] == piece + s;
      FirstPiece(piece, s[0], s[1..], p);
    } else {
      PiecesAre(s[1..], piece + [s[0]], p);
      assert piece + [s[0]] + s[1..] == piece + s;
    }
  }

  lemma OnePiece(piece: string, p: string)
    requires forall k :: 0 <= k < |piece| ==> !Parts(piece[k])
    ensures PieceOf(p, piece) <==> p == piece
  {
    hide Parts;
    assert StandsAlone(piece, 0, |piece|) && piece[0..|piece|] == piece;
    if i, j :| StandsAlone(piece, i, j) && piece[i..j] == p {
      assert i == 0 && j == |piece|;
    }
  }

  /**
   * A token is a piece of the name between white space, slashes, commas, brackets or dots, of two characters
   * or more, at least one of them a digit.
   */
  lemma WhatATokenIs(name: string, t: string)
    ensures t in Tokens(name) <==>
      PieceOf(t, name) && |t| >= 2 && exists i :: 0 <= i < |t| && '0' <= t[i] <= '9'
  {
    PiecesAre(name, "", t);
    assert "" + name == name;
  }

  /** The options whose whole name the text contains, in listed order. */
  function Whole(text: string, variants: seq<Variant>): seq<Variant> {
    if variants == [] then []
    else
      var last := variants[|variants| - 1];
      Whole(text, variants[..|variants| - 1])
      + if Trim(last.name) != "" && Contains(text, Trim(last.name)) then [last] else []
  }

  /** The options that have this token, in listed order. */
  function Having(token: string, variants: seq<Variant>): seq<Variant> {
    if variants == [] then []
    else
      Having(token, variants[..|variants| - 1])
      + if token in Tokens(variants[|variants| - 1].name) then [variants[|variants| - 1]] else []
  }

  /** Tokens of the listing that the text contains. */
  function Heard(text: string, variants: seq<Variant>): set<string> {
    set v, t | v in variants && t in Tokens(v.name) && Contains(text, t) :: t
  }

  predicate OneId(vs: seq<Variant>) { forall i :: 0 <= i < |vs| ==> vs[i].id == vs[0].id }

  /** Heard tokens that belong to one option only. */
  function Telling(text: string, variants: seq<Variant>): set<string> {
    set t | t in Heard(text, variants) && OneId(Having(t, variants))
  }

  /**
   * The answer: `generic` says it is for every variant; one whole option name decides, several decide
   * nothing; without any, exactly one telling token decides.
   */
  ghost function AnswerOf(text: string, variants: seq<Variant>, generic: bool): VariantAnswer {
    var whole, telling := Whole(text, variants), Telling(text, variants);
    if generic then Generic
    else if |whole| > 1 then Unresolved
    else if |whole| == 1 then Named(whole[0].id, whole[0].name)
    else if |telling| == 1 then
      OneElement(telling);
      var t :| t in telling;
      HeardIsHad(text, variants, t);
      Named(Having(t, variants)[0].id, Having(t, variants)[0].name)
    else Unresolved
  }

  method VariantFromAnswer(text: string, variants: seq<Variant>, generic: bool) returns (r: VariantAnswer)
    ensures r == AnswerOf(text, variants, generic)
  {
    if generic { return Generic; }
    var whole := Whole(text, variants);
    if |whole| == 1 { return Named(whole[0].id, whole[0].name); }
    if |whole| > 1 { return Unresolved; }
    var tokenHits := CollectHits(text, variants);
    var telling := TellingOf(tokenHits);
    assert telling == Telling(text, variants);
    if |telling| == 1 {
      OneElement(telling);
      var t :| t in telling;
      HeardIsHad(text, variants, t);
      return Named(tokenHits[t][0].id, tokenHits[t][0].name);
    }
    r := Unresolved;
  }

  method TellingOf(tokenHits: map<string, seq<Variant>>) returns (telling: set<string>)
    ensures telling == set t | t in tokenHits && OneId(tokenHits[t])
  {
    hide OneId;
    var left := tokenHits.Keys;
    telling := {};
    while left != {}
      invariant left <= tokenHits.Keys && telling !! left
      invariant telling == set t | t in tokenHits.Keys - left && OneId(tokenHits[t])
      decreases left
    {
      var t :| t in left;
      if OneId(tokenHits[t]) { telling := telling + {t}; }
      left := left - {t};
    }
  }

  method CollectHits(text: string, variants: seq<Variant>) returns (tokenHits: map<string, seq<Variant>>)
    ensures tokenHits.Keys == Heard(text, variants)
    ensures forall t :: t in tokenHits ==> tokenHits[t] == Having(t, variants)
  {
    tokenHits := map[];
    for i := 0 to |variants|
      invariant tokenHits.Keys == Heard(text, variants[..i])
      invariant forall t :: t in tokenHits ==> tokenHits[t] == Having(t, variants[..i])
    {
      assert variants[..i + 1] == variants[..i] + [variants[i]];
      ghost var before := tokenHits;
      tokenHits := AddHits(text, variants[i], tokenHits);
      OneVariantMore(text, variants[..i], variants[i], before, tokenHits);
    }
    assert variants[..|variants|] == variants;
  }

  function HeardIn(text: string, v: Variant): set<string> { set t | t in Tokens(v.name) && Contains(text, t) }

  method AddHits(text: string, v: Variant, before: map<string, seq<Variant>>) returns (hits: map<string, seq<Variant>>)
    ensures hits.Keys == before.Keys + HeardIn(text, v)
    ensures forall t :: t in hits ==>
      hits[t] == (if t in before then before[t] else []) + if t in HeardIn(text, v) then [v] else []
  {
    hide HeardIn;
    hits := before;
    var left := HeardIn(text, v);
    while left != {}
      invariant left <= HeardIn(text, v) && hits.Keys == before.Keys + (HeardIn(text, v) - left)
      invariant forall t :: t in hits ==>
        hits[t] == (if t in before then before[t] else []) + if t in HeardIn(text, v) - left then [v] else []
      decreases left
    {
      var token :| token in left;
      hits := hits[token := (if token in hits then hits[token] else []) + [v]];
      left := left - {token};
    }
  }

  lemma OneVariantMore(
    text: string, front: seq<Variant>, v: Variant, before: map<string, seq<Variant>>, after: map<string, seq<Variant>>)
    requires before.Keys == Heard(text, front) && forall t :: t in before ==> before[t] == Having(t, front)
    requires after.Keys == before.Keys + HeardIn(text, v)
    requires forall t :: t in after ==>
      after[t] == (if t in before then before[t] else []) + if t in HeardIn(text, v) then [v] else []
    ensures after.Keys == Heard(text, front + [v])
    ensures forall t :: t in after ==> after[t] == Having(t, front + [v])
  {
    HeardMore(text, front, v);
    hide Heard, Tokens, Contains, HeardIn;
    forall t | t in after ensures after[t] == Having(t, front + [v]) { HavingMore(text, front, v, t); }
  }

  lemma HeardMore(text: string, front: seq<Variant>, v: Variant)
    ensures Heard(text, front + [v]) == Heard(text, front) + HeardIn(text, v)
  {
    hide Tokens, Contains;
    assert forall w :: w in front + [v] <==> w in front || w == v;
  }

  /** A heard token is had by the options it was had by before, and by the new one when that has it. */
  lemma HavingMore(text: string, front: seq<Variant>, v: Variant, t: string)
    requires t in Heard(text, front) || t in HeardIn(text, v)
    ensures Having(t, front + [v]) ==
      (if t in Heard(text, front) then Having(t, front) else []) + if t in HeardIn(text, v) then [v] else []
  {
    hide Tokens, Contains;
    assert (front + [v])[..|front|] == front;
    if t in HeardIn(text, v) { NotYetHad(text, front, t); } else { HeardSaysContained(text, front, t); }
  }

  lemma HeardSaysContained(text: string, variants: seq<Variant>, t: string)
    requires t in Heard(text, variants)
    ensures Contains(text, t)
  {
  }

  lemma {:induction false} NotYetHad(text: string, variants: seq<Variant>, token: string)
    requires Contains(text, token)
    ensures token !in Heard(text, variants) ==> Having(token, variants) == []
  {
    if variants != [] {
      var n := |variants| - 1;
      assert variants == variants[..n] + [variants[n]];
      NotYetHad(text, variants[..n], token);
    }
  }

  lemma {:induction false} HeardIsHad(text: string, variants: seq<Variant>, t: string)
    requires t in Heard(text, variants)
    ensures Having(t, variants) != []
  {
    var n := |variants| - 1;
    assert variants == variants[..n] + [variants[n]];
    if t !in Tokens(variants[n].name) { HeardIsHad(text, variants[..n], t); }
  }

  lemma {:induction false} HavingHas(token: string, variants: seq<Variant>, v: Variant)
    ensures v in Having(token, variants) <==> v in variants && token in Tokens(v.name)
  {
    if variants != [] {
      var n := |variants| - 1;
      assert variants == variants[..n] + [variants[n]];
      HavingHas(token, variants[..n], v);
    }
  }

  lemma OneElement(s: set<string>)
    requires |s| == 1
    ensures exists x :: s == {x}
  {
    var x :| x in s;
    assert |s - {x}| == 0;
    assert s == {x};
  }

  /** A telling token is the token of one listed option, which the text contains and no other option has. */
  predicate Tells(text: string, variants: seq<Variant>, t: string, v: Variant) {
    && v in variants && t in Tokens(v.name) && Contains(text, t)
    && forall w :: w in variants && t in Tokens(w.name) ==> w.id == v.id
  }

  lemma TellingTells(text: string, variants: seq<Variant>, t: string)
    ensures t in Telling(text, variants) ==>
      Having(t, variants) != [] && Tells(text, variants, t, Having(t, variants)[0])
    ensures t in Telling(text, variants) <==> exists v :: v in variants && Tells(text, variants, t, v)
  {
    if t in Telling(text, variants) {
      HeardIsHad(text, variants, t);
      var having := Having(t, variants);
      HavingHas(t, variants, having[0]);
      forall w | w in variants && t in Tokens(w.name) ensures w.id == having[0].id { HavingHas(t, variants, w); }
      assert Tells(text, variants, t, having[0]);
    }
    if v :| v in variants && Tells(text, variants, t, v) {
      var having := Having(t, variants);
      forall i | 0 <= i < |having| ensures having[i].id == v.id { HavingHas(t, variants, having[i]); }
      assert t in Heard(text, variants);
    }
  }

  predicate NamesWhole(text: string, v: Variant) { Trim(v.name) != "" && Contains(text, Trim(v.name)) }

  lemma {:induction false} WholeHas(text: string, variants: seq<Variant>, v: Variant)
    ensures v in Whole(text, variants) <==> v in variants && NamesWhole(text, v)
  {
    if variants != [] {
      var n := |variants| - 1;
      assert variants == variants[..n] + [variants[n]];
      WholeHas(text, variants[..n], v);
    }
  }

  /** The text says this option: the one whole name it contains, or without any, its one telling token. */
  ghost predicate Said(text: string, variants: seq<Variant>, v: Variant) {
    if Whole(text, variants) != [] then
      NamesWhole(text, v) && forall w :: w in variants && NamesWhole(text, w) ==> w == v
    else exists t :: Telling(text, variants) == {t} && Tells(text, variants, t, v)
  }

  /**
   * Main result, over every text and option list. An answer names an option only when the text contains
   * that listed option's whole name, or no whole name and a token of it that no other option has. It is by
   * name exactly when one whole name is contained; by token exactly when none is and exactly one token tells;
   * it is unresolved exactly when several whole names are contained, or none and not exactly one token tells.
   */
  lemma WhatIsNamed(text: string, variants: seq<Variant>, generic: bool)
    ensures var r := AnswerOf(text, variants, generic);
      var whole, telling := Whole(text, variants), Telling(text, variants);
      && (r.Generic? <==> generic)
      && (r.Unresolved? <==> !generic && (|whole| > 1 || (whole == [] && |telling| != 1)))
      && (r.Named? && whole != [] <==> !generic && |whole| == 1)
      && (r.Named? && whole == [] <==> !generic && whole == [] && |telling| == 1)
      && (r.Named? ==> exists v :: v in variants && r == Named(v.id, v.name) && Said(text, variants, v))
  {
    var r := AnswerOf(text, variants, generic);
    var whole, telling := Whole(text, variants), Telling(text, variants);
    if r.Named? && whole != [] {
      var v := whole[0];
      WholeHas(text, variants, v);
      forall w | w in variants && NamesWhole(text, w) ensures w == v { WholeHas(text, variants, w); }
      assert Said(text, variants, v);
    } else if r.Named? {
      OneElement(telling);
      var t :| telling == {t};
      TellingTells(text, variants, t);
      var v := Having(t, variants)[0];
      assert Tells(text, variants, t, v) && Said(text, variants, v);
    }
  }

  ghost predicate WholeAt(text: string, variants: seq<Variant>, i: int) {
    0 <= i < |variants| && NamesWhole(text, variants[i])
  }

  /** The text contains the whole name of this entry of the list and of no other. */
  ghost predicate SaidByName(text: string, variants: seq<Variant>, i: int) {
    WholeAt(text, variants, i) && forall j :: WholeAt(text, variants, j) ==> j == i
  }

  ghost predicate TellsOfOne(text: string, variants: seq<Variant>, t: string) {
    exists v :: v in variants && Tells(text, variants, t, v)
  }

  /** The text contains no whole name, and one single token of the list that is of one option, this entry's. */
  ghost predicate SaidByToken(text: string, variants: seq<Variant>, i: int) {
    && 0 <= i < |variants| && (forall j :: !WholeAt(text, variants, j))
    && exists t :: Tells(text, variants, t, variants[i]) && forall u :: TellsOfOne(text, variants, u) ==> u == t
  }

  /** Where in the list the contained whole names are, in order. */
  ghost predicate Places(text: string, variants: seq<Variant>, whole: seq<Variant>, at: seq<nat>) {
    && |at| == |whole|
    && (forall k :: 0 <= k < |at| ==> WholeAt(text, variants, at[k]) && whole[k] == variants[at[k]])
    && (forall j, k :: 0 <= j < k < |at| ==> at[j] < at[k])
    && (forall i :: WholeAt(text, variants, i) ==> i in at)
  }

  lemma PlacesMore(text: string, front: seq<Variant>, v: Variant, whole: seq<Variant>, at: seq<nat>)
    requires Places(text, front, whole, at)
    ensures if NamesWhole(text, v) then Places(text, front + [v], whole + [v], at + [|front|])
      else Places(text, front + [v], whole, at)
  {
    hide NamesWhole;
    assert forall i :: WholeAt(text, front, i) <==> WholeAt(text, front + [v], i) && i < |front|;
    assert WholeAt(text, front + [v], |front|) <==> NamesWhole(text, v);
    assert |front| in at + [|front|] && forall i :: i in at ==> i in at + [|front|];
  }

  lemma {:induction false} WholePlaces(text: string, variants: seq<Variant>) returns (at: seq<nat>)
    ensures Places(text, variants, Whole(text, variants), at)
  {
    at := [];
    if variants != [] {
      hide Places;
      var n := |variants| - 1;
      at := WholePlaces(text, variants[..n]);
      PlacesMore(text, variants[..n], variants[n], Whole(text, variants[..n]), at);
      assert variants == variants[..n] + [variants[n]];
      if NamesWhole(text, variants[n]) {
        at := at + [n];
      } else {
        assert Whole(text, variants[..n]) + [] == Whole(text, variants[..n]);
      }
    }
  }

  lemma NameDecides(text: string, variants: seq<Variant>, i: int)
    ensures Whole(text, variants) == [] <==> forall j :: !WholeAt(text, variants, j)
    ensures SaidByName(text, variants, i) ==> |Whole(text, variants)| == 1 && Whole(text, variants)[0] == variants[i]
    ensures |Whole(text, variants)| == 1 ==> exists j :: SaidByName(text, variants, j)
  {
    var at := WholePlaces(text, variants);
    hide Whole, NamesWhole;
    if at != [] { assert WholeAt(text, variants, at[0]); }
    if |at| == 1 { assert SaidByName(text, variants, at[0]); }
    if |at| > 1 { assert at[0] < at[1] && WholeAt(text, variants, at[1]); }
  }

  lemma TokenDecides(text: string, variants: seq<Variant>, i: int)
    requires forall j :: !WholeAt(text, variants, j)
    ensures SaidByToken(text, variants, i) ==> |Telling(text, variants)| == 1
    ensures |Telling(text, variants)| == 1 ==> exists j, t ::
      && Telling(text, variants) == {t} && SaidByToken(text, variants, j)
      && Having(t, variants) != [] && variants[j] == Having(t, variants)[0]
  {
    var telling := Telling(text, variants);
    forall u ensures u in telling <==> TellsOfOne(text, variants, u) { TellingTells(text, variants, u); }
    if SaidByToken(text, variants, i) {
      var t :| Tells(text, variants, t, variants[i]) && forall u :: TellsOfOne(text, variants, u) ==> u == t;
      assert TellsOfOne(text, variants, t);
      assert telling == {t};
    }
    if |telling| == 1 {
      OneElement(telling);
      var t :| telling == {t};
      TellingTells(text, variants, t);
      var j :| 0 <= j < |variants| && variants[j] == Having(t, variants)[0];
      assert SaidByToken(text, variants, j);
    }
  }

  /**
   * Main result, over every text and option list, in terms of the text and the list alone. An answer that is
   * not for all names the entry the text says by its whole name, or with no whole name in it by one telling
   * token; and it is unresolved exactly when the text says no entry in either way.
   */
  lemma WhatIsSaid(text: string, variants: seq<Variant>, generic: bool)
    ensures var r := AnswerOf(text, variants, generic);
      && (r.Generic? <==> generic)
      && (r.Named? ==> exists i ::
           && (SaidByName(text, variants, i) || SaidByToken(text, variants, i))
           && r == Named(variants[i].id, variants[i].name))
      && (r.Unresolved? <==>
           !generic && forall i :: !SaidByName(text, variants, i) && !SaidByToken(text, variants, i))
  {
    hide Whole, Telling, NamesWhole, Tells;
    forall i ensures SaidByName(text, variants, i) ==>
      |Whole(text, variants)| == 1 && Whole(text, variants)[0] == variants[i]
    {
      NameDecides(text, variants, i);
    }
    NameDecides(text, variants, 0);
    if forall j :: !WholeAt(text, variants, j) {
      forall i ensures SaidByToken(text, variants, i) ==> |Telling(text, variants)| == 1 {
        TokenDecides(text, variants, i);
      }
      TokenDecides(text, variants, 0);
    }
  }

  /** Two telling tokens, even of one option, decide nothing where no whole name, or several, are contained. */
  lemma TwoTokensAreUnresolved(text: string, variants: seq<Variant>, a: string, b: string)
    requires a in Telling(text, variants) && b in Telling(text, variants) && a != b
    ensures AnswerOf(text, variants, false).Unresolved? <==> |Whole(text, variants)| != 1
  {
    hide Telling, Whole;
    var all := Telling(text, variants);
    assert all == {a, b} + (all - {a, b});
  }

  /* ---- one listing, two answers ---- */

  const LISTING := [Variant("a", "A1 B2"), Variant("b", "C3 D4")]

  lemma {:induction false} PiecesOf(s: string, rest: string, piece: string)
    requires forall i :: 0 <= i < |s| ==> !Separates(s[i])
    ensures Pieces(s + rest, piece) == Pieces(rest, piece + s)
  {
    if s == "" {
      assert s + rest == rest && piece + s == piece;
    } else {
      assert (s + rest)[0] == s[0] && (s + rest)[1..] == s[1..] + rest;
      PiecesOf(s[1..], rest, piece + [s[0]]);
      assert piece + [s[0]] + s[1..] == piece + s;
    }
  }

  /** The tokens of a name of two words. */
  lemma TwoWords(x: string, y: string)
    requires IsToken(x) && IsToken(y)
    requires (forall i :: 0 <= i < |x| ==> !Separates(x[i])) && forall i :: 0 <= i < |y| ==> !Separates(y[i])
    ensures Tokens(x + " " + y) == {x, y}
  {
    assert x + " " + y == x + (" " + y);
    PiecesOf(x, " " + y, "");
    assert "" + x == x && (" " + y)[1..] == y && y + "" == y && "" + y == y;
    PiecesOf(y, "", "");
    assert Pieces(x + " " + y, "") == [x, y];
  }

  lemma ListingTokens()
    ensures Tokens("A1 B2") == {"A1", "B2"} && Tokens("C3 D4") == {"C3", "D4"}
  {
    assert "A1"[1] == '1' && "B2"[1] == '2' && "C3"[1] == '3' && "D4"[1] == '4';
    TwoWords("A1", "B2");
    TwoWords("C3", "D4");
    assert "A1" + " " + "B2" == "A1 B2" && "C3" + " " + "D4" == "C3 D4";
  }

  lemma BothTell(text: string)
    requires Contains(text, "A1") && Contains(text, "B2")
    ensures "A1" in Telling(text, LISTING) && "B2" in Telling(text, LISTING)
  {
    ListingTokens();
    assert LISTING[0] in LISTING;
    forall w | w in LISTING ensures w == LISTING[0] || w == LISTING[1] { }
    assert Tells(text, LISTING, "A1", LISTING[0]) && Tells(text, LISTING, "B2", LISTING[0]);
    TellingTells(text, LISTING, "A1");
    TellingTells(text, LISTING, "B2");
  }

  /** The same two tokens of one option: in the name's own order they name it, the other way round nothing. */
  lemma OrderMatters()
    ensures AnswerOf("A1 B2", LISTING, false) == Named("a", "A1 B2")
    ensures AnswerOf("B2 A1", LISTING, false) == Unresolved
  {
    assert Whole("A1 B2", LISTING) == [LISTING[0]] by {
      assert Contains("A1 B2", "A1 B2") by { SameLength("A1 B2", "A1 B2"); }
      assert !Contains("A1 B2", "C3 D4") by { SameLength("A1 B2", "C3 D4"); assert "A1 B2"[0] != "C3 D4"[0]; }
      WholeOfListing("A1 B2");
    }
    assert Whole("B2 A1", LISTING) == [] by {
      assert !Contains("B2 A1", "A1 B2") by { SameLength("B2 A1", "A1 B2"); assert "B2 A1"[0] != "A1 B2"[0]; }
      assert !Contains("B2 A1", "C3 D4") by { SameLength("B2 A1", "C3 D4"); assert "B2 A1"[0] != "C3 D4"[0]; }
      WholeOfListing("B2 A1");
    }
    assert Contains("B2 A1", "A1") && Contains("B2 A1", "B2") by {
      assert At("A1", "B2 A1", 3) && At("B2", "B2 A1", 0);
    }
    hide Contains, Telling, Whole;
    BothTell("B2 A1");
    TwoTokensAreUnresolved("B2 A1", LISTING, "A1", "B2");
  }

  lemma WholeOfListing(text: string)
    ensures Whole(text, LISTING) ==
      (if Contains(text, "A1 B2") then [LISTING[0]] else []) + if Contains(text, "C3 D4") then [LISTING[1]] else []
  {
    hide Contains, Trim;
    assert Trim("A1 B2") == "A1 B2" && Trim("C3 D4") == "C3 D4" by {
      TrimTrims("A1 B2");
      TrimTrims("C3 D4");
    }
    assert LISTING[..1] == [LISTING[0]] && LISTING[..1][..0] == [];
    assert Whole(text, LISTING[..1]) == if Contains(text, "A1 B2") then [LISTING[0]] else [];
  }

  lemma SameLength(text: string, part: string)
    requires |text| == |part|
    ensures Contains(text, part) <==> text == part
  {
    if text == part { assert At(part, text, 0); }
  }
}
