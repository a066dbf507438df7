/** A conversation's transcript: what of a turn is kept, the forty-turn bound, and the merge on save. */
module Transcript {
  import opened Base

  const MAX_TURNS_PERSISTED := 40
  const MAX_ITEMS_PERSISTED := 20

  /* ---- the persistable form ---- */

  /** A drawn row: its id and the customer's own words, when they travelled with it. */
  datatype Row = Row(id: string, customerText: Option<string>)

  datatype Artifact =
    | ReviewList(items: seq<Row>)
    | InquiryList(groups: seq<seq<Row>>)
    | Draft(version: Option<nat>, comments: Option<string>)
    | InquiryDetail(inquiryId: string, excerpt: Option<string>)
    | ReviewDetail(reviewId: string, body: Option<string>)
    | PlainList(lines: seq<string>)
    | Table(rows: seq<string>)
    | OtherArtifact(kind: string)

  datatype Role = User | Agent

  datatype TurnView = TurnView(
    turnId: string, role: Role, text: string, artifacts: seq<Artifact>, answer: Option<string>)

  function Bare(row: Row): Row { row.(customerText := None) }

  function BareRows(rows: seq<Row>): (kept: seq<Row>)
    ensures |kept| <= MAX_ITEMS_PERSISTED
  {
    var shown := First(rows, MAX_ITEMS_PERSISTED);
    seq(|shown|, i requires 0 <= i < |shown| => Bare(shown[i]))
  }

  function PersistableArtifact(a: Artifact): Artifact {
    match a
    case ReviewList(items) => ReviewList(BareRows(items))
    case InquiryList(groups) => InquiryList(seq(|groups|, i requires 0 <= i < |groups| => BareRows(groups[i])))
    case Draft(version, _) => Draft(version, None)
    case InquiryDetail(id, _) => InquiryDetail(id, None)
    case ReviewDetail(id, _) => ReviewDetail(id, None)
    case PlainList(lines) => PlainList(First(lines, MAX_ITEMS_PERSISTED))
    case Table(rows) => Table(First(rows, MAX_ITEMS_PERSISTED))
    case OtherArtifact(_) => a
  }

  function PersistableTurn(t: TurnView): TurnView {
    t.(answer := None,
      artifacts := seq(|t.artifacts|, i requires 0 <= i < |t.artifacts| => PersistableArtifact(t.artifacts[i])))
  }

  function Persisted(turns: seq<TurnView>): (kept: seq<TurnView>)
    ensures |kept| == |turns|
  {
    seq(|turns|, i requires 0 <= i < |turns| => PersistableTurn(turns[i]))
  }

  /** Customer text, draft text and the operator's answer: what no store may hold. */
  ghost predicate HoldsTransientText(t: TurnView) {
    t.answer.Some? || exists i | 0 <= i < |t.artifacts| :: HoldsCustomerText(t.artifacts[i])
  }

  ghost predicate HoldsCustomerText(a: Artifact) {
    match a
    case ReviewList(items) => exists i | 0 <= i < |items| :: items[i].customerText.Some?
    case InquiryList(groups) => exists g | 0 <= g < |groups| :: exists i | 0 <= i < |groups[g]| ::
      groups[g][i].customerText.Some?
    case Draft(_, comments) => comments.Some?
    case InquiryDetail(_, excerpt) => excerpt.Some?
    case ReviewDetail(_, body) => body.Some?
    case _ => false
  }

  lemma PersistableArtifactTwice(a: Artifact)
    ensures PersistableArtifact(PersistableArtifact(a)) == PersistableArtifact(a)
    ensures !HoldsCustomerText(PersistableArtifact(a))
  {
    if a.InquiryList? {
      var once := PersistableArtifact(a).groups;
      var twice := PersistableArtifact(PersistableArtifact(a)).groups;
      forall g | 0 <= g < |once| ensures twice[g] == once[g] {
        assert once[g] == BareRows(a.groups[g]) && twice[g] == BareRows(once[g]);
      }
      assert twice == once;
    }
  }

  /** The first twenty rows, in order: their ids and none of the customer's words. */
  ghost predicate KeepsRows(kept: seq<Row>, rows: seq<Row>) {
    && |kept| == (if |rows| < 20 then |rows| else 20)
    && forall i :: 0 <= i < |kept| ==> kept[i].id == rows[i].id && kept[i].customerText.None?
  }

  ghost predicate KeepsLines(kept: seq<string>, lines: seq<string>) {
    |kept| == (if |lines| < 20 then |lines| else 20) && kept == lines[..|kept|]
  }

  /** What an artifact keeps: its kind, its ids and version, every group, and the first twenty of each list. */
  ghost predicate KeepsArtifact(kept: Artifact, a: Artifact) {
    match a
    case ReviewList(items) => kept.ReviewList? && KeepsRows(kept.items, items)
    case InquiryList(groups) =>
      && kept.InquiryList? && |kept.groups| == |groups|
      && forall g :: 0 <= g < |groups| ==> KeepsRows(kept.groups[g], groups[g])
    case Draft(version, _) => kept.Draft? && kept.version == version && kept.comments.None?
    case InquiryDetail(id, _) => kept.InquiryDetail? && kept.inquiryId == id && kept.excerpt.None?
    case ReviewDetail(id, _) => kept.ReviewDetail? && kept.reviewId == id && kept.body.None?
    case PlainList(lines) => kept.PlainList? && KeepsLines(kept.lines, lines)
    case Table(rows) => kept.Table? && KeepsLines(kept.rows, rows)
    case OtherArtifact(kind) => kept.OtherArtifact? && kept.kind == kind
  }

  /** What a turn keeps: who said what in it, and every artifact in order; the operator's answer goes. */
  ghost predicate KeepsTurn(kept: TurnView, t: TurnView) {
    && kept.turnId == t.turnId && kept.role == t.role && kept.text == t.text && kept.answer.None?
    && |kept.artifacts| == |t.artifacts|
    && forall i :: 0 <= i < |t.artifacts| ==> KeepsArtifact(kept.artifacts[i], t.artifacts[i])
  }

  lemma KeptArtifact(a: Artifact)
    ensures KeepsArtifact(PersistableArtifact(a), a)
  {
    if a.InquiryList? {
      var kept := PersistableArtifact(a);
      forall g | 0 <= g < |a.groups| ensures KeepsRows(kept.groups[g], a.groups[g]) {
        assert kept.groups[g] == BareRows(a.groups[g]);
      }
    }
  }

  lemma OneKeptArtifact(x: Artifact, y: Artifact, a: Artifact)
    requires KeepsArtifact(x, a) && KeepsArtifact(y, a)
    ensures x == y
  {
    match a {
      case ReviewList(items) => OneKeptList(x.items, y.items, items);
      case InquiryList(groups) =>
        forall g | 0 <= g < |groups| ensures x.groups[g] == y.groups[g] {
          OneKeptList(x.groups[g], y.groups[g], groups[g]);
        }
      case _ =>
    }
  }

  lemma OneKeptList(x: seq<Row>, y: seq<Row>, rows: seq<Row>)
    requires KeepsRows(x, rows) && KeepsRows(y, rows)
    ensures x == y
  {
    forall i | 0 <= i < |x| ensures x[i] == y[i] {
      assert x[i].id == y[i].id;
    }
  }

  /** The stored form of a turn is the one that keeps exactly that. */
  lemma StoredForm(t: TurnView, kept: TurnView)
    ensures kept == PersistableTurn(t) <==> KeepsTurn(kept, t)
  {
    hide PersistableArtifact, KeepsArtifact;
    var form := PersistableTurn(t);
    forall i | 0 <= i < |t.artifacts| ensures KeepsArtifact(form.artifacts[i], t.artifacts[i]) {
      KeptArtifact(t.artifacts[i]);
    }
    if KeepsTurn(kept, t) {
      forall i | 0 <= i < |t.artifacts| ensures kept.artifacts[i] == form.artifacts[i] {
        OneKeptArtifact(kept.artifacts[i], form.artifacts[i], t.artifacts[i]);
      }
      assert kept.artifacts == form.artifacts;
    }
  }

  /**
   * Stripping a turn twice is stripping it once; nothing transient survives either, and all that is said and
   * shown in the turn does.
   */
  lemma PersistableTwice(t: TurnView)
    ensures PersistableTurn(PersistableTurn(t)) == PersistableTurn(t)
    ensures !HoldsTransientText(PersistableTurn(t)) && KeepsTurn(PersistableTurn(t), t)
  {
    StoredForm(t, PersistableTurn(t));
    forall i | 0 <= i < |t.artifacts|
      ensures PersistableArtifact(PersistableArtifact(t.artifacts[i])) == PersistableArtifact(t.artifacts[i])
      ensures !HoldsCustomerText(PersistableArtifact(t.artifacts[i]))
    {
      PersistableArtifactTwice(t.artifacts[i]);
    }
    assert PersistableTurn(PersistableTurn(t)).artifacts == PersistableTurn(t).artifacts;
  }

  function BoundedTurns(turns: seq<TurnView>): (kept: seq<TurnView>)
    ensures |kept| <= MAX_TURNS_PERSISTED
  {
    Persisted(Last(turns, MAX_TURNS_PERSISTED))
  }

  /* ---- merging ---- */

  /** `continuation` stands for every field that is last-write-wins: working set, pending steps, timestamps. */
  datatype ConversationView = ConversationView(conversationId: string, turns: seq<TurnView>, continuation: string)

  function TurnIds(turns: seq<TurnView>): set<string> {
    set i | 0 <= i < |turns| :: turns[i].turnId
  }

  /** The turns whose id is not in `seen`, in order. */
  function Unseen(turns: seq<TurnView>, seen: set<string>): (kept: seq<TurnView>)
  {
    if turns == [] then []
    else Unseen(turns[..|turns| - 1], seen) + if turns[|turns| - 1].turnId in seen then [] else [turns[|turns| - 1]]
  }

  function MergeTurns(stored: ConversationView, incoming: ConversationView): ConversationView {
    incoming.(turns := BoundedTurns(stored.turns + Unseen(incoming.turns, TurnIds(stored.turns))))
  }

  ghost predicate DistinctIds(turns: seq<TurnView>) {
    forall i, j :: 0 <= i < j < |turns| ==> turns[i].turnId != turns[j].turnId
  }

  lemma PersistedConcat(a: seq<TurnView>, b: seq<TurnView>)
    ensures Persisted(a + b) == Persisted(a) + Persisted(b)
  {
  }

  lemma PersistedAgain(a: seq<TurnView>)
    ensures Persisted(Persisted(a)) == Persisted(a) && TurnIds(Persisted(a)) == TurnIds(a)
  {
    forall i | 0 <= i < |a| ensures PersistableTurn(PersistableTurn(a[i])) == PersistableTurn(a[i]) {
      PersistableTwice(a[i]);
    }
    assert forall i :: 0 <= i < |a| ==> Persisted(a)[i].turnId == a[i].turnId;
  }

  lemma LastPersisted(a: seq<TurnView>, n: nat)
    ensures Last(Persisted(a), n) == Persisted(Last(a, n))
  {
  }

  lemma {:induction false} UnseenConcat(a: seq<TurnView>, b: seq<TurnView>, seen: set<string>)
    ensures Unseen(a + b, seen) == Unseen(a, seen) + Unseen(b, seen)
    decreases |b|
  {
    if b == [] {
      assert a + b == a;
    } else {
      var n := |b| - 1;
      assert (a + b)[..|a + b| - 1] == a + b[..n];
      UnseenConcat(a, b[..n], seen);
    }
  }

  lemma {:induction false} UnseenNone(a: seq<TurnView>, seen: set<string>)
    requires TurnIds(a) <= seen
    ensures Unseen(a, seen) == []
  {
    if a != [] {
      assert a[|a| - 1].turnId in TurnIds(a);
      assert TurnIds(a[..|a| - 1]) <= TurnIds(a);
      UnseenNone(a[..|a| - 1], seen);
    }
  }

  lemma {:induction false} UnseenAll(a: seq<TurnView>, seen: set<string>)
    requires TurnIds(a) !! seen
    ensures Unseen(a, seen) == a
  {
    if a != [] {
      assert a[|a| - 1].turnId in TurnIds(a);
      assert TurnIds(a[..|a| - 1]) <= TurnIds(a);
      UnseenAll(a[..|a| - 1], seen);
      assert a == a[..|a| - 1] + [a[|a| - 1]];
    }
  }

  /* ---- what a merge keeps ---- */

  ghost predicate Increasing(at: seq<nat>) { forall j, k :: 0 <= j < k < |at| ==> at[j] < at[k] }

  /** Where the incoming turns are that the store does not have: every one of them, in order. */
  ghost predicate NewAt(at: seq<nat>, stored: seq<TurnView>, incoming: seq<TurnView>) {
    && Increasing(at) && (forall j :: 0 <= j < |at| ==> at[j] < |incoming|)
    && forall i :: 0 <= i < |incoming| ==>
         (i in at <==> forall k :: 0 <= k < |stored| ==> stored[k].turnId != incoming[i].turnId)
  }

  /** `kept` holds the last forty of the stored turns followed by the new ones, each as a store may hold it. */
  ghost predicate KeepsLastForty(kept: seq<TurnView>, stored: seq<TurnView>, incoming: seq<TurnView>, at: seq<nat>)
    requires NewAt(at, stored, incoming)
  {
    var n := |stored| + |at|;
    var gone := if n < 40 then 0 else n - 40;
    && |kept| == n - gone
    && (forall i :: gone <= i < |stored| ==> KeepsTurn(kept[i - gone], stored[i]))
    && (forall j :: 0 <= j < |at| && gone <= |stored| + j ==> KeepsTurn(kept[|stored| + j - gone], incoming[at[j]]))
  }

  /** The turns that stay and the turns that are added, and everything else from the incoming view. */
  ghost predicate KeepsMerge(merged: ConversationView, stored: ConversationView, incoming: ConversationView) {
    && merged.conversationId == incoming.conversationId && merged.continuation == incoming.continuation
    && exists at :: NewAt(at, stored.turns, incoming.turns)
         && KeepsLastForty(merged.turns, stored.turns, incoming.turns, at)
  }

  ghost predicate Picks(at: seq<nat>, turns: seq<TurnView>, kept: seq<TurnView>) {
    |kept| == |at| && forall j :: 0 <= j < |at| ==> at[j] < |turns| && kept[j] == turns[at[j]]
  }

  ghost predicate PicksUnseen(at: seq<nat>, turns: seq<TurnView>, seen: set<string>) {
    forall i :: 0 <= i < |turns| ==> (i in at <==> turns[i].turnId !in seen)
  }

  lemma OneMorePick(at: seq<nat>, turns: seq<TurnView>, kept: seq<TurnView>, n: nat)
    requires n < |turns| && Increasing(at) && Picks(at, turns[..n], kept)
    ensures Increasing(at + [n]) && Picks(at + [n], turns, kept + [turns[n]])
    ensures Picks(at, turns, kept) && n !in at
    ensures forall i :: i in at + [n] <==> i in at || i == n
  {
  }

  lemma {:induction false} UnseenAt(turns: seq<TurnView>, seen: set<string>) returns (at: seq<nat>)
    ensures Increasing(at) && Picks(at, turns, Unseen(turns, seen)) && PicksUnseen(at, turns, seen)
  {
    at := [];
    if turns != [] {
      hide Increasing, Picks;
      var n := |turns| - 1;
      at := UnseenAt(turns[..n], seen);
      OneMorePick(at, turns, Unseen(turns[..n], seen), n);
      assert forall i :: 0 <= i < n ==> turns[..n][i] == turns[i];
      if turns[n].turnId !in seen {
        at := at + [n];
      } else {
        assert Unseen(turns[..n], seen) + [] == Unseen(turns[..n], seen);
      }
    }
  }

  lemma KeptAt(whole: seq<TurnView>, i: nat)
    requires (if |whole| < 40 then 0 else |whole| - 40) <= i < |whole|
    ensures |BoundedTurns(whole)| == if |whole| < 40 then |whole| else 40
    ensures KeepsTurn(BoundedTurns(whole)[i - if |whole| < 40 then 0 else |whole| - 40], whole[i])
  {
    hide PersistableTurn, KeepsTurn;
    StoredForm(whole[i], PersistableTurn(whole[i]));
  }

  lemma LastFortyKept(stored: seq<TurnView>, incoming: seq<TurnView>, at: seq<nat>, news: seq<TurnView>)
    requires NewAt(at, stored, incoming) && |news| == |at| && forall j :: 0 <= j < |at| ==> news[j] == incoming[at[j]]
    ensures KeepsLastForty(BoundedTurns(stored + news), stored, incoming, at)
  {
    hide KeepsTurn, BoundedTurns;
    var whole := stored + news;
    var gone := if |whole| < 40 then 0 else |whole| - 40;
    var kept := BoundedTurns(whole);
    if whole == [] { assert kept == [] by { NothingKept(); } } else { KeptAt(whole, |whole| - 1); }
    forall i | gone <= i < |stored| ensures KeepsTurn(kept[i - gone], stored[i]) {
      KeptAt(whole, i);
      assert whole[i] == stored[i];
    }
    forall j | 0 <= j < |at| && gone <= |stored| + j ensures KeepsTurn(kept[|stored| + j - gone], incoming[at[j]]) {
      KeptAt(whole, |stored| + j);
      assert whole[|stored| + j] == news[j];
    }
  }

  lemma NothingKept()
    ensures BoundedTurns([]) == []
  {
  }

  /** Main result for one save: what the merge keeps, turn by turn, in terms of the two transcripts alone. */
  lemma MergeKeeps(stored: ConversationView, incoming: ConversationView)
    ensures KeepsMerge(MergeTurns(stored, incoming), stored, incoming)
  {
    hide BoundedTurns, Unseen, KeepsLastForty;
    var seen := TurnIds(stored.turns);
    var at := UnseenAt(incoming.turns, seen);
    forall i | 0 <= i < |incoming.turns|
      ensures i in at <==> forall k :: 0 <= k < |stored.turns| ==> stored.turns[k].turnId != incoming.turns[i].turnId
    {
    }
    LastFortyKept(stored.turns, incoming.turns, at, Unseen(incoming.turns, seen));
  }

  /* ---- the merge against the history it stands for ---- */

  /**
   * A save built on the first `base` turns of a history, adding `added`, that lands when the history has
   * grown to its present length: what the store then holds, and what the saver brings.
   */
  function StoredFor(history: seq<TurnView>): seq<TurnView> { BoundedTurns(history) }

  function ViewFor(history: seq<TurnView>, base: nat, added: seq<TurnView>): seq<TurnView>
    requires base <= |history|
  {
    BoundedTurns(BoundedTurns(history[..base]) + added)
  }

  /**
   * When the merge keeps the history's order: nothing was evicted yet, or the view kept no base turn, or
   * the view is no further behind the store than the number of turns it adds.
   */
  predicate InOrder(length: nat, base: nat, adds: nat) {
    length <= MAX_TURNS_PERSISTED || base == 0 || length - base <= adds || MAX_TURNS_PERSISTED <= adds
  }

  /** The oldest base turn the view still holds, as an index into the history. */
  function OldestKept(base: nat, adds: nat): (k: nat)
    ensures k <= base
  {
    if base + adds <= MAX_TURNS_PERSISTED then 0
    else if MAX_TURNS_PERSISTED <= adds then base
    else base + adds - MAX_TURNS_PERSISTED
  }

  lemma ViewShape(history: seq<TurnView>, base: nat, added: seq<TurnView>)
    requires base <= |history|
    ensures ViewFor(history, base, added)
         == Persisted(history[OldestKept(base, |added|)..base]) + Persisted(Last(added, MAX_TURNS_PERSISTED))
  {
    hide PersistableTurn;
    var cut := Last(history[..base], MAX_TURNS_PERSISTED);
    PersistedAgain(cut);
    PersistedConcat(Persisted(cut), added);
    LastPersisted(Persisted(cut) + added, MAX_TURNS_PERSISTED);
    var whole := Persisted(cut) + Persisted(added);
    assert ViewFor(history, base, added) == Last(whole, MAX_TURNS_PERSISTED);
    assert Last(whole, MAX_TURNS_PERSISTED)
        == Persisted(history[OldestKept(base, |added|)..base]) + Persisted(Last(added, MAX_TURNS_PERSISTED));
  }

  /** Base turns the store has evicted but the view still holds: these the merge appends again. */
  function Resurrected(history: seq<TurnView>, base: nat, adds: nat): seq<TurnView>
    requires base <= |history|
  {
    var evicted := if |history| <= MAX_TURNS_PERSISTED then 0 else |history| - MAX_TURNS_PERSISTED;
    var end := if evicted < base then evicted else base;
    if OldestKept(base, adds) < end then history[OldestKept(base, adds)..end] else []
  }

  lemma ResurrectedIffOutOfOrder(history: seq<TurnView>, base: nat, adds: nat)
    requires base <= |history|
    ensures Resurrected(history, base, adds) == [] <==> InOrder(|history|, base, adds)
  {
  }

  lemma DistinctParts(a: seq<TurnView>, b: seq<TurnView>)
    requires DistinctIds(a + b)
    ensures TurnIds(a) !! TurnIds(b) && DistinctIds(a) && DistinctIds(b)
  {
    forall i, j | 0 <= i < |a| && 0 <= j < |b| ensures a[i].turnId != b[j].turnId {
      assert (a + b)[i].turnId != (a + b)[|a| + j].turnId;
    }
    assert forall i :: 0 <= i < |a| ==> a[i] == (a + b)[i];
    assert forall j :: 0 <= j < |b| ==> b[j] == (a + b)[|a| + j];
  }

  lemma SubIds(a: seq<TurnView>, lo: nat, hi: nat)
    requires lo <= hi <= |a|
    ensures TurnIds(a[lo..hi]) <= TurnIds(a)
  {
  }

  function Evicted(history: seq<TurnView>): (n: nat)
    ensures n <= |history| && Last(history, MAX_TURNS_PERSISTED) == history[n..]
  {
    if |history| <= MAX_TURNS_PERSISTED then 0 else |history| - MAX_TURNS_PERSISTED
  }

  lemma StoredIds(history: seq<TurnView>)
    requires DistinctIds(history)
    ensures TurnIds(StoredFor(history)) == TurnIds(history[Evicted(history)..]) <= TurnIds(history)
    ensures TurnIds(history[..Evicted(history)]) !! TurnIds(StoredFor(history))
  {
    var e := Evicted(history);
    PersistedAgain(history[e..]);
    assert history == history[..e] + history[e..];
    DistinctParts(history[..e], history[e..]);
    SubIds(history, e, |history|);
    assert history[e..] == history[e..|history|];
  }

  lemma Slices<T>(s: seq<T>, cut: nat, lo: nat, hi: nat)
    requires cut <= lo <= hi <= |s|
    ensures s[lo..hi] == s[cut..][lo - cut..hi - cut]
  {
  }

  /** Where the base turns the view holds part into those the store has evicted and those it still has. */
  lemma BaseParts(history: seq<TurnView>, base: nat, adds: nat) returns (gone: seq<TurnView>, there: seq<TurnView>)
    requires base <= |history| && DistinctIds(history)
    ensures history[OldestKept(base, adds)..base] == gone + there && gone == Resurrected(history, base, adds)
    ensures TurnIds(gone) !! TurnIds(StoredFor(history)) && TurnIds(there) <= TurnIds(StoredFor(history))
  {
    hide StoredFor, DistinctIds;
    var kept, e := OldestKept(base, adds), Evicted(history);
    var mid := if e < kept then kept else if base < e then base else e;
    gone, there := history[kept..mid], history[mid..base];
    StoredIds(history);
    assert history[kept..base] == gone + there;
    if mid < base {
      Slices(history, e, mid, base);
      SubIds(history[e..], mid - e, base - e);
    }
    if kept < mid {
      assert history[..e][kept..mid] == gone;
      SubIds(history[..e], kept, mid);
    }
  }

  /** Of the base turns the view holds, those the store still has are skipped and the rest come back. */
  lemma OldPartAppends(history: seq<TurnView>, base: nat, adds: nat)
    requires base <= |history| && DistinctIds(history)
    ensures Unseen(Persisted(history[OldestKept(base, adds)..base]), TurnIds(StoredFor(history)))
         == Persisted(Resurrected(history, base, adds))
  {
    hide *;
    var seen := TurnIds(StoredFor(history));
    var gone, there := BaseParts(history, base, adds);
    PersistedConcat(gone, there);
    UnseenConcat(Persisted(gone), Persisted(there), seen);
    PersistedAgain(gone);
    PersistedAgain(there);
    UnseenNone(Persisted(there), seen);
    UnseenAll(Persisted(gone), seen);
  }

  /** What the merge appends: first the resurrected turns, then the added ones. */
  lemma MergeAppends(history: seq<TurnView>, base: nat, added: seq<TurnView>)
    requires base <= |history| && DistinctIds(history + added)
    ensures Unseen(ViewFor(history, base, added), TurnIds(StoredFor(history)))
         == Persisted(Resurrected(history, base, |added|)) + Persisted(Last(added, MAX_TURNS_PERSISTED))
  {
    hide Resurrected, ViewFor, StoredFor;
    var seen := TurnIds(StoredFor(history));
    var news := Last(added, MAX_TURNS_PERSISTED);
    var based := history[OldestKept(base, |added|)..base];
    DistinctParts(history, added);
    StoredIds(history);
    SubIds(added, |added| - |news|, |added|);
    assert news == added[|added| - |news|..|added|];
    ViewShape(history, base, added);
    UnseenConcat(Persisted(based), Persisted(news), seen);
    PersistedAgain(news);
    UnseenAll(Persisted(news), seen);
    OldPartAppends(history, base, |added|);
  }

  /** The transcript a merge leaves, for a save built at `base` and landing on `history`. */
  function Merged(history: seq<TurnView>, base: nat, added: seq<TurnView>): seq<TurnView>
    requires base <= |history|
  {
    MergeTurns(ConversationView("", StoredFor(history), ""),
      ConversationView("", ViewFor(history, base, added), "")).turns
  }

  lemma LastOfLast<T>(a: seq<T>, b: seq<T>, n: nat)
    ensures Last(Last(a, n) + Last(b, n), n) == Last(a + b, n)
  {
    if |b| >= n {
      LastOfTail(a, b, n);
      LastOfTail(Last(a, n), Last(b, n), n);
    } else if |a| > n {
      assert (a + b)[|a + b| - n..] == a[|a| + |b| - n..] + b;
      assert (Last(a, n) + b)[|b|..] == a[|a| + |b| - n..] + b;
    }
  }

  lemma LastOfTail<T>(a: seq<T>, b: seq<T>, n: nat)
    requires |b| >= n
    ensures Last(a + b, n) == Last(b, n) == b[|b| - n..]
  {
  }

  lemma MergedShape(history: seq<TurnView>, base: nat, added: seq<TurnView>)
    requires base <= |history| && DistinctIds(history + added)
    ensures Merged(history, base, added)
         == Last(StoredFor(history)
                 + (Persisted(Resurrected(history, base, |added|)) + Persisted(Last(added, MAX_TURNS_PERSISTED))),
                 MAX_TURNS_PERSISTED)
  {
    hide Unseen, Resurrected, ViewFor;
    var news := Last(added, MAX_TURNS_PERSISTED);
    var back := Resurrected(history, base, |added|);
    MergeAppends(history, base, added);
    PersistedAgain(Last(history, MAX_TURNS_PERSISTED));
    PersistedAgain(back);
    PersistedAgain(news);
    PersistedConcat(StoredFor(history), Persisted(back) + Persisted(news));
    PersistedConcat(Persisted(back), Persisted(news));
    LastPersisted(StoredFor(history) + (Persisted(back) + Persisted(news)), MAX_TURNS_PERSISTED);
  }

  /**
   * Main result. The merge leaves exactly the last forty turns of the history with the added turns at its
   * end if and only if the save was in order. Out of order, an evicted turn comes back after newer ones.
   */
  lemma MergeExact(history: seq<TurnView>, base: nat, added: seq<TurnView>)
    requires base <= |history| && DistinctIds(history + added)
    ensures Merged(history, base, added) == BoundedTurns(history + added) <==> InOrder(|history|, base, |added|)
  {
    hide Unseen, Resurrected, ViewFor, InOrder;
    var back := Resurrected(history, base, |added|);
    MergedShape(history, base, added);
    ResurrectedIffOutOfOrder(history, base, |added|);
    if back == [] {
      hide *;
      InOrderIsTheTail(history, added);
      NothingBetween(StoredFor(history), Persisted(Last(added, MAX_TURNS_PERSISTED)));
    } else {
      OutOfOrderDiffers(history, base, added);
    }
  }

  lemma NothingBetween(a: seq<TurnView>, b: seq<TurnView>)
    ensures a + (Persisted([]) + b) == a + b
  {
  }

  lemma InOrderIsTheTail(history: seq<TurnView>, added: seq<TurnView>)
    ensures Last(StoredFor(history) + Persisted(Last(added, MAX_TURNS_PERSISTED)), MAX_TURNS_PERSISTED)
         == BoundedTurns(history + added)
  {
    LastPersisted(history + added, MAX_TURNS_PERSISTED);
    PersistedConcat(history, added);
    LastPersisted(history, MAX_TURNS_PERSISTED);
    LastPersisted(added, MAX_TURNS_PERSISTED);
    LastOfLast(Persisted(history), Persisted(added), MAX_TURNS_PERSISTED);
    hide Persisted, Last;
  }

  lemma BoundedAt(turns: seq<TurnView>, at: nat)
    requires |turns| >= MAX_TURNS_PERSISTED && at < MAX_TURNS_PERSISTED
    ensures |BoundedTurns(turns)| == MAX_TURNS_PERSISTED
    ensures BoundedTurns(turns)[at] == PersistableTurn(turns[|turns| - MAX_TURNS_PERSISTED + at])
  {
  }

  /** The last turn to come back is one the store has evicted. */
  lemma LastBack(history: seq<TurnView>, base: nat, adds: nat) returns (i: nat)
    requires base <= |history| && Resurrected(history, base, adds) != []
    ensures var back := Resurrected(history, base, adds);
      i < |history| - MAX_TURNS_PERSISTED && history[i] == back[|back| - 1]
  {
    var evicted := |history| - MAX_TURNS_PERSISTED;
    i := (if evicted < base then evicted else base) - 1;
  }

  lemma OutOfOrderDiffers(history: seq<TurnView>, base: nat, added: seq<TurnView>)
    requires base <= |history| && DistinctIds(history + added)
    requires Resurrected(history, base, |added|) != []
    ensures var back := Resurrected(history, base, |added|);
      Last(StoredFor(history) + (Persisted(back) + Persisted(Last(added, MAX_TURNS_PERSISTED))), MAX_TURNS_PERSISTED)
      != BoundedTurns(history + added)
  {
    var back := Resurrected(history, base, |added|);
    var whole := StoredFor(history) + (Persisted(back) + Persisted(added));
    assert Last(added, MAX_TURNS_PERSISTED) == added;
    var at := MAX_TURNS_PERSISTED - |added| - 1;
    var stale := back[|back| - 1];
    assert Last(whole, MAX_TURNS_PERSISTED)[at] == PersistableTurn(stale);
    BoundedAt(history + added, at);
    var i := LastBack(history, base, |added|);
    assert (history + added)[i].turnId != (history + added)[|history| - 1].turnId;
  }

  /** A concrete loss of order: forty-one turns stored, a one-turn save still built on the first thirty-nine. */
  lemma EvictedTurnReturns(history: seq<TurnView>, added: TurnView)
    requires |history| == 41 && DistinctIds(history + [added])
    ensures Merged(history, 39, [added])[38] == PersistableTurn(history[0])
    ensures Merged(history, 39, [added])[37] == PersistableTurn(history[40])
  {
    MergedShape(history, 39, [added]);
    assert Resurrected(history, 39, 1) == [history[0]];
    assert Last([added], MAX_TURNS_PERSISTED) == [added];
  }

  /**
   * Under any contention and at any length: the turns a save adds are the end of what it stores, whatever
   * view it was built from and whatever the store holds by then.
   */
  lemma AddedTurnsAreTheTail(stored: ConversationView, based: seq<TurnView>, added: seq<TurnView>, continuation: string)
    requires |added| <= MAX_TURNS_PERSISTED
    requires TurnIds(added) !! TurnIds(stored.turns)
    ensures var view := ConversationView(stored.conversationId, BoundedTurns(based + added), continuation);
      var merged := MergeTurns(stored, view);
      && |added| <= |merged.turns|
      && merged.turns[|merged.turns| - |added|..] == Persisted(added)
      && merged.continuation == continuation
  {
    hide Unseen, Persisted, TurnIds;
    var older := SplitTail(based, added);
    var seen := TurnIds(stored.turns);
    PersistedConcat(older, added);
    UnseenConcat(Persisted(older), Persisted(added), seen);
    PersistedAgain(added);
    UnseenAll(Persisted(added), seen);
    var front := stored.turns + Unseen(Persisted(older), seen);
    var whole := front + Persisted(added);
    assert stored.turns + (Unseen(Persisted(older), seen) + Persisted(added)) == whole;
    PersistedConcat(front, Persisted(added));
    LastPersisted(whole, MAX_TURNS_PERSISTED);
    TailOfLast(Persisted(front), Persisted(added));
  }

  lemma SplitTail(based: seq<TurnView>, added: seq<TurnView>) returns (older: seq<TurnView>)
    requires |added| <= MAX_TURNS_PERSISTED
    ensures Last(based + added, MAX_TURNS_PERSISTED) == older + added
  {
    var whole := Last(based + added, MAX_TURNS_PERSISTED);
    older := whole[..|whole| - |added|];
  }

  lemma TailOfLast(front: seq<TurnView>, tail: seq<TurnView>)
    requires |tail| <= MAX_TURNS_PERSISTED
    ensures var kept := Last(front + tail, MAX_TURNS_PERSISTED);
      |tail| <= |kept| && kept[|kept| - |tail|..] == tail
  {
  }
}
