/** Narrowing the inquiry rows on screen: closed axes, at most eight detail reads, no planner. */
module VisibleFilter {
  import opened Base

  const FILTER_DETAIL_CAP := 8

  datatype AnswerState = Unanswered | Answered

  datatype Order = Newest | Oldest

  datatype Item = Item(
    inquiryId: string, workItemId: Option<string>, productId: Option<string>, channel: string, state: AnswerState,
    receivedAt: string, texts: seq<string>)

  /** What a detail read returns: the texts the topic and the term are looked for in. */
  datatype Detail = Detail(texts: seq<string>)

  /** An axis that looks for words: in a row's own texts, or in its detail's. */
  type Words = seq<string> -> bool

  datatype Filter = Filter(
    channel: Option<string>, status: Option<AnswerState>, topic: Option<Words>, term: Option<Words>, limit: Option<nat>,
    order: Option<Order>)

  /* ---- one row ---- */

  /** The axes that never need a read. */
  predicate OnAxes(f: Filter, row: Item) {
    (f.channel.Some? ==> row.channel == f.channel.value) && (f.status.Some? ==> row.state == f.status.value)
  }

  /** Whether looking for `words` on this row asks for its detail. */
  predicate NeedsDetail(words: Option<Words>, row: Item) {
    words.Some? && !words.value(row.texts) && row.workItemId.Some?
  }

  predicate InDetail(words: Words, row: Item, details: string -> Option<Detail>) {
    row.workItemId.Some? && details(row.workItemId.value).Some? && words(details(row.workItemId.value).value.texts)
  }

  /** The words are there: in the row's own texts, or in the detail a read returns. */
  predicate Finds(words: Option<Words>, row: Item, details: string -> Option<Detail>) {
    words.None? || words.value(row.texts) || InDetail(words.value, row, details)
  }

  predicate Satisfies(f: Filter, row: Item, details: string -> Option<Detail>) {
    OnAxes(f, row) && Finds(f.topic, row, details) && Finds(f.term, row, details)
  }

  /** One word axis within the budget: whether it hit, and the reads spent so far. */
  function Look(words: Option<Words>, row: Item, details: string -> Option<Detail>, spent: nat): (bool, nat) {
    if words.None? || words.value(row.texts) then (true, spent)
    else if row.workItemId.Some? && spent < FILTER_DETAIL_CAP then (InDetail(words.value, row, details), spent + 1)
    else (false, spent)
  }

  function Try(f: Filter, row: Item, details: string -> Option<Detail>, spent: nat): (bool, nat) {
    if !OnAxes(f, row) then (false, spent)
    else
      var (topic, r1) := Look(f.topic, row, details, spent);
      if !topic then (false, r1) else Look(f.term, row, details, r1)
  }

  /** The whole pass over the rows, in order, on one budget. */
  function Scan(f: Filter, rows: seq<Item>, details: string -> Option<Detail>, spent: nat): (seq<Item>, nat)
    decreases |rows|
  {
    if rows == [] then ([], spent)
    else
      var (hit, r1) := Try(f, rows[0], details, spent);
      var (rest, r2) := Scan(f, rows[1..], details, r1);
      ((if hit then [rows[0]] else []) + rest, r2)
  }

  /* ---- order and limit ---- */

  /** `rank` is the collation order of a string. */
  predicate Before(a: Item, b: Item, urgency: bool, order: Option<Order>, rank: string -> int) {
    if urgency then
      rank(a.receivedAt) < rank(b.receivedAt)
        || (rank(a.receivedAt) == rank(b.receivedAt) && rank(a.inquiryId) < rank(b.inquiryId))
    else
      match order
      case None => false
      case Some(Oldest) => rank(a.receivedAt) < rank(b.receivedAt)
      case Some(Newest) => rank(b.receivedAt) < rank(a.receivedAt)
  }

  /** A stable sort: an item goes in front of those it is before, behind those it ties with. */
  function Insert(sorted: seq<Item>, x: Item, urgency: bool, order: Option<Order>, rank: string -> int): seq<Item> {
    if sorted == [] || !Before(x, sorted[|sorted| - 1], urgency, order, rank) then sorted + [x]
    else Insert(sorted[..|sorted| - 1], x, urgency, order, rank) + [sorted[|sorted| - 1]]
  }

  function Sorted(rows: seq<Item>, urgency: bool, order: Option<Order>, rank: string -> int): seq<Item> {
    if rows == [] then []
    else Insert(Sorted(rows[..|rows| - 1], urgency, order, rank), rows[|rows| - 1], urgency, order, rank)
  }

  function Limited(rows: seq<Item>, limit: Option<nat>): seq<Item> {
    if limit.Some? then First(rows, limit.value) else rows
  }

  /** What the asked order means for two rows, one in front of the other. */
  predicate Follows(a: Item, b: Item, urgency: bool, order: Option<Order>, rank: string -> int) {
    if urgency then
      && rank(a.receivedAt) <= rank(b.receivedAt)
      && (rank(a.receivedAt) == rank(b.receivedAt) ==> rank(a.inquiryId) <= rank(b.inquiryId))
    else if order == Some(Newest) then rank(a.receivedAt) >= rank(b.receivedAt)
    else if order == Some(Oldest) then rank(a.receivedAt) <= rank(b.receivedAt)
    else true
  }

  ghost predicate InAskedOrder(rows: seq<Item>, urgency: bool, order: Option<Order>, rank: string -> int) {
    forall i, j :: 0 <= i < j < |rows| ==> Follows(rows[i], rows[j], urgency, order, rank)
  }

  /**
   * What is kept of the matching rows: as many as asked, and those in front once all of them stand in the
   * asked order; with no order asked, as they were shown.
   */
  ghost predicate KeptAsAsked(kept: seq<Item>, matched: seq<Item>, f: Filter, urgency: bool, rank: string -> int) {
    && |kept| == (if f.limit.Some? && f.limit.value < |matched| then f.limit.value else |matched|)
    && exists rest ::
         && multiset(kept + rest) == multiset(matched) && InAskedOrder(kept + rest, urgency, f.order, rank)
         && (!urgency && f.order.None? ==> kept + rest == matched)
  }

  datatype Group = Group(key: AnswerState, items: seq<Item>)

  datatype Narrowed = Narrowed(kept: seq<Item>, groups: seq<Group>, detailReads: nat)

  /** The rows of the shown set, as far as the conversation still holds them. */
  function Shown(ids: seq<string>, history: string -> Option<Item>): seq<Item> {
    if ids == [] then []
    else
      Shown(ids[..|ids| - 1], history)
      + if history(ids[|ids| - 1]).Some? then [history(ids[|ids| - 1]).value] else []
  }

  /** A shown id whose row the conversation no longer holds. */
  ghost predicate SomeGone(ids: seq<string>, history: string -> Option<Item>) {
    exists i :: 0 <= i < |ids| && history(ids[i]).None?
  }

  ghost predicate AreShown(rows: seq<Item>, ids: seq<string>, history: string -> Option<Item>) {
    |rows| == |ids| && forall i :: 0 <= i < |ids| ==> history(ids[i]) == Some(rows[i])
  }

  lemma {:induction false} ShownOrGone(ids: seq<string>, history: string -> Option<Item>)
    ensures |Shown(ids, history)| <= |ids|
    ensures
      if SomeGone(ids, history) then |Shown(ids, history)| < |ids|
      else AreShown(Shown(ids, history), ids, history)
  {
    if ids != [] {
      var n := |ids| - 1;
      ShownOrGone(ids[..n], history);
      if SomeGone(ids[..n], history) {
        var i :| 0 <= i < n && history(ids[..n][i]).None?;
        assert history(ids[i]).None?;
      } else {
        forall i | 0 <= i < n ensures history(ids[i]) == Some(Shown(ids[..n], history)[i]) {
          assert ids[..n][i] == ids[i];
        }
      }
    }
  }

  /* ---- the method ---- */

  /** Declines when nothing is shown, when not every shown row is held, and when more is asked than is shown. */
  method ApplyVisibleFilter(
    ids: seq<string>, history: string -> Option<Item>, f: Filter, urgency: bool, details: string -> Option<Detail>,
    rank: string -> int
  ) returns (r: Option<Narrowed>)
    ensures var rows := Shown(ids, history);
      r.None? <==> rows == [] || |rows| < |ids| || (f.limit.Some? && f.limit.value > |rows|)
    ensures r.None? <==> ids == [] || SomeGone(ids, history) || (f.limit.Some? && f.limit.value > |ids|)
    ensures r.Some? ==> AreShown(Shown(ids, history), ids, history)
    ensures var rows := Shown(ids, history);
      r.Some? ==>
        && r.value.detailReads == Scan(f, rows, details, 0).1
        && r.value.kept == Limited(Sorted(Scan(f, rows, details, 0).0, urgency, f.order, rank), f.limit)
        && KeptAsAsked(r.value.kept, Scan(f, rows, details, 0).0, f, urgency, rank)
        && GroupsOf(r.value.groups, r.value.kept)
  {
    hide Scan, Try, Look, Sorted, GroupsOf, Satisfies, Shown, Limited, KeptAsAsked;
    var rows := ShownRows(ids, history);
    ShownOrGone(ids, history);
    if |rows| == 0 { return None; }
    if |rows| < |ids| { return None; }
    if f.limit.Some? && f.limit.value > |rows| { return None; }
    var detailReads: nat := 0;
    var matched: seq<Item> := [];
    assert rows[0..] == rows;
    for i := 0 to |rows|
      invariant matched + Scan(f, rows[i..], details, detailReads).0 == Scan(f, rows, details, 0).0
      invariant Scan(f, rows[i..], details, detailReads).1 == Scan(f, rows, details, 0).1
    {
      var hit, spent := TryRow(f, rows[i], details, detailReads);
      ScanNext(f, rows, i, details, detailReads, matched);
      detailReads := spent;
      if hit { matched := matched + [rows[i]]; }
    }
    ScanEnds(f, rows, details, detailReads);
    assert matched + [] == matched;
    var kept := Limited(Sorted(matched, urgency, f.order, rank), f.limit);
    TakesTheFirst(matched, f, urgency, rank);
    var groups := GroupRows(kept);
    r := Some(Narrowed(kept, groups, detailReads));
  }

  lemma ScanNext(f: Filter, rows: seq<Item>, i: nat, details: string -> Option<Detail>, spent: nat, matched: seq<Item>)
    requires i < |rows|
    ensures var (hit, next) := Try(f, rows[i], details, spent);
      && Scan(f, rows[i..], details, spent).1 == Scan(f, rows[i + 1..], details, next).1
      && matched + Scan(f, rows[i..], details, spent).0
         == (if hit then matched + [rows[i]] else matched) + Scan(f, rows[i + 1..], details, next).0
  {
    hide Try;
    assert rows[i..][0] == rows[i] && rows[i..][1..] == rows[i + 1..];
  }

  lemma ScanEnds(f: Filter, rows: seq<Item>, details: string -> Option<Detail>, spent: nat)
    ensures Scan(f, rows[|rows|..], details, spent) == ([], spent)
  {
  }

  /** One row: the axes in turn, each word axis first in the row's own texts, then in its detail while reads remain. */
  method TryRow(
    f: Filter, row: Item, details: string -> Option<Detail>, before: nat) returns (hit: bool, detailReads: nat)
    ensures (hit, detailReads) == Try(f, row, details, before)
  {
    detailReads := before;
    hit := false;
    if f.channel.Some? && row.channel != f.channel.value { return; }
    if f.status.Some? && row.state != f.status.value { return; }
    if f.topic.Some? {
      hit := f.topic.value(row.texts);
      if !hit && row.workItemId.Some? && detailReads < FILTER_DETAIL_CAP {
        detailReads := detailReads + 1;
        hit := InDetail(f.topic.value, row, details);
      }
      if !hit { return; }
    }
    if f.term.Some? {
      hit := f.term.value(row.texts);
      if !hit && row.workItemId.Some? && detailReads < FILTER_DETAIL_CAP {
        detailReads := detailReads + 1;
        hit := InDetail(f.term.value, row, details);
      }
      if !hit { return; }
    }
    hit := true;
  }

  method ShownRows(ids: seq<string>, history: string -> Option<Item>) returns (rows: seq<Item>)
    ensures rows == Shown(ids, history)
  {
    rows := [];
    for i := 0 to |ids|
      invariant rows == Shown(ids[..i], history)
    {
      assert ids[..i + 1][..i] == ids[..i];
      if history(ids[i]).Some? { rows := rows + [history(ids[i]).value]; }
    }
    assert ids[..|ids|] == ids;
  }

  function Flatten(groups: seq<Group>): seq<Item> {
    if groups == [] then [] else Flatten(groups[..|groups| - 1]) + groups[|groups| - 1].items
  }

  ghost predicate OfOneState(g: Group) {
    forall k :: 0 <= k < |g.items| ==> g.items[k].state == g.key
  }

  /** The groups are the rows, cut exactly where the answer state changes. */
  ghost predicate GroupsOf(groups: seq<Group>, rows: seq<Item>) {
    && Flatten(groups) == rows
    && (forall i :: 0 <= i < |groups| ==> groups[i].items != [] && OfOneState(groups[i]))
    && (forall i, j :: 0 <= i && j == i + 1 && j < |groups| ==> groups[i].key != groups[j].key)
  }

  /** Consecutive rows of one answer state make one group. */
  method GroupRows(rows: seq<Item>) returns (groups: seq<Group>)
    ensures GroupsOf(groups, rows)
  {
    hide GroupsOf;
    groups := [];
    NoGroups();
    for i := 0 to |rows|
      invariant GroupsOf(groups, rows[..i])
    {
      assert rows[..i + 1] == rows[..i] + [rows[i]];
      var n := |groups|;
      if n > 0 && groups[n - 1].key == rows[i].state {
        JoinsTheLast(groups, rows[..i], rows[i]);
        groups := groups[n - 1 := Group(rows[i].state, groups[n - 1].items + [rows[i]])];
      } else {
        OpensAGroup(groups, rows[..i], rows[i]);
        groups := groups + [Group(rows[i].state, [rows[i]])];
      }
    }
    assert rows[..|rows|] == rows;
  }

  lemma NoGroups()
    ensures GroupsOf([], [])
  {
  }

  lemma JoinsTheLast(groups: seq<Group>, rows: seq<Item>, row: Item)
    requires GroupsOf(groups, rows) && groups != [] && groups[|groups| - 1].key == row.state
    ensures GroupsOf(groups[|groups| - 1 := Group(row.state, groups[|groups| - 1].items + [row])], rows + [row])
  {
    var n := |groups| - 1;
    var after := groups[n := Group(row.state, groups[n].items + [row])];
    assert after[..n] == groups[..n];
    assert Flatten(after) == Flatten(groups[..n]) + (groups[n].items + [row]);
    assert forall i :: 0 <= i < |groups| ==> after[i].key == groups[i].key;
  }

  lemma OpensAGroup(groups: seq<Group>, rows: seq<Item>, row: Item)
    requires GroupsOf(groups, rows) && (groups != [] ==> groups[|groups| - 1].key != row.state)
    ensures GroupsOf(groups + [Group(row.state, [row])], rows + [row])
  {
    assert (groups + [Group(row.state, [row])])[..|groups|] == groups;
  }

  /* ---- what the pass keeps ---- */

  lemma {:induction false} Budget(f: Filter, rows: seq<Item>, details: string -> Option<Detail>, spent: nat)
    requires spent <= FILTER_DETAIL_CAP
    ensures spent <= Scan(f, rows, details, spent).1 <= FILTER_DETAIL_CAP
    decreases |rows|
  {
    if rows != [] { Budget(f, rows[1..], details, Try(f, rows[0], details, spent).1); }
  }

  /** `part` is `whole` with some elements left out. */
  predicate Subsequence(part: seq<Item>, whole: seq<Item>) {
    if part == [] then true
    else if whole == [] then false
    else (part[0] == whole[0] && Subsequence(part[1..], whole[1..])) || Subsequence(part, whole[1..])
  }

  /** What is matched satisfies every named axis, and is a subsequence of the rows. */
  lemma {:induction false} OnlyWhatSatisfies(f: Filter, rows: seq<Item>, details: string -> Option<Detail>, spent: nat)
    ensures var matched := Scan(f, rows, details, spent).0;
      Subsequence(matched, rows) && forall i :: 0 <= i < |matched| ==> Satisfies(f, matched[i], details)
    decreases |rows|
  {
    if rows != [] {
      var (hit, r1) := Try(f, rows[0], details, spent);
      OnlyWhatSatisfies(f, rows[1..], details, r1);
      HitsSatisfy(f, rows[0], details, spent);
      hide Try, Satisfies;
      var rest := Scan(f, rows[1..], details, r1).0;
      if hit { assert ([rows[0]] + rest)[1..] == rest; } else { assert [] + rest == rest; }
    }
  }

  lemma HitsSatisfy(f: Filter, row: Item, details: string -> Option<Detail>, spent: nat)
    ensures Try(f, row, details, spent).0 ==> Satisfies(f, row, details)
  {
  }

  /** The reads a row would take on an unbounded budget. */
  function Needed(f: Filter, row: Item, details: string -> Option<Detail>): nat {
    if !OnAxes(f, row) then 0
    else
      (if NeedsDetail(f.topic, row) then 1 else 0)
      + (if Finds(f.topic, row, details) && NeedsDetail(f.term, row) then 1 else 0)
  }

  function AllNeeded(f: Filter, rows: seq<Item>, details: string -> Option<Detail>): nat {
    if rows == [] then 0 else Needed(f, rows[0], details) + AllNeeded(f, rows[1..], details)
  }

  function Satisfying(f: Filter, rows: seq<Item>, details: string -> Option<Detail>): seq<Item> {
    if rows == [] then []
    else (if Satisfies(f, rows[0], details) then [rows[0]] else []) + Satisfying(f, rows[1..], details)
  }

  /** With room for its reads, a row is judged right. */
  lemma TryWithinBudget(f: Filter, row: Item, details: string -> Option<Detail>, spent: nat)
    requires spent + Needed(f, row, details) <= FILTER_DETAIL_CAP
    ensures Try(f, row, details, spent) == (Satisfies(f, row, details), spent + Needed(f, row, details))
  {
  }

  /**
   * When eight reads are enough, the pass keeps exactly the rows that satisfy the filter, and spends exactly
   * what they need.
   */
  lemma {:induction false} NothingIsMissed(f: Filter, rows: seq<Item>, details: string -> Option<Detail>, spent: nat)
    requires spent + AllNeeded(f, rows, details) <= FILTER_DETAIL_CAP
    ensures Scan(f, rows, details, spent) == (Satisfying(f, rows, details), spent + AllNeeded(f, rows, details))
    decreases |rows|
  {
    if rows != [] {
      TryWithinBudget(f, rows[0], details, spent);
      NothingIsMissed(f, rows[1..], details, spent + Needed(f, rows[0], details));
    }
  }

  /** When they are not, all eight are spent. */
  lemma {:induction false} CapIsSpent(f: Filter, rows: seq<Item>, details: string -> Option<Detail>, spent: nat)
    requires spent <= FILTER_DETAIL_CAP < spent + AllNeeded(f, rows, details)
    ensures Scan(f, rows, details, spent).1 == FILTER_DETAIL_CAP
    decreases |rows|
  {
    if rows != [] {
      var (hit, r1) := Try(f, rows[0], details, spent);
      if spent + Needed(f, rows[0], details) <= FILTER_DETAIL_CAP {
        TryWithinBudget(f, rows[0], details, spent);
        CapIsSpent(f, rows[1..], details, r1);
      } else {
        Budget(f, rows[1..], details, r1);
      }
    }
  }

  /**
   * Main result. The pass never spends more than eight reads and never keeps a row that fails a named
   * axis; and it keeps every row that satisfies them all unless more than eight reads were needed, in
   * which case it spends exactly eight.
   */
  lemma FilterIsHonest(f: Filter, rows: seq<Item>, details: string -> Option<Detail>)
    ensures var (matched, spent) := Scan(f, rows, details, 0);
      && Subsequence(matched, rows) && (forall i :: 0 <= i < |matched| ==> Satisfies(f, matched[i], details))
      && (if AllNeeded(f, rows, details) <= 8 then
            matched == Satisfying(f, rows, details) && spent == AllNeeded(f, rows, details)
          else spent == 8)
  {
    OnlyWhatSatisfies(f, rows, details, 0);
    if AllNeeded(f, rows, details) <= FILTER_DETAIL_CAP {
      NothingIsMissed(f, rows, details, 0);
    } else {
      CapIsSpent(f, rows, details, 0);
    }
  }

  /* ---- order ---- */

  ghost predicate Ordered(rows: seq<Item>, urgency: bool, order: Option<Order>, rank: string -> int) {
    forall i, j :: 0 <= i < j < |rows| ==> !Before(rows[j], rows[i], urgency, order, rank)
  }

  /** An item alone, when it ties with `x`. */
  function IfTied(y: Item, x: Item, urgency: bool, order: Option<Order>, rank: string -> int): seq<Item> {
    if !Before(x, y, urgency, order, rank) && !Before(y, x, urgency, order, rank) then [y] else []
  }

  /** The rows that tie with `x`, in order. */
  function Tied(rows: seq<Item>, x: Item, urgency: bool, order: Option<Order>, rank: string -> int): seq<Item> {
    if rows == [] then []
    else
      Tied(rows[..|rows| - 1], x, urgency, order, rank) + IfTied(rows[|rows| - 1], x, urgency, order, rank)
  }

  lemma TiedMore(rows: seq<Item>, y: Item, x: Item, urgency: bool, order: Option<Order>, rank: string -> int)
    ensures Tied(rows + [y], x, urgency, order, rank)
      == Tied(rows, x, urgency, order, rank) + IfTied(y, x, urgency, order, rank)
  {
    hide IfTied;
    assert (rows + [y])[..|rows|] == rows;
  }

  lemma Asymmetric(a: Item, b: Item, urgency: bool, order: Option<Order>, rank: string -> int)
    requires Before(a, b, urgency, order, rank)
    ensures !Before(b, a, urgency, order, rank)
  {
  }

  lemma {:induction false} InsertSorts(
    sorted: seq<Item>, y: Item, urgency: bool, order: Option<Order>, rank: string -> int)
    requires Ordered(sorted, urgency, order, rank)
    ensures var out := Insert(sorted, y, urgency, order, rank);
      Ordered(out, urgency, order, rank) && multiset(out) == multiset(sorted) + multiset{y}
  {
    hide Before, Ordered;
    if sorted == [] {
      assert sorted + [y] == [y];
      OneIsOrdered(y, urgency, order, rank);
    } else if Before(y, sorted[|sorted| - 1], urgency, order, rank) {
      var n := |sorted| - 1;
      var last := sorted[n];
      Asymmetric(y, last, urgency, order, rank);
      assert sorted == sorted[..n] + [last];
      WithoutTheLast(sorted[..n], last, urgency, order, rank);
      InsertSorts(sorted[..n], y, urgency, order, rank);
      var inner := Insert(sorted[..n], y, urgency, order, rank);
      forall x | x in inner ensures !Before(last, x, urgency, order, rank) {
        assert x in multiset(inner);
        if x != y { assert x in multiset(sorted[..n]) && x in sorted[..n]; }
      }
      WithOneMore(inner, last, urgency, order, rank);
    } else {
      BehindTheLast(sorted, y, urgency, order, rank);
    }
  }

  lemma OneIsOrdered(y: Item, urgency: bool, order: Option<Order>, rank: string -> int)
    ensures Ordered([y], urgency, order, rank)
  {
  }

  lemma WithoutTheLast(init: seq<Item>, last: Item, urgency: bool, order: Option<Order>, rank: string -> int)
    requires Ordered(init + [last], urgency, order, rank)
    ensures Ordered(init, urgency, order, rank)
    ensures forall x :: x in init ==> !Before(last, x, urgency, order, rank)
  {
    var rows := init + [last];
    forall i, j | 0 <= i < j < |init| ensures !Before(init[j], init[i], urgency, order, rank) {
      assert rows[i] == init[i] && rows[j] == init[j];
    }
    forall x | x in init ensures !Before(last, x, urgency, order, rank) {
      var i :| 0 <= i < |init| && init[i] == x;
      assert rows[i] == x && rows[|init|] == last;
    }
  }

  lemma WithOneMore(rows: seq<Item>, last: Item, urgency: bool, order: Option<Order>, rank: string -> int)
    requires Ordered(rows, urgency, order, rank) && forall x :: x in rows ==> !Before(last, x, urgency, order, rank)
    ensures Ordered(rows + [last], urgency, order, rank)
  {
    assert forall i :: 0 <= i < |rows| ==> rows[i] in rows;
  }

  /** What is not before the last is before none. */
  lemma BehindTheLast(sorted: seq<Item>, y: Item, urgency: bool, order: Option<Order>, rank: string -> int)
    requires Ordered(sorted, urgency, order, rank) && sorted != []
      && !Before(y, sorted[|sorted| - 1], urgency, order, rank)
    ensures Ordered(sorted + [y], urgency, order, rank)
  {
    var last := sorted[|sorted| - 1];
    forall i | 0 <= i < |sorted| ensures !Before(y, sorted[i], urgency, order, rank) {
      if i < |sorted| - 1 { assert !Before(last, sorted[i], urgency, order, rank); }
    }
  }

  lemma {:induction false} InsertKeepsTies(
    sorted: seq<Item>, y: Item, x: Item, urgency: bool, order: Option<Order>, rank: string -> int)
    ensures Tied(Insert(sorted, y, urgency, order, rank), x, urgency, order, rank)
      == Tied(sorted + [y], x, urgency, order, rank)
  {
    hide *;
    if sorted == [] || !Before(y, sorted[|sorted| - 1], urgency, order, rank) {
      InsertBehind(sorted, y, urgency, order, rank);
    } else {
      InsertInFront(sorted, y, urgency, order, rank);
      var n := |sorted| - 1;
      var last := sorted[n];
      InsertKeepsTies(sorted[..n], y, x, urgency, order, rank);
      assert sorted == sorted[..n] + [last];
      NotBothTied(last, y, x, urgency, order, rank);
      TiedMore(Insert(sorted[..n], y, urgency, order, rank), last, x, urgency, order, rank);
      TiedMore(sorted[..n], last, x, urgency, order, rank);
      TiedMore(sorted[..n], y, x, urgency, order, rank);
      TiedMore(sorted, y, x, urgency, order, rank);
      EitherOrder(
        Tied(sorted[..n], x, urgency, order, rank), IfTied(y, x, urgency, order, rank),
        IfTied(last, x, urgency, order, rank));
    }
  }

  lemma EitherOrder(a: seq<Item>, b: seq<Item>, c: seq<Item>)
    requires b == [] || c == []
    ensures (a + b) + c == (a + c) + b
  {
  }

  lemma InsertBehind(sorted: seq<Item>, y: Item, urgency: bool, order: Option<Order>, rank: string -> int)
    requires sorted == [] || !Before(y, sorted[|sorted| - 1], urgency, order, rank)
    ensures Insert(sorted, y, urgency, order, rank) == sorted + [y]
  {
    hide Before;
  }

  lemma InsertInFront(sorted: seq<Item>, y: Item, urgency: bool, order: Option<Order>, rank: string -> int)
    requires sorted != [] && Before(y, sorted[|sorted| - 1], urgency, order, rank)
    ensures var n := |sorted| - 1;
      Insert(sorted, y, urgency, order, rank) == Insert(sorted[..n], y, urgency, order, rank) + [sorted[n]]
  {
    hide Before;
  }

  /** Two items that are not tied do not both tie with a third. */
  lemma NotBothTied(a: Item, b: Item, x: Item, urgency: bool, order: Option<Order>, rank: string -> int)
    requires Before(b, a, urgency, order, rank)
    ensures IfTied(a, x, urgency, order, rank) == [] || IfTied(b, x, urgency, order, rank) == []
  {
  }

  /** The result is in order, the same rows, and rows that tie keep the order they were shown in. */
  lemma {:induction false} SortIsStable(
    rows: seq<Item>, x: Item, urgency: bool, order: Option<Order>, rank: string -> int)
    ensures var out := Sorted(rows, urgency, order, rank);
      && Ordered(out, urgency, order, rank) && multiset(out) == multiset(rows)
      && Tied(out, x, urgency, order, rank) == Tied(rows, x, urgency, order, rank)
  {
    if rows != [] {
      SortedUnfolds(rows, urgency, order, rank);
      hide *;
      var n := |rows| - 1;
      var front, y := rows[..n], rows[n];
      var sorted := Sorted(front, urgency, order, rank);
      SortIsStable(front, x, urgency, order, rank);
      InsertSorts(sorted, y, urgency, order, rank);
      InsertKeepsTies(sorted, y, x, urgency, order, rank);
      TiedMore(sorted, y, x, urgency, order, rank);
      TiedMore(front, y, x, urgency, order, rank);
      FrontAndLast(rows);
    }
  }

  lemma FrontAndLast(rows: seq<Item>)
    requires rows != []
    ensures var n := |rows| - 1;
      rows == rows[..n] + [rows[n]] && multiset(rows) == multiset(rows[..n]) + multiset{rows[n]}
  {
    var n := |rows| - 1;
    assert rows == rows[..n] + [rows[n]];
  }

  lemma SortedUnfolds(rows: seq<Item>, urgency: bool, order: Option<Order>, rank: string -> int)
    requires rows != []
    ensures var n := |rows| - 1;
      Sorted(rows, urgency, order, rank)
      == Insert(Sorted(rows[..n], urgency, order, rank), rows[n], urgency, order, rank)
  {
    hide Insert;
  }

  lemma {:induction false} SubsequenceIn(part: seq<Item>, whole: seq<Item>)
    requires Subsequence(part, whole)
    ensures forall x :: x in part ==> x in whole
    decreases |whole|
  {
    if part != [] {
      if part[0] == whole[0] && Subsequence(part[1..], whole[1..]) {
        SubsequenceIn(part[1..], whole[1..]);
        assert part == [part[0]] + part[1..];
      } else {
        SubsequenceIn(part, whole[1..]);
      }
    }
  }

  lemma OrderedAsAsked(rows: seq<Item>, urgency: bool, order: Option<Order>, rank: string -> int)
    requires Ordered(rows, urgency, order, rank)
    ensures InAskedOrder(rows, urgency, order, rank)
  {
    forall i, j | 0 <= i < j < |rows| ensures Follows(rows[i], rows[j], urgency, order, rank) {
      assert !Before(rows[j], rows[i], urgency, order, rank);
    }
  }

  lemma {:induction false} UnaskedStays(rows: seq<Item>, rank: string -> int)
    ensures Sorted(rows, false, None, rank) == rows
  {
    if rows != [] {
      SortedUnfolds(rows, false, None, rank);
      UnaskedStays(rows[..|rows| - 1], rank);
      assert rows == rows[..|rows| - 1] + [rows[|rows| - 1]];
    }
  }

  lemma TakesTheFirst(matched: seq<Item>, f: Filter, urgency: bool, rank: string -> int)
    ensures KeptAsAsked(Limited(Sorted(matched, urgency, f.order, rank), f.limit), matched, f, urgency, rank)
  {
    hide Sorted, Ordered, InAskedOrder;
    var sorted := Sorted(matched, urgency, f.order, rank);
    SortIsAPermutation(matched, urgency, f.order, rank);
    OrderedAsAsked(sorted, urgency, f.order, rank);
    assert |multiset(sorted)| == |sorted| && |multiset(matched)| == |matched|;
    if !urgency && f.order.None? { UnaskedStays(matched, rank); }
    var kept := Limited(sorted, f.limit);
    var rest := sorted[|kept|..];
    assert kept + rest == sorted;
  }

  lemma {:induction false} FrontOfSubsequence(part: seq<Item>, whole: seq<Item>, n: nat)
    requires Subsequence(part, whole) && n <= |part|
    ensures Subsequence(part[..n], whole)
    decreases |whole|
  {
    if n > 0 {
      if part[0] == whole[0] && Subsequence(part[1..], whole[1..]) {
        FrontOfSubsequence(part[1..], whole[1..], n - 1);
        assert part[..n][1..] == part[1..][..n - 1];
      } else {
        FrontOfSubsequence(part, whole[1..], n);
      }
    }
  }

  /** The row is of the named channel and state, and says the topic and the term, itself or in its detail. */
  predicate Meets(f: Filter, row: Item, details: string -> Option<Detail>) {
    && (f.channel.Some? ==> row.channel == f.channel.value)
    && (f.status.Some? ==> row.state == f.status.value)
    && (f.topic.Some? ==> Says(f.topic.value, row, details))
    && (f.term.Some? ==> Says(f.term.value, row, details))
  }

  predicate Says(words: Words, row: Item, details: string -> Option<Detail>) {
    words(row.texts)
    || match row.workItemId
       case None => false
       case Some(id) => match details(id) { case None => false case Some(detail) => words(detail.texts) }
  }

  lemma MeetsIt(f: Filter, row: Item, details: string -> Option<Detail>)
    ensures Satisfies(f, row, details) <==> Meets(f, row, details)
  {
  }

  lemma {:induction false} SatisfyingHas(f: Filter, rows: seq<Item>, details: string -> Option<Detail>, x: Item)
    ensures x in Satisfying(f, rows, details) <==> x in rows && Satisfies(f, x, details)
    decreases |rows|
  {
    hide Satisfies;
    if rows != [] {
      SatisfyingHas(f, rows[1..], details, x);
      assert rows == [rows[0]] + rows[1..];
    }
  }

  /**
   * Main result, for what is shown. Every row kept was on screen and satisfies every named axis; the kept rows
   * are the first of the matching ones in the asked order, newest first, oldest first or longest wait first,
   * and in the order shown when none was asked; without a limit, and with reads enough, none is left out.
   */
  lemma KeptRows(f: Filter, rows: seq<Item>, details: string -> Option<Detail>, urgency: bool, rank: string -> int)
    ensures var matched := Scan(f, rows, details, 0).0;
      var kept := Limited(Sorted(matched, urgency, f.order, rank), f.limit);
      && (forall x :: x in kept ==> x in rows && Meets(f, x, details))
      && KeptAsAsked(kept, matched, f, urgency, rank) && InAskedOrder(kept, urgency, f.order, rank)
      && (!urgency && f.order.None? ==> Subsequence(kept, rows))
      && (f.limit.None? && AllNeeded(f, rows, details) <= 8 ==>
           multiset(kept) == multiset(Satisfying(f, rows, details))
           && forall x :: x in rows && Meets(f, x, details) ==> x in kept)
  {
    hide Satisfies, Meets, Before, Ordered, Scan, Sorted, Subsequence, Limited, AllNeeded, Satisfying, KeptAsAsked;
    hide InAskedOrder;
    FilterIsHonest(f, rows, details);
    var matched := Scan(f, rows, details, 0).0;
    SubsequenceIn(matched, rows);
    SortIsAPermutation(matched, urgency, f.order, rank);
    var sorted := Sorted(matched, urgency, f.order, rank);
    LimitKeepsOrder(sorted, f.limit, urgency, f.order, rank);
    OrderedAsAsked(Limited(sorted, f.limit), urgency, f.order, rank);
    TakesTheFirst(matched, f, urgency, rank);
    if !urgency && f.order.None? {
      UnaskedStays(matched, rank);
      FirstOfSubsequence(matched, rows, f.limit);
    }
    forall x | x in Limited(sorted, f.limit) ensures x in rows && Meets(f, x, details) {
      SameElements(sorted, matched, x);
      MeetsIt(f, x, details);
    }
    if f.limit.None? && AllNeeded(f, rows, details) <= FILTER_DETAIL_CAP {
      forall x | x in rows && Meets(f, x, details) ensures x in sorted {
        MeetsIt(f, x, details);
        SatisfyingHas(f, rows, details, x);
        SameElements(matched, sorted, x);
      }
    }
  }

  lemma FirstOfSubsequence(part: seq<Item>, whole: seq<Item>, limit: Option<nat>)
    requires Subsequence(part, whole)
    ensures Subsequence(Limited(part, limit), whole)
  {
    if limit.Some? && limit.value < |part| { FrontOfSubsequence(part, whole, limit.value); }
  }

  lemma SortIsAPermutation(rows: seq<Item>, urgency: bool, order: Option<Order>, rank: string -> int)
    ensures var out := Sorted(rows, urgency, order, rank);
      Ordered(out, urgency, order, rank) && multiset(out) == multiset(rows)
  {
    if rows != [] { SortIsStable(rows, rows[0], urgency, order, rank); }
  }

  lemma SameElements(a: seq<Item>, b: seq<Item>, x: Item)
    requires multiset(a) == multiset(b)
    ensures x in a ==> x in b
  {
    if x in a { assert x in multiset(a); }
  }

  lemma LimitKeepsOrder(sorted: seq<Item>, limit: Option<nat>, urgency: bool, order: Option<Order>, rank: string -> int)
    requires Ordered(sorted, urgency, order, rank)
    ensures var kept := Limited(sorted, limit);
      && Ordered(kept, urgency, order, rank) && (forall x :: x in kept ==> x in sorted)
      && (limit.Some? ==> |kept| <= limit.value) && (limit.None? ==> kept == sorted)
  {
    hide Before;
  }
}
