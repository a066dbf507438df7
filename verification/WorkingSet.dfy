/** What a conversation is standing on: the set last shown, and at most one object selected in it. */
module WorkingSet {
  import opened Base

  const WORKING_SET_MAX_IDS := 50

  datatype Kind = Inquiries | Reviews | Products | Orders | Issues

  /** A selected inquiry carries both of its ids; a set may be keyed by either. */
  datatype Row = Row(inquiryId: string, workItemId: Option<string>, productId: Option<string>)

  datatype Object =
    | ProductObject(id: string, productId: Option<string>)
    | ReviewObject(id: string, productId: Option<string>)

  datatype Set = Set(
    kind: Kind, ids: seq<string>, productIds: seq<string>, workItemIds: seq<string>, selectedInquiry: Option<Row>,
    selectedObject: Option<Object>)

  /** A list artifact a turn drew, by what its rows carry. */
  datatype Drawn =
    | ReviewList(reviews: seq<Object>)
    | InquiryList(rows: seq<Row>, byInquiry: bool)
    | ProductList(products: seq<string>)
    | OrderSummary
    | IssueList(issues: seq<string>, of: seq<Option<string>>)

  /* ---- small helpers of the source ---- */

  /** `[...new Set(xs)]`: the first of each, in order. */
  function Dedupe(xs: seq<string>): (r: seq<string>)
    ensures NoRepeat(r) && |r| <= |xs| && forall x :: x in r <==> x in xs
  {
    if xs == [] then []
    else
      var rest := Dedupe(xs[..|xs| - 1]);
      assert forall x :: x in xs <==> x in xs[..|xs| - 1] || x == xs[|xs| - 1];
      if xs[|xs| - 1] in rest then rest else rest + [xs[|xs| - 1]]
  }

  function Present(xs: seq<Option<string>>): seq<string> {
    if xs == [] then [] else (if xs[0].Some? then [xs[0].value] else []) + Present(xs[1..])
  }

  function Bounded(xs: seq<string>): seq<string> { First(xs, WORKING_SET_MAX_IDS) }

  function InquiryIds(rows: seq<Row>): seq<string> { seq(|rows|, i requires 0 <= i < |rows| => rows[i].inquiryId) }

  function WorkItemIds(rows: seq<Row>): seq<string> {
    Present(seq(|rows|, i requires 0 <= i < |rows| => rows[i].workItemId))
  }

  function ProductIds(rows: seq<Row>): seq<string> {
    Dedupe(Present(seq(|rows|, i requires 0 <= i < |rows| => rows[i].productId)))
  }

  function OrEmpty(o: Option<string>): seq<string> { if o.Some? then [o.value] else [] }

  function ObjectKind(o: Object): Kind { if o.ProductObject? then Products else Reviews }

  /* ---- the transitions ---- */

  predicate Holds(s: Set, row: Row) {
    row.inquiryId in s.ids || (row.workItemId.Some? && row.workItemId.value in s.workItemIds)
  }

  /** Standing on an inquiry: the list it was picked from stays the set, whichever id keys it. */
  function AnchoredSet(row: Row, previous: Option<Set>, productIds: seq<string>): Set {
    var list :=
      if previous.Some? && previous.value.kind == Inquiries && Holds(previous.value, row) then previous else None;
    Set(Inquiries,
        if list.Some? then list.value.ids else [row.inquiryId],
        Bounded(Dedupe(productIds)),
        if list.Some? then list.value.workItemIds else OrEmpty(row.workItemId),
        Some(row), None)
  }

  function AnchoredObjectSet(o: Object, previous: Option<Set>): Set {
    var list :=
      if previous.Some? && previous.value.kind == ObjectKind(o) && o.id in previous.value.ids then previous else None;
    Set(ObjectKind(o),
        if list.Some? then list.value.ids else [o.id],
        Bounded(Dedupe((if list.Some? then list.value.productIds else []) + OrEmpty(o.productId))),
        if list.Some? then list.value.workItemIds else [],
        None, Some(o))
  }

  function Cleared(set_: Option<Set>): Option<Set> {
    if set_.Some? then Some(set_.value.(selectedInquiry := None, selectedObject := None)) else None
  }

  /** The set a list leaves behind, bounded. */
  function SetOf(d: Drawn): Set {
    match d
    case ReviewList(reviews) =>
      Set(Reviews, Bounded(seq(|reviews|, i requires 0 <= i < |reviews| => reviews[i].id)),
          Bounded(Dedupe(Present(seq(|reviews|, i requires 0 <= i < |reviews| => reviews[i].productId)))),
          [], None, None)
    case InquiryList(rows, byInquiry) =>
      Set(Inquiries, Bounded(if byInquiry then InquiryIds(rows) else WorkItemIds(rows)), Bounded(ProductIds(rows)),
          Bounded(WorkItemIds(rows)), None, None)
    case ProductList(products) => Set(Products, Bounded(products), Bounded(products), [], None, None)
    case OrderSummary => Set(Orders, [], [], [], None, None)
    case IssueList(issues, products) => Set(Issues, Bounded(issues), Bounded(Dedupe(Present(products))), [], None, None)
  }

  /** A filter's result over the rows shown. */
  function FilteredSet(kept: seq<Row>): Set {
    Set(Inquiries, Bounded(InquiryIds(kept)), Bounded(ProductIds(kept)), Bounded(WorkItemIds(kept)), None, None)
  }

  /** The rows a label could mean, shown for the seller to pick from; they are rows of the set on screen. */
  function AmbiguousSet(items: seq<Row>): Set {
    Set(Inquiries, InquiryIds(items), ProductIds(items), WorkItemIds(items), None, None)
  }

  /** One product out of a product list stays the anchor whatever the turn drew about it. */
  function OrdinalProduct(w: Option<Set>, view: Option<Set>, ordinal: Option<string>): Option<Set> {
    if ordinal.Some? && view.Some? && view.value.kind == Products
       && (w.None? || forall i :: 0 <= i < |w.value.productIds| ==> w.value.productIds[i] == ordinal.value) then
      Some(Set(Products, [ordinal.value], [ordinal.value], if w.Some? then w.value.workItemIds else [], None, None))
    else w
  }

  /** What a planned turn read and decided, as far as the set is concerned. */
  datatype Plan = Plan(
    drawn: Option<Drawn>, ordinal: Option<string>, refinesSet: bool, toneRevision: bool, selected: Option<Row>,
    hintProduct: Option<string>, drewFreshList: bool, drewFreshObjectList: bool, notStarted: bool)

  function BeforeAnchor(view: Option<Set>, p: Plan): Option<Set> {
    var latest := if p.drawn.Some? then Some(SetOf(p.drawn.value)) else view;
    var ordinal := OrdinalProduct(latest, view, p.ordinal);
    var refined :=
      if p.refinesSet && ordinal.Some? && ordinal.value.ids == [] && ordinal.value.workItemIds == [] && view.Some? then
        view
      else ordinal;
    if p.toneRevision then view else refined
  }

  /**
   * The set after a planned turn: a selection, or an anchor the turn did not leave, is kept over whatever was
   * drawn.
   */
  function Composed(view: Option<Set>, p: Plan): Option<Set> {
    var w := BeforeAnchor(view, p);
    var anchor :=
      if p.selected.Some? then p.selected
      else if !p.drewFreshList && view.Some? then view.value.selectedInquiry
      else None;
    var anchored :=
      if anchor.Some? then
        Some(AnchoredSet(anchor.value, view,
                         (if w.Some? then w.value.productIds else []) + OrEmpty(anchor.value.productId)
                           + OrEmpty(p.hintProduct)))
      else if view.Some? && view.value.selectedObject.Some? && !p.drewFreshObjectList then
        Some(AnchoredObjectSet(view.value.selectedObject.value, if w.Some? then w else view))
      else w;
    if p.notStarted then view else anchored
  }

  /* ---- the invariant ---- */

  ghost predicate Sized(s: Set) {
    |s.ids| <= WORKING_SET_MAX_IDS && |s.productIds| <= WORKING_SET_MAX_IDS && |s.workItemIds| <= WORKING_SET_MAX_IDS
  }

  /** At most one anchor, and it belongs to the set. */
  ghost predicate Anchored(s: Set) {
    && (s.selectedInquiry.Some? ==>
         && s.selectedObject.None? && s.kind == Inquiries
         && var row := s.selectedInquiry.value;
            row.inquiryId in s.ids || exists id :: row.workItemId == Some(id) && id in s.workItemIds)
    && (s.selectedObject.Some? ==>
         s.selectedInquiry.None? && s.kind == ObjectKind(s.selectedObject.value) && s.selectedObject.value.id in s.ids)
  }

  ghost predicate Ok(s: Option<Set>) { s.Some? ==> Sized(s.value) && Anchored(s.value) }

  /* ---- what a list leaves behind ---- */

  /** All the values there are, or fifty of them. */
  ghost predicate AllOrFifty(kept: seq<string>, all: seq<Option<string>>) {
    && |kept| <= 50 && (forall x :: x in kept ==> Some(x) in all)
    && (|kept| < 50 ==> forall x :: Some(x) in all ==> x in kept)
  }

  ghost function Somes(xs: seq<string>): seq<Option<string>> { seq(|xs|, i requires 0 <= i < |xs| => Some(xs[i])) }

  lemma SomesHave(xs: seq<string>)
    ensures forall x :: Some(x) in Somes(xs) <==> x in xs
  {
    forall x | x in xs ensures Some(x) in Somes(xs) {
      var i :| 0 <= i < |xs| && xs[i] == x;
      assert Somes(xs)[i] == Some(x);
    }
  }

  lemma FirstOfDistinct(xs: seq<string>)
    requires NoRepeat(xs)
    ensures NoRepeat(Bounded(xs)) && |Bounded(xs)| <= 50 && forall x :: x in Bounded(xs) ==> x in xs
    ensures |Bounded(xs)| < 50 ==> Bounded(xs) == xs
  {
  }

  lemma {:induction false} PresentHas(xs: seq<Option<string>>)
    ensures forall x :: x in Present(xs) <==> Some(x) in xs
  {
    if xs != [] {
      PresentHas(xs[1..]);
      assert forall x :: Some(x) in xs <==> xs[0] == Some(x) || Some(x) in xs[1..];
    }
  }

  lemma KeptOfPresent(xs: seq<Option<string>>)
    ensures AllOrFifty(Bounded(Present(xs)), xs)
    ensures AllOrFifty(Bounded(Dedupe(Present(xs))), xs) && NoRepeat(Bounded(Dedupe(Present(xs))))
  {
    PresentHas(xs);
    FirstOfDistinct(Dedupe(Present(xs)));
  }

  function WorkItemsOf(rows: seq<Row>): seq<Option<string>> {
    seq(|rows|, i requires 0 <= i < |rows| => rows[i].workItemId)
  }

  function ProductsOf(rows: seq<Row>): seq<Option<string>> {
    seq(|rows|, i requires 0 <= i < |rows| => rows[i].productId)
  }

  /** The set of a list of inquiries: the ids of its first fifty rows in order, and what goes with its rows. */
  ghost predicate SetOfRows(s: Set, rows: seq<Row>) {
    && s.kind == Inquiries && s.selectedInquiry.None? && s.selectedObject.None?
    && |s.ids| == (if |rows| < 50 then |rows| else 50)
    && (forall i :: 0 <= i < |s.ids| ==> s.ids[i] == rows[i].inquiryId)
    && AllOrFifty(s.workItemIds, WorkItemsOf(rows))
    && AllOrFifty(s.productIds, ProductsOf(rows)) && NoRepeat(s.productIds)
  }

  /** A filter leaves the set of the rows it kept, and a drawn list the set of its rows, keyed as it was drawn. */
  lemma LeavesItsRows(rows: seq<Row>)
    ensures SetOfRows(FilteredSet(rows), rows) && SetOfRows(SetOf(InquiryList(rows, true)), rows)
    ensures var s := SetOf(InquiryList(rows, false));
      s.ids == s.workItemIds && SetOfRows(s.(ids := FilteredSet(rows).ids), rows)
  {
    hide Dedupe, Present;
    KeptOfPresent(WorkItemsOf(rows));
    KeptOfPresent(ProductsOf(rows));
  }

  /** The other lists: the ids drawn, in order, up to fifty. */
  lemma LeavesItsIds(d: Drawn)
    requires !d.InquiryList?
    ensures var s := SetOf(d);
      && s.selectedInquiry.None? && s.selectedObject.None? && s.workItemIds == []
      && match d
         case ReviewList(reviews) =>
           && s.kind == Reviews && |s.ids| == (if |reviews| < 50 then |reviews| else 50)
           && forall i :: 0 <= i < |s.ids| ==> s.ids[i] == reviews[i].id
         case ProductList(products) =>
           s.kind == Products && s.ids == s.productIds == First(products, 50)
         case OrderSummary => s.kind == Orders && s.ids == [] && s.productIds == []
         case IssueList(issues, products) =>
           s.kind == Issues && s.ids == First(issues, 50) && AllOrFifty(s.productIds, products)
  {
    hide Dedupe, Present;
    if d.IssueList? { KeptOfPresent(d.of); }
  }

  /**
   * What a planned turn leaves selected: nothing new when it did not start; the row it selected; else the
   * inquiry already selected unless it drew a fresh list; else the object already selected unless it drew a
   * fresh list of objects. With no anchor the set is what was drawn, or what was on screen.
   */
  lemma AnchorAfterPlan(view: Option<Set>, p: Plan)
    ensures var s := Composed(view, p);
      var inquiry := view.Some? && view.value.selectedInquiry.Some? && !p.drewFreshList;
      var held := view.Some? && view.value.selectedObject.Some? && !p.drewFreshObjectList;
      if p.notStarted then s == view
      else if p.selected.Some? then s.Some? && s.value.selectedInquiry == p.selected
      else if inquiry then s.Some? && s.value.selectedInquiry == view.value.selectedInquiry
      else if held then s.Some? && s.value.selectedObject == view.value.selectedObject
      else
        && (p.toneRevision ==> s == view)
        && (!p.toneRevision && !p.refinesSet && p.ordinal.None? ==>
             s == if p.drawn.Some? then Some(SetOf(p.drawn.value)) else view)
        && (!p.toneRevision && p.ordinal.Some? && view.Some? && view.value.kind == Products && p.drawn.None? &&
            (forall x :: x in view.value.productIds ==> x == p.ordinal.value) ==>
             s.Some? && s.value.ids == [p.ordinal.value] && s.value.productIds == [p.ordinal.value])
  {
    hide SetOf, Dedupe, Bounded;
    if view.Some? {
      var products := view.value.productIds;
      assert forall i :: 0 <= i < |products| ==> products[i] in products;
    }
  }

  lemma BoundedIsSized(xs: seq<string>)
    ensures |Bounded(xs)| <= WORKING_SET_MAX_IDS
  {
  }

  lemma AnchoringKeeps(row: Row, previous: Option<Set>, productIds: seq<string>)
    requires Ok(previous)
    ensures Ok(Some(AnchoredSet(row, previous, productIds)))
    ensures var s := AnchoredSet(row, previous, productIds);
      && s.selectedInquiry == Some(row) && AllOrFifty(s.productIds, Somes(productIds)) && NoRepeat(s.productIds)
      && (previous.None? || previous.value.kind != Inquiries ==> s.ids == [row.inquiryId])
      && (previous.Some? && row.inquiryId !in previous.value.ids
          && (row.workItemId.Some? ==> row.workItemId.value !in previous.value.workItemIds) ==>
           s.ids == [row.inquiryId] && s.workItemIds == OrEmpty(row.workItemId))
  {
    BoundedIsSized(Dedupe(productIds));
    SomesHave(productIds);
    FirstOfDistinct(Dedupe(productIds));
  }

  lemma AnchoringAnObjectKeeps(o: Object, previous: Option<Set>)
    requires Ok(previous)
    ensures Ok(Some(AnchoredObjectSet(o, previous)))
    ensures var s := AnchoredObjectSet(o, previous);
      && s.selectedObject == Some(o)
      && s.ids
         == if previous.Some? && previous.value.kind == s.kind && o.id in previous.value.ids then previous.value.ids
            else [o.id]
  {
  }

  lemma DrawingKeeps(d: Drawn)
    ensures Ok(Some(SetOf(d)))
    ensures SetOf(d).selectedInquiry.None? && SetOf(d).selectedObject.None?
  {
    hide Dedupe, Present;
  }

  lemma FilteringKeeps(kept: seq<Row>)
    ensures Ok(Some(FilteredSet(kept)))
  {
  }

  lemma {:induction false} PresentShrinks(xs: seq<Option<string>>)
    ensures |Present(xs)| <= |xs|
  {
    if xs != [] { PresentShrinks(xs[1..]); }
  }

  /** Rows to pick from are as many as were on screen at most. */
  lemma AskingKeeps(items: seq<Row>, view: Option<Set>)
    requires Ok(view) && view.Some? && |items| <= |view.value.ids|
    ensures Ok(Some(AmbiguousSet(items)))
  {
    PresentShrinks(seq(|items|, i requires 0 <= i < |items| => items[i].workItemId));
    PresentShrinks(seq(|items|, i requires 0 <= i < |items| => items[i].productId));
  }

  lemma BeforeAnchorKeeps(view: Option<Set>, p: Plan)
    requires Ok(view)
    ensures Ok(BeforeAnchor(view, p))
  {
    hide SetOf;
    if p.drawn.Some? { DrawingKeeps(p.drawn.value); }
  }

  /** Main result for a planned turn: whatever it read, drew, selected or refused. */
  lemma ComposingKeeps(view: Option<Set>, p: Plan)
    requires Ok(view)
    ensures Ok(Composed(view, p))
  {
    hide AnchoredSet, AnchoredObjectSet, BeforeAnchor, Sized, Anchored;
    BeforeAnchorKeeps(view, p);
    var w := BeforeAnchor(view, p);
    if p.selected.Some? {
      AnchoringKeeps(p.selected.value, view,
        (if w.Some? then w.value.productIds else []) + OrEmpty(p.selected.value.productId) + OrEmpty(p.hintProduct));
    } else if !p.drewFreshList && view.Some? && view.value.selectedInquiry.Some? {
      var row := view.value.selectedInquiry.value;
      AnchoringKeeps(row, view,
        (if w.Some? then w.value.productIds else []) + OrEmpty(row.productId) + OrEmpty(p.hintProduct));
    } else if view.Some? && view.value.selectedObject.Some? {
      AnchoringAnObjectKeeps(view.value.selectedObject.value, if w.Some? then w else view);
    }
  }

  /** A list still counted on after a click: picking a row of it, by either id, keeps its rows and their order. */
  lemma PickingKeepsTheList(row: Row, s: Set, productIds: seq<string>)
    requires s.kind == Inquiries && Holds(s, row)
    ensures var after := AnchoredSet(row, Some(s), productIds); after.ids == s.ids && after.workItemIds == s.workItemIds
    ensures var again := AnchoredSet(row, Some(AnchoredSet(row, Some(s), productIds)), productIds);
      again == AnchoredSet(row, Some(s), productIds)
  {
  }
}
