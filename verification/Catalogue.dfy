/** The six shipped procedures and the table that chooses one from closed tokens. */
module Catalogue {
  import opened Base
  import opened Procedure

  datatype Readiness = NoChannel | NoData | Working | UnknownWorld

  datatype Anchor = InquiryAnchor | ReviewAnchor | ProductAnchor

  /** An absent field does not care about its axis. */
  datatype Entry = Entry(
    readiness: Option<set<Readiness>>, anchor: Option<Anchor>, requestedAction: Option<set<string>>,
    needKinds: Option<set<string>>, pendingCapture: Option<bool>, priority: int)

  datatype Shipped = Shipped(
    id: ProcedureId, version: string, entry: Entry, steps: seq<Step>, completion: set<TerminalKind>)

  datatype RoutingContext = RoutingContext(
    readiness: Readiness, anchor: Option<Anchor>, requestedAction: string, needKinds: set<string>, pendingCapture: bool)

  const ONBOARD_CHANNEL := Shipped(
    OnboardChannel, "onboard-channel/v1",
    Entry(Some({NoChannel}), None, None, None, None, 10),
    [Step("world", HydrateWorld, false), Step("gate", CheckPrecondition, false), Step("settle", Settle, false)],
    {BlockedByPrecondition})

  const DAILY_WORK := Shipped(
    DailyWork, "daily-work/v1",
    Entry(Some({NoData, Working, UnknownWorld}), None, Some({"LIST_ACTIONS"}), None, None, 20),
    [Step("world", HydrateWorld, false), Step("gate", CheckPrecondition, false),
      Step("investigate", Investigate, false),
     Step("settle", Settle, false)],
    {Answered, BlockedByPrecondition, Unknown})

  const ANSWER_INQUIRY := Shipped(
    AnswerInquiry, "answer-inquiry/v1",
    Entry(None, Some(InquiryAnchor), Some({"PREPARE_INQUIRY_DRAFT", "REQUEST_SEND_APPROVAL"}), None, None, 30),
    [Step("loadObject", LoadObject, false), Step("gate", CheckPrecondition, false), Step("prepare", Prepare, true),
     Step("revise", Revise, true), Step("approval", ValidateApproval, true), Step("execute", Execute, true),
     Step("settle", Settle, false)],
    {Answered, BlockedByPrecondition, WaitingHuman})

  const ANSWER_REVIEW := Shipped(
    AnswerReview, "answer-review/v1",
    Entry(None, Some(ReviewAnchor), Some({"PREPARE_INQUIRY_DRAFT", "REQUEST_SEND_APPROVAL"}), None, None, 40),
    [Step("loadObject", LoadObject, false), Step("gate", CheckPrecondition, false), Step("prepare", Prepare, true),
     Step("revise", Revise, true), Step("approval", ValidateApproval, true), Step("humanWait", HumanWait, true),
     Step("execute", Execute, true), Step("settle", Settle, false)],
    {Answered, BlockedByPrecondition, WaitingHuman, Unknown})

  const CAPTURE_KNOWLEDGE := Shipped(
    CaptureKnowledge, "capture-knowledge/v1",
    Entry(None, None, None, None, Some(true), 5),
    [Step("resume", Resume, false), Step("settle", Settle, false)],
    {Answered, WaitingHuman})

  const IMPROVE_FROM_ISSUES := Shipped(
    ImproveFromIssues, "improve-from-issues/v1",
    Entry(Some({Working, UnknownWorld}), None, None, Some({"IMPROVEMENT_OPPORTUNITY"}), None, 50),
    [Step("investigate", Investigate, false), Step("evidence", ReadOpportunities, false),
      Step("settle", Settle, false)],
    {Answered, Unknown})

  const PROCEDURES :=
    [ONBOARD_CHANNEL, DAILY_WORK, ANSWER_INQUIRY, ANSWER_REVIEW, CAPTURE_KNOWLEDGE, IMPROVE_FROM_ISSUES]

  function ShippedOf(id: ProcedureId): (d: Shipped)
    ensures d.id == id && d in PROCEDURES
  {
    match id
    case OnboardChannel => assert PROCEDURES[0].id == id; PROCEDURES[0]
    case DailyWork => PROCEDURES[1]
    case AnswerInquiry => PROCEDURES[2]
    case AnswerReview => PROCEDURES[3]
    case CaptureKnowledge => PROCEDURES[4]
    case ImproveFromIssues => PROCEDURES[5]
  }

  predicate Admits(d: Shipped, x: RoutingContext) {
    && (d.entry.readiness.Some? ==> x.readiness in d.entry.readiness.value)
    && (d.entry.anchor.Some? ==> x.anchor == d.entry.anchor)
    && (d.entry.requestedAction.Some? ==> x.requestedAction in d.entry.requestedAction.value)
    && (d.entry.needKinds.Some? ==> d.entry.needKinds.value * x.needKinds != {})
    && (d.entry.pendingCapture.Some? ==> x.pendingCapture == d.entry.pendingCapture.value)
  }

  /** A stable sort, least priority first. */
  function ByPriority(ds: seq<Shipped>): seq<Shipped> {
    if ds == [] then [] else InsertLast(ByPriority(ds[..|ds| - 1]), ds[|ds| - 1])
  }

  function InsertLast(sorted: seq<Shipped>, d: Shipped): seq<Shipped> {
    if sorted == [] || sorted[|sorted| - 1].entry.priority <= d.entry.priority then sorted + [d]
    else InsertLast(sorted[..|sorted| - 1], d) + [sorted[|sorted| - 1]]
  }

  function FirstAdmitted(ds: seq<Shipped>, x: RoutingContext): Option<Shipped> {
    if ds == [] then None else if Admits(ds[0], x) then Some(ds[0]) else FirstAdmitted(ds[1..], x)
  }

  function SelectProcedure(catalogue: seq<Shipped>, x: RoutingContext): Option<Shipped> {
    FirstAdmitted(ByPriority(catalogue), x)
  }

  ghost predicate Ascending(ds: seq<Shipped>) {
    forall i, j :: 0 <= i < j < |ds| ==> ds[i].entry.priority <= ds[j].entry.priority
  }

  lemma {:induction false} InsertSorts(sorted: seq<Shipped>, d: Shipped)
    requires Ascending(sorted)
    ensures Ascending(InsertLast(sorted, d))
    ensures multiset(InsertLast(sorted, d)) == multiset(sorted) + multiset{d}
  {
    if sorted != [] && d.entry.priority < sorted[|sorted| - 1].entry.priority {
      var n := |sorted| - 1;
      var last := sorted[n];
      InsertSorts(sorted[..n], d);
      assert sorted == sorted[..n] + [last];
      var inner := InsertLast(sorted[..n], d);
      forall x | x in inner ensures x.entry.priority <= last.entry.priority {
        assert x in multiset(inner);
        if x != d { assert x in multiset(sorted[..n]) && x in sorted[..n]; }
      }
      hide InsertLast;
      AscendingMore(inner, last);
    }
  }

  lemma AscendingMore(ds: seq<Shipped>, last: Shipped)
    requires Ascending(ds) && forall x :: x in ds ==> x.entry.priority <= last.entry.priority
    ensures Ascending(ds + [last])
  {
    assert forall i :: 0 <= i < |ds| ==> ds[i] in ds;
  }

  lemma {:induction false} SortSorts(ds: seq<Shipped>)
    ensures Ascending(ByPriority(ds)) && multiset(ByPriority(ds)) == multiset(ds)
  {
    if ds != [] {
      hide Ascending, InsertLast;
      var front, last := ds[..|ds| - 1], ds[|ds| - 1];
      SortSorts(front);
      InsertSorts(ByPriority(front), last);
      assert ds == front + [last];
    } else {
      assert Ascending([]);
    }
  }

  lemma {:induction false} FirstIsLeast(ds: seq<Shipped>, x: RoutingContext)
    requires Ascending(ds)
    ensures var r := FirstAdmitted(ds, x);
      if r.None? then forall d :: d in ds ==> !Admits(d, x)
      else r.value in ds && Admits(r.value, x) && forall d :: d in ds && Admits(d, x) ==>
        r.value.entry.priority <= d.entry.priority
  {
    if ds != [] && !Admits(ds[0], x) { FirstIsLeast(ds[1..], x); }
  }

  /**
   * Main result. Whatever order a catalogue with distinct priorities is listed in, the choice is the one
   * admitted definition of least priority, and nothing only when none is admitted.
   */
  lemma SelectsLeastPriority(catalogue: seq<Shipped>, x: RoutingContext, d: Shipped)
    requires forall a, b :: a in catalogue && b in catalogue && a.entry.priority == b.entry.priority ==> a == b
    ensures SelectProcedure(catalogue, x) == Some(d) <==>
      && d in catalogue && Admits(d, x)
      && forall b :: b in catalogue && Admits(b, x) ==> d.entry.priority <= b.entry.priority
    ensures SelectProcedure(catalogue, x) == None <==> forall b :: b in catalogue ==> !Admits(b, x)
  {
    SortSorts(catalogue);
    FirstIsLeast(ByPriority(catalogue), x);
    assert forall b :: b in catalogue <==> b in multiset(catalogue);
    assert forall b :: b in ByPriority(catalogue) <==> b in multiset(ByPriority(catalogue));
  }

  const DRAFT_ACTIONS := {"PREPARE_INQUIRY_DRAFT", "REQUEST_SEND_APPROVAL"}

  /** The whole routing of the shipped catalogue, as one table. */
  function Routed(x: RoutingContext): Option<ProcedureId> {
    if x.pendingCapture then Some(CaptureKnowledge)
    else if x.readiness == NoChannel then Some(OnboardChannel)
    else if x.requestedAction == "LIST_ACTIONS" then Some(DailyWork)
    else if x.requestedAction in DRAFT_ACTIONS && x.anchor == Some(InquiryAnchor) then Some(AnswerInquiry)
    else if x.requestedAction in DRAFT_ACTIONS && x.anchor == Some(ReviewAnchor) then Some(AnswerReview)
    else if "IMPROVEMENT_OPPORTUNITY" in x.needKinds && x.readiness != NoData then Some(ImproveFromIssues)
    else None
  }

  lemma RoutingTable(x: RoutingContext)
    ensures SelectProcedure(PROCEDURES, x) == (if Routed(x).None? then None else Some(ShippedOf(Routed(x).value)))
  {
    hide Admits, SelectProcedure, ShippedOf;
    DistinctPriorities();
    if Routed(x).Some? {
      var id := Routed(x).value;
      RoutedIsAdmitted(x);
      forall b | b in PROCEDURES && Admits(b, x) ensures ShippedOf(id).entry.priority <= b.entry.priority {
        RoutedComesFirst(x, b.id);
        PrioritiesOf(id);
        PrioritiesOf(b.id);
      }
      SelectsLeastPriority(PROCEDURES, x, ShippedOf(id));
    } else {
      forall b | b in PROCEDURES ensures !Admits(b, x) {
        if Admits(b, x) { RoutedComesFirst(x, b.id); }
      }
      SelectsLeastPriority(PROCEDURES, x, ShippedOf(OnboardChannel));
    }
  }

  /** The priorities, in one place. */
  function Priority(id: ProcedureId): int {
    match id
    case CaptureKnowledge => 5
    case OnboardChannel => 10
    case DailyWork => 20
    case AnswerInquiry => 30
    case AnswerReview => 40
    case ImproveFromIssues => 50
  }

  lemma PrioritiesOf(id: ProcedureId)
    ensures ShippedOf(id).entry.priority == Priority(id)
  {
  }

  lemma ListedOnce(i: nat)
    requires i < |PROCEDURES|
    ensures PROCEDURES[i] == ShippedOf(PROCEDURES[i].id)
  {
  }

  lemma DistinctPriorities()
    ensures forall d :: d in PROCEDURES ==> d == ShippedOf(d.id)
    ensures forall a, b :: a in PROCEDURES && b in PROCEDURES && a.entry.priority == b.entry.priority ==> a == b
  {
    forall d | d in PROCEDURES ensures d == ShippedOf(d.id) {
      var i :| 0 <= i < |PROCEDURES| && PROCEDURES[i] == d;
      ListedOnce(i);
    }
    forall a, b | a in PROCEDURES && b in PROCEDURES && a.entry.priority == b.entry.priority ensures a == b {
      hide ShippedOf;
      PrioritiesOf(a.id);
      PrioritiesOf(b.id);
    }
  }

  lemma OneNeed(needs: set<string>)
    ensures {"IMPROVEMENT_OPPORTUNITY"} * needs != {} <==> "IMPROVEMENT_OPPORTUNITY" in needs
  {
    if "IMPROVEMENT_OPPORTUNITY" in needs { assert "IMPROVEMENT_OPPORTUNITY" in {"IMPROVEMENT_OPPORTUNITY"} * needs; }
  }

  lemma RoutedIsAdmitted(x: RoutingContext)
    requires Routed(x).Some?
    ensures Admits(ShippedOf(Routed(x).value), x)
  {
    OneNeed(x.needKinds);
  }

  lemma RoutedComesFirst(x: RoutingContext, id: ProcedureId)
    requires Admits(ShippedOf(id), x)
    ensures Routed(x).Some? && Priority(Routed(x).value) <= Priority(id)
  {
    OneNeed(x.needKinds);
  }
}
