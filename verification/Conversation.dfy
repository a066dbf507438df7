/**
 * One conversation, turn by turn: what it is standing on, and the life of a knowledge question from asked,
 * to a candidate the seller sees, to a saved row or none. Turns of a conversation run one after another.
 */
module Conversation {
  import opened Base
  import opened Text
  import opened Candidate
  import opened KnowledgeFence
  import opened KnowledgeGap
  import WS = WorkingSet

  /** The identity a confirmation binds to; the hash is taken as collision-free. */
  datatype Fingerprint = FingerprintOf(
    scope: Scope, productId: Option<string>, variantId: Option<string>, kind: string, content: string)

  datatype Draft = Draft(content: string, title: string, fingerprint: Fingerprint)

  /** A question put to the seller; with a draft it is a candidate waiting for a decision. */
  datatype Pending = Pending(captureId: nat, gap: OpenedGap, variantId: Option<string>, draft: Option<Draft>)

  /** A row of the seller's own knowledge. */
  datatype KnowledgeRow =
    | OrgRow(kind: string, title: string, body: string)
    | ProductRow(productId: string, sourceType: string, title: string, body: string, variantId: Option<string>)

  datatype Write = Write(captureId: nat, fingerprint: Fingerprint, row: KnowledgeRow)

  /** How a create request ended: `Lost` made the row, but the answer did not arrive. */
  datatype WriteOutcome = Saved | Refused | Lost

  datatype Conv = Conv(workingSet: Option<WS.Set>, pending: Option<Pending>, nextCapture: nat, writes: seq<Write>)

  datatype AnswerKind = IsCandidate | IsCancel | IsQuestion | IsCommand

  /** What the answer says about the product's variants. */
  datatype Named = Variant(id: string) | Generic | Unresolved

  /** Where a question comes from: a draft that could not be grounded, or a rule the plan missed. */
  datatype GapSource =
    | FromDraft(view: GapView, inquiryId: Option<string>, productId: Option<string>, plannerTopic: Option<string>)
    | FromPlan(topic: string, inquiryId: Option<string>)

  function GapOf(g: GapSource): Option<OpenedGap> {
    match g
    case FromDraft(v, inquiryId, productId, topic) => CaptureGapOf(Some(v), inquiryId, productId, topic)
    case FromPlan(topic, inquiryId) =>
      if OrgKind(topic).None? then None
      else Some(OpenedGap(Org, Some(topic), OrgKind(topic).value, inquiryId, None, None, false))
  }

  datatype Move =
    | Stay
    | NoReferent
    | Inspect(row: WS.Row)
    | InspectObject(target: WS.Object)
    | Narrow(kept: seq<WS.Row>)
    | AskWhich(items: seq<WS.Row>)

  datatype Decision = Save | Cancel

  datatype Event =
    | ClickInquiry(row: Option<WS.Row>)
    | ClickObject(target: Option<WS.Object>)
    | ClickClear
    | Answer(said: AnswerKind, text: string, named: Named, existing: seq<Existing>, matches: string -> seq<Match>)
    | Decide(captureId: nat, fingerprint: Fingerprint, decision: Decision, outcome: WriteOutcome,
        resumed: Option<WS.Plan>)
    | Direct(move: Move, question: Option<GapSource>)
    | Planned(plan: WS.Plan, question: Option<GapSource>)
    | Unplanned

  const START := Conv(None, None, 0, [])

  /* ---- the working set ---- */

  function ProductsOf(s: Option<WS.Set>): seq<string> { if s.Some? then s.value.productIds else [] }

  function OnRow(c: Conv, row: WS.Row): Option<WS.Set> {
    Some(WS.AnchoredSet(row, c.workingSet, ProductsOf(c.workingSet) + WS.OrEmpty(row.productId)))
  }

  function Moved(c: Conv, m: Move): Option<WS.Set> {
    match m
    case Stay => c.workingSet
    case NoReferent => None
    case Inspect(row) => OnRow(c, row)
    case InspectObject(o) => Some(WS.AnchoredObjectSet(o, c.workingSet))
    case Narrow(kept) => Some(WS.FilteredSet(kept))
    case AskWhich(items) =>
      if c.workingSet.Some? && |items| <= |c.workingSet.value.ids| then Some(WS.AmbiguousSet(items)) else c.workingSet
  }

  /* ---- the question ---- */

  function FocusOf(s: Option<WS.Set>): Option<string> {
    if s.Some? && s.value.selectedInquiry.Some? then Some(s.value.selectedInquiry.value.inquiryId) else None
  }

  /** A question survives a move unless the seller now stands on a different inquiry. */
  function Carried(p: Option<Pending>, s: Option<WS.Set>): Option<Pending> {
    if p.Some? && Given(p.value.gap.inquiryId) && Given(FocusOf(s)) && FocusOf(s) != p.value.gap.inquiryId then None
    else p
  }

  function Open(c: Conv, question: Option<GapSource>): Option<Pending> {
    if question.None? || GapOf(question.value).None? then None
    else Some(Pending(c.nextCapture, GapOf(question.value).value, None, None))
  }

  function FirstLine(s: string): string {
    if s == "" || s[0] == '\n' then "" else [s[0]] + FirstLine(s[1..])
  }

  function TitleOf(content: string): string {
    var first := Trim(FirstLine(content));
    if |first| <= 60 then first else first[..59] + "…"
  }

  lemma {:induction false} FirstLineEnds(s: string)
    ensures var n := |FirstLine(s)|;
      n <= |s| && FirstLine(s) == s[..n] && '\n' !in s[..n] && (n == |s| || s[n] == '\n')
  {
    if s != "" && s[0] != '\n' {
      FirstLineEnds(s[1..]);
      assert s[..|FirstLine(s)|] == [s[0]] + s[1..][..|FirstLine(s[1..])|];
    }
  }

  /** A title is the first line of the sentence, trimmed, and of a longer line its first fifty-nine characters. */
  lemma TitleIsTheFirstLine(content: string) returns (n: nat)
    ensures n <= |content| && '\n' !in content[..n] && (n == |content| || content[n] == '\n')
    ensures var line := Trim(content[..n]);
      var title := TitleOf(content);
      if |line| <= 60 then title == line
      else |title| == 60 && title[..59] == line[..59] && title[59] == '…'
  {
    hide Trim;
    FirstLineEnds(content);
    n := |FirstLine(content)|;
  }

  /** The variant an answer is filed under: the one it names, otherwise the one named before. */
  function VariantOf(p: Pending, named: Named): Option<string> {
    if p.gap.variantRequired && Given(p.gap.productId) && named.Variant? then Some(named.id) else p.variantId
  }

  predicate VariantOpen(p: Pending, named: Named) {
    p.gap.variantRequired && Given(p.gap.productId) && named.Unresolved?
  }

  ghost function VerdictOn(
    p: Pending, text: string, named: Named, existing: seq<Existing>, matches: string -> seq<Match>
  ): Verdict {
    var content := NormalizeContent(text);
    Judge(Filtered(existing, p.gap.scope, p.gap.kind, VariantOf(p, named)), content, TitleOf(content), matches)
  }

  /** The fence has one verdict. */
  lemma IsTheVerdict(
    v: Verdict, p: Pending, text: string, named: Named, existing: seq<Existing>, matches: string -> seq<Match>)
    requires var content := NormalizeContent(text);
      Judged(v, Filtered(existing, p.gap.scope, p.gap.kind, VariantOf(p, named)), content, TitleOf(content), matches)
    ensures v == VerdictOn(p, text, named, existing, matches)
  {
    hide NormalizeContent, TitleOf, Judge, Judged;
    var content := NormalizeContent(text);
    var rows := Filtered(existing, p.gap.scope, p.gap.kind, VariantOf(p, named));
    JudgeIsJudged(rows, content, TitleOf(content), matches);
    OneVerdict(v, Judge(rows, content, TitleOf(content), matches), rows, content, TitleOf(content), matches);
  }

  function AsCandidate(p: Pending, text: string, named: Named): Pending {
    var content := NormalizeContent(text);
    var variantId := VariantOf(p, named);
    Pending(p.captureId, p.gap, variantId,
            Some(Draft(content, TitleOf(content),
              FingerprintOf(p.gap.scope, p.gap.productId, variantId, p.gap.kind, content))))
  }

  /** The seller's next sentence while a question is open. */
  ghost function AfterAnswer(
    p: Pending, said: AnswerKind, text: string, named: Named, existing: seq<Existing>, matches: string -> seq<Match>
  ): Option<Pending> {
    if said.IsCancel? then None
    else if !said.IsCandidate? || VariantOpen(p, named) then Some(p)
    else if VerdictOn(p, text, named, existing, matches).Fine? then Some(AsCandidate(p, text, named))
    else None
  }

  /** A decision counts only for the open candidate, by id and by the fingerprint the card showed. */
  predicate Binds(p: Option<Pending>, captureId: nat, fingerprint: Fingerprint) {
    p.Some? && p.value.captureId == captureId && p.value.draft.Some? && p.value.draft.value.fingerprint == fingerprint
  }

  /** What the writer sends for a candidate; a product fact needs its product. */
  function RowFor(p: Pending): Option<KnowledgeRow> {
    if p.draft.None? then None
    else if p.gap.scope == Org then Some(OrgRow(p.gap.kind, p.draft.value.title, p.draft.value.content))
    else if !Given(p.gap.productId) then None
    else
      Some(ProductRow(
        p.gap.productId.value, if p.gap.kind == "POLICY" then "POLICY" else "DESCRIPTION", p.draft.value.title,
        p.draft.value.content, p.variantId))
  }

  function Written(p: Pending, outcome: WriteOutcome): seq<Write>
    requires p.draft.Some?
  {
    if RowFor(p).Some? && !outcome.Refused? then [Write(p.captureId, p.draft.value.fingerprint, RowFor(p).value)]
    else []
  }

  predicate Succeeded(p: Pending, outcome: WriteOutcome) { RowFor(p).Some? && outcome.Saved? }

  ghost function Apply(c: Conv, e: Event): Conv {
    match e
    case ClickInquiry(row) =>
      if row.None? then c
      else c.(workingSet := OnRow(c, row.value), pending := Carried(c.pending, OnRow(c, row.value)))
    case ClickObject(o) =>
      if o.None? then c
      else
        var s := Some(WS.AnchoredObjectSet(o.value, c.workingSet));
        c.(workingSet := s, pending := Carried(c.pending, s))
    case ClickClear =>
      var s := WS.Cleared(c.workingSet);
      c.(workingSet := s, pending := Carried(c.pending, s))
    case Answer(said, text, named, existing, matches) =>
      if c.pending.None? then c else c.(pending := AfterAnswer(c.pending.value, said, text, named, existing, matches))
    case Decide(id, fingerprint, decision, outcome, resumed) =>
      if !Binds(c.pending, id, fingerprint) then c
      else if decision.Cancel? then c.(pending := None)
      else
        var p := c.pending.value;
        var c' := c.(writes := c.writes + Written(p, outcome));
        if Succeeded(p, outcome) then
          c'.(pending := None,
            workingSet := if resumed.Some? then WS.Composed(c.workingSet, resumed.value) else c.workingSet)
        else c'
    case Direct(move, question) =>
      var asked := Open(c, question);
      c.(workingSet := Moved(c, move), pending := if asked.Some? then asked else c.pending,
         nextCapture := if asked.Some? then c.nextCapture + 1 else c.nextCapture)
    case Planned(plan, question) =>
      var s := WS.Composed(c.workingSet, plan);
      var asked := Open(c, question);
      c.(workingSet := s, pending := if asked.Some? then asked else Carried(c.pending, s),
         nextCapture := if asked.Some? then c.nextCapture + 1 else c.nextCapture)
    case Unplanned => c
  }

  ghost function After(c: Conv, events: seq<Event>): Conv {
    if events == [] then c else Apply(After(c, events[..|events| - 1]), events[|events| - 1])
  }

  /* ---- what a turn may do to the question, written out ---- */

  /** The card on screen: this capture, showing this very sentence. */
  predicate OnTheCard(p: Option<Pending>, captureId: nat, fingerprint: Fingerprint) {
    match p
    case None => false
    case Some(p) => p.captureId == captureId && p.draft.Some? && p.draft.value.fingerprint == fingerprint
  }

  /** What is known well enough to be saved: a sentence, and for a product fact the product. */
  predicate Savable(p: Pending) {
    p.draft.Some? && (p.gap.scope == Product ==> p.gap.productId.Some? && p.gap.productId.value != "")
  }

  /** The candidate is the same question with the answer's normal form as its sentence, under its variant. */
  predicate ShowsTheAnswer(p: Pending, text: string, named: Named, shown: Pending) {
    && shown.captureId == p.captureId && shown.gap == p.gap && shown.draft.Some?
    && shown.draft.value.content == NormalizeContent(text)
    && shown.draft.value.title == TitleOf(NormalizeContent(text))
    && shown.draft.value.fingerprint
       == FingerprintOf(p.gap.scope, p.gap.productId, shown.variantId, p.gap.kind, NormalizeContent(text))
    && (p.gap.variantRequired && Given(p.gap.productId) && named.Variant? ==> shown.variantId == Some(named.id))
    && (!(p.gap.variantRequired && Given(p.gap.productId) && named.Variant?) ==> shown.variantId == p.variantId)
  }

  /** The seller stands on an inquiry other than the one asked about. */
  predicate StandsElsewhere(p: Pending, s: Option<WS.Set>) {
    && p.gap.inquiryId.Some? && p.gap.inquiryId.value != ""
    && s.Some? && s.value.selectedInquiry.Some?
    && s.value.selectedInquiry.value.inquiryId !in ["", p.gap.inquiryId.value]
  }

  /** A press: what is selected afterwards, what stays of the list, and the question it may drop. */
  ghost predicate PressedOn(c: Conv, press: Event, c': Conv) {
    && c'.writes == c.writes && c'.nextCapture == c.nextCapture
    && match press
       case ClickInquiry(row) => if row.Some? then Selected(c, Some(row.value), None, c') else c' == c
       case ClickObject(o) => if o.Some? then Selected(c, None, Some(o.value), c') else c' == c
       case _ =>
         && c'.workingSet.Some? == c.workingSet.Some? && c'.pending == c.pending
         && (c.workingSet.Some? ==>
              var s := c.workingSet.value;
              c'.workingSet.value == WS.Set(s.kind, s.ids, s.productIds, s.workItemIds, None, None))
  }

  ghost predicate Selected(c: Conv, row: Option<WS.Row>, o: Option<WS.Object>, c': Conv) {
    && c'.workingSet.Some? && c'.workingSet.value.selectedInquiry == row && c'.workingSet.value.selectedObject == o
    && c'.pending
       == if c.pending.Some? && StandsElsewhere(c.pending.value, c'.workingSet) then None else c.pending
  }

  lemma ShowsThePress(c: Conv, press: Event)
    requires press.ClickInquiry? || press.ClickObject? || press.ClickClear?
    ensures PressedOn(c, press, Apply(c, press))
  {
    hide WS.Dedupe, WS.Bounded;
  }

  /* ---- the classes ---- */

  /** The seller's own knowledge seams, and every row they were sent. */
  class KnowledgeClient {
    var rows: seq<KnowledgeRow>

    constructor ()
      ensures rows == []
    {
      rows := [];
    }

    method Create(row: KnowledgeRow, outcome: WriteOutcome) returns (ok: bool)
      modifies this
      ensures rows == (if outcome.Refused? then old(rows) else old(rows) + [row]) && ok == outcome.Saved?
    {
      if !outcome.Refused? { rows := rows + [row]; }
      ok := outcome.Saved?;
    }
  }

  class KnowledgeCaptureWriter {
    const client: KnowledgeClient

    constructor (client: KnowledgeClient)
      ensures this.client == client
    {
      this.client := client;
    }

    /** Writes exactly the candidate; with none, or without the product a product fact needs, it refuses. */
    method Write(pending: Pending, outcome: WriteOutcome) returns (ok: bool)
      modifies client
      ensures ok == Succeeded(pending, outcome)
      ensures client.rows == old(client.rows)
        + if RowFor(pending).Some? && !outcome.Refused? then [RowFor(pending).value] else []
    {
      if pending.draft.None? { return false; }
      var draft := pending.draft.value;
      if pending.gap.scope == Org {
        ok := client.Create(OrgRow(pending.gap.kind, draft.title, draft.content), outcome);
        return;
      }
      if !Given(pending.gap.productId) { return false; }
      ok := client.Create(
        ProductRow(
          pending.gap.productId.value, if pending.gap.kind == "POLICY" then "POLICY" else "DESCRIPTION", draft.title,
          draft.content, pending.variantId),
        outcome);
    }
  }

  /** The turns of one conversation that a press or an answer makes. */
  class ConversationService {
    var workingSet: Option<WS.Set>
    var pendingCapture: Option<Pending>
    var nextCapture: nat
    ghost var writes: seq<Write>
    const client: KnowledgeClient

    constructor (client: KnowledgeClient)
      ensures this.client == client && State() == START
    {
      this.client := client;
      workingSet, pendingCapture, nextCapture, writes := None, None, 0, [];
    }

    ghost function State(): Conv
      reads this
    {
      Conv(workingSet, pendingCapture, nextCapture, writes)
    }

    method ApplyClickSelection(select: Event)
      requires select.ClickInquiry? || select.ClickObject? || select.ClickClear?
      modifies this
      ensures State() == Apply(old(State()), select)
      ensures PressedOn(old(State()), select, State())
    {
      ShowsThePress(State(), select);
      if select.ClickClear? {
        workingSet := WS.Cleared(workingSet);
        pendingCapture := Carried(pendingCapture, workingSet);
        return;
      }
      if select.ClickObject? {
        if select.target.None? { return; }
        workingSet := Some(WS.AnchoredObjectSet(select.target.value, workingSet));
        pendingCapture := Carried(pendingCapture, workingSet);
        return;
      }
      if select.row.None? { return; }
      var row := select.row.value;
      workingSet := Some(WS.AnchoredSet(row, workingSet, ProductsOf(workingSet) + WS.OrEmpty(row.productId)));
      pendingCapture := Carried(pendingCapture, workingSet);
    }

    method CaptureAnswerLane(
      said: AnswerKind, text: string, named: Named, existing: seq<Existing>, matches: string -> seq<Match>)
      modifies this
      ensures State() == Apply(old(State()), Answer(said, text, named, existing, matches))
      ensures workingSet == old(workingSet) && writes == old(writes) && nextCapture == old(nextCapture)
      ensures old(pendingCapture).None? || said.IsQuestion? || said.IsCommand? ==> pendingCapture == old(pendingCapture)
      ensures said.IsCancel? ==> pendingCapture == None
      ensures old(pendingCapture).Some? && said.IsCandidate? ==>
        var p := old(pendingCapture).value;
        if p.gap.variantRequired && Given(p.gap.productId) && named.Unresolved? then pendingCapture == Some(p)
        else if VerdictOn(p, text, named, existing, matches).Fine? then
          pendingCapture.Some? && ShowsTheAnswer(p, text, named, pendingCapture.value)
        else pendingCapture == None
    {
      hide NormalizeContent, TitleOf, Judge, Judged;
      if pendingCapture.None? { return; }
      var pending := pendingCapture.value;
      if said.IsCancel? { pendingCapture := None; return; }
      if !said.IsCandidate? { return; }
      var content := NormalizeContent(text);
      var variantId := pending.variantId;
      if pending.gap.variantRequired && Given(pending.gap.productId) {
        if named.Unresolved? { return; }
        if named.Variant? { variantId := Some(named.id); }
      }
      var verdict := JudgeCandidate(
        content, TitleOf(content), existing, pending.gap.scope, pending.gap.kind, variantId, matches);
      IsTheVerdict(verdict, pending, text, named, existing, matches);
      if !verdict.Fine? { pendingCapture := None; return; }
      var fingerprint := FingerprintOf(pending.gap.scope, pending.gap.productId, variantId, pending.gap.kind, content);
      var draft := Draft(content, TitleOf(content), fingerprint);
      pendingCapture := Some(Pending(pending.captureId, pending.gap, variantId, Some(draft)));
    }

    method DecideCapture(
      captureId: nat, fingerprint: Fingerprint, decision: Decision, outcome: WriteOutcome, resumed: Option<WS.Plan>)
      modifies this, client
      ensures State() == Apply(old(State()), Decide(captureId, fingerprint, decision, outcome, resumed))
      ensures |client.rows| - |old(client.rows)| == |writes| - |old(writes)|
      ensures forall i :: |old(writes)| <= i < |writes| ==>
        && |old(client.rows)| + i - |old(writes)| < |client.rows|
        && client.rows[|old(client.rows)| + i - |old(writes)|] == writes[i].row
      ensures !OnTheCard(old(pendingCapture), captureId, fingerprint) ==>
        State() == old(State()) && client.rows == old(client.rows)
      ensures OnTheCard(old(pendingCapture), captureId, fingerprint) && decision.Cancel? ==>
        State() == old(State()).(pending := None) && client.rows == old(client.rows)
      ensures OnTheCard(old(pendingCapture), captureId, fingerprint) && decision.Save? ==>
        && (outcome.Refused? ==> State() == old(State()) && client.rows == old(client.rows))
        && (pendingCapture.None? <==> outcome.Saved? && Savable(old(pendingCapture).value))
        && (pendingCapture.Some? ==> pendingCapture == old(pendingCapture))
        && (|client.rows| > |old(client.rows)| <==> !outcome.Refused? && Savable(old(pendingCapture).value))
    {
      if !Binds(pendingCapture, captureId, fingerprint) { return; }
      if decision.Cancel? { pendingCapture := None; return; }
      var pending := pendingCapture.value;
      var writer := new KnowledgeCaptureWriter(client);
      var ok := writer.Write(pending, outcome);
      writes := writes + Written(pending, outcome);
      if !ok { return; }
      pendingCapture := None;
      if resumed.Some? { workingSet := WS.Composed(workingSet, resumed.value); }
    }
  }

  /* ---- the invariant ---- */

  ghost predicate Normal(content: string) { exists said :: content == NormalizeContent(said) }

  /** The fingerprint of a candidate is of exactly what would be written. */
  ghost predicate PendingOk(p: Pending) {
    && Bound(p.gap)
    && (p.draft.Some? ==>
         && p.draft.value.fingerprint
            == FingerprintOf(p.gap.scope, p.gap.productId, p.variantId, p.gap.kind, p.draft.value.content)
         && p.draft.value.title == TitleOf(p.draft.value.content)
         && Normal(p.draft.value.content))
  }

  /** A row carries exactly the fields its fingerprint was computed from, under the title of its text. */
  ghost predicate RowMatches(w: Write) {
    var f := w.fingerprint;
    && Normal(f.content)
    && match w.row
       case OrgRow(kind, title, body) => f.scope == Org && kind == f.kind && body == f.content && title == TitleOf(body)
       case ProductRow(product, sourceType, title, body, variantId) =>
         && f.scope == Product && f.productId == Some(product) && sourceType == f.kind && variantId == f.variantId
         && body == f.content && title == TitleOf(body)
  }

  ghost predicate Inv(c: Conv) {
    && WS.Ok(c.workingSet)
    && (c.pending.Some? ==> c.pending.value.captureId < c.nextCapture && PendingOk(c.pending.value))
    && (forall i :: 0 <= i < |c.writes| ==> c.writes[i].captureId < c.nextCapture && RowMatches(c.writes[i]))
  }

  lemma OpensBound(c: Conv, question: Option<GapSource>)
    ensures Open(c, question).Some? ==> PendingOk(Open(c, question).value)
  {
    if question.Some? && question.value.FromDraft? {
      var q := question.value;
      WhatIsAsked(q.view, q.inquiryId, q.productId, q.plannerTopic);
    }
  }

  lemma CandidateOk(p: Pending, text: string, named: Named)
    requires PendingOk(p)
    ensures PendingOk(AsCandidate(p, text, named))
  {
    hide NormalizeContent, TitleOf;
    assert Normal(NormalizeContent(text));
  }

  lemma WrittenMatches(p: Pending, outcome: WriteOutcome)
    requires PendingOk(p) && p.draft.Some?
    ensures forall i :: 0 <= i < |Written(p, outcome)| ==> RowMatches(Written(p, outcome)[i])
  {
    hide NormalizeContent, TitleOf;
  }

  lemma MovingKeeps(c: Conv, m: Move)
    requires WS.Ok(c.workingSet)
    ensures WS.Ok(Moved(c, m))
  {
    hide WS.Ok, WS.AnchoredSet, WS.AnchoredObjectSet, WS.FilteredSet, WS.AmbiguousSet;
    match m {
      case Inspect(row) => WS.AnchoringKeeps(row, c.workingSet, ProductsOf(c.workingSet) + WS.OrEmpty(row.productId));
      case InspectObject(o) => WS.AnchoringAnObjectKeeps(o, c.workingSet);
      case Narrow(kept) => WS.FilteringKeeps(kept);
      case AskWhich(items) =>
        if c.workingSet.Some? && |items| <= |c.workingSet.value.ids| { WS.AskingKeeps(items, c.workingSet); }
      case NoReferent => NothingIsOk();
      case Stay =>
    }
  }

  lemma NothingIsOk()
    ensures WS.Ok(None)
  {
  }

  /** The set after any turn is well formed. */
  lemma SetKeeps(c: Conv, e: Event)
    requires WS.Ok(c.workingSet)
    ensures WS.Ok(Apply(c, e).workingSet)
  {
    hide WS.Ok, WS.AnchoredSet, WS.AnchoredObjectSet, WS.Composed, Moved, AfterAnswer;
    match e {
      case ClickInquiry(row) =>
        if row.Some? {
          WS.AnchoringKeeps(row.value, c.workingSet, ProductsOf(c.workingSet) + WS.OrEmpty(row.value.productId));
        }
      case ClickObject(o) => if o.Some? { WS.AnchoringAnObjectKeeps(o.value, c.workingSet); }
      case ClickClear => ClearedIsOk(c.workingSet);
      case Decide(_, _, _, _, resumed) => if resumed.Some? { WS.ComposingKeeps(c.workingSet, resumed.value); }
      case Direct(move, _) => MovingKeeps(c, move);
      case Planned(plan, _) => WS.ComposingKeeps(c.workingSet, plan);
      case _ =>
    }
  }

  lemma ClearedIsOk(s: Option<WS.Set>)
    requires WS.Ok(s)
    ensures WS.Ok(WS.Cleared(s))
  {
  }

  lemma StepKeeps(c: Conv, e: Event)
    requires Inv(c)
    ensures Inv(Apply(c, e))
  {
    hide WS.Ok, WS.AnchoredSet, WS.AnchoredObjectSet, WS.Composed, WS.Cleared, Moved, OnRow, Carried;
    hide NormalizeContent, Judge, RowMatches, PendingOk, Written, AsCandidate;
    SetKeeps(c, e);
    match e {
      case Answer(_, text, named, _, _) =>
        if c.pending.Some? {
          CandidateOk(c.pending.value, text, named);
          CandidateIsThePending(c.pending.value, text, named);
        }
      case Decide(id, f, _, outcome, _) =>
        if Binds(c.pending, id, f) {
          WrittenMatches(c.pending.value, outcome);
          WrittenUnderItsId(c.pending.value, outcome);
        }
      case Direct(_, question) => OpensBound(c, question);
      case Planned(plan, question) =>
        OpensBound(c, question);
        CarriedOrNot(c.pending, WS.Composed(c.workingSet, plan));
      case ClickInquiry(row) => if row.Some? { CarriedOrNot(c.pending, OnRow(c, row.value)); }
      case ClickObject(o) => if o.Some? { CarriedOrNot(c.pending, Some(WS.AnchoredObjectSet(o.value, c.workingSet))); }
      case ClickClear => CarriedOrNot(c.pending, WS.Cleared(c.workingSet));
      case Unplanned =>
    }
  }

  lemma CandidateIsThePending(p: Pending, text: string, named: Named)
    ensures AsCandidate(p, text, named).captureId == p.captureId && AsCandidate(p, text, named).gap == p.gap
    ensures AsCandidate(p, text, named).variantId == VariantOf(p, named)
  {
  }

  lemma WrittenUnderItsId(p: Pending, outcome: WriteOutcome)
    requires p.draft.Some?
    ensures |Written(p, outcome)| <= 1
    ensures forall i :: 0 <= i < |Written(p, outcome)| ==>
      Written(p, outcome)[i].captureId == p.captureId && Written(p, outcome)[i].fingerprint == p.draft.value.fingerprint
  {
  }

  lemma CarriedOrNot(p: Option<Pending>, s: Option<WS.Set>)
    ensures Carried(p, s) == p || Carried(p, s) == None
  {
  }

  lemma {:induction false} Reachable(events: seq<Event>)
    ensures Inv(After(START, events))
  {
    hide Apply;
    if events != [] {
      Reachable(events[..|events| - 1]);
      StepKeeps(After(START, events[..|events| - 1]), events[|events| - 1]);
    }
  }

  /**
   * Main result for the working set. In every reachable conversation at most one object is selected, it
   * belongs to the set shown, and ids, product ids and work-item ids each stay within fifty.
   */
  lemma OneAnchorInTheSet(events: seq<Event>)
    ensures WS.Ok(After(START, events).workingSet)
  {
    Reachable(events);
  }

  /**
   * What a direct answer leaves on screen: what was there, nothing, one inquiry or one object selected, the
   * rows a filter kept, or the rows to pick from where they fit the set they are rows of.
   */
  lemma WhatADirectAnswerShows(c: Conv, move: Move, question: Option<GapSource>)
    ensures var s := Apply(c, Direct(move, question)).workingSet;
      match move
      case Stay => s == c.workingSet
      case NoReferent => s == None
      case Inspect(row) => s.Some? && s.value.selectedInquiry == Some(row) && s.value.selectedObject == None
      case InspectObject(o) => s.Some? && s.value.selectedObject == Some(o) && s.value.selectedInquiry == None
      case Narrow(kept) => s.Some? && WS.SetOfRows(s.value, kept)
      case AskWhich(items) =>
        if c.workingSet.Some? && |items| <= |c.workingSet.value.ids| then
          && s.Some? && s.value.selectedInquiry == None && s.value.selectedObject == None
          && |s.value.ids| == |items| && forall i :: 0 <= i < |items| ==> s.value.ids[i] == items[i].inquiryId
        else s == c.workingSet
  {
    hide GapOf, WS.Dedupe, WS.Present, WS.Bounded, WS.SetOfRows;
    if move.Narrow? { WS.LeavesItsRows(move.kept); }
  }

  /** What is on screen changes only by a press, a direct answer, a planned turn, or a save that goes on with one. */
  lemma WhatElseShows(c: Conv, e: Event)
    requires !e.ClickInquiry? && !e.ClickObject? && !e.ClickClear? && !e.Direct?
    ensures var s := Apply(c, e).workingSet;
      match e
      case Planned(plan, _) => s == WS.Composed(c.workingSet, plan)
      case Decide(id, f, Save, Saved, Some(plan)) =>
        s == if OnTheCard(c.pending, id, f) && Savable(c.pending.value) then WS.Composed(c.workingSet, plan)
             else c.workingSet
      case _ => s == c.workingSet
  {
    hide WS.Composed, VerdictOn;
  }

  /* ---- what is written ---- */

  /**
   * Main result, one turn. Only a SAVE that echoes the open candidate's id and its current fingerprint
   * writes, and it writes one row: the product, type, variant and text that fingerprint was computed from.
   */
  lemma OnlyABoundSaveWrites(c: Conv, e: Event)
    requires Inv(c)
    ensures var c' := Apply(c, e);
      && |c.writes| <= |c'.writes| <= |c.writes| + 1 && c'.writes[..|c.writes|] == c.writes
      && (|c'.writes| > |c.writes| ==>
           && e.Decide? && e.decision.Save? && Binds(c.pending, e.captureId, e.fingerprint)
           && var w := c'.writes[|c.writes|];
              w.captureId == e.captureId && w.fingerprint == e.fingerprint && RowMatches(w))
      && (e.Decide? && !(Binds(c.pending, e.captureId, e.fingerprint) && e.decision.Save?) ==> c'.writes == c.writes)
  {
    hide WS.Composed, Written, RowMatches, PendingOk;
    if e.Decide? && Binds(c.pending, e.captureId, e.fingerprint) {
      WrittenMatches(c.pending.value, e.outcome);
      WrittenUnderItsId(c.pending.value, e.outcome);
    }
  }

  /** Turn `k` is a SAVE of the candidate open then, and it made the write with number `i`. */
  ghost predicate MadeBy(events: seq<Event>, k: nat, i: nat)
    requires k < |events| && i < |After(START, events).writes|
  {
    var before := After(START, events[..k]);
    var e := events[k];
    var w := After(START, events).writes[i];
    && |before.writes| == i && e.Decide? && e.decision.Save? && Binds(before.pending, e.captureId, e.fingerprint)
    && w.captureId == e.captureId && w.fingerprint == e.fingerprint && RowMatches(w)
  }

  /**
   * Main result, over whole runs. Every row ever written was made by one turn: a SAVE that echoed the id and
   * the current fingerprint of the candidate open at that moment, and the row is that candidate's.
   */
  lemma {:induction false} EveryWriteWasConfirmed(events: seq<Event>, i: nat) returns (k: nat)
    requires i < |After(START, events).writes|
    ensures k < |events| && MadeBy(events, k, i)
  {
    hide Apply, RowMatches, Binds;
    var n := |events| - 1;
    var before := After(START, events[..n]);
    Reachable(events[..n]);
    OnlyABoundSaveWrites(before, events[n]);
    if i < |before.writes| {
      k := EveryWriteWasConfirmed(events[..n], i);
      assert events[..n][..k] == events[..k] && events[..n][k] == events[k];
      assert After(START, events).writes[..|before.writes|][i] == before.writes[i];
    } else {
      k := n;
    }
  }

  /** Every row of a whole run carries exactly what its fingerprint names. */
  lemma EveryRowMatches(events: seq<Event>, i: nat)
    requires i < |After(START, events).writes|
    ensures RowMatches(After(START, events).writes[i])
  {
    Reachable(events);
  }

  function WriteCount(writes: seq<Write>, id: nat): nat {
    if writes == [] then 0
    else WriteCount(writes[..|writes| - 1], id) + if writes[|writes| - 1].captureId == id then 1 else 0
  }

  predicate StandsOpen(c: Conv, id: nat) { c.pending.Some? && c.pending.value.captureId == id }

  lemma WriteCountMore(a: seq<Write>, b: seq<Write>, id: nat)
    requires |b| <= 1
    ensures WriteCount(a + b, id) == WriteCount(a, id) + if |b| == 1 && b[0].captureId == id then 1 else 0
  {
    if b == [] { assert a + b == a; } else { assert (a + b)[..|a|] == a; }
  }

  /** This turn saves the capture where it stands: the decision binds, the card has a row, and the row was made. */
  predicate MakesRow(c: Conv, e: Event, id: nat) {
    && e.Decide? && e.decision.Save? && e.captureId == id && Binds(c.pending, id, e.fingerprint)
    && RowFor(c.pending.value).Some? && !e.outcome.Refused?
  }

  ghost predicate RowAt(events: seq<Event>, k: int, id: nat) {
    0 <= k < |events| && MakesRow(After(START, events[..k]), events[k], id)
  }

  /** Saves of this capture whose row was made but whose answer was lost. */
  ghost function LostCount(events: seq<Event>, id: nat): nat {
    if events == [] then 0
    else
      var front, e := events[..|events| - 1], events[|events| - 1];
      LostCount(front, id) + if MakesRow(After(START, front), e, id) && e.outcome.Lost? then 1 else 0
  }

  ghost predicate SavedAt(events: seq<Event>, k: int, id: nat) { RowAt(events, k, id) && events[k].outcome.Saved? }

  ghost predicate LostAt(events: seq<Event>, k: int, id: nat) { RowAt(events, k, id) && events[k].outcome.Lost? }

  ghost predicate WasSaved(events: seq<Event>, id: nat) { exists k :: SavedAt(events, k, id) }

  /** One turn's effect on how often a capture was written, and on whether it can be again. */
  lemma StepCounts(c: Conv, e: Event, id: nat)
    requires Inv(c)
    ensures var c' := Apply(c, e);
      && c.nextCapture <= c'.nextCapture
      && WriteCount(c'.writes, id) == WriteCount(c.writes, id) + (if MakesRow(c, e, id) then 1 else 0)
      && (MakesRow(c, e, id) ==> e.Decide? && (e.outcome.Saved? || e.outcome.Lost?))
      && (MakesRow(c, e, id) && e.outcome.Saved? ==> id < c'.nextCapture && !StandsOpen(c', id))
  {
    hide WS.Composed, WS.AnchoredSet, WS.AnchoredObjectSet, WS.Cleared, Moved, OnRow, GapOf;
    hide NormalizeContent, Judge, Written, RowMatches, PendingOk, AsCandidate, RowFor;
    if e.Decide? && Binds(c.pending, e.captureId, e.fingerprint) && e.decision.Save? {
      var p := c.pending.value;
      WrittenUnderItsId(p, e.outcome);
      WriteCountMore(c.writes, Written(p, e.outcome), id);
      WrittenWhen(p, e.outcome);
    }
  }

  lemma WrittenWhen(p: Pending, outcome: WriteOutcome)
    requires p.draft.Some?
    ensures |Written(p, outcome)| == 1 <==> RowFor(p).Some? && !outcome.Refused?
    ensures Succeeded(p, outcome) <==> |Written(p, outcome)| == 1 && outcome.Saved?
  {
  }

  lemma SavedEarlier(events: seq<Event>, id: nat)
    requires events != []
    ensures WasSaved(events, id) <==>
      WasSaved(events[..|events| - 1], id)
      || (MakesRow(After(START, events[..|events| - 1]), events[|events| - 1], id)
        && events[|events| - 1].outcome.Saved?)
  {
    hide Apply;
    var n := |events| - 1;
    var front := events[..n];
    forall k | 0 <= k < n ensures SavedAt(front, k, id) <==> SavedAt(events, k, id) {
      assert front[..k] == events[..k];
    }
    if WasSaved(events, id) {
      var k :| SavedAt(events, k, id);
      if k < n { assert SavedAt(front, k, id); }
    }
    if WasSaved(front, id) {
      var k :| SavedAt(front, k, id);
      assert SavedAt(events, k, id);
    }
    if MakesRow(After(START, front), events[n], id) && events[n].outcome.Saved? { assert SavedAt(events, n, id); }
  }

  /**
   * Main result, the exact number. In every run a capture is written once for each of its saves whose row was
   * made but whose answer was lost, and once more if a save of it succeeded.
   */
  lemma {:induction false} WrittenExactly(events: seq<Event>, id: nat)
    ensures WriteCount(After(START, events).writes, id) == LostCount(events, id) + if WasSaved(events, id) then 1 else 0
    ensures WasSaved(events, id) ==> id < After(START, events).nextCapture && !StandsOpen(After(START, events), id)
  {
    hide Apply, MakesRow, WasSaved, StandsOpen;
    if events == [] {
      NeverSaved(id);
    } else {
      var front, e := events[..|events| - 1], events[|events| - 1];
      WrittenExactly(front, id);
      Reachable(front);
      SavedEarlier(events, id);
      StepCounts(After(START, front), e, id);
      if WasSaved(front, id) {
        ClosedStaysClosed(After(START, front), e, id);
        ClosedMakesNoRow(After(START, front), e, id);
      }
    }
  }

  lemma NeverSaved(id: nat)
    ensures !WasSaved([], id)
  {
  }

  lemma ClosedMakesNoRow(c: Conv, e: Event, id: nat)
    requires !StandsOpen(c, id)
    ensures !MakesRow(c, e, id)
  {
  }

  lemma {:induction false} SomeRow(events: seq<Event>, id: nat) returns (k: nat)
    requires WriteCount(After(START, events).writes, id) > 0
    ensures RowAt(events, k, id)
  {
    hide Apply, MakesRow;
    var n := |events| - 1;
    var front := events[..n];
    Reachable(front);
    StepCounts(After(START, front), events[n], id);
    if MakesRow(After(START, front), events[n], id) {
      k := n;
    } else {
      k := SomeRow(front, id);
      assert front[..k] == events[..k];
    }
  }

  lemma {:induction false} WritesGrow(events: seq<Event>, k: nat, id: nat)
    requires k <= |events|
    ensures WriteCount(After(START, events[..k]).writes, id) <= WriteCount(After(START, events).writes, id)
  {
    hide Apply, MakesRow;
    if k == |events| {
      assert events[..k] == events;
    } else {
      var front := events[..|events| - 1];
      WritesGrow(front, k, id);
      assert front[..k] == events[..k];
      Reachable(front);
      StepCounts(After(START, front), events[|events| - 1], id);
    }
  }

  /**
   * Main result. A capture is written more than once if and only if a save of it made its row but lost the
   * answer and a later save of it made a row again. Without a lost answer it is written at most once.
   */
  lemma {:induction false} WrittenTwiceIff(events: seq<Event>, id: nat)
    ensures WriteCount(After(START, events).writes, id) > 1 <==>
      exists k1, k2 :: k1 < k2 && LostAt(events, k1, id) && RowAt(events, k2, id)
    ensures (forall k :: !LostAt(events, k, id)) ==> WriteCount(After(START, events).writes, id) <= 1
  {
    hide Apply, MakesRow;
    if WriteCount(After(START, events).writes, id) > 1 {
      var k1, k2 := TwoRows(events, id);
    }
    if k1, k2 :| k1 < k2 && LostAt(events, k1, id) && RowAt(events, k2, id) {
      RowCounts(events, k1, id);
      RowCounts(events, k2, id);
      assert events[..k2][..k1 + 1] == events[..k1 + 1];
      WritesGrow(events[..k2], k1 + 1, id);
      WritesGrow(events, k2 + 1, id);
    }
  }

  lemma RowCounts(events: seq<Event>, k: nat, id: nat)
    requires RowAt(events, k, id)
    ensures WriteCount(After(START, events[..k + 1]).writes, id) == WriteCount(After(START, events[..k]).writes, id) + 1
  {
    hide Apply, MakesRow;
    assert events[..k + 1][..k] == events[..k];
    Reachable(events[..k]);
    StepCounts(After(START, events[..k]), events[k], id);
  }

  lemma {:induction false} TwoRows(events: seq<Event>, id: nat) returns (k1: nat, k2: nat)
    requires WriteCount(After(START, events).writes, id) > 1
    ensures k1 < k2 && LostAt(events, k1, id) && RowAt(events, k2, id)
  {
    hide Apply, MakesRow, WriteCount, LostAt, StandsOpen;
    if events == [] { assert WriteCount(START.writes, id) == 0 by { NothingWritten(id); } }
    var n := |events| - 1;
    var front := events[..n];
    Reachable(front);
    StepCounts(After(START, front), events[n], id);
    if MakesRow(After(START, front), events[n], id) {
      k1 := SomeRow(front, id);
      k2 := n;
      LostBefore(events, k1, id);
    } else {
      k1, k2 := TwoRows(front, id);
      SameRows(events, k1, id);
      SameRows(events, k2, id);
    }
  }

  lemma NothingWritten(id: nat)
    ensures WriteCount(START.writes, id) == 0
  {
  }

  /** A row made by an earlier turn is one made in the whole run. */
  lemma SameRows(events: seq<Event>, k: nat, id: nat)
    requires events != [] && k < |events| - 1
    ensures RowAt(events[..|events| - 1], k, id) <==> RowAt(events, k, id)
    ensures LostAt(events[..|events| - 1], k, id) <==> LostAt(events, k, id)
  {
    hide MakesRow;
    assert events[..|events| - 1][..k] == events[..k];
  }

  /** When the last turn makes a row, the answer to any earlier one was lost. */
  lemma LostBefore(events: seq<Event>, k: nat, id: nat)
    requires events != [] && MakesRow(After(START, events[..|events| - 1]), events[|events| - 1], id)
    requires RowAt(events[..|events| - 1], k, id)
    ensures LostAt(events, k, id)
  {
    var front := events[..|events| - 1];
    SameRows(events, k, id);
    RowHasOutcome(events, k, id);
    WrittenExactly(front, id);
    hide Apply, MakesRow, WriteCount;
    if SavedAt(front, k, id) { ClosedMakesNoRow(After(START, front), events[|events| - 1], id); }
  }

  lemma RowHasOutcome(events: seq<Event>, k: nat, id: nat)
    requires RowAt(events, k, id)
    ensures events[k].Decide? && (events[k].outcome.Lost? || events[k].outcome.Saved?)
  {
  }

  /** A card saved twice, the first answer lost, writes the same row twice. */
  lemma SameRowTwice(c: Conv, id: nat, f: Fingerprint)
    requires Binds(c.pending, id, f) && RowFor(c.pending.value).Some?
    ensures var w := Write(id, f, RowFor(c.pending.value).value);
      Apply(Apply(c, Decide(id, f, Save, Lost, None)), Decide(id, f, Save, Saved, None)).writes == c.writes + [w, w]
  {
    hide RowFor;
    var w := Write(id, f, RowFor(c.pending.value).value);
    assert c.writes + [w] + [w] == c.writes + [w, w];
  }

  const ASKED := [Direct(Stay, Some(FromPlan("SHIPPING", None)))]

  /** And it happens: asked, answered, saved with the answer lost, saved again. */
  lemma DoubleWrite(said: string)
    ensures exists events :: WriteCount(After(START, events).writes, 0) == 2
  {
    hide NormalizeContent, TitleOf, Judge, Moved;
    var c1 := Apply(START, ASKED[0]);
    assert c1.pending
      == Some(Pending(0, OpenedGap(Org, Some("SHIPPING"), "SHIPPING_POLICY", None, None, None, false), None, None));
    var none: string -> seq<Match> := x => [];
    var answer := Answer(IsCandidate, said, Unresolved, [], none);
    NothingRead(c1.pending.value, said, none);
    var c2 := Apply(c1, answer);
    assert c2.pending == Some(AsCandidate(c1.pending.value, said, Unresolved));
    var f := c2.pending.value.draft.value.fingerprint;
    var lost, saved := Decide(0, f, Save, Lost, None), Decide(0, f, Save, Saved, None);
    SameRowTwice(c2, 0, f);
    var w := Write(0, f, RowFor(c2.pending.value).value);
    var events := [] + [ASKED[0]] + [answer] + [lost] + [saved];
    hide Apply, RowFor, AsCandidate;
    OneTurn([], ASKED[0]);
    OneTurn([] + [ASKED[0]], answer);
    OneTurn([] + [ASKED[0]] + [answer], lost);
    OneTurn([] + [ASKED[0]] + [answer] + [lost], saved);
    assert After(START, events).writes == c2.writes + [w, w];
    assert c2.writes == [] by { NoWriteYet(said, none); }
    WriteCountMore([], [w], 0);
    WriteCountMore([w], [w], 0);
    assert [] + [w, w] == [w] + [w] && [] + [w] == [w];
  }

  lemma NoWriteYet(said: string, none: string -> seq<Match>)
    ensures Apply(Apply(START, ASKED[0]), Answer(IsCandidate, said, Unresolved, [], none)).writes == []
  {
    hide NormalizeContent, TitleOf, Judge, Moved, AfterAnswer;
  }

  /** With no row read, any answer is a candidate. */
  lemma NothingRead(p: Pending, said: string, matches: string -> seq<Match>)
    ensures VerdictOn(p, said, Unresolved, [], matches).Fine?
  {
    hide NormalizeContent, TitleOf;
  }

  lemma OneTurn(events: seq<Event>, e: Event)
    ensures After(START, events + [e]) == Apply(After(START, events), e)
  {
    assert (events + [e])[..|events|] == events;
  }

  /* ---- how a question ends ---- */

  /** On its own card: cancelled, or saved with the answer received. */
  predicate DecidedOn(p: Pending, e: Event)
    requires e.Decide?
  {
    && p.draft.Some? && e.captureId == p.captureId && e.fingerprint == p.draft.value.fingerprint
    && (e.decision.Cancel? || (e.outcome.Saved? && Savable(p)))
  }

  /** In words: a cancelling sentence, or an answer that was understood and that the fence refuses. */
  ghost predicate AnsweredAway(p: Pending, e: Event)
    requires e.Answer?
  {
    || e.said.IsCancel?
    || (e.said.IsCandidate? && !(p.gap.variantRequired && Given(p.gap.productId) && e.named.Unresolved?)
        && !VerdictOn(p, e.text, e.named, e.existing, e.matches).Fine?)
  }

  predicate AsksAnother(question: Option<GapSource>) { question.Some? && GapOf(question.value).Some? }

  /** This turn ends the open question: it is decided, answered away, replaced, or left behind for another inquiry. */
  ghost predicate Closes(c: Conv, e: Event, id: nat) {
    && c.pending.Some? && c.pending.value.captureId == id
    && match e
       case Decide(_, _, _, _, _) => DecidedOn(c.pending.value, e)
       case Answer(_, _, _, _, _) => AnsweredAway(c.pending.value, e)
       case Direct(_, question) => AsksAnother(question)
       case Planned(plan, question) =>
         AsksAnother(question) || StandsElsewhere(c.pending.value, WS.Composed(c.workingSet, plan))
       case ClickInquiry(row) =>
         && row.Some? && c.pending.value.gap.inquiryId.Some? && c.pending.value.gap.inquiryId.value != ""
         && row.value.inquiryId !in ["", c.pending.value.gap.inquiryId.value]
       case _ => false
  }

  /**
   * One turn: an open question stays open exactly when the turn does not close it, and it stays the same
   * question; only an accepted answer changes its card.
   */
  lemma OpenUnlessClosed(c: Conv, e: Event, id: nat)
    requires Inv(c) && StandsOpen(c, id)
    ensures var c' := Apply(c, e);
      && (StandsOpen(c', id) <==> !Closes(c, e, id))
      && (StandsOpen(c', id) ==> c'.pending.value.gap == c.pending.value.gap)
      && (StandsOpen(c', id) && c'.pending != c.pending ==>
           e.Answer? && e.said.IsCandidate? && ShowsTheAnswer(c.pending.value, e.text, e.named, c'.pending.value))
  {
    hide WS.Composed, WS.Dedupe, WS.Bounded, Moved, GapOf;
    hide NormalizeContent, TitleOf, Judge, Written, RowMatches, PendingOk, VerdictOn;
  }

  ghost predicate NoRowAfter(events: seq<Event>, k: nat, id: nat) {
    forall j :: k < j < |events| ==> !MakesRow(After(START, events[..j]), events[j], id)
  }

  lemma NoRowMore(events: seq<Event>, k: nat, id: nat)
    requires k + 1 < |events| && NoRowAfter(events[..|events| - 1], k, id)
    requires !MakesRow(After(START, events[..|events| - 1]), events[|events| - 1], id)
    ensures NoRowAfter(events, k, id)
  {
    hide MakesRow, After;
    var front := events[..|events| - 1];
    forall j | k < j < |events| ensures !MakesRow(After(START, events[..j]), events[j], id) {
      if j < |front| { assert front[..j] == events[..j] && front[j] == events[j]; }
    }
  }

  /** What a turn closed stays closed to the end of the run. */
  lemma {:induction false} ClosedOnward(events: seq<Event>, k: nat, id: nat)
    requires k < |events| && Closes(After(START, events[..k]), events[k], id)
    ensures !StandsOpen(After(START, events), id) && id < After(START, events).nextCapture
    ensures NoRowAfter(events, k, id)
    ensures WriteCount(After(START, events).writes, id) == WriteCount(After(START, events[..k + 1]).writes, id)
  {
    hide Apply, MakesRow, Closes, StandsOpen, NoRowAfter, WriteCount;
    var n := |events| - 1;
    var front := events[..n];
    Reachable(front);
    if k == n {
      assert events[..k + 1] == events;
      ClosingTurn(After(START, front), events[n], id);
      NoneLeft(events, id);
    } else {
      assert front[..k] == events[..k] && front[..k + 1] == events[..k + 1];
      ClosedOnward(front, k, id);
      ClosedStaysClosed(After(START, front), events[n], id);
      ClosedMakesNoRow(After(START, front), events[n], id);
      NoRowMore(events, k, id);
    }
  }

  lemma NoneLeft(events: seq<Event>, id: nat)
    requires events != []
    ensures NoRowAfter(events, |events| - 1, id)
  {
  }

  /**
   * Main result. Whatever is cancelled on its card or in words, refused by the fence, replaced, left behind or
   * saved at some turn of a run never stands open again, and no later turn makes a row of it.
   */
  lemma ClosedForGood(events: seq<Event>, k: nat, id: nat)
    requires k < |events| && Closes(After(START, events[..k]), events[k], id)
    ensures !StandsOpen(After(START, events), id) && id < After(START, events).nextCapture
    ensures forall j :: k < j < |events| ==> !MakesRow(After(START, events[..j]), events[j], id)
    ensures WriteCount(After(START, events).writes, id) == WriteCount(After(START, events[..k + 1]).writes, id)
    ensures !(events[k].Decide? && events[k].decision.Save?) ==>
      WriteCount(After(START, events).writes, id) == WriteCount(After(START, events[..k]).writes, id)
  {
    hide Apply, MakesRow, Closes, StandsOpen, WriteCount;
    ClosedOnward(events, k, id);
    Reachable(events[..k]);
    ClosingTurn(After(START, events[..k]), events[k], id);
    assert events[..k + 1][..k] == events[..k];
  }

  lemma ClosingTurn(c: Conv, e: Event, id: nat)
    requires Inv(c) && Closes(c, e, id)
    ensures var c' := Apply(c, e);
      && !StandsOpen(c', id) && id < c'.nextCapture
      && (!(e.Decide? && e.decision.Save?) ==> WriteCount(c'.writes, id) == WriteCount(c.writes, id))
  {
    assert StandsOpen(c, id) by { ClosesWhatIsOpen(c, e, id); }
    OpenUnlessClosed(c, e, id);
    StepCounts(c, e, id);
    hide Apply, Closes;
  }

  lemma ClosesWhatIsOpen(c: Conv, e: Event, id: nat)
    requires Closes(c, e, id)
    ensures StandsOpen(c, id)
  {
    hide DecidedOn, AnsweredAway, AsksAnother, WS.Composed;
  }

  ghost predicate ClosedAt(events: seq<Event>, k: int, id: nat) {
    0 <= k < |events| && Closes(After(START, events[..k]), events[k], id)
  }

  ghost predicate WasClosed(events: seq<Event>, id: nat) { exists k :: ClosedAt(events, k, id) }

  /** Main result, the other half. A question that was ever asked stands open if and only if no turn closed it. */
  lemma {:induction false} OpenIffNeverClosed(events: seq<Event>, id: nat)
    ensures StandsOpen(After(START, events), id) <==>
      id < After(START, events).nextCapture && !WasClosed(events, id)
    ensures id >= After(START, events).nextCapture ==> !WasClosed(events, id)
  {
    hide Apply, Closes, WasClosed, StandsOpen;
    if events == [] {
      NothingOpen(id);
    } else {
      var front, e := events[..|events| - 1], events[|events| - 1];
      OpenIffNeverClosed(front, id);
      Reachable(front);
      ClosedEarlier(events, id);
      OpensOrCloses(After(START, front), e, id);
    }
  }

  lemma NothingOpen(id: nat)
    ensures !WasClosed([], id) && !StandsOpen(START, id)
  {
  }

  lemma ClosedEarlier(events: seq<Event>, id: nat)
    requires events != []
    ensures WasClosed(events, id) <==>
      WasClosed(events[..|events| - 1], id) || Closes(After(START, events[..|events| - 1]), events[|events| - 1], id)
  {
    hide Apply, Closes;
    var n := |events| - 1;
    var front := events[..n];
    forall k | 0 <= k < n ensures ClosedAt(front, k, id) <==> ClosedAt(events, k, id) {
      assert front[..k] == events[..k];
    }
    if WasClosed(events, id) {
      var k :| ClosedAt(events, k, id);
      if k < n { assert ClosedAt(front, k, id); }
    }
    if WasClosed(front, id) {
      var k :| ClosedAt(front, k, id);
      assert ClosedAt(events, k, id);
    }
    if Closes(After(START, front), events[n], id) { assert ClosedAt(events, n, id); }
  }

  lemma OpensOrCloses(c: Conv, e: Event, id: nat)
    requires Inv(c)
    ensures var c' := Apply(c, e);
      && c.nextCapture <= c'.nextCapture && (id >= c.nextCapture ==> !StandsOpen(c, id))
      && (Closes(c, e, id) ==> StandsOpen(c, id))
      && (StandsOpen(c', id) <==>
           if id < c.nextCapture then StandsOpen(c, id) && !Closes(c, e, id) else id < c'.nextCapture)
  {
    hide Apply, Closes;
    if Closes(c, e, id) { ClosesWhatIsOpen(c, e, id); }
    StepCounts(c, e, id);
    if StandsOpen(c, id) {
      OpenUnlessClosed(c, e, id);
    } else if id < c.nextCapture {
      ClosedStaysClosed(c, e, id);
    } else {
      OpensWhenAsked(c, e, id);
    }
  }

  /** A number is given out with a question: open, not answered yet, and under no variant. */
  lemma OpensWhenAsked(c: Conv, e: Event, id: nat)
    requires Inv(c) && c.nextCapture <= id
    ensures var c' := Apply(c, e);
      if id < c'.nextCapture then
        && (e.Direct? || e.Planned?) && AsksAnother(e.question) && id == c.nextCapture
        && c'.pending == Some(Pending(id, GapOf(e.question.value).value, None, None))
      else !StandsOpen(c', id)
  {
    hide WS.Composed, WS.AnchoredSet, WS.AnchoredObjectSet, WS.Cleared, Moved, GapOf, OnRow;
    hide VerdictOn, NormalizeContent, Written, WS.Ok, RowMatches, PendingOk, AsCandidate;
    if e.Answer? && c.pending.Some? { CandidateIsThePending(c.pending.value, e.text, e.named); }
  }

  /** What no longer stands open is gone for good: no later press of its card writes. */
  lemma {:induction false} GoneForGood(events: seq<Event>, rest: seq<Event>, id: nat)
    requires var c := After(START, events); id < c.nextCapture && !StandsOpen(c, id)
    ensures var c := After(START, events);
      var c' := After(c, rest);
      Inv(c') && id < c'.nextCapture && !StandsOpen(c', id) && WriteCount(c'.writes, id) == WriteCount(c.writes, id)
  {
    hide Apply;
    Reachable(events);
    if rest != [] {
      var before := rest[..|rest| - 1];
      GoneForGood(events, before, id);
      var c := After(After(START, events), before);
      StepKeeps(c, rest[|rest| - 1]);
      ClosedStaysClosed(c, rest[|rest| - 1], id);
    }
  }

  lemma ClosedStaysClosed(c: Conv, e: Event, id: nat)
    requires Inv(c) && id < c.nextCapture && !StandsOpen(c, id)
    ensures var c' := Apply(c, e);
      id < c'.nextCapture && !StandsOpen(c', id) && WriteCount(c'.writes, id) == WriteCount(c.writes, id)
  {
    hide WS.Composed, WS.AnchoredSet, WS.AnchoredObjectSet, WS.Cleared, Moved, OnRow, GapOf;
    hide NormalizeContent, Judge, Written, RowMatches, PendingOk, AsCandidate;
    match e {
      case Decide(captureId, f, decision, outcome, _) =>
        if Binds(c.pending, captureId, f) && decision.Save? {
          WrittenUnderItsId(c.pending.value, outcome);
          WriteCountMore(c.writes, Written(c.pending.value, outcome), id);
        }
      case Answer(_, text, named, _, _) => if c.pending.Some? { CandidateIsThePending(c.pending.value, text, named); }
      case Planned(plan, _) => CarriedOrNot(c.pending, WS.Composed(c.workingSet, plan));
      case ClickInquiry(row) => if row.Some? { CarriedOrNot(c.pending, OnRow(c, row.value)); }
      case ClickObject(o) => if o.Some? { CarriedOrNot(c.pending, Some(WS.AnchoredObjectSet(o.value, c.workingSet))); }
      case ClickClear => CarriedOrNot(c.pending, WS.Cleared(c.workingSet));
      case _ =>
    }
  }

  /* ---- where the question may follow the seller ---- */

  /** A question about one inquiry held open while the seller stands on another. */
  predicate Astray(c: Conv) {
    c.pending.Some? && Given(c.pending.value.gap.inquiryId) && Given(FocusOf(c.workingSet))
    && FocusOf(c.workingSet) != c.pending.value.gap.inquiryId
  }

  predicate AsksNothing(e: Event) {
    (e.Direct? || e.Planned?) ==> e.question.None?
  }

  /**
   * A press and a planned turn drop the question when the seller moves to another inquiry; a direct
   * answer does not. A turn that asks nothing leaves the question astray exactly when it is a direct answer
   * that shows another inquiry.
   */
  lemma OnlyADirectAnswerLeadsAstray(c: Conv, e: Event)
    requires !Astray(c) && AsksNothing(e)
    ensures Astray(Apply(c, e)) <==>
      && e.Direct? && e.move.Inspect? && c.pending.Some? && Given(c.pending.value.gap.inquiryId)
      && e.move.row.inquiryId != "" && Some(e.move.row.inquiryId) != c.pending.value.gap.inquiryId
  {
    hide WS.Composed, NormalizeContent, Judge, Written, WS.Dedupe;
    if e.Answer? && c.pending.Some? { hide AsCandidate; CandidateIsThePending(c.pending.value, e.text, e.named); }
  }

  /* ---- which variant a fact is filed under ---- */

  /** This turn's answer becomes the candidate of the open question and names a variant it needs. */
  ghost predicate NamesVariant(c: Conv, e: Event, id: nat) {
    && e.Answer? && StandsOpen(c, id) && e.said.IsCandidate? && e.named.Variant?
    && c.pending.value.gap.variantRequired && Given(c.pending.value.gap.productId)
    && VerdictOn(c.pending.value, e.text, e.named, e.existing, e.matches).Fine?
  }

  ghost predicate NamedAt(events: seq<Event>, k: int, id: nat) {
    0 <= k < |events| && NamesVariant(After(START, events[..k]), events[k], id)
  }

  ghost predicate WasNamed(events: seq<Event>, id: nat) { exists k :: NamedAt(events, k, id) }

  lemma StepNames(c: Conv, e: Event, id: nat)
    requires Inv(c) && StandsOpen(Apply(c, e), id)
    ensures var p := Apply(c, e).pending.value;
      if StandsOpen(c, id) then p.variantId.Some? <==> c.pending.value.variantId.Some? || NamesVariant(c, e, id)
      else id == c.nextCapture && p.variantId.None?
  {
    hide WS.Composed, WS.AnchoredSet, WS.AnchoredObjectSet, WS.Cleared, Moved, OnRow, GapOf;
    hide NormalizeContent, TitleOf, Judge, Written, RowMatches, PendingOk, RowFor, Filtered;
    match e {
      case Answer(_, text, named, _, _) =>
        if c.pending.Some? {
          CandidateIsThePending(c.pending.value, text, named);
          hide AsCandidate, VerdictOn;
        }
      case _ =>
    }
  }

  lemma NamedEarlier(events: seq<Event>, id: nat)
    requires events != []
    ensures WasNamed(events, id) <==>
      WasNamed(events[..|events| - 1], id)
        || NamesVariant(After(START, events[..|events| - 1]), events[|events| - 1], id)
  {
    hide Apply, NamesVariant;
    var n := |events| - 1;
    var front := events[..n];
    forall k | 0 <= k < n ensures NamedAt(front, k, id) <==> NamedAt(events, k, id) {
      assert front[..k] == events[..k];
    }
    if WasNamed(events, id) {
      var k :| NamedAt(events, k, id);
      if k < n { assert NamedAt(front, k, id); }
    }
    if WasNamed(front, id) {
      var k :| NamedAt(front, k, id);
      assert NamedAt(events, k, id);
    }
    if NamesVariant(After(START, front), events[n], id) { assert NamedAt(events, n, id); }
  }

  /** Over a run: the open question has a variant exactly when an accepted answer to it named one. */
  lemma {:induction false} VariantWasNamed(events: seq<Event>, id: nat)
    ensures var c := After(START, events);
      && (StandsOpen(c, id) ==> (c.pending.value.variantId.Some? <==> WasNamed(events, id)))
      && (id >= c.nextCapture ==> !WasNamed(events, id))
  {
    hide Apply, NamesVariant, WasNamed;
    if events == [] {
      NothingNamed(id);
    } else {
      var front, e := events[..|events| - 1], events[|events| - 1];
      VariantWasNamed(front, id);
      Reachable(front);
      NamedEarlier(events, id);
      var c := After(START, front);
      StepCounts(c, e, id);
      NamesWhenOpen(c, e, id);
      if StandsOpen(Apply(c, e), id) { StepNames(c, e, id); }
    }
  }

  lemma NothingNamed(id: nat)
    ensures !WasNamed([], id)
  {
  }

  lemma NamesWhenOpen(c: Conv, e: Event, id: nat)
    requires Inv(c)
    ensures NamesVariant(c, e, id) ==> StandsOpen(c, id) && id < c.nextCapture
  {
    hide VerdictOn;
  }

  /**
   * Over whole runs: an answer for every variant, accepted and saved, is filed for the whole listing if and
   * only if no accepted answer to that question had named a variant before.
   */
  lemma GenericAnswer(events: seq<Event>, text: string, existing: seq<Existing>, matches: string -> seq<Match>)
    requires var c := After(START, events);
      && c.pending.Some? && c.pending.value.gap.scope == Product && c.pending.value.gap.variantRequired
      && VerdictOn(c.pending.value, text, Generic, existing, matches).Fine?
    ensures var c := After(START, events);
      var c1 := Apply(c, Answer(IsCandidate, text, Generic, existing, matches));
      && c1.pending.Some? && c1.pending.value.draft.Some?
      && var p := c1.pending.value;
         var c2 := Apply(c1, Decide(p.captureId, p.draft.value.fingerprint, Save, Saved, None));
         && |c2.writes| == |c.writes| + 1 && c2.writes[|c.writes|].row.ProductRow?
         && c2.writes[|c.writes|].row.body == NormalizeContent(text)
         && (c2.writes[|c.writes|].row.variantId.None? <==> !WasNamed(events, c.pending.value.captureId))
  {
    Reachable(events);
    VariantWasNamed(events, After(START, events).pending.value.captureId);
    hide NormalizeContent, TitleOf, Judge, Filtered, After, WasNamed, RowMatches, WS.Ok;
  }

  /** So a fact first said of one variant and then of all of them is saved under that one. */
  lemma GenericAfterOne(
    c: Conv, v: string, first: string, second: string, existing: seq<Existing>, matches: string -> seq<Match>)
    requires c.pending.Some? && c.pending.value.gap.scope == Product && c.pending.value.gap.variantRequired
    requires Given(c.pending.value.gap.productId)
    requires VerdictOn(c.pending.value, first, Variant(v), existing, matches).Fine?
    requires VerdictOn(AsCandidate(c.pending.value, first, Variant(v)), second, Generic, existing, matches).Fine?
    ensures var c1 := Apply(c, Answer(IsCandidate, first, Variant(v), existing, matches));
      var c2 := Apply(c1, Answer(IsCandidate, second, Generic, existing, matches));
      && c2.pending.Some? && c2.pending.value.draft.Some?
      && var p := c2.pending.value;
         var c3 := Apply(c2, Decide(p.captureId, p.draft.value.fingerprint, Save, Saved, None));
         && |c3.writes| == |c.writes| + 1 && c3.writes[|c.writes|].row.ProductRow?
         && c3.writes[|c.writes|].row.body == NormalizeContent(second) && c3.writes[|c.writes|].row.variantId == Some(v)
  {
    hide NormalizeContent, Judge;
  }

  /* ---- a saved sentence is not saved again ---- */

  /** The row as a later read of the scope lists it. */
  predicate Lists(existing: seq<Existing>, w: Write) {
    match w.row
    case OrgRow(kind, _, body) => exists e :: e in existing && e.kind == kind && e.body == body
    case ProductRow(_, _, _, body, variantId) => exists e :: e in existing && e.variantId == variantId && e.body == body
  }

  /**
   * Main result. Once a sentence was saved, saying it again to a question of the same scope, type and
   * variant makes no candidate whenever the normal forms agree and its row is among those read
   * (`Candidate.SharedNormalForm` says which texts share one).
   */
  lemma SaidAgain(
    events: seq<Event>, i: nat, p: Pending, text: string, named: Named, existing: seq<Existing>,
    matches: string -> seq<Match>)
    requires i < |After(START, events).writes|
    requires var w := After(START, events).writes[i];
      && p.gap.scope == w.fingerprint.scope && p.gap.kind == w.fingerprint.kind
      && VariantOf(p, named) == w.fingerprint.variantId
      && NormalizeContent(text) == w.fingerprint.content && Lists(existing, w)
    ensures !VariantOpen(p, named) ==> AfterAnswer(p, IsCandidate, text, named, existing, matches) == None
  {
    hide Judge, Judged, NormalizeContent;
    EveryRowMatches(events, i);
    var w := After(START, events).writes[i];
    assert Normal(w.fingerprint.content);
    var said :| w.fingerprint.content == NormalizeContent(said);
    var row :| row in existing && row.body == w.fingerprint.content
      && if p.gap.scope == Org then row.kind == p.gap.kind else row.variantId == VariantOf(p, named);
    var content := NormalizeContent(text);
    var rows := Filtered(existing, p.gap.scope, p.gap.kind, VariantOf(p, named));
    JudgeIsJudged(rows, content, TitleOf(content), matches);
    SavedIsADuplicate(
      VerdictOn(p, text, named, existing, matches), said, text, TitleOf(content), existing, row, p.gap.scope,
      p.gap.kind,
      VariantOf(p, named), matches);
  }
}
