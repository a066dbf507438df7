/** The conversation service's own handlers, and how the shipped procedures end with them. */
module ServiceProcedures {
  import opened Base
  import opened Procedure
  import opened Catalogue
  import opened CursorStore
  import opened ProcedureRuntime

  /** What the sentence asks of the object on the table. */
  datatype Intent = NoIntent | PrepareDraft | ReviseTone | Advise | CaptureAnswer

  datatype Actionability = Draftable | AlreadyAnswered | AwaitingSend | NotWorkable

  datatype Target =
    | InquiryTarget(
        workItemId: Option<string>, inquiryId: string, productId: Option<string>, actionability: Actionability,
        workable: bool)
    | ReviewTarget(reviewId: string)

  datatype Object = Object(kind: Anchor, id: string, productId: Option<string>)

  datatype Prepared = Prepared(workItemId: string, draftVersion: Option<string>)

  /** The answer a step composed, by what it is an answer of; `NoDraft` is the draft path saying why there is none. */
  datatype Answer = Draft | Revision | NoDraft | Refusal | Captured | NoDraftToRevise | Advice

  /**
   * The turn's scratch space. `resolved` is what the exact object read finds, `draftVersion` the new version
   * the draft path comes to, if any, `revisable` whether the object of the draft on the table is still found
   * and takes replies, `captureTaken` whether the sentence turned out to answer the open question; all four
   * are arbitrary. `drafts` counts the calls of the draft path.
   */
  datatype Turn = Turn(
    readiness: Readiness, intent: Intent, toneNamed: bool, selectedObject: Option<Object>, resolved: Option<Target>,
    pendingPrepared: Option<Prepared>, pendingCapture: Option<string>, captureTaken: bool, revisable: bool,
    draftVersion: Option<string>, target: Option<Target>, composed: Option<Answer>, drafts: nat)

  type Step2 = (ProcedureUpdate, Turn)

  function DraftRefs(version: Option<string>): Change<Refs> {
    if version.Some? then Set(map["draftVersion" := version]) else Keep
  }

  function WithProduct(refs: Refs, productId: Option<string>): Refs {
    if productId.Some? then refs["productId" := productId] else refs
  }

  function OpHydrateWorld(s: ProcedureState, c: Turn): Step2 { (NO_CHANGE, c) }

  function OpLoadObject(s: ProcedureState, c: Turn): Step2 {
    if s.procedureId == AnswerReview then
      if c.selectedObject.Some? && c.selectedObject.value.kind == ReviewAnchor then
        var o := c.selectedObject.value;
        (NO_CHANGE.(refs := Set(WithProduct(map["reviewId" := Some(o.id)], o.productId))), c.(target := None))
      else (NO_CHANGE, c)
    else if c.intent == ReviseTone && c.pendingPrepared.Some? then
      var p := c.pendingPrepared.value;
      var refs: Refs := map["workItemId" := Some(p.workItemId)];
      (NO_CHANGE.(refs := Set(if p.draftVersion.Some? then refs["draftVersion" := p.draftVersion] else refs)), c)
    else if c.resolved.Some? && c.resolved.value.InquiryTarget? then
      var t := c.resolved.value;
      (NO_CHANGE.(refs := Set(
         WithProduct(map["workItemId" := t.workItemId, "inquiryId" := Some(t.inquiryId)], t.productId))),
       c.(target := Some(t)))
    else (NO_CHANGE, c)
  }

  /** Can anything operational be read for this seller; a failed read refuses nothing. */
  function OperationalAbsence(r: Readiness): Option<string> {
    match r
    case NoChannel => Some("NO_CHANNEL")
    case NoData => Some("NO_DATA_YET")
    case _ => None
  }

  function OpCheckPrecondition(s: ProcedureState, c: Turn): Step2 {
    if s.procedureId == OnboardChannel || s.procedureId == DailyWork then
      var absence := OperationalAbsence(c.readiness);
      (if absence.Some? then NO_CHANGE.(absence := Set(absence)) else NO_CHANGE, c)
    else if s.procedureId == AnswerReview then (NO_CHANGE, c)
    else if c.target.Some? && c.target.value.InquiryTarget? && c.target.value.actionability != Draftable then
      (NO_CHANGE.(absence := Set(Some("NOT_ACTIONABLE"))), c)
    else (NO_CHANGE, c)
  }

  function OpRead(s: ProcedureState, c: Turn): Step2 { (NO_CHANGE, c) }

  /** The gate of the draft path, asked once more where the draft is made. */
  predicate TakesDraft(t: Target) { t.InquiryTarget? && t.actionability == Draftable && t.workable }

  /** The version on the table after a step: the new one, or the one that was there. */
  function VersionAfter(c: Turn, called: bool): Option<string> {
    if called && c.draftVersion.Some? then c.draftVersion
    else if c.pendingPrepared.Some? then c.pendingPrepared.value.draftVersion
    else None
  }

  /** A step that answers through the draft path, or with the refusal of an object that cannot take a draft. */
  function Drafting(c: Turn, called: bool, made: Answer): Step2 {
    (NO_CHANGE.(terminal := Set(Some(Answered)), refs := DraftRefs(VersionAfter(c, called))),
      DraftedTurn(c, called, made))
  }

  function DraftedTurn(c: Turn, called: bool, made: Answer): Turn {
    c.(composed := Some(DraftAnswer(c, called, made)), drafts := c.drafts + if called then 1 else 0)
  }

  function DraftAnswer(c: Turn, called: bool, made: Answer): Answer {
    if !called then Refusal else if c.draftVersion.Some? then made else NoDraft
  }

  function OpPrepare(s: ProcedureState, c: Turn): Step2 {
    if c.target.Some? && c.target.value.InquiryTarget? then Drafting(c, TakesDraft(c.target.value), Draft)
    else (NO_CHANGE, c)
  }

  function OpRevise(s: ProcedureState, c: Turn): Step2 {
    if c.pendingPrepared.Some? && c.toneNamed then Drafting(c, c.revisable, Revision) else (NO_CHANGE, c)
  }

  function OpResume(s: ProcedureState, c: Turn): Step2 {
    if c.pendingCapture.Some? && c.captureTaken then
      (NO_CHANGE.(terminal := Set(Some(Answered)), refs := Set(map["candidateId" := c.pendingCapture])),
       c.(composed := Some(Captured)))
    else (NO_CHANGE, c)
  }

  function OpHumanWait(s: ProcedureState, c: Turn): Step2 {
    if s.procedureId == CaptureKnowledge then
      (NO_CHANGE.(terminal := Set(Some(WaitingHuman)), interrupt := Set(Some(KnowledgeAnswer))), c.(composed := None))
    else (NO_CHANGE, c)
  }

  /** Advice over an object that can take a draft is the draft; over any other, what is known about it. */
  predicate AdviceOnly(intent: Intent, actionability: Actionability) {
    intent == Advise && actionability != Draftable
  }

  function OpTerminal(s: ProcedureState, c: Turn): Step2 {
    if s.terminal.Some? then (NO_CHANGE, c)
    else
      match s.procedureId
      case OnboardChannel => (NO_CHANGE.(terminal := Set(Some(BlockedByPrecondition))), c)
      case DailyWork =>
        (NO_CHANGE.(terminal := Set(Some(if s.absence.Some? then BlockedByPrecondition else Answered))), c)
      case ImproveFromIssues => (NO_CHANGE.(terminal := Set(Some(Answered))), c)
      case CaptureKnowledge => (NO_CHANGE, c)
      case AnswerReview => (NO_CHANGE, c)
      case AnswerInquiry =>
        if c.intent == ReviseTone && c.pendingPrepared.None? then
          (NO_CHANGE.(terminal := Set(Some(BlockedByPrecondition)), absence := Set(Some("NOT_ACTIONABLE"))),
           c.(composed := Some(NoDraftToRevise)))
        else if c.target.Some? && c.target.value.InquiryTarget?
          && AdviceOnly(c.intent, c.target.value.actionability) then
          (NO_CHANGE.(terminal := Set(Some(Answered))), c.(composed := Some(Advice)))
        else (NO_CHANGE, c)
  }

  function OpShouldRun(step: StepId, s: ProcedureState, c: Turn): bool {
    if s.terminal.Some? then false
    else if step == "prepare" then
      if c.target.None? || c.target.value.ReviewTarget? then c.target.Some?
      else c.intent != ReviseTone && !AdviceOnly(c.intent, c.target.value.actionability)
    else if step == "revise" then c.intent == ReviseTone && c.pendingPrepared.Some?
    else if step == "approval" || step == "execute" || step == "humanWait" then false
    else true
  }

  /** The table the service publishes: one operation per handler name. */
  function Operation(h: HandlerName, s: ProcedureState, c: Turn): Step2 {
    match h
    case HydrateWorld => OpHydrateWorld(s, c)
    case LoadObject => OpLoadObject(s, c)
    case CheckPrecondition => OpCheckPrecondition(s, c)
    case Prepare => OpPrepare(s, c)
    case Revise => OpRevise(s, c)
    case HumanWait => OpHumanWait(s, c)
    case Resume => OpResume(s, c)
    case Settle => OpTerminal(s, c)
    case Investigate | Evidence | ReadOpportunities | ValidateApproval | Execute => OpRead(s, c)
  }

  const HANDLERS: map<HandlerName, Handler<Turn>> := map h: HandlerName :: (s, c) => Operation(h, s, c)

  const SERVICE: Table<Turn> :=
    Table(HANDLERS, Some((step: StepId, s: ProcedureState, c: Turn) => OpShouldRun(step, s, c)))

  lemma AllPublished(steps: seq<Step>)
    ensures Published(steps, SERVICE)
  {
  }

  /** A step under the service's table. */
  function ServiceStep(step: Step, s: ProcedureState, c: Turn): (ProcedureState, Turn) {
    if step.optional && !OpShouldRun(step.id, s, c) then (s, c)
    else
      var (u, c') := Operation(step.handler, s, c);
      (Reduce(s, u.(stepTrail := Set([step.id]))), c')
  }

  lemma StepIs(step: Step, s: ProcedureState, c: Turn)
    ensures step.handler in SERVICE.handlers && RunStep(step, SERVICE, s, c) == ServiceStep(step, s, c)
  {
  }

  /** Every shipped definition compiles against the service's table. */
  lemma CatalogueCompiles(id: ProcedureId)
    ensures var d := ShippedOf(id);
      d.steps != [] && DistinctSteps(d.steps) && Published(d.steps, SERVICE) && |d.steps| <= RECURSION_LIMIT
  {
    AllPublished(ShippedOf(id).steps);
  }

  /** How a run begins: nothing settled, an empty trail, and whatever references a cursor carried. */
  function Begin(id: ProcedureId, refs: Refs): ProcedureState {
    ProcedureState(id, ShippedOf(id).version, refs, None, None, None, None, [])
  }

  /** That is the state the runtime seeds a run with: its own id and version, and the loaded cursor's references. */
  lemma BeginsAsSeeded(id: ProcedureId, existing: Option<AopCheckpoint>)
    ensures Reduce(INITIAL, Seed(id, ShippedOf(id).version, existing, NO_CHANGE))
      == Begin(id, if existing.Some? then existing.value.refs else map[])
  {
    hide ShippedOf;
    if existing.Some? { assert INITIAL.refs + existing.value.refs == existing.value.refs; }
  }

  function RunShipped(id: ProcedureId, refs: Refs, c: Turn): (ProcedureState, Turn) {
    AllPublished(ShippedOf(id).steps);
    RunSteps(ShippedOf(id).steps, SERVICE, Begin(id, refs), c)
  }

  /* ---- safety, over every run of every shipped definition ---- */

  const GATED := {"approval", "execute", "humanWait"}

  ghost predicate Safe(id: ProcedureId, before: nat, s: ProcedureState, c: Turn) {
    && s.procedureId == id
    && (s.terminal.Some? ==> s.terminal.value in ShippedOf(id).completion && s.terminal.value != WaitingHuman)
    && s.interrupt.None? && s.approvalId.None?
    && (forall i :: 0 <= i < |s.stepTrail| ==> s.stepTrail[i] !in GATED)
    && before <= c.drafts <= before + 1
    && (before < c.drafts ==> s.terminal == Some(Answered))
  }

  /** What the definitions have in common: which procedures draft, which one captures, and which steps are gated. */
  predicate Fits(id: ProcedureId, step: Step) {
    && (step.handler in {Prepare, Revise} ==> id in {AnswerInquiry, AnswerReview})
    && (step.handler == Resume ==> id == CaptureKnowledge)
    && (step.handler == HumanWait ==> step.id in GATED)
    && (step.id in GATED ==> step.optional)
  }

  lemma DraftingStepsFit(id: ProcedureId, step: Step)
    requires id == AnswerInquiry || id == AnswerReview
    requires step in (if id == AnswerInquiry then ANSWER_INQUIRY.steps else ANSWER_REVIEW.steps)
    ensures Fits(id, step)
  {
  }

  lemma OtherStepsFit(id: ProcedureId, step: Step)
    requires id != AnswerInquiry && id != AnswerReview && step in ShippedOf(id).steps
    ensures Fits(id, step)
  {
  }

  lemma ShippedStepsFit(id: ProcedureId, step: Step)
    requires step in ShippedOf(id).steps
    ensures Fits(id, step)
  {
    hide Fits;
    if id == AnswerInquiry || id == AnswerReview { DraftingStepsFit(id, step); } else { OtherStepsFit(id, step); }
  }

  /** No operation names the procedure, the approval or an interrupt, and each settles only with a declared terminal. */
  lemma OperationStaysSafe(id: ProcedureId, step: Step, s: ProcedureState, c: Turn)
    requires s.procedureId == id && s.terminal.None? && Fits(id, step) && step.id !in GATED
    ensures var (u, c') := Operation(step.handler, s, c);
      && u.procedureId.Keep? && u.approvalId.Keep? && u.interrupt.Keep?
      && (u.terminal.Set? ==>
           && u.terminal.value.Some? && u.terminal.value.value in ShippedOf(id).completion
           && u.terminal.value.value != WaitingHuman)
      && (c'.drafts == c.drafts || (u.terminal == Set(Some(Answered)) && c'.drafts == c.drafts + 1))
  {
    hide Fits;
    assert step.handler in {Prepare, Revise} ==> id in {AnswerInquiry, AnswerReview} by { FitsMeans(id, step); }
    assert step.handler == Resume ==> id == CaptureKnowledge by { FitsMeans(id, step); }
    assert step.handler != HumanWait by { FitsMeans(id, step); }
  }

  lemma FitsMeans(id: ProcedureId, step: Step)
    requires Fits(id, step)
    ensures step.handler in {Prepare, Revise} ==> id in {AnswerInquiry, AnswerReview}
    ensures step.handler == Resume ==> id == CaptureKnowledge
    ensures step.handler == HumanWait ==> step.id in GATED
  {
  }

  lemma StepStaysSafe(id: ProcedureId, step: Step, before: nat, s: ProcedureState, c: Turn)
    requires Safe(id, before, s, c) && s.terminal.None? && Fits(id, step)
    ensures var (s', c') := ServiceStep(step, s, c); Safe(id, before, s', c')
  {
    hide Operation, ShippedOf;
    if !(step.optional && !OpShouldRun(step.id, s, c)) {
      assert step.id !in GATED;
      OperationStaysSafe(id, step, s, c);
      var (s', c') := ServiceStep(step, s, c);
      var (u, _) := Operation(step.handler, s, c);
      assert s'.terminal == if u.terminal.Set? then u.terminal.value else s.terminal;
      assert s'.stepTrail == s.stepTrail + [step.id];
    }
  }

  lemma {:induction false} StaysSafe(id: ProcedureId, steps: seq<Step>, before: nat, s: ProcedureState, c: Turn)
    requires forall i :: 0 <= i < |steps| ==> steps[i] in ShippedOf(id).steps
    requires Safe(id, before, s, c) && s.terminal.None? && Published(steps, SERVICE)
    ensures var (s', c') := RunSteps(steps, SERVICE, s, c); Safe(id, before, s', c')
  {
    hide Safe, ShippedOf, Fits, RunStep, ServiceStep;
    if steps != [] {
      ShippedStepsFit(id, steps[0]);
      StepStaysSafe(id, steps[0], before, s, c);
      StepIs(steps[0], s, c);
      var (s1, c1) := RunStep(steps[0], SERVICE, s, c);
      if s1.terminal.None? { StaysSafe(id, steps[1..], before, s1, c1); }
    }
  }

  /**
   * Main result. However the conversation, the object read and the draft path answer: a shipped procedure
   * ends in a terminal it declares or hands the turn back, never waits for a person, never runs an
   * approval, an execution or a human-wait step, and calls the draft path at most once.
   */
  lemma EveryRunIsSafe(id: ProcedureId, refs: Refs, c: Turn)
    ensures var (s', c') := RunShipped(id, refs, c);
      && (s'.terminal.Some? ==> s'.terminal.value in ShippedOf(id).completion)
      && s'.terminal != Some(WaitingHuman)
      && (forall i :: 0 <= i < |s'.stepTrail| ==> s'.stepTrail[i] !in GATED)
      && c.drafts <= c'.drafts <= c.drafts + 1
      && (c'.drafts > c.drafts ==> s'.terminal == Some(Answered))
  {
    AllPublished(ShippedOf(id).steps);
    StaysSafe(id, ShippedOf(id).steps, c.drafts, Begin(id, refs), c);
  }

  /** So a turn never stores a cursor for a shipped procedure, and deletes one it was granted. */
  lemma ServiceStoresNoCursor(
    id: ProcedureId, refs: Refs, c: Turn, cs: Cursors, threadId: string, cursor: AopCheckpoint)
    ensures var existing := LoadCursor(cs, threadId);
      var settled := Settled(cs, existing, threadId, cursor, RunShipped(id, refs, c).0);
      settled == (if existing.Some? then DeleteCursor(cs, threadId) else cs) && LoadCursor(settled, threadId).None?
  {
    EveryRunIsSafe(id, refs, c);
  }

  /* ---- the outcome of each procedure, in closed form ---- */

  /** The object a draft run works on: what the exact read found, or the one already in hand. */
  function Loaded(c: Turn): Option<Target> {
    if c.intent == ReviseTone && c.pendingPrepared.Some? then c.target
    else if c.resolved.Some? && c.resolved.value.InquiryTarget? then c.resolved
    else c.target
  }

  datatype Outcome = Outcome(terminal: Option<TerminalKind>, composed: Option<Answer>, drafts: nat)

  const HANDED_BACK := None

  /** Answered through the draft path where the object takes a draft, with its refusal where it does not. */
  function Drafted(c: Turn, called: bool, made: Answer): Outcome {
    if !called then Outcome(Some(Answered), Some(Refusal), 0)
    else Outcome(Some(Answered), Some(if c.draftVersion.Some? then made else NoDraft), 1)
  }

  function InquiryOutcome(c: Turn): Outcome {
    var t := Loaded(c);
    if c.intent == ReviseTone then
      if c.pendingPrepared.None? then Outcome(Some(BlockedByPrecondition), Some(NoDraftToRevise), 0)
      else if c.toneNamed then Drafted(c, c.revisable, Revision)
      else Outcome(HANDED_BACK, c.composed, 0)
    else if t.Some? && t.value.InquiryTarget? then
      if c.intent == Advise && t.value.actionability != Draftable then Outcome(Some(Answered), Some(Advice), 0)
      else Drafted(c, t.value.actionability == Draftable && t.value.workable, Draft)
    else Outcome(HANDED_BACK, c.composed, 0)
  }

  /** A review procedure routed to: the conversation stands on a review. */
  predicate OnAReview(c: Turn) { c.selectedObject.Some? && c.selectedObject.value.kind == ReviewAnchor }

  function OutcomeOf(id: ProcedureId, c: Turn): Outcome {
    match id
    case OnboardChannel => Outcome(Some(BlockedByPrecondition), c.composed, 0)
    case DailyWork =>
      Outcome(Some(if c.readiness == NoChannel || c.readiness == NoData then BlockedByPrecondition else Answered),
        c.composed, 0)
    case ImproveFromIssues => Outcome(Some(Answered), c.composed, 0)
    case CaptureKnowledge =>
      if c.pendingCapture.Some? && c.captureTaken then Outcome(Some(Answered), Some(Captured), 0)
      else Outcome(HANDED_BACK, c.composed, 0)
    case AnswerInquiry => InquiryOutcome(c)
    case AnswerReview =>
      if OnAReview(c) then
        if c.intent == ReviseTone && c.pendingPrepared.Some? && c.toneNamed then Drafted(c, c.revisable, Revision)
        else Outcome(HANDED_BACK, c.composed, 0)
      else ReviewOutcome(c)
  }

  /** Not reached by routing: a review run with no review selected works on the inquiry in hand. */
  function ReviewOutcome(c: Turn): Outcome {
    if c.intent == ReviseTone then
      if c.pendingPrepared.Some? && c.toneNamed then Drafted(c, c.revisable, Revision)
      else Outcome(HANDED_BACK, c.composed, 0)
    else if c.target.Some? && c.target.value.InquiryTarget?
      && (c.intent == Advise ==> c.target.value.actionability == Draftable) then
      Drafted(c, c.target.value.actionability == Draftable && c.target.value.workable, Draft)
    else Outcome(HANDED_BACK, c.composed, 0)
  }

  /** The object a drafting procedure would draft for; on a review there is none, and the turn is handed back. */
  function DraftedObject(id: ProcedureId, c: Turn): Option<Target> {
    if id == AnswerInquiry then Loaded(c) else if OnAReview(c) then None else c.target
  }

  /** One reference, when there is something to refer to. */
  function Ref(key: string, value: Option<string>): Refs { if value.Some? then map[key := value] else map[] }

  /** What a run names besides a draft: the capture it took, the review, the inquiry read, or the draft in hand. */
  function ObjectRefs(id: ProcedureId, c: Turn): Refs {
    match id
    case CaptureKnowledge => if c.captureTaken then Ref("candidateId", c.pendingCapture) else map[]
    case AnswerReview =>
      if OnAReview(c) then
        Ref("reviewId", Some(c.selectedObject.value.id)) + Ref("productId", c.selectedObject.value.productId)
      else map[]
    case AnswerInquiry =>
      if c.intent == ReviseTone && c.pendingPrepared.Some? then
        Ref("workItemId", Some(c.pendingPrepared.value.workItemId))
          + Ref("draftVersion", c.pendingPrepared.value.draftVersion)
      else if c.resolved.Some? && c.resolved.value.InquiryTarget? then
        var t := c.resolved.value;
        map["workItemId" := t.workItemId] + Ref("inquiryId", Some(t.inquiryId)) + Ref("productId", t.productId)
      else map[]
    case _ => map[]
  }

  predicate RevisesTone(c: Turn) { c.intent == ReviseTone && c.pendingPrepared.Some? && c.toneNamed }

  /** The version the draft path came to when it was called, otherwise the one that was on the table. */
  function VersionRef(c: Turn, called: bool): Refs {
    if called && c.draftVersion.Some? then map["draftVersion" := c.draftVersion]
    else if c.pendingPrepared.Some? then Ref("draftVersion", c.pendingPrepared.value.draftVersion)
    else map[]
  }

  /** What answering through the draft path adds, the object in hand being `c.target`. */
  function DraftPathRefs(id: ProcedureId, c: Turn): Refs {
    if id !in {AnswerInquiry, AnswerReview} then map[]
    else if c.intent == ReviseTone then if RevisesTone(c) then VersionRef(c, c.revisable) else map[]
    else
      match c.target
      case Some(InquiryTarget(_, _, _, actionability, workable)) =>
        if c.intent == Advise && actionability != Draftable then map[]
        else VersionRef(c, actionability == Draftable && workable)
      case _ => map[]
  }

  function Observed(before: nat, s: ProcedureState, c: Turn): Outcome {
    Outcome(s.terminal, c.composed, if c.drafts >= before then c.drafts - before else 0)
  }

  /** The run of a shipped definition from one of its steps on. */
  function RunFrom(id: ProcedureId, n: nat, s: ProcedureState, c: Turn): (ProcedureState, Turn)
    decreases |ShippedOf(id).steps| - n
  {
    if n >= |ShippedOf(id).steps| then (s, c)
    else
      var (s', c') := ServiceStep(ShippedOf(id).steps[n], s, c);
      if s'.terminal.Some? then (s', c') else RunFrom(id, n + 1, s', c')
  }

  lemma UnfoldRun(steps: seq<Step>, s: ProcedureState, c: Turn)
    requires Published(steps, SERVICE)
    ensures steps == [] ==> RunSteps(steps, SERVICE, s, c) == (s, c)
    ensures steps != [] ==>
      && Published(steps[1..], SERVICE) && steps[0].handler in SERVICE.handlers
      && var (s', c') := RunStep(steps[0], SERVICE, s, c);
         RunSteps(steps, SERVICE, s, c) == if s'.terminal.Some? then (s', c') else RunSteps(steps[1..], SERVICE, s', c')
  {
    hide RunStep;
  }

  lemma {:induction false} RunFromRuns(id: ProcedureId, n: nat, s: ProcedureState, c: Turn)
    requires n <= |ShippedOf(id).steps|
    ensures Published(ShippedOf(id).steps[n..], SERVICE)
    ensures RunSteps(ShippedOf(id).steps[n..], SERVICE, s, c) == RunFrom(id, n, s, c)
    decreases |ShippedOf(id).steps| - n
  {
    hide ShippedOf, ServiceStep, RunStep, RunSteps, Published;
    var steps := ShippedOf(id).steps;
    AllPublished(steps[n..]);
    if n < |steps| {
      assert steps[n..][0] == steps[n] && steps[n..][1..] == steps[n + 1..];
      StepIs(steps[n], s, c);
      var (s', c') := ServiceStep(steps[n], s, c);
      RunFromRuns(id, n + 1, s', c');
      UnfoldRun(steps[n..], s, c);
    } else {
      UnfoldRun(steps[n..], s, c);
    }
  }

  /** Where `s` is after one more step that does not settle. */
  lemma Onward(id: ProcedureId, n: nat, s: ProcedureState, c: Turn, s': ProcedureState, c': Turn)
    requires n < |ShippedOf(id).steps| && ServiceStep(ShippedOf(id).steps[n], s, c) == (s', c')
    ensures RunFrom(id, n, s, c) == if s'.terminal.Some? then (s', c') else RunFrom(id, n + 1, s', c')
  {
  }

  lemma CaptureOutcome(refs: Refs, c: Turn)
    ensures var (s', c') := RunFrom(CaptureKnowledge, 0, Begin(CaptureKnowledge, refs), c);
      Observed(c.drafts, s', c') == OutcomeOf(CaptureKnowledge, c) && s'.refs == refs + ObjectRefs(CaptureKnowledge, c)
  {
    hide RunFrom;
    var d := CAPTURE_KNOWLEDGE.steps;
    var s0 := Begin(CaptureKnowledge, refs);
    var (s1, c1) := ServiceStep(d[0], s0, c);
    Onward(CaptureKnowledge, 0, s0, c, s1, c1);
    var (s2, c2) := ServiceStep(d[1], s1, c1);
    Onward(CaptureKnowledge, 1, s1, c1, s2, c2);
    Finished(CaptureKnowledge, 2, s2, c2);
  }

  lemma OnboardOutcome(refs: Refs, c: Turn)
    ensures var (s', c') := RunFrom(OnboardChannel, 0, Begin(OnboardChannel, refs), c);
      Observed(c.drafts, s', c') == OutcomeOf(OnboardChannel, c) && s'.refs == refs
  {
    hide RunFrom;
    var d := ONBOARD_CHANNEL.steps;
    var s0 := Begin(OnboardChannel, refs);
    var (s1, c1) := ServiceStep(d[0], s0, c);
    Onward(OnboardChannel, 0, s0, c, s1, c1);
    var (s2, c2) := ServiceStep(d[1], s1, c1);
    Onward(OnboardChannel, 1, s1, c1, s2, c2);
    var (s3, c3) := ServiceStep(d[2], s2, c2);
    Onward(OnboardChannel, 2, s2, c2, s3, c3);
  }

  lemma ImproveOutcome(refs: Refs, c: Turn)
    ensures var (s', c') := RunFrom(ImproveFromIssues, 0, Begin(ImproveFromIssues, refs), c);
      Observed(c.drafts, s', c') == OutcomeOf(ImproveFromIssues, c) && s'.refs == refs
  {
    hide RunFrom;
    var d := IMPROVE_FROM_ISSUES.steps;
    var s0 := Begin(ImproveFromIssues, refs);
    var (s1, c1) := ServiceStep(d[0], s0, c);
    Onward(ImproveFromIssues, 0, s0, c, s1, c1);
    var (s2, c2) := ServiceStep(d[1], s1, c1);
    Onward(ImproveFromIssues, 1, s1, c1, s2, c2);
    var (s3, c3) := ServiceStep(d[2], s2, c2);
    Onward(ImproveFromIssues, 2, s2, c2, s3, c3);
  }

  lemma DailyOutcome(refs: Refs, c: Turn)
    ensures var (s', c') := RunFrom(DailyWork, 0, Begin(DailyWork, refs), c);
      Observed(c.drafts, s', c') == OutcomeOf(DailyWork, c) && s'.refs == refs
  {
    hide RunFrom;
    var d := DAILY_WORK.steps;
    var s0 := Begin(DailyWork, refs);
    var (s1, c1) := ServiceStep(d[0], s0, c);
    Onward(DailyWork, 0, s0, c, s1, c1);
    var (s2, c2) := ServiceStep(d[1], s1, c1);
    Onward(DailyWork, 1, s1, c1, s2, c2);
    var (s3, c3) := ServiceStep(d[2], s2, c2);
    Onward(DailyWork, 2, s2, c2, s3, c3);
    var (s4, c4) := ServiceStep(d[3], s3, c3);
    Onward(DailyWork, 3, s3, c3, s4, c4);
  }

  lemma Finished(id: ProcedureId, n: nat, s: ProcedureState, c: Turn)
    requires n >= |ShippedOf(id).steps|
    ensures RunFrom(id, n, s, c) == (s, c)
  {
  }

  /** Gated steps are passed over. */
  lemma PassGated(id: ProcedureId, n: nat, s: ProcedureState, c: Turn)
    requires n < |ShippedOf(id).steps| && ShippedOf(id).steps[n].id in GATED && ShippedOf(id).steps[n].optional
    requires s.terminal.None?
    ensures RunFrom(id, n, s, c) == RunFrom(id, n + 1, s, c)
  {
    hide ShippedOf;
    assert ServiceStep(ShippedOf(id).steps[n], s, c) == (s, c);
  }

  const LOAD := Step("loadObject", LoadObject, false)
  const GATE := Step("gate", CheckPrecondition, false)

  lemma LoadsInquiry(s: ProcedureState, c: Turn)
    requires s.terminal.None? && s.procedureId == AnswerInquiry
    ensures var (s', c') := ServiceStep(LOAD, s, c);
      && s'.terminal.None? && s'.procedureId == AnswerInquiry && c' == c.(target := Loaded(c))
      && s'.refs == s.refs + ObjectRefs(AnswerInquiry, c)
  {
    var refs, named := Operation(LoadObject, s, c).0.refs, ObjectRefs(AnswerInquiry, c);
    assert if refs.Set? then refs.value == named else named == map[];
  }

  lemma LoadsReview(s: ProcedureState, c: Turn)
    requires s.terminal.None? && s.procedureId == AnswerReview
    ensures var (s', c') := ServiceStep(LOAD, s, c);
      && s'.terminal.None? && s'.procedureId == AnswerReview && c' == c.(target := DraftedObject(AnswerReview, c))
      && s'.refs == s.refs + ObjectRefs(AnswerReview, c)
  {
    var refs, named := Operation(LoadObject, s, c).0.refs, ObjectRefs(AnswerReview, c);
    assert if refs.Set? then refs.value == named else named == map[];
  }

  /** The gate may record an absence; it settles nothing and names nothing. */
  lemma GateRecords(s: ProcedureState, c: Turn)
    requires s.terminal.None?
    ensures var (s', c') := ServiceStep(GATE, s, c);
      s'.terminal.None? && s'.procedureId == s.procedureId && s'.refs == s.refs && c' == c
  {
  }

  /** The steps up to the draft: the object is loaded, and nothing is settled. */
  lemma LoadAndGate(id: ProcedureId, refs: Refs, c: Turn) returns (s: ProcedureState)
    requires id == AnswerInquiry || id == AnswerReview
    ensures RunFrom(id, 0, Begin(id, refs), c) == RunFrom(id, 2, s, c.(target := DraftedObject(id, c)))
    ensures s.terminal.None? && s.procedureId == id && s.refs == refs + ObjectRefs(id, c)
  {
    hide RunFrom, ServiceStep, ObjectRefs, DraftedObject;
    var s0 := Begin(id, refs);
    if id == AnswerInquiry { LoadsInquiry(s0, c); LoadedIsIt(c); } else { LoadsReview(s0, c); }
    var (s1, c1) := ServiceStep(LOAD, s0, c);
    Onward(id, 0, s0, c, s1, c1);
    GateRecords(s1, c1);
    var (s2, c2) := ServiceStep(GATE, s1, c1);
    Onward(id, 1, s1, c1, s2, c2);
    s := s2;
  }

  lemma LoadedIsIt(c: Turn)
    ensures DraftedObject(AnswerInquiry, c) == Loaded(c)
  {
  }

  /** Past the draft and the revision: the gated steps are passed over, and the run settles or hands back. */
  lemma InquirySettles(s: ProcedureState, c: Turn)
    requires s.terminal.None? && s.procedureId == AnswerInquiry
    ensures RunFrom(AnswerInquiry, 4, s, c) == ServiceStep(Step("settle", Settle, false), s, c)
  {
    hide RunFrom, ServiceStep;
    PassGated(AnswerInquiry, 4, s, c);
    PassGated(AnswerInquiry, 5, s, c);
    var (s7, c7) := ServiceStep(ANSWER_INQUIRY.steps[6], s, c);
    Onward(AnswerInquiry, 6, s, c, s7, c7);
    Finished(AnswerInquiry, 7, s7, c7);
  }

  lemma ReviewSettles(s: ProcedureState, c: Turn)
    requires s.terminal.None? && s.procedureId == AnswerReview
    ensures RunFrom(AnswerReview, 4, s, c) == ServiceStep(Step("settle", Settle, false), s, c)
  {
    hide RunFrom, ServiceStep;
    PassGated(AnswerReview, 4, s, c);
    PassGated(AnswerReview, 5, s, c);
    PassGated(AnswerReview, 6, s, c);
    var (s8, c8) := ServiceStep(ANSWER_REVIEW.steps[7], s, c);
    Onward(AnswerReview, 7, s, c, s8, c8);
    Finished(AnswerReview, 8, s8, c8);
  }

  const PREPARE := Step("prepare", Prepare, true)
  const REVISE := Step("revise", Revise, true)

  /** The draft and the revision step are the same in both drafting procedures. */
  lemma DraftThenRevise(id: ProcedureId, s: ProcedureState, c: Turn)
    requires id == AnswerInquiry || id == AnswerReview
    ensures var (s3, c3) := ServiceStep(PREPARE, s, c);
      RunFrom(id, 2, s, c) ==
        if s3.terminal.Some? then (s3, c3)
        else
          var (s4, c4) := ServiceStep(REVISE, s3, c3);
          if s4.terminal.Some? then (s4, c4) else RunFrom(id, 4, s4, c4)
  {
    hide RunFrom, ServiceStep;
    var (s3, c3) := ServiceStep(PREPARE, s, c);
    Onward(id, 2, s, c, s3, c3);
    var (s4, c4) := ServiceStep(REVISE, s3, c3);
    Onward(id, 3, s3, c3, s4, c4);
  }

  /** What the two steps amount to. */
  lemma DraftStep(s: ProcedureState, c: Turn)
    requires s.terminal.None?
    ensures var (s3, c3) := ServiceStep(PREPARE, s, c);
      var drafts :=
        c.target.Some? && c.target.value.InquiryTarget? && c.intent != ReviseTone
        && !AdviceOnly(c.intent, c.target.value.actionability);
      && s3.procedureId == s.procedureId
      && s3.refs == s.refs + (if drafts then VersionRef(c, TakesDraft(c.target.value)) else map[])
      && (if drafts then s3.terminal == Some(Answered) && c3 == DraftedTurn(c, TakesDraft(c.target.value), Draft)
          else s3.terminal.None? && c3 == c)
  {
  }

  lemma ReviseStep(s: ProcedureState, c: Turn)
    requires s.terminal.None?
    ensures var (s4, c4) := ServiceStep(REVISE, s, c);
      && s4.procedureId == s.procedureId
      && s4.refs == s.refs + (if RevisesTone(c) then VersionRef(c, c.revisable) else map[])
      && (if c.intent == ReviseTone && c.pendingPrepared.Some? && c.toneNamed then
            s4.terminal == Some(Answered) && c4 == DraftedTurn(c, c.revisable, Revision)
          else s4.terminal.None? && c4 == c)
  {
  }

  /** From the draft on, for any state in which the object is loaded. */
  lemma DraftReviseSettle(s: ProcedureState, c: Turn)
    requires s.terminal.None? && s.procedureId == AnswerInquiry
    ensures var (s', c') := RunFrom(AnswerInquiry, 2, s, c);
      && Observed(c.drafts, s', c') == InquiryOutcome(c.(resolved := None))
      && s'.refs == s.refs + DraftPathRefs(AnswerInquiry, c)
  {
    hide RunFrom, ServiceStep;
    DraftThenRevise(AnswerInquiry, s, c);
    DraftStep(s, c);
    var (s3, c3) := ServiceStep(PREPARE, s, c);
    if s3.terminal.None? {
      ReviseStep(s3, c3);
      var (s4, c4) := ServiceStep(REVISE, s3, c3);
      if s4.terminal.None? { InquirySettles(s4, c4); SettleStep(s4, c4); }
    }
  }

  lemma SettleStep(s: ProcedureState, c: Turn)
    requires s.terminal.None?
    ensures var (s', c') := ServiceStep(Step("settle", Settle, false), s, c);
      s'.refs == s.refs && (s'.terminal, c') ==
        if s.procedureId == AnswerReview then (None, c)
        else if s.procedureId != AnswerInquiry then (s'.terminal, c')
        else if c.intent == ReviseTone && c.pendingPrepared.None? then
          (Some(BlockedByPrecondition), c.(composed := Some(NoDraftToRevise)))
        else if c.target.Some? && c.target.value.InquiryTarget?
          && AdviceOnly(c.intent, c.target.value.actionability) then
          (Some(Answered), c.(composed := Some(Advice)))
        else (None, c)
  {
  }

  lemma ReviewFromDraft(s: ProcedureState, c: Turn)
    requires s.terminal.None? && s.procedureId == AnswerReview
    ensures var (s', c') := RunFrom(AnswerReview, 2, s, c);
      Observed(c.drafts, s', c') == ReviewOutcome(c) && s'.refs == s.refs + DraftPathRefs(AnswerReview, c)
  {
    hide RunFrom, ServiceStep;
    DraftThenRevise(AnswerReview, s, c);
    DraftStep(s, c);
    var (s3, c3) := ServiceStep(PREPARE, s, c);
    if s3.terminal.None? {
      ReviseStep(s3, c3);
      var (s4, c4) := ServiceStep(REVISE, s3, c3);
      if s4.terminal.None? { ReviewSettles(s4, c4); SettleStep(s4, c4); }
    }
  }

  ghost predicate EndsAs(id: ProcedureId, refs: Refs, c: Turn, s': ProcedureState, c': Turn) {
    && Observed(c.drafts, s', c') == OutcomeOf(id, c)
    && s'.refs == refs + ObjectRefs(id, c) + DraftPathRefs(id, c.(target := DraftedObject(id, c)))
  }

  lemma DraftingRuns(id: ProcedureId, refs: Refs, c: Turn)
    requires id == AnswerInquiry || id == AnswerReview
    ensures var (s', c') := RunFrom(id, 0, Begin(id, refs), c); EndsAs(id, refs, c, s', c')
  {
    hide RunFrom, ServiceStep, ObjectRefs, DraftPathRefs, Begin, ShippedOf;
    var s := LoadAndGate(id, refs, c);
    var c2 := c.(target := DraftedObject(id, c));
    if id == AnswerInquiry { DraftReviseSettle(s, c2); } else { ReviewFromDraft(s, c2); }
    var (s', c') := RunFrom(id, 2, s, c2);
    assert Observed(c2.drafts, s', c') == OutcomeOf(id, c);
  }

  lemma ReadingRuns(id: ProcedureId, refs: Refs, c: Turn)
    requires id != AnswerInquiry && id != AnswerReview
    ensures var (s', c') := RunFrom(id, 0, Begin(id, refs), c); EndsAs(id, refs, c, s', c')
  {
    hide RunFrom, Begin, ShippedOf;
    match id {
      case CaptureKnowledge => CaptureOutcome(refs, c);
      case DailyWork => DailyOutcome(refs, c);
      case OnboardChannel => OnboardOutcome(refs, c);
      case ImproveFromIssues => ImproveOutcome(refs, c);
    }
    NamesNothing(refs);
    NamesNothing(refs + ObjectRefs(id, c));
  }

  lemma NamesNothing(refs: Refs)
    ensures refs + map[] == refs
  {
  }

  /**
   * Main result. How every shipped run ends, what it composed, whether it drafted, and what its references name
   * besides those it began with, from its inputs alone.
   */
  lemma OutcomeOfRuns(id: ProcedureId, refs: Refs, c: Turn)
    ensures var (s', c') := RunShipped(id, refs, c);
      && Observed(c.drafts, s', c') == OutcomeOf(id, c)
      && s'.refs == refs + ObjectRefs(id, c) + DraftPathRefs(id, c.(target := DraftedObject(id, c)))
  {
    hide RunFrom, ServiceStep, ShippedOf, Begin, OutcomeOf, ObjectRefs, DraftPathRefs, DraftedObject, Observed;
    RunFromRuns(id, 0, Begin(id, refs), c);
    assert ShippedOf(id).steps[0..] == ShippedOf(id).steps;
    if id == AnswerInquiry || id == AnswerReview { DraftingRuns(id, refs, c); } else { ReadingRuns(id, refs, c); }
  }

  /**
   * The draft path is called exactly for a named change of tone of a draft whose object still takes one, or
   * for an object in hand that takes a draft; whatever the gate of the definition recorded before.
   */
  lemma DraftsOnlyWhatTakesOne(id: ProcedureId, refs: Refs, c: Turn)
    ensures RunShipped(id, refs, c).1.drafts > c.drafts <==>
      && id in {AnswerInquiry, AnswerReview}
      && if c.intent == ReviseTone then c.pendingPrepared.Some? && c.toneNamed && c.revisable
         else
           match DraftedObject(id, c)
           case Some(InquiryTarget(_, _, _, actionability, workable)) => actionability == Draftable && workable
           case _ => false
  {
    hide RunShipped;
    OutcomeOfRuns(id, refs, c);
  }

  /* ---- which declared terminals are reached ---- */

  function ReachedTerminals(id: ProcedureId): set<TerminalKind> {
    match id
    case OnboardChannel => {BlockedByPrecondition}
    case DailyWork => {Answered, BlockedByPrecondition}
    case AnswerInquiry => {Answered, BlockedByPrecondition}
    case AnswerReview => {Answered}
    case CaptureKnowledge => {Answered}
    case ImproveFromIssues => {Answered}
  }

  const PLAIN := Turn(Working, PrepareDraft, false, None, None, None, None, false, true, None, None, None, 0)

  function Witness(id: ProcedureId, t: TerminalKind): Turn {
    match id
    case DailyWork => if t == Answered then PLAIN else PLAIN.(readiness := NoData)
    case AnswerInquiry =>
      if t == Answered then PLAIN.(target := Some(InquiryTarget(None, "i", None, Draftable, true)))
      else PLAIN.(intent := ReviseTone)
    case AnswerReview =>
      PLAIN.(selectedObject := Some(Object(ReviewAnchor, "r", None)), intent := ReviseTone, toneNamed := true,
             pendingPrepared := Some(Prepared("w", None)))
    case CaptureKnowledge => PLAIN.(pendingCapture := Some("k"), captureTaken := true)
    case _ => PLAIN
  }

  /**
   * The definitions say they list only the terminals they can reach. With the service's handlers each
   * reaches exactly these, so all but one list more than they reach.
   */
  lemma ExactlyTheseTerminals(id: ProcedureId, t: TerminalKind)
    ensures t in ReachedTerminals(id) <==> exists refs, c :: RunShipped(id, refs, c).0.terminal == Some(t)
    ensures ReachedTerminals(id) <= ShippedOf(id).completion
    ensures ReachedTerminals(id) == ShippedOf(id).completion <==> id == OnboardChannel
  {
    hide RunShipped;
    if refs: Refs, c: Turn :| RunShipped(id, refs, c).0.terminal == Some(t) {
      OutcomeOfRuns(id, refs, c);
    }
    if t in ReachedTerminals(id) {
      OutcomeOfRuns(id, map[], Witness(id, t));
      assert RunShipped(id, map[], Witness(id, t)).0.terminal == Some(t);
    }
  }
}
