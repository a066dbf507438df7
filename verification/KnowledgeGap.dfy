/** Which missing fact may be asked of the seller, from the draft path's own verdict. */
module KnowledgeGap {
  import opened Base
  import opened KnowledgeFence

  datatype Retrieval = Absent | NoRelevantEvidence | NotApplicable | Answered

  /** What the draft path says about why it could not answer. */
  datatype GapView = GapView(
    topic: Option<string>, topics: Option<seq<string>>, policyOutcome: Option<Retrieval>,
    productOutcome: Option<Retrieval>,
    policyDeclaresTopic: bool, productId: Option<string>, missingSubject: Option<string>, variantUnresolved: bool)

  datatype OpenedGap = OpenedGap(
    scope: Scope, topic: Option<string>, kind: string, inquiryId: Option<string>, productId: Option<string>,
    missingSubject: Option<string>, variantRequired: bool)

  /** The rule type an operating topic is filed under. */
  function OrgKind(topic: string): Option<string> {
    match topic
    case "SHIPPING" => Some("SHIPPING_POLICY")
    case "EXCHANGE_RETURN" => Some("EXCHANGE_REFUND_POLICY")
    case "CANCELLATION" => Some("CANCELLATION_POLICY")
    case "PAYMENT" => Some("PAYMENT_POLICY")
    case "TAX_INVOICE" => Some("TAX_INVOICE")
    case "CASH_RECEIPT" => Some("CASH_RECEIPT")
    case _ => None
  }

  predicate Given(o: Option<string>) { o.Some? && o.value != "" }

  function NamedTopics(g: GapView): seq<string> {
    if g.topics.Some? then g.topics.value else if Given(g.topic) then [g.topic.value] else []
  }

  /** The question's one operating topic, or the one the plan picked among those the question named. */
  function TopicOf(g: GapView, plannerTopic: Option<string>): Option<string> {
    if g.topic.Some? && OrgKind(g.topic.value).Some? then g.topic
    else if plannerTopic.Some? && OrgKind(plannerTopic.value).Some? && plannerTopic.value in NamedTopics(g) then
      plannerTopic
    else None
  }

  predicate RuleMissing(g: GapView) {
    g.policyOutcome == Some(Absent) || (g.policyOutcome == Some(NoRelevantEvidence) && !g.policyDeclaresTopic)
  }

  predicate ProductMissing(g: GapView) {
    g.productOutcome == Some(Absent) || g.productOutcome == Some(NoRelevantEvidence)
  }

  function CaptureGapOf(
    g: Option<GapView>, inquiryId: Option<string>, productId: Option<string>, plannerTopic: Option<string>
  ): Option<OpenedGap> {
    if g.None? then None
    else
      var v := g.value;
      var topic := TopicOf(v, plannerTopic);
      var product := if v.productId.Some? then v.productId else productId;
      if topic.Some? && RuleMissing(v) then
        Some(OpenedGap(Org, topic, OrgKind(topic.value).value, inquiryId, product, None, false))
      else if !Given(product) || !ProductMissing(v) then None
      else if topic.None? && |NamedTopics(v)| > 1 && !Given(v.missingSubject) then None
      else if topic.Some? then
        if !Given(v.missingSubject) then None
        else Some(OpenedGap(Product, topic, "POLICY", inquiryId, product, v.missingSubject, false))
      else Some(OpenedGap(Product, None, "DESCRIPTION", inquiryId, product, v.missingSubject, v.variantUnresolved))
  }

  /** What a capture can be saved as: a rule of a known type, or a fact of a bound product. */
  predicate Bound(g: OpenedGap) {
    match g.scope
    case Org => g.topic.Some? && OrgKind(g.topic.value) == Some(g.kind) && !g.variantRequired
    case Product =>
      && Given(g.productId) && (g.kind == "POLICY" || g.kind == "DESCRIPTION")
      && (g.variantRequired ==> g.kind == "DESCRIPTION")
  }

  /** The product a question is about: the draft path's own, otherwise the one in hand. */
  predicate ProductInHand(product: Option<string>, g: GapView, productId: Option<string>) {
    product == match g.productId { case Some(own) => Some(own) case None => productId }
  }

  /** The one topic: the question's own where it is an operating topic, else the plan's, if the question names it. */
  predicate TheOneTopic(topic: Option<string>, g: GapView, plannerTopic: Option<string>) {
    if g.topic.Some? && OrgKind(g.topic.value).Some? then topic == g.topic
    else
      var named := if g.topics.Some? then g.topics.value else if Given(g.topic) then [g.topic.value] else [];
      if plannerTopic.Some? && OrgKind(plannerTopic.value).Some? && plannerTopic.value in named then
        topic == plannerTopic
      else topic.None?
  }

  /** No rule stands on the topic at all. */
  predicate RuleGone(g: GapView) {
    g.policyOutcome == Some(Absent) || (g.policyOutcome == Some(NoRelevantEvidence) && !g.policyDeclaresTopic)
  }

  /** What one fact about a product can close. */
  predicate OneFactGone(g: GapView, productId: Option<string>, topic: Option<string>) {
    && (g.productOutcome == Some(Absent) || g.productOutcome == Some(NoRelevantEvidence))
    && (if g.productId.Some? then g.productId.value != "" else productId.Some? && productId.value != "")
    && (Given(g.missingSubject)
        || (topic.None? && if g.topics.Some? then |g.topics.value| <= 1 else true))
  }

  /** What is asked for: whose, about what, of which type, and whether a variant has to be named. */
  predicate AskedFor(asked: OpenedGap, g: GapView, inquiryId: Option<string>, productId: Option<string>,
    topic: Option<string>)
  {
    && Bound(asked) && asked.inquiryId == inquiryId && asked.topic == topic
    && ProductInHand(asked.productId, g, productId)
    && asked.missingSubject == (if asked.scope == Org then None else g.missingSubject)
    && (asked.variantRequired <==> asked.scope == Product && topic.None? && g.variantUnresolved)
    && (asked.scope == Product ==> asked.kind == if topic.Some? then "POLICY" else "DESCRIPTION")
  }

  lemma AskedWhen(g: GapView, inquiryId: Option<string>, productId: Option<string>, plannerTopic: Option<string>)
    ensures var asked := CaptureGapOf(Some(g), inquiryId, productId, plannerTopic);
      var topic := TopicOf(g, plannerTopic);
      && (asked.Some? && asked.value.scope == Org <==> topic.Some? && RuleGone(g))
      && (asked.Some? && asked.value.scope == Product <==>
           !(topic.Some? && RuleGone(g)) && OneFactGone(g, productId, topic))
  {
    hide OrgKind;
  }

  lemma AskedWhat(g: GapView, inquiryId: Option<string>, productId: Option<string>, plannerTopic: Option<string>)
    ensures var asked := CaptureGapOf(Some(g), inquiryId, productId, plannerTopic);
      asked.Some? ==> AskedFor(asked.value, g, inquiryId, productId, TopicOf(g, plannerTopic))
  {
    hide OrgKind;
  }

  lemma AskedOn(g: GapView, plannerTopic: Option<string>)
    ensures TheOneTopic(TopicOf(g, plannerTopic), g, plannerTopic)
  {
    hide OrgKind;
  }

  /**
   * A gap is asked about exactly when one fact can close it: the one operating topic's rule is missing; or a
   * product is bound, its own lane is missing, and what is missing about it is clear. A rule that exists and
   * does not apply is never asked for again.
   */
  lemma WhatIsAsked(g: GapView, inquiryId: Option<string>, productId: Option<string>, plannerTopic: Option<string>)
    ensures var asked := CaptureGapOf(Some(g), inquiryId, productId, plannerTopic);
      var topic := TopicOf(g, plannerTopic);
      && TheOneTopic(topic, g, plannerTopic)
      && (asked.Some? ==> AskedFor(asked.value, g, inquiryId, productId, topic))
      && (asked.Some? && asked.value.scope == Org <==> topic.Some? && RuleGone(g))
      && (asked.Some? && asked.value.scope == Product <==>
           !(topic.Some? && RuleGone(g)) && OneFactGone(g, productId, topic))
      && (g.policyOutcome == Some(NotApplicable) && asked.Some? ==> asked.value.scope == Product)
  {
    hide CaptureGapOf, TopicOf, TheOneTopic, AskedFor, OneFactGone;
    AskedWhen(g, inquiryId, productId, plannerTopic);
    AskedWhat(g, inquiryId, productId, plannerTopic);
    AskedOn(g, plannerTopic);
  }
}
