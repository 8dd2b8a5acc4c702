/** How the handlers read a peer's domain payload (the pure parts of
    apps/agents/customer_resolution/event_handlers.py). Words stand for lower-cased text. */
module PeerVocabulary {
  import opened Common
  import opened CaseModels

  const ELEVATED_RISK_THRESHOLD: real := 0.5
  const HIGH_RISK_THRESHOLD: real := 0.8

  datatype BillingWord =
    | ApproveFullRefund | Approve | EligibleWord | Refund
    | ApprovePartialRefund | PartialRefund
    | DenyRefundWord | Deny | IneligibleWord | Reject
    | RequestMoreInformationWord | ManualReview
    | OtherBillingWord

  datatype UsageLevel = HeavyUsage | ModerateUsage | LightUsage | UnknownUsage

  datatype BillingPayload = BillingPayload(
    recommendation: BillingWord, confidence: real, requiresHumanReview: bool, usageLevel: UsageLevel)

  function EligibilityOf(word: BillingWord): Eligibility {
    match word
    case ApproveFullRefund | Approve | EligibleWord | Refund => Eligible
    case ApprovePartialRefund => Partial
    case DenyRefundWord | Deny | IneligibleWord | Reject => Ineligible
    case RequestMoreInformationWord | ManualReview => Indeterminate
    case PartialRefund => Partial
    case OtherBillingWord => Indeterminate
  }

  /** A denial for heavy usage is a partial-credit candidate. */
  function BillingFindingOf(p: BillingPayload): BillingFinding {
    var plain := EligibilityOf(p.recommendation);
    var eligibility := if plain == Ineligible && p.usageLevel == HeavyUsage then Partial else plain;
    BillingFinding(eligibility, p.requiresHumanReview, Some(p.confidence))
  }

  datatype RiskWord =
    | LowWord | ApproveRisk | Acceptable | ElevatedWord | HighWord | DenyRisk | Block | OtherRiskWord

  datatype RiskPayload = RiskPayload(recommendation: RiskWord, confidence: real, requiresHumanReview: bool)

  function LevelFromScore(score: real, elevated: real, high: real): Level {
    if score >= high then High else if score >= elevated then Elevated else Low
  }

  function LevelOf(p: RiskPayload): Level {
    match p.recommendation
    case LowWord | ApproveRisk | Acceptable => Low
    case ElevatedWord => Elevated
    case HighWord | DenyRisk | Block => High
    case OtherRiskWord => LevelFromScore(p.confidence, ELEVATED_RISK_THRESHOLD, HIGH_RISK_THRESHOLD)
  }

  /** The decision engine reads a risk score as uncertainty: certainty is one minus the score. */
  function UncertaintyFromConfidence(confidence: real): real {
    MaxReal(0.0, MinReal(1.0, 1.0 - confidence))
  }

  function RiskFindingOf(p: RiskPayload): RiskFinding {
    RiskFinding(LevelOf(p), p.requiresHumanReview, Some(UncertaintyFromConfidence(p.confidence)))
  }

  predicate Adverse(f: RiskFinding) { f.level == Elevated || f.level == High || f.requiresHumanReview }

  predicate ForcesEscalation(r: CaseRec, f: RiskFinding) {
    && Adverse(f)
    && !(r.billing.Some? && r.billing.value.eligibility == Ineligible)
    && !IsSettled(r.status)
  }

  // ---------------------------------------------------------------- what the words mean

  /** What each eligibility stands for, both ways. */
  lemma EligibilityExactly(p: BillingPayload)
    ensures var e, w, heavy := BillingFindingOf(p).eligibility, p.recommendation, p.usageLevel == HeavyUsage;
      && (e == Eligible <==> w in {ApproveFullRefund, Approve, EligibleWord, Refund})
      && (e == Ineligible <==> w in {DenyRefundWord, Deny, IneligibleWord, Reject} && !heavy)
      && (e == Partial <==>
            w in {ApprovePartialRefund, PartialRefund}
            || (w in {DenyRefundWord, Deny, IneligibleWord, Reject} && heavy))
  {
  }

  /** What each level stands for, both ways; an unknown word is read as a score. */
  lemma LevelExactly(p: RiskPayload)
    ensures var f, w := RiskFindingOf(p), p.recommendation;
      && (f.level == High <==> w in {HighWord, DenyRisk, Block} || (w == OtherRiskWord && p.confidence >= 0.8))
      && (f.level == Elevated <==> w == ElevatedWord || (w == OtherRiskWord && 0.5 <= p.confidence < 0.8))
      && (0.0 <= p.confidence <= 1.0 ==> f.score == Some(1.0 - p.confidence))
  {
  }
}
