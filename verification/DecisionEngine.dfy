/** The ordered decision table (apps/agents/customer_resolution/decision_engine.py). */
module DecisionEngine {
  import opened Common
  import opened CaseModels

  const CONFIDENCE_THRESHOLD: real := 0.6

  datatype Outcome =
    | DirectResponse | ApproveRefund | DenyRefund
    | OfferPartialCredit | RequestMoreInformation | EscalateHuman

  datatype Reason =
    | AnalysisTimeout | MissingAnalysis | PeerFailure | PeerRequestedReview
    | LowConfidence | ConflictingAnalyses | ElevatedRisk

  datatype Verdict = Verdict(outcome: Outcome, reason: Option<Reason>)

  function Smallest(scores: seq<real>): real
    requires scores != []
  {
    if |scores| == 1 then scores[0] else MinReal(scores[0], Smallest(scores[1..]))
  }

  function ComputeConfidence(triage: Option<Triage>, billing: Option<BillingFinding>,
      risk: Option<RiskFinding>): (r: real)
    ensures 0.0 <= r <= 1.0
  {
    var fromTriage := if triage.Some? then [triage.value.confidence] else [];
    var fromBilling :=
      if billing.Some? && billing.value.confidence.Some? then [billing.value.confidence.value] else [];
    var fromRisk := if risk.Some? && risk.value.score.Some? then [1.0 - risk.value.score.value] else [];
    var scores := fromTriage + fromBilling + fromRisk;
    if scores == [] then 0.0 else MaxReal(0.0, MinReal(1.0, Smallest(scores)))
  }

  /** First matching row wins. */
  function Decide(triage: Triage, billing: Option<BillingFinding>, risk: Option<RiskFinding>,
                  timeout: Option<TimeoutStatus>): Verdict
  {
    if !triage.needsRefundReview then
      Verdict(DirectResponse, None)
    else if timeout.Some? && timeout.value.AnyMissing() then
      Verdict(EscalateHuman, Some(if timeout.value.deadlineExceeded then AnalysisTimeout else MissingAnalysis))
    else if billing.None? || risk.None? then
      Verdict(EscalateHuman, Some(MissingAnalysis))
    else
      var b, r := billing.value, risk.value;
      if b.Failed() || r.Failed() then
        Verdict(EscalateHuman, Some(PeerFailure))
      else if b.requiresHumanReview || r.requiresHumanReview then
        Verdict(EscalateHuman, Some(PeerRequestedReview))
      else if ComputeConfidence(Some(triage), billing, risk) < CONFIDENCE_THRESHOLD then
        Verdict(EscalateHuman, Some(LowConfidence))
      else if b.eligibility == Eligible && r.level == Low then
        Verdict(ApproveRefund, None)
      else if b.eligibility == Ineligible && r.level in {Elevated, High} then
        Verdict(DenyRefund, None)
      else if b.eligibility == Partial && r.level in {Low, Elevated} then
        Verdict(OfferPartialCredit, None)
      else if b.eligibility == Indeterminate then
        Verdict(RequestMoreInformation, None)
      else
        Verdict(EscalateHuman, Some(ConflictingAnalyses))
  }

  /** Every source of evidence that carries a confidence vouches for the case. */
  ghost predicate Confident(triage: Triage, b: BillingFinding, r: RiskFinding) {
    && triage.confidence >= 0.6
    && (b.confidence.Some? ==> b.confidence.value >= 0.6)
    && (r.score.Some? ==> r.score.value <= 0.4)
  }

  lemma {:induction false} SmallestReaches(scores: seq<real>, bar: real)
    requires scores != []
    ensures Smallest(scores) >= bar <==> forall i :: 0 <= i < |scores| ==> scores[i] >= bar
  {
    if |scores| > 1 {
      SmallestReaches(scores[1..], bar);
      assert forall i :: 1 <= i < |scores| ==> scores[i] == scores[1..][i - 1];
    }
  }

  lemma ConfidenceIsWeakestLink(triage: Triage, b: BillingFinding, r: RiskFinding)
    ensures ComputeConfidence(Some(triage), Some(b), Some(r)) >= CONFIDENCE_THRESHOLD <==> Confident(triage, b, r)
  {
    var bs := if b.confidence.Some? then [b.confidence.value] else [];
    var rs := if r.score.Some? then [1.0 - r.score.value] else [];
    var scores := [triage.confidence] + bs + rs;
    SmallestReaches(scores, CONFIDENCE_THRESHOLD);
    assert scores[0] == triage.confidence;
    assert b.confidence.Some? ==> scores[1] == b.confidence.value;
    assert r.score.Some? ==> scores[|scores| - 1] == 1.0 - r.score.value;
  }

  /** The evidence is complete and nobody asked for a person. */
  ghost predicate Sound(triage: Triage, billing: Option<BillingFinding>, risk: Option<RiskFinding>,
                        timeout: Option<TimeoutStatus>)
  {
    && triage.needsRefundReview
    && !(timeout.Some? && timeout.value.AnyMissing())
    && billing.Some? && risk.Some?
    && !billing.value.requiresHumanReview && !risk.value.requiresHumanReview
    && Confident(triage, billing.value, risk.value)
  }

  /** What each outcome means, both ways: the rows of the table without their order. */
  lemma OutcomesExactly(triage: Triage, billing: Option<BillingFinding>, risk: Option<RiskFinding>,
                        timeout: Option<TimeoutStatus>)
    ensures var v := Decide(triage, billing, risk, timeout);
      && (v.outcome == DirectResponse <==> !triage.needsRefundReview)
      && (v.outcome == ApproveRefund <==>
          Sound(triage, billing, risk, timeout) && billing.value.eligibility == Eligible && risk.value.level == Low)
      && (v.outcome == DenyRefund <==>
          Sound(triage, billing, risk, timeout) && billing.value.eligibility == Ineligible && risk.value.level != Low)
      && (v.outcome == OfferPartialCredit <==>
          Sound(triage, billing, risk, timeout) && billing.value.eligibility == Partial && risk.value.level != High)
      && (v.outcome == RequestMoreInformation <==>
          Sound(triage, billing, risk, timeout) && billing.value.eligibility == Indeterminate)
      && (v.reason.Some? <==> v.outcome == EscalateHuman)
  {
    if billing.Some? && risk.Some? {
      ConfidenceIsWeakestLink(triage, billing.value, risk.value);
    }
  }

  /** Why a refund ticket is escalated, both ways. In particular the documented reason
      "peer_failure" never comes out of the table: a failed slot surfaces as a missing analysis. */
  lemma EscalationReasonsExactly(triage: Triage, billing: Option<BillingFinding>, risk: Option<RiskFinding>,
                                 timeout: Option<TimeoutStatus>)
    requires triage.needsRefundReview
    ensures var v := Decide(triage, billing, risk, timeout);
      var missing := timeout.Some? && timeout.value.AnyMissing();
      && (v.reason == Some(AnalysisTimeout) <==> missing && timeout.value.deadlineExceeded)
      && (v.reason == Some(MissingAnalysis) <==>
          (missing && !timeout.value.deadlineExceeded) || (!missing && (billing.None? || risk.None?)))
      && (v.reason == Some(PeerRequestedReview) <==>
          !missing && billing.Some? && risk.Some?
          && (billing.value.requiresHumanReview || risk.value.requiresHumanReview))
      && (v.reason == Some(LowConfidence) <==>
          !missing && billing.Some? && risk.Some?
          && !billing.value.requiresHumanReview && !risk.value.requiresHumanReview
          && !Confident(triage, billing.value, risk.value))
      && (v.reason == Some(ConflictingAnalyses) <==>
          Sound(triage, billing, risk, timeout)
          && ((billing.value.eligibility == Eligible && risk.value.level != Low)
              || (billing.value.eligibility == Ineligible && risk.value.level == Low)
              || (billing.value.eligibility == Partial && risk.value.level == High)))
      && v.reason != Some(PeerFailure) && v.reason != Some(ElevatedRisk)
  {
    if billing.Some? && risk.Some? {
      ConfidenceIsWeakestLink(triage, billing.value, risk.value);
    }
  }
}
