/** From the two agents' facts to the published decision. */
module Approval {
  import opened Common
  import opened CaseModels
  import opened DecisionEngine
  import opened PeerVocabulary
  import opened Protocol
  import RulesEngine
  import Scoring
  import opened Confluence

  function BillingAgent(facts: Option<RulesEngine.BillingFacts>, now: int): BillingPayload {
    RulesEngine.BillingPayloadOf(RulesEngine.Analyze(facts, now))
  }

  function RiskAgent(signals: Option<Scoring.RiskSignals>, requested: Option<real>): RiskPayload {
    Scoring.RiskPayloadOf(Scoring.AssessCustomer(signals, requested))
  }

  /** Every billing gate is passed. */
  ghost predicate BillingClears(facts: Option<RulesEngine.BillingFacts>, now: int) {
    && facts.Some? && RulesEngine.Complete(facts.value) && !RulesEngine.Contradictory(facts.value)
    && !RulesEngine.HardDenied(facts.value, now) && !RulesEngine.Heavy(facts.value)
        && !RulesEngine.Delivered(facts.value)
  }

  /** The customer is on no list, in no special segment, consistent, and scores low. */
  ghost predicate RiskClears(signals: Option<Scoring.RiskSignals>, requested: Option<real>) {
    && signals.Some? && signals.value.onBlocklist != Some(true)
    && !Scoring.IsVip(signals.value) && !Scoring.IsContradiction(signals.value)
    && Scoring.CappedScore(signals.value, requested) < Scoring.ELEVATED_THRESHOLD
  }

  ghost predicate Approvable(triage: Triage, facts: Option<RulesEngine.BillingFacts>, now: int,
                             signals: Option<Scoring.RiskSignals>, requested: Option<real>)
  {
    triage.confidence >= 0.6 && BillingClears(facts, now) && RiskClears(signals, requested)
  }

  lemma VerdictApprovesExactly(triage: Triage, facts: Option<RulesEngine.BillingFacts>, now: int,
                               signals: Option<Scoring.RiskSignals>, requested: Option<real>)
    requires triage.needsRefundReview
    ensures var b, k := BillingFindingOf(BillingAgent(facts, now)), RiskFindingOf(RiskAgent(signals, requested));
      && (BillingThenRisk(triage, b, k).outcome == ApproveRefund
          <==> Approvable(triage, facts, now, signals, requested))
      && (RiskThenBilling(triage, b, k).outcome == ApproveRefund
          <==> Approvable(triage, facts, now, signals, requested))
  {
    var b, k := BillingFindingOf(BillingAgent(facts, now)), RiskFindingOf(RiskAgent(signals, requested));
    RulesEngine.FindingExactly(facts, now);
    Scoring.ClearedExactly(signals, requested);
    OutcomesExactly(triage, Some(b), Some(k), None);
  }

  /** A fresh delegation, each agent's result delivered once, in either order, ends in an approval
      exactly when triage is confident, every billing gate is passed and risk is clear. */
  lemma ApprovedExactly(s: Sys, pid: Pid, c: Uuid, facts: Option<RulesEngine.BillingFacts>, now: int,
                        signals: Option<Scoring.RiskSignals>, requested: Option<real>)
    requires Fresh(s, pid, c)
    ensures var b, k := BillingAgent(facts, now), RiskAgent(signals, requested);
      var approvable := Approvable(TriageOf(s.store.cases[c]), facts, now, signals, requested);
      var billingFirst := HandleRisk(HandleBilling(s, pid, c, b), pid, c, k).log;
      var riskFirst := HandleBilling(HandleRisk(s, pid, c, k), pid, c, b).log;
      && |billingFirst| == |riskFirst| == |s.log| + 1
      && (billingFirst[|s.log|].outcome == ApproveRefund <==> approvable)
      && (riskFirst[|s.log|].outcome == ApproveRefund <==> approvable)
  {
    var b, k := BillingAgent(facts, now), RiskAgent(signals, requested);
    VerdictApprovesExactly(TriageOf(s.store.cases[c]), facts, now, signals, requested);
    BillingThenRiskDecides(s, pid, c, b, k);
    RiskThenBillingDecides(s, pid, c, b, k);
  }

  /** An approved refund of a positive payment, never negatively reversed, is the whole payment. */
  lemma ApprovedInFull(triage: Triage, facts: RulesEngine.BillingFacts, now: int,
                       signals: Option<Scoring.RiskSignals>, requested: Option<real>)
    requires Approvable(triage, Some(facts), now, signals, requested)
    requires facts.payment.value.amount > 0 && facts.payment.value.reversedAmount >= 0
    ensures RulesEngine.Evaluate(facts, now).eligibleRefundAmount == facts.payment.value.amount
  {
    RulesEngine.FindingExactly(Some(facts), now);
    RulesEngine.ApprovedAmountExactly(facts, now);
  }
}
