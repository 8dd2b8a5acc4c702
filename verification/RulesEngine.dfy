/** The billing agent's refund-eligibility rules (apps/agents/billing_entitlement/rules_engine.py and
    entitlement_checker.py). Times are microseconds, money is whole cents. */
module RulesEngine {
  import opened Common
  import opened PeerVocabulary
  import opened CaseModels

  const REFUND_WINDOW_DAYS: int := 30
  const USAGE_HEAVY_THRESHOLD: real := 0.8
  const MICROSECONDS_PER_DAY: int := 86_400_000_000
  const BORDERLINE: real := 0.000000001

  datatype SubscriptionStatus = Active | Cancelled | Lapsed
  datatype Subscription = Subscription(status: SubscriptionStatus)
  datatype Invoice = Invoice(issuedAt: int, paid: bool)
  datatype Payment = Payment(captured: bool, amount: int, reversedAmount: int)
  datatype EntitlementStatus = ActiveEntitlement | Revoked
  datatype Entitlement = Entitlement(
    status: EntitlementStatus, delivered: bool,
    accessGranted: bool, accessUsed: bool, featureEnabled: bool, accountActive: bool)
  datatype ProductUsage = ProductUsage(usageUnits: real, allotmentUnits: real)

  datatype BillingFacts = BillingFacts(
    subscription: Option<Subscription>, invoice: Option<Invoice>, payment: Option<Payment>,
    entitlement: Option<Entitlement>, usage: Option<ProductUsage>)

  datatype EligibilityRecommendation = EligibilityRecommendation(
    recommendation: BillingWord, confidence: real, requiresHumanReview: bool,
    eligibleRefundAmount: int, usageLevel: UsageLevel)

  datatype EntitlementCheck = EntitlementCheck(
    granted: bool, used: bool, featureEnabled: bool, hasAccess: bool, mismatch: bool)

  function CheckEntitlement(facts: BillingFacts): EntitlementCheck {
    match facts.entitlement
    case None => EntitlementCheck(false, false, false, false, false)
    case Some(e) =>
      var usedUngranted := !e.accessGranted && e.accessUsed;
      var activeCancelled := e.accountActive && facts.subscription.Some?
        && facts.subscription.value.status == Cancelled;
      var revokedEnabled := e.status == Revoked && e.featureEnabled;
      EntitlementCheck(e.accessGranted, e.accessUsed, e.featureEnabled, e.accountActive,
                       usedUngranted || activeCancelled || revokedEnabled)
  }

  function UsageRatio(usage: Option<ProductUsage>): real {
    if usage.Some? && usage.value.allotmentUnits > 0.0 then usage.value.usageUnits / usage.value.allotmentUnits else 0.0
  }

  function UsageLevelOf(ratio: real): UsageLevel {
    if ratio > USAGE_HEAVY_THRESHOLD then HeavyUsage else if ratio >= 0.5 then ModerateUsage else LightUsage
  }

  function AbsReal(x: real): real { if x < 0.0 then -x else x }

  /** timedelta.days rounds down, and so does division by a positive number here. */
  function DaysSince(issuedAt: int, now: int): int { (now - issuedAt) / MICROSECONDS_PER_DAY }

  function Evaluate(facts: BillingFacts, now: int): EligibilityRecommendation {
    if facts.invoice.None? || facts.payment.None? then
      EligibilityRecommendation(RequestMoreInformationWord, 0.2, true, 0, UnknownUsage)
    else
      var invoice, payment := facts.invoice.value, facts.payment.value;
      var days := DaysSince(invoice.issuedAt, now);
      var withinWindow := days <= REFUND_WINDOW_DAYS;
      var borderlineWindow := days == REFUND_WINDOW_DAYS;
      var ratio := UsageRatio(facts.usage);
      var level := UsageLevelOf(ratio);
      var borderlineUsage := facts.usage.Some? && AbsReal(ratio - USAGE_HEAVY_THRESHOLD) < BORDERLINE;
      var partlyReversed := payment.reversedAmount > 0 && invoice.paid && payment.reversedAmount < payment.amount;
      var mismatched := facts.entitlement.Some? && CheckEntitlement(facts).mismatch;
      if partlyReversed || mismatched then
        EligibilityRecommendation(ManualReview, 0.3, true, 0, level)
      else if !withinWindow then
        EligibilityRecommendation(DenyRefundWord, 0.9, false, 0, level)
      else if !invoice.paid then
        EligibilityRecommendation(DenyRefundWord, 0.9, false, 0, level)
      else if !payment.captured then
        EligibilityRecommendation(DenyRefundWord, 0.9, false, 0, level)
      else if payment.reversedAmount >= payment.amount && payment.amount > 0 then
        EligibilityRecommendation(DenyRefundWord, 0.9, false, 0, level)
      else if ratio > USAGE_HEAVY_THRESHOLD then
        EligibilityRecommendation(DenyRefundWord, if borderlineUsage then 0.6 else 0.9, false, 0, HeavyUsage)
      else
        var delivered := if facts.entitlement.Some? then facts.entitlement.value.delivered else false;
        if !delivered then
          EligibilityRecommendation(ApproveFullRefund, if borderlineWindow || borderlineUsage then 0.6 else 0.9, false,
                                    payment.amount - payment.reversedAmount, level)
        else
          EligibilityRecommendation(ManualReview, 0.2, true, 0, level)
  }

  /** service.analyze: no billing record at all asks for more information. */
  function Analyze(facts: Option<BillingFacts>, now: int): EligibilityRecommendation {
    match facts
    case None => EligibilityRecommendation(RequestMoreInformationWord, 0.2, true, 0, UnknownUsage)
    case Some(f) => Evaluate(f, now)
  }

  /** The wire payload: binding fields are the recommendation's own. */
  function BillingPayloadOf(r: EligibilityRecommendation): BillingPayload {
    BillingPayload(r.recommendation, r.confidence, r.requiresHumanReview, r.usageLevel)
  }

  // ---------------------------------------------------------------- what the rules mean

  ghost predicate Complete(f: BillingFacts) { f.invoice.Some? && f.payment.Some? }

  ghost predicate Mismatched(f: BillingFacts) {
    && f.entitlement.Some?
    && var e := f.entitlement.value;
    || (e.accessUsed && !e.accessGranted)
    || (e.accountActive && f.subscription == Some(Subscription(Cancelled)))
    || (e.featureEnabled && e.status == Revoked)
  }

  ghost predicate Contradictory(f: BillingFacts)
    requires Complete(f)
  {
    var p := f.payment.value;
    (f.invoice.value.paid && 0 < p.reversedAmount < p.amount) || Mismatched(f)
  }

  ghost predicate Heavy(f: BillingFacts) {
    && f.usage.Some? && f.usage.value.allotmentUnits > 0.0
    && f.usage.value.usageUnits / f.usage.value.allotmentUnits > USAGE_HEAVY_THRESHOLD
  }

  /** RP-001 and RP-002. */
  ghost predicate HardDenied(f: BillingFacts, now: int)
    requires Complete(f)
  {
    var i, p := f.invoice.value, f.payment.value;
    || now - i.issuedAt >= (REFUND_WINDOW_DAYS + 1) * MICROSECONDS_PER_DAY
    || !i.paid || !p.captured
    || (0 < p.amount <= p.reversedAmount)
  }

  ghost predicate Delivered(f: BillingFacts) { f.entitlement.Some? && f.entitlement.value.delivered }

  lemma WindowInMicroseconds(issuedAt: int, now: int)
    ensures DaysSince(issuedAt, now) <= REFUND_WINDOW_DAYS <==>
              now - issuedAt < (REFUND_WINDOW_DAYS + 1) * MICROSECONDS_PER_DAY
  {
  }

  /** The finding that reaches the decision engine, for all facts. A denial under heavy usage becomes
      a partial finding whichever rule denied it, an expired window included. */
  lemma FindingExactly(facts: Option<BillingFacts>, now: int)
    ensures var r := Analyze(facts, now);
      var finding := BillingFindingOf(BillingPayloadOf(r));
      var decidable := facts.Some? && Complete(facts.value) && !Contradictory(facts.value);
      && (finding.eligibility == Eligible <==>
            decidable && !HardDenied(facts.value, now) && !Heavy(facts.value) && !Delivered(facts.value))
      && (finding.eligibility == Partial <==> decidable && Heavy(facts.value))
      && (finding.eligibility == Ineligible <==>
            decidable && HardDenied(facts.value, now) && !Heavy(facts.value))
      && (finding.requiresHumanReview <==> finding.eligibility == Indeterminate)
      && finding.confidence == Some(r.confidence)
      && (!finding.requiresHumanReview ==> r.confidence == 0.6 || r.confidence == 0.9)
  {
    if facts.Some? && Complete(facts.value) {
      WindowInMicroseconds(facts.value.invoice.value.issuedAt, now);
    }
  }

  /** An unreversed, captured payment of a paid, undelivered invoice without contradictions is approved exactly
      within the first thirty-one days and up to four fifths of the usage; with less confidence on the last
      of those days, or within a billionth of four fifths. */
  lemma BoundariesExactly(facts: BillingFacts, now: int)
    requires Complete(facts) && !Contradictory(facts) && !Delivered(facts)
    requires facts.invoice.value.paid && facts.payment.value.captured && facts.payment.value.reversedAmount == 0
    ensures var r, age := Evaluate(facts, now), now - facts.invoice.value.issuedAt;
      var ratio := UsageRatio(facts.usage);
      && (r.recommendation == ApproveFullRefund <==> age < 2_678_400_000_000 && ratio <= 0.8)
      && (r.recommendation != ApproveFullRefund ==> r.recommendation == DenyRefundWord)
      && (r.recommendation == ApproveFullRefund ==>
            (r.confidence == 0.6 <==>
               2_592_000_000_000 <= age || (facts.usage.Some? && -0.000000001 < ratio - 0.8 < 0.000000001)))
  {
    DaysInMicroseconds(facts.invoice.value.issuedAt, now);
  }

  lemma DaysInMicroseconds(issuedAt: int, now: int)
    ensures DaysSince(issuedAt, now) <= 30 <==> now - issuedAt < 2_678_400_000_000
    ensures DaysSince(issuedAt, now) == 30 <==> 2_592_000_000_000 <= now - issuedAt < 2_678_400_000_000
  {
  }

  /** Only an approval carries an amount, and it is what has not been reversed. A positive payment with
      no negative reversal is refunded in full; the recorded reversal of a payment of zero slips past
      both reversal checks, and then the amount is not the payment. */
  lemma ApprovedAmountExactly(facts: BillingFacts, now: int)
    ensures var r := Evaluate(facts, now);
      && (r.recommendation != ApproveFullRefund ==> r.eligibleRefundAmount == 0)
      && (r.recommendation == ApproveFullRefund ==>
            && facts.payment.Some?
            && var p := facts.payment.value;
            && (r.eligibleRefundAmount == p.amount <==> p.reversedAmount == 0)
            && (p.amount > 0 && p.reversedAmount >= 0 ==> p.reversedAmount == 0 && r.eligibleRefundAmount == p.amount)
            && (p.reversedAmount > 0 ==> p.amount <= 0 && r.eligibleRefundAmount < 0))
  {
  }

  /** Such a payment: nothing was paid, one cent is recorded as reversed, and the refund is approved
      for minus one cent. */
  lemma ZeroPaymentReversed() returns (facts: BillingFacts)
    ensures var r := Evaluate(facts, 0); r.recommendation == ApproveFullRefund && r.eligibleRefundAmount == -1
  {
    facts := BillingFacts(None, Some(Invoice(0, true)), Some(Payment(true, 0, 1)), None, None);
  }
}
