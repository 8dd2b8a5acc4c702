/** The risk agent's scoring (apps/agents/risk_fraud/scoring.py). Scores are whole tenths: every
    contribution and threshold in the source is one. */
module Scoring {
  import opened Common
  import opened CaseModels
  import opened PeerVocabulary

  const ELEVATED_THRESHOLD: int := 5
  const HIGH_THRESHOLD: int := 8
  const FULL_SCORE: int := 10
  const CHARGEBACK_ELEVATED: int := 1
  const CHARGEBACK_HIGH: int := 2
  const VELOCITY_ELEVATED: int := 3
  const VELOCITY_HIGH: int := 5
  const ANOMALY_ELEVATED: real := 0.7
  const NEW_ACCOUNT_DAYS: int := 30
  const UNUSUAL_AMOUNT_RATIO: real := 3.0

  datatype Standing = Good | Watch | Restricted
  datatype Segment = Standard | Vip | Enterprise
  datatype AccountStanding = AccountStanding(status: Standing, tenureDays: int, segment: Segment)
  datatype RefundHistory = RefundHistory(chargebacks: int)
  datatype PaymentInstrument = PaymentInstrument(billingDetailsMatch: bool, cardTestingPattern: bool)
  datatype Behavior = Behavior(
    refundRequestsInWindow: int, anomalyScore: real, deviceMismatch: bool,
    ipLocationMismatch: bool, ipCountryMismatch: bool, typicalRefundAmount: Option<real>)

  datatype RiskSignals = RiskSignals(
    account: Option<AccountStanding>, history: Option<RefundHistory>, instrument: Option<PaymentInstrument>,
    behavior: Option<Behavior>, onBlocklist: Option<bool>)

  datatype Rule = FP002 | FP003 | FP004 | FP005 | FP006 | FP007 | FP008 | FP009

  datatype Fired = Fired(rule: Rule, contribution: int)

  datatype Action = ApproveRiskClearance | AllowWithCaution | DenyOrEscalate | AskForInformation | ReviewManually

  datatype RiskAssessment = RiskAssessment(level: Level, action: Action, confidence: real, requiresHumanReview: bool)

  // ---------------------------------------------------------------- the rules, one by one

  /** What each rule adds to the score for these signals: zero when it stays silent. */
  function ChargebackPoints(h: Option<RefundHistory>): nat {
    if h.None? then 0
    else if h.value.chargebacks >= CHARGEBACK_HIGH then 8
    else if h.value.chargebacks >= CHARGEBACK_ELEVATED then 5
    else 0
  }

  function VelocityPoints(b: Option<Behavior>): nat {
    if b.None? then 0
    else if b.value.refundRequestsInWindow >= VELOCITY_HIGH then 8
    else if b.value.refundRequestsInWindow >= VELOCITY_ELEVATED then 5
    else 0
  }

  function InstrumentPoints(i: Option<PaymentInstrument>): nat {
    if i.None? then 0
    else if i.value.cardTestingPattern then 6
    else if !i.value.billingDetailsMatch then 5
    else 0
  }

  function StandingPoints(a: Option<AccountStanding>): nat {
    if a.None? then 0
    else
      (match a.value.status case Restricted => 6 case Watch => 3 case Good => 0)
      + (if a.value.tenureDays < NEW_ACCOUNT_DAYS && a.value.status != Restricted then 3 else 0)
  }

  function AnomalyPoints(b: Option<Behavior>): nat {
    if b.Some? && b.value.anomalyScore >= ANOMALY_ELEVATED then 5 else 0
  }

  function DevicePoints(b: Option<Behavior>): nat {
    if b.Some? && b.value.deviceMismatch then 4 else 0
  }

  function LocationPoints(b: Option<Behavior>): nat {
    if b.Some? && (b.value.ipLocationMismatch || b.value.ipCountryMismatch) then 4 else 0
  }

  predicate IsUnusualAmount(b: Option<Behavior>, requested: Option<real>) {
    && b.Some? && b.value.typicalRefundAmount.Some? && b.value.typicalRefundAmount.value > 0.0
    && requested.Some?
    && requested.value >= b.value.typicalRefundAmount.value * UNUSUAL_AMOUNT_RATIO
  }

  function AmountPoints(b: Option<Behavior>, requested: Option<real>): nat {
    if IsUnusualAmount(b, requested) then 3 else 0
  }

  /** The sum of what the rules add, and the score it is capped to. */
  function Points(s: RiskSignals, requested: Option<real>): nat {
    ChargebackPoints(s.history) + VelocityPoints(s.behavior)
    + InstrumentPoints(s.instrument) + StandingPoints(s.account)
    + AnomalyPoints(s.behavior) + DevicePoints(s.behavior)
    + LocationPoints(s.behavior) + AmountPoints(s.behavior, requested)
  }

  function CappedScore(s: RiskSignals, requested: Option<real>): int {
    MinInt(Points(s, requested), FULL_SCORE)
  }

  // ---------------------------------------------------------------- the two scoring paths

  method AddRecordPoints(s: RiskSignals, start: int) returns (score: int)
    ensures score == start + ChargebackPoints(s.history) + VelocityPoints(s.behavior) + InstrumentPoints(s.instrument)
                     + StandingPoints(s.account)
  {
    score := start;
    if s.history.Some? {
      if s.history.value.chargebacks >= CHARGEBACK_HIGH {
        score := score + 8;
      } else if s.history.value.chargebacks >= CHARGEBACK_ELEVATED {
        score := score + 5;
      }
    }
    if s.behavior.Some? {
      if s.behavior.value.refundRequestsInWindow >= VELOCITY_HIGH {
        score := score + 8;
      } else if s.behavior.value.refundRequestsInWindow >= VELOCITY_ELEVATED {
        score := score + 5;
      }
    }
    if s.instrument.Some? {
      if s.instrument.value.cardTestingPattern {
        score := score + 6;
      } else if !s.instrument.value.billingDetailsMatch {
        score := score + 5;
      }
    }
    if s.account.Some? {
      if s.account.value.status == Restricted {
        score := score + 6;
      } else if s.account.value.status == Watch {
        score := score + 3;
      }
      if s.account.value.tenureDays < NEW_ACCOUNT_DAYS && s.account.value.status != Restricted {
        score := score + 3;
      }
    }
  }

  method AddBehaviorPoints(b: Option<Behavior>, requested: Option<real>, start: int) returns (score: int)
    ensures score == start + AnomalyPoints(b) + DevicePoints(b) + LocationPoints(b) + AmountPoints(b, requested)
  {
    score := start;
    if b.Some? && b.value.anomalyScore >= ANOMALY_ELEVATED {
      score := score + 5;
    }
    if b.Some? && b.value.deviceMismatch {
      score := score + 4;
    }
    if b.Some? && (b.value.ipLocationMismatch || b.value.ipCountryMismatch) {
      score := score + 4;
    }
    if IsUnusualAmount(b, requested) {
      score := score + 3;
    }
  }

  /** The evidence-free path, taken for context on a high-value account, adds up as it goes. */
  method ComputeScore(s: RiskSignals, requested: Option<real>) returns (score: int)
    ensures score == CappedScore(s, requested)
    ensures 0 <= score <= FULL_SCORE
  {
    score := AddRecordPoints(s, 0);
    score := AddBehaviorPoints(s.behavior, requested, score);
    score := MinInt(score, FULL_SCORE);
  }

  function Total(fired: seq<Fired>): int {
    if fired == [] then 0 else Total(fired[..|fired| - 1]) + fired[|fired| - 1].contribution
  }

  lemma TotalSnoc(fired: seq<Fired>, f: Fired)
    ensures Total(fired + [f]) == Total(fired) + f.contribution
  {
    assert (fired + [f])[..|fired|] == fired;
  }

  /** Rules worth `points` have been appended, one at least when there are any. */
  ghost predicate Extends(before: seq<Fired>, after: seq<Fired>, points: nat) {
    && Total(after) == Total(before) + points
    && (after == [] <==> before == [] && points == 0)
  }

  method FireChargebackRule(history: Option<RefundHistory>) returns (fired: seq<Fired>)
    ensures Extends([], fired, ChargebackPoints(history))
  {
    fired := [];
    if history.Some? {
      if history.value.chargebacks >= CHARGEBACK_HIGH {
        fired := Append(fired, FP002, 8);
      } else if history.value.chargebacks >= CHARGEBACK_ELEVATED {
        fired := Append(fired, FP002, 5);
      }
    }
  }

  method FireVelocityRule(b: Option<Behavior>, before: seq<Fired>) returns (fired: seq<Fired>)
    ensures Extends(before, fired, VelocityPoints(b))
  {
    fired := before;
    if b.Some? {
      if b.value.refundRequestsInWindow >= VELOCITY_HIGH {
        fired := Append(fired, FP003, 8);
      } else if b.value.refundRequestsInWindow >= VELOCITY_ELEVATED {
        fired := Append(fired, FP003, 5);
      }
    }
  }

  method FireInstrumentRule(instrument: Option<PaymentInstrument>, before: seq<Fired>) returns (fired: seq<Fired>)
    ensures Extends(before, fired, InstrumentPoints(instrument))
  {
    fired := before;
    if instrument.Some? {
      if instrument.value.cardTestingPattern {
        fired := Append(fired, FP004, 6);
      } else if !instrument.value.billingDetailsMatch {
        fired := Append(fired, FP004, 5);
      }
    }
  }

  /** Watch or restricted standing and a new account add up within one rule. */
  method FireStandingRule(account: Option<AccountStanding>, before: seq<Fired>) returns (fired: seq<Fired>)
    ensures Extends(before, fired, StandingPoints(account))
  {
    fired := before;
    if account.Some? {
      var contribution := 0;
      if account.value.status == Restricted {
        contribution := 6;
      } else if account.value.status == Watch {
        contribution := 3;
      }
      if account.value.tenureDays < NEW_ACCOUNT_DAYS && account.value.status != Restricted {
        contribution := contribution + 3;
      }
      if contribution > 0 {
        fired := Append(fired, FP005, contribution);
      }
    }
  }

  method FireAnomalyRule(b: Option<Behavior>, before: seq<Fired>) returns (fired: seq<Fired>)
    ensures Extends(before, fired, AnomalyPoints(b))
  {
    fired := before;
    if b.Some? && b.value.anomalyScore >= ANOMALY_ELEVATED {
      fired := Append(fired, FP006, 5);
    }
  }

  method FireMismatchRules(b: Option<Behavior>, before: seq<Fired>) returns (fired: seq<Fired>)
    ensures Extends(before, fired, DevicePoints(b) + LocationPoints(b))
  {
    fired := before;
    if b.Some? {
      if b.value.deviceMismatch {
        fired := Append(fired, FP007, 4);
      }
      if b.value.ipLocationMismatch || b.value.ipCountryMismatch {
        fired := Append(fired, FP008, 4);
      }
    }
  }

  method FireAmountRule(b: Option<Behavior>, requested: Option<real>, before: seq<Fired>) returns (fired: seq<Fired>)
    ensures Extends(before, fired, AmountPoints(b, requested))
  {
    fired := before;
    if IsUnusualAmount(b, requested) {
      fired := Append(fired, FP009, 3);
    }
  }

  method Append(fired: seq<Fired>, rule: Rule, contribution: nat) returns (after: seq<Fired>)
    requires contribution > 0
    ensures after == fired + [Fired(rule, contribution)]
    ensures Extends(fired, after, contribution)
  {
    after := fired + [Fired(rule, contribution)];
    TotalSnoc(fired, Fired(rule, contribution));
  }

  /** The rules that fire, in the order they are evaluated: their contributions add up to the points. */
  method FireRules(s: RiskSignals, requested: Option<real>) returns (fired: seq<Fired>)
    ensures Total(fired) == Points(s, requested)
    ensures fired == [] <==> Points(s, requested) == 0
  {
    fired := FireChargebackRule(s.history);
    fired := FireVelocityRule(s.behavior, fired);
    fired := FireInstrumentRule(s.instrument, fired);
    fired := FireStandingRule(s.account, fired);
    fired := FireAnomalyRule(s.behavior, fired);
    fired := FireMismatchRules(s.behavior, fired);
    fired := FireAmountRule(s.behavior, requested, fired);
  }

  method SumContributions(fired: seq<Fired>) returns (score: int)
    ensures score == Total(fired)
  {
    score := 0;
    for i := 0 to |fired|
      invariant score == Total(fired[..i])
    {
      assert fired[..i + 1][..i] == fired[..i];
      score := score + fired[i].contribution;
    }
    assert fired[..|fired|] == fired;
  }

  function ScoreToLevel(score: int): Level {
    if score >= HIGH_THRESHOLD then High else if score >= ELEVATED_THRESHOLD then Elevated else Low
  }

  predicate IsContradiction(s: RiskSignals) {
    var cleanLow := s.account.Some? && s.account.value.status == Good && s.account.value.tenureDays >= NEW_ACCOUNT_DAYS
                    && (s.history.None? || s.history.value.chargebacks == 0);
    var strongHigh := s.behavior.Some? && s.behavior.value.refundRequestsInWindow >= VELOCITY_HIGH
                      && s.instrument.Some? && !s.instrument.value.billingDetailsMatch;
    cleanLow && strongHigh
  }

  function DeriveAction(level: Level, hasChargeback: bool): Action {
    match level
    case High => DenyOrEscalate
    case Elevated => if hasChargeback then ReviewManually else AllowWithCaution
    case Low => ApproveRiskClearance
  }

  predicate IsVip(s: RiskSignals) { s.account.Some? && s.account.value.segment in {Vip, Enterprise} }

  /** What the assessment comes to, gate by gate. */
  function Assess(s: RiskSignals, requested: Option<real>): RiskAssessment {
    var score := CappedScore(s, requested);
    var level := ScoreToLevel(score);
    if s.onBlocklist == Some(true) then
      RiskAssessment(High, DenyOrEscalate, 0.95, false)
    else if IsVip(s) then
      RiskAssessment(level, ReviewManually, 0.7, true)
    else if IsContradiction(s) then
      RiskAssessment(Elevated, ReviewManually, 0.3, true)
    else
      var missingHistory := s.history.None? && (s.account.Some? || s.instrument.Some? || s.behavior.Some?);
      var borderline := score == ELEVATED_THRESHOLD || score == HIGH_THRESHOLD;
      var confidence := MinReal(if borderline then 0.6 else 0.9, if missingHistory then 0.6 else 0.9);
      var hasChargeback := s.history.Some? && s.history.value.chargebacks >= CHARGEBACK_ELEVATED;
      var review := hasChargeback && level == Elevated;
      RiskAssessment(level, if review then ReviewManually else DeriveAction(level, hasChargeback), confidence, review)
  }

  /** The scoring path as it is written: gates, a list of fired rules, a loop that sums them, and
      special endings for a silent list. */
  method AssessSignals(s: RiskSignals, requested: Option<real>) returns (r: RiskAssessment)
    ensures r == Assess(s, requested)
  {
    if s.onBlocklist == Some(true) {
      return RiskAssessment(High, DenyOrEscalate, 0.95, false);
    }
    if s.account.Some? && (s.account.value.segment == Vip || s.account.value.segment == Enterprise) {
      var baseScore := ComputeScore(s, requested);
      return RiskAssessment(ScoreToLevel(baseScore), ReviewManually, 0.7, true);
    }
    if IsContradiction(s) {
      return RiskAssessment(Elevated, ReviewManually, 0.3, true);
    }
    var missingHistory := s.history.None? && (s.account.Some? || s.instrument.Some? || s.behavior.Some?);
    var firedRules := FireRules(s, requested);
    var score := SumContributions(firedRules);
    score := MinInt(score, FULL_SCORE);
    var borderline := score == ELEVATED_THRESHOLD || score == HIGH_THRESHOLD;
    var level := ScoreToLevel(score);
    var confidence := if borderline then 0.6 else 0.9;
    if missingHistory {
      confidence := MinReal(confidence, 0.6);
    }
    var hasChargeback := s.history.Some? && s.history.value.chargebacks >= CHARGEBACK_ELEVATED;
    var action := DeriveAction(level, hasChargeback);
    if firedRules == [] && !missingHistory {
      return RiskAssessment(Low, ApproveRiskClearance, 0.9, false);
    }
    if score == 0 && firedRules == [] && missingHistory {
      return RiskAssessment(Low, ApproveRiskClearance, 0.6, false);
    }
    var review := hasChargeback && level == Elevated;
    if review {
      action := ReviewManually;
    }
    return RiskAssessment(level, action, confidence, review);
  }

  /** service.assess: no signal record at all is flagged for a person. */
  function AssessCustomer(s: Option<RiskSignals>, requested: Option<real>): RiskAssessment {
    match s
    case None => RiskAssessment(Low, AskForInformation, 0.2, true)
    case Some(signals) => Assess(signals, requested)
  }

  function WordOf(level: Level): RiskWord {
    match level
    case Low => LowWord
    case Elevated => ElevatedWord
    case High => HighWord
  }

  function RiskPayloadOf(a: RiskAssessment): RiskPayload {
    RiskPayload(WordOf(a.level), a.confidence, a.requiresHumanReview)
  }

  // ---------------------------------------------------------------- what the score means

  /** The second record looks at least as bad on every signal: a whole domain may also appear. */
  ghost predicate WorseHistory(a: RefundHistory, b: RefundHistory) { b.chargebacks >= a.chargebacks }

  ghost predicate WorseInstrument(a: PaymentInstrument, b: PaymentInstrument) {
    && (a.cardTestingPattern ==> b.cardTestingPattern)
    && (b.billingDetailsMatch ==> a.billingDetailsMatch)
  }

  ghost predicate WorseStanding(a: AccountStanding, b: AccountStanding) {
    && (a.status == Restricted ==> b.status == Restricted)
    && (a.status == Watch ==> b.status != Good)
    && b.tenureDays <= a.tenureDays
  }

  ghost predicate WorseBehavior(a: Behavior, b: Behavior) {
    && b.refundRequestsInWindow >= a.refundRequestsInWindow
    && b.anomalyScore >= a.anomalyScore
    && (a.deviceMismatch ==> b.deviceMismatch)
    && (a.ipLocationMismatch || a.ipCountryMismatch ==> b.ipLocationMismatch || b.ipCountryMismatch)
    && (a.typicalRefundAmount.Some? && a.typicalRefundAmount.value > 0.0 ==>
         b.typicalRefundAmount.Some? && 0.0 < b.typicalRefundAmount.value <= a.typicalRefundAmount.value)
  }

  ghost predicate Worse(s: RiskSignals, x: Option<real>, t: RiskSignals, y: Option<real>) {
    && (s.history.Some? ==> t.history.Some? && WorseHistory(s.history.value, t.history.value))
    && (s.instrument.Some? ==> t.instrument.Some? && WorseInstrument(s.instrument.value, t.instrument.value))
    && (s.account.Some? ==> t.account.Some? && WorseStanding(s.account.value, t.account.value))
    && (s.behavior.Some? ==> t.behavior.Some? && WorseBehavior(s.behavior.value, t.behavior.value))
    && (x.Some? ==> y.Some? && y.value >= x.value)
  }

  function Severity(level: Level): int { match level case Low => 0 case Elevated => 1 case High => 2 }

  lemma UnusualStaysUnusual(a: Behavior, x: real, b: Behavior, y: real)
    requires WorseBehavior(a, b) && y >= x && IsUnusualAmount(Some(a), Some(x))
    ensures IsUnusualAmount(Some(b), Some(y))
  {
  }

  lemma BehaviorPointsGrow(s: RiskSignals, x: Option<real>, t: RiskSignals, y: Option<real>)
    requires Worse(s, x, t, y)
    ensures VelocityPoints(s.behavior) <= VelocityPoints(t.behavior)
    ensures AnomalyPoints(s.behavior) <= AnomalyPoints(t.behavior)
    ensures DevicePoints(s.behavior) <= DevicePoints(t.behavior)
    ensures LocationPoints(s.behavior) <= LocationPoints(t.behavior)
    ensures AmountPoints(s.behavior, x) <= AmountPoints(t.behavior, y)
  {
    if IsUnusualAmount(s.behavior, x) {
      UnusualStaysUnusual(s.behavior.value, x.value, t.behavior.value, y.value);
    }
  }

  lemma RecordPointsGrow(s: RiskSignals, x: Option<real>, t: RiskSignals, y: Option<real>)
    requires Worse(s, x, t, y)
    ensures ChargebackPoints(s.history) <= ChargebackPoints(t.history)
    ensures InstrumentPoints(s.instrument) <= InstrumentPoints(t.instrument)
    ensures StandingPoints(s.account) <= StandingPoints(t.account)
  {
  }

  /** Score and level never drop when any signal gets worse. */
  lemma ScoreIsMonotone(s: RiskSignals, x: Option<real>, t: RiskSignals, y: Option<real>)
    requires Worse(s, x, t, y)
    ensures 0 <= CappedScore(s, x) <= CappedScore(t, y) <= FULL_SCORE
    ensures Severity(ScoreToLevel(CappedScore(s, x))) <= Severity(ScoreToLevel(CappedScore(t, y)))
  {
    BehaviorPointsGrow(s, x, t, y);
    RecordPointsGrow(s, x, t, y);
  }

  /** An assessment neither adverse nor flagged, exactly; its confidence is then enough to decide on. */
  lemma ClearedExactly(s: Option<RiskSignals>, requested: Option<real>)
    ensures var a := AssessCustomer(s, requested);
      && (!Adverse(RiskFindingOf(RiskPayloadOf(a))) <==>
            && s.Some? && s.value.onBlocklist != Some(true) && !IsVip(s.value) && !IsContradiction(s.value)
            && CappedScore(s.value, requested) < ELEVATED_THRESHOLD)
      && (!Adverse(RiskFindingOf(RiskPayloadOf(a))) ==> a.level == Low && (a.confidence == 0.6 || a.confidence == 0.9))
  {
  }

  /** A single chargeback is never cleared. */
  lemma ChargebackNeverCleared(s: RiskSignals, requested: Option<real>)
    requires s.history.Some? && s.history.value.chargebacks >= CHARGEBACK_ELEVATED
    ensures Adverse(RiskFindingOf(RiskPayloadOf(Assess(s, requested))))
  {
  }
}
