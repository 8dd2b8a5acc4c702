/** What the risk assessment comes to, read off the signals themselves: no weights, only how many signals of
    which kind there are. */
module RiskBands {
  import opened Common
  import opened CaseModels
  import opened Scoring

  // ---------------------------------------------------------------- the signals

  predicate Chargeback(s: RiskSignals) { s.history.Some? && s.history.value.chargebacks >= 1 }

  predicate Hurried(s: RiskSignals) { s.behavior.Some? && s.behavior.value.refundRequestsInWindow >= 3 }

  predicate BadInstrument(s: RiskSignals) {
    s.instrument.Some? && (s.instrument.value.cardTestingPattern || !s.instrument.value.billingDetailsMatch)
  }

  predicate IsRestricted(s: RiskSignals) { s.account.Some? && s.account.value.status == Restricted }

  predicate Anomalous(s: RiskSignals) { s.behavior.Some? && s.behavior.value.anomalyScore >= 0.7 }

  predicate Watched(s: RiskSignals) { s.account.Some? && s.account.value.status == Watch }

  predicate Newcomer(s: RiskSignals) {
    s.account.Some? && s.account.value.tenureDays < 30 && s.account.value.status != Restricted
  }

  predicate OtherDevice(s: RiskSignals) { s.behavior.Some? && s.behavior.value.deviceMismatch }

  predicate OtherPlace(s: RiskSignals) {
    s.behavior.Some? && (s.behavior.value.ipLocationMismatch || s.behavior.value.ipCountryMismatch)
  }

  predicate LargeAmount(s: RiskSignals, requested: Option<real>) {
    && s.behavior.Some? && s.behavior.value.typicalRefundAmount.Some? && requested.Some?
    && 0.0 < s.behavior.value.typicalRefundAmount.value
    && requested.value >= 3.0 * s.behavior.value.typicalRefundAmount.value
  }

  function One(p: bool): nat { if p then 1 else 0 }

  /** How many strong signals there are, and how many weak ones. */
  function Strong(s: RiskSignals): nat {
    One(Chargeback(s)) + One(Hurried(s)) + One(BadInstrument(s)) + One(IsRestricted(s)) + One(Anomalous(s))
  }

  function Weak(s: RiskSignals, requested: Option<real>): nat {
    One(Watched(s)) + One(Newcomer(s)) + One(OtherDevice(s)) + One(OtherPlace(s)) + One(LargeAmount(s, requested))
  }

  /** Repeated chargebacks, or five refund requests in the window. */
  predicate Repeated(s: RiskSignals) {
    || (s.history.Some? && s.history.value.chargebacks >= 2)
    || (s.behavior.Some? && s.behavior.value.refundRequestsInWindow >= 5)
  }

  // ---------------------------------------------------------------- the bands

  /** At least elevated: one strong signal, or two weak ones. */
  predicate Raised(s: RiskSignals, requested: Option<real>) { Strong(s) >= 1 || Weak(s, requested) >= 2 }

  /** High: a repeated signal, a strong signal with any other, three weak ones, or another device in another place. */
  predicate Peak(s: RiskSignals, requested: Option<real>) {
    || Repeated(s)
    || Strong(s) >= 2
    || (Strong(s) == 1 && Weak(s, requested) >= 1)
    || Weak(s, requested) >= 3
    || (OtherDevice(s) && OtherPlace(s))
  }

  predicate Testing(s: RiskSignals) { s.instrument.Some? && s.instrument.value.cardTestingPattern }

  /** The score lies exactly on a threshold. */
  predicate OnThreshold(s: RiskSignals, requested: Option<real>) {
    var heavy := Testing(s) || IsRestricted(s);
    || (Strong(s) == 1 && Weak(s, requested) == 0 && !heavy)
    || (Strong(s) == 1 && Weak(s, requested) == 1 && !heavy && !Repeated(s) && !OtherDevice(s) && !OtherPlace(s))
    || (Strong(s) == 0 && Weak(s, requested) == 2 && OtherDevice(s) && OtherPlace(s))
  }

  lemma BandsExactly(s: RiskSignals, requested: Option<real>)
    ensures CappedScore(s, requested) >= ELEVATED_THRESHOLD <==> Raised(s, requested)
    ensures CappedScore(s, requested) >= HIGH_THRESHOLD <==> Peak(s, requested)
    ensures (CappedScore(s, requested) == ELEVATED_THRESHOLD || CappedScore(s, requested) == HIGH_THRESHOLD)
         <==> OnThreshold(s, requested)
    ensures CappedScore(s, requested) == 0 <==> Strong(s) == 0 && Weak(s, requested) == 0
  {
  }

  // ---------------------------------------------------------------- the assessment

  predicate Blocked(s: RiskSignals) { s.onBlocklist == Some(true) }

  predicate Valued(s: RiskSignals) {
    s.account.Some? && (s.account.value.segment == Vip || s.account.value.segment == Enterprise)
  }

  /** A long-standing account without a chargeback, in a hurry, with details that do not match. */
  predicate Conflicting(s: RiskSignals) {
    && s.account.Some? && s.account.value.status == Good && s.account.value.tenureDays >= 30
    && (s.history.None? || s.history.value.chargebacks == 0)
    && s.behavior.Some? && s.behavior.value.refundRequestsInWindow >= 5
    && s.instrument.Some? && !s.instrument.value.billingDetailsMatch
  }

  /** No gate applies: the score decides. */
  predicate Scored(s: RiskSignals) { !Blocked(s) && !Valued(s) && !Conflicting(s) }

  /** Refund history is the one record that is missing. */
  predicate LacksHistory(s: RiskSignals) {
    s.history.None? && (s.account.Some? || s.instrument.Some? || s.behavior.Some?)
  }

  lemma GatesAgree(s: RiskSignals)
    ensures IsVip(s) <==> Valued(s)
    ensures IsContradiction(s) <==> Conflicting(s)
  {
  }

  /** Each action, the review flag and the confidence of an assessment, both ways, from the signals. */
  lemma AssessmentExactly(customer: Option<RiskSignals>, requested: Option<real>)
    ensures var a := AssessCustomer(customer, requested);
      && (a.action == AskForInformation <==> customer.None?)
      && (a.requiresHumanReview <==> a.action == AskForInformation || a.action == ReviewManually)
    ensures customer.Some? ==>
      var s, a := customer.value, AssessCustomer(customer, requested);
      var raised, peak := Raised(s, requested), Peak(s, requested);
      && (a.action == DenyOrEscalate <==> Blocked(s) || (Scored(s) && peak))
      && (a.action == ReviewManually <==>
            !Blocked(s) && (Valued(s) || Conflicting(s) || (raised && !peak && Chargeback(s))))
      && (a.action == AllowWithCaution <==> Scored(s) && raised && !peak && !Chargeback(s))
      && (a.action == ApproveRiskClearance <==> Scored(s) && !raised)
    ensures customer.Some? ==>
      var s, a := customer.value, AssessCustomer(customer, requested);
      a.level == if Blocked(s) then High
                 else if Conflicting(s) && !Valued(s) then Elevated
                 else if Peak(s, requested) then High
                 else if Raised(s, requested) then Elevated else Low
    ensures var a := AssessCustomer(customer, requested);
      a.confidence ==
        if customer.None? then 0.2
        else
          var s := customer.value;
          if Blocked(s) then 0.95
          else if Valued(s) then 0.7
          else if Conflicting(s) then 0.3
          else if OnThreshold(s, requested) || LacksHistory(s) then 0.6
          else 0.9
  {
    if customer.Some? {
      BandsExactly(customer.value, requested);
      GatesAgree(customer.value);
    }
  }
}
