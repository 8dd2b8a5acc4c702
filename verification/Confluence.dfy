/** The order in which the two findings arrive: one delivery of each, each handled to its end. */
module Confluence {
  import opened Common
  import opened CaseModels
  import opened DecisionEngine
  import opened PeerVocabulary
  import opened StoreSpec
  import opened Protocol
  import opened ProtocolSafety

  /** Resume a handler until it ends; five resumptions always suffice. */
  ghost function Drain(s: Sys, pid: Pid, n: nat): Sys
    decreases n
  {
    if n == 0 then s else Drain(Step(s, Resume(pid)), pid, n - 1)
  }

  ghost function HandleBilling(s: Sys, pid: Pid, c: Uuid, p: BillingPayload): Sys {
    Drain(Step(s, DeliverBilling(pid, c, p)), pid, 5)
  }

  ghost function HandleRisk(s: Sys, pid: Pid, c: Uuid, p: RiskPayload): Sys {
    Drain(Step(s, DeliverRisk(pid, c, p)), pid, 5)
  }

  /** A delegated case that nobody has settled or failed. */
  ghost predicate Open(s: Sys, pid: Pid, c: Uuid) {
    && pid !in s.inflight
    && c in s.store.byCorrelation && s.store.byCorrelation[c] == c && c in s.store.cases
    && var r := s.store.cases[c];
    && Registered(r, c) && r.correlation == c && !r.billingFailed && !r.riskFailed
    && r.status == WaitingForPeerReviews
  }

  ghost predicate Settled(s: Sys, pid: Pid, c: Uuid) {
    && pid !in s.inflight
    && c in s.store.byCorrelation && s.store.byCorrelation[c] == c && c in s.store.cases
    && Registered(s.store.cases[c], c) && IsSettled(s.store.cases[c].status)
  }

  lemma Ended(s: Sys, pid: Pid, n: nat)
    requires pid !in s.inflight
    ensures Drain(s, pid, n) == s
  {
  }

  // ---------------------------------------------------------------- from the attach on

  /** A first finding leaves the case waiting for the other. */
  lemma DrainWaiting(s: Sys, pid: Pid, c: Uuid, n: nat)
    requires pid in s.inflight && s.inflight[pid] == CheckReady(c) && c in s.store.cases && n >= 1
    requires !s.store.cases[c].IsReadyToDecide() || IsSettled(s.store.cases[c].status)
    ensures Drain(s, pid, n) == End(s, pid)
  {
    Ended(End(s, pid), pid, n - 1);
  }

  lemma DrainStep(s: Sys, pid: Pid, n: nat)
    ensures Drain(s, pid, n + 1) == Drain(Step(s, Resume(pid)), pid, n)
  {
  }

  lemma ReadyGoesToClaim(s: Sys, pid: Pid, c: Uuid)
    requires pid in s.inflight && s.inflight[pid] == CheckReady(c) && c in s.store.cases
    requires s.store.cases[c].IsReadyToDecide() && !IsSettled(s.store.cases[c].status)
    ensures Step(s, Resume(pid)) == Spawn(s, pid, ClaimForPolicy(c, Handler))
  {
  }

  lemma ClaimSucceeds(s1: Sys, pid: Pid, c: Uuid)
    requires pid in s1.inflight && s1.inflight[pid] == ClaimForPolicy(c, Handler) && c in s1.store.cases
    requires !IsSettled(s1.store.cases[c].status)
    ensures var r := s1.store.cases[c];
      var s2 := Step(s1, Resume(pid));
      && pid in s2.inflight && s2.inflight[pid] == EmitPolicy(c, Handler) && s2.log == s1.log
      && c in s2.store.cases && s2.store.cases[c] == r.(status := Decided, version := r.version + 1)
  {
  }

  /** With both findings in, the handler claims, decides on them and publishes. */
  lemma DrainDeciding(s: Sys, pid: Pid, c: Uuid)
    requires pid in s.inflight && s.inflight[pid] == CheckReady(c) && c in s.store.cases
    requires var r := s.store.cases[c]; r.pending == {} && !IsSettled(r.status) && r.correlation == c
    requires c in s.store.byCorrelation && s.store.byCorrelation[c] == c
    ensures var r := s.store.cases[c];
      var v := Decide(TriageOf(r), r.billing, r.risk, None);
      Drain(s, pid, 4).log == s.log + [Decision(c, v.outcome, v.reason, PolicyEmit(false))]
  {
    var r := s.store.cases[c];
    var s1 := Spawn(s, pid, ClaimForPolicy(c, Handler));
    ReadyGoesToClaim(s, pid, c);
    ClaimSucceeds(s1, pid, c);
    DrainStep(s, pid, 3);
    DrainStep(s1, pid, 2);
    DrainEmitting(Step(s1, Resume(pid)), pid, c, r.(status := Decided, version := r.version + 1));
  }

  lemma DrainEmitting(s2: Sys, pid: Pid, c: Uuid, r: CaseRec)
    requires pid in s2.inflight && s2.inflight[pid] == EmitPolicy(c, Handler) && c in s2.store.cases
    requires r == s2.store.cases[c] && r.pending == {}
    ensures var v := Decide(TriageOf(r), r.billing, r.risk, None);
      Drain(s2, pid, 2).log == s2.log + [Decision(c, v.outcome, v.reason, PolicyEmit(false))]
  {
    EmitsDecision(s2, pid, c, r);
    var s3 := Step(s2, Resume(pid));
    DrainStep(s2, pid, 1);
    DrainStep(s3, pid, 0);
    FinishLogsNothing(s3, pid, c);
  }

  lemma EmitsDecision(s2: Sys, pid: Pid, c: Uuid, r: CaseRec)
    requires pid in s2.inflight && s2.inflight[pid] == EmitPolicy(c, Handler) && c in s2.store.cases
    requires r == s2.store.cases[c] && r.pending == {}
    ensures var v := Decide(TriageOf(r), r.billing, r.risk, None);
      var s3 := Step(s2, Resume(pid));
      && s3.log == s2.log + [Decision(c, v.outcome, v.reason, PolicyEmit(false))]
      && pid in s3.inflight && s3.inflight[pid] == FinishPolicy(c, Handler) && s3.store == s2.store
  {
    assert !BuildTimeoutStatus(r, s2.clock).AnyMissing();
  }

  lemma FinishLogsNothing(s3: Sys, pid: Pid, c: Uuid)
    requires pid in s3.inflight && s3.inflight[pid] == FinishPolicy(c, Handler) && c in s3.store.cases
    ensures Step(s3, Resume(pid)).log == s3.log
  {
  }

  // ---------------------------------------------------------------- whole handlers

  lemma BillingAttaches(s: Sys, pid: Pid, c: Uuid, p: BillingPayload)
    requires Open(s, pid, c) && BillingTask(c) in s.store.cases[c].pending
    ensures HandleBilling(s, pid, c, p) ==
      Drain(Spawn(PutRec(s, c, AttachTo(s.store.cases[c], BillingTask(c), OfBilling(BillingFindingOf(p)))), pid,
        CheckReady(c)), pid, 4)
  {
    var f := BillingFindingOf(p);
    var s1 := Step(s, DeliverBilling(pid, c, p));
    assert s1 == Spawn(s, pid, AttachBilling(c, f));
    var s2 := Step(s1, Resume(pid));
    assert s2 == Spawn(PutRec(s, c, AttachTo(s.store.cases[c], BillingTask(c), OfBilling(f))), pid, CheckReady(c));
  }

  lemma RiskAttaches(s: Sys, pid: Pid, c: Uuid, p: RiskPayload)
    requires Open(s, pid, c) && RiskTask(c) in s.store.cases[c].pending
    requires !ForcesEscalation(s.store.cases[c], RiskFindingOf(p))
    ensures HandleRisk(s, pid, c, p) ==
      Drain(Spawn(PutRec(s, c, AttachTo(s.store.cases[c], RiskTask(c), OfRisk(RiskFindingOf(p)))), pid,
        CheckReady(c)), pid, 4)
  {
    var f := RiskFindingOf(p);
    var s1 := Step(s, DeliverRisk(pid, c, p));
    assert s1 == Spawn(s, pid, AttachRisk(c, f));
    var s2 := Step(s1, Resume(pid));
    assert s2 == Spawn(PutRec(s, c, AttachTo(s.store.cases[c], RiskTask(c), OfRisk(f))), pid, CheckReady(c));
  }

  lemma RiskEscalates(s: Sys, pid: Pid, c: Uuid, p: RiskPayload)
    requires Open(s, pid, c) && ForcesEscalation(s.store.cases[c], RiskFindingOf(p))
    ensures var s' := HandleRisk(s, pid, c, p);
      && Settled(s', pid, c)
      && s'.log == s.log + [Decision(c, EscalateHuman, Some(ElevatedRisk), ElevatedRiskEmit)]
  {
    var f := RiskFindingOf(p);
    var s1 := Spawn(s, pid, ClaimForRisk(c, f));
    assert Step(s, DeliverRisk(pid, c, p)) == s1;
    RiskClaims(s1, pid, c, f);
    DrainStep(s1, pid, 4);
    RiskFinishes(Step(s1, Resume(pid)), pid, c, f);
    Ended(Drain(Step(s1, Resume(pid)), pid, 3), pid, 1);
    DrainMore(Step(s1, Resume(pid)), pid, 3, 1);
  }

  lemma RiskClaims(s1: Sys, pid: Pid, c: Uuid, f: RiskFinding)
    requires pid in s1.inflight && s1.inflight[pid] == ClaimForRisk(c, f) && c in s1.store.cases
    requires !IsSettled(s1.store.cases[c].status)
    ensures var r := s1.store.cases[c];
      var s2 := Step(s1, Resume(pid));
      && pid in s2.inflight && s2.inflight[pid] == EmitRisk(c, f) && s2.log == s1.log
      && s2.store.byCorrelation == s1.store.byCorrelation
      && c in s2.store.cases && s2.store.cases[c] == r.(status := Decided, version := r.version + 1)
  {
  }

  lemma {:induction false} DrainMore(s: Sys, pid: Pid, m: nat, n: nat)
    ensures Drain(s, pid, m + n) == Drain(Drain(s, pid, m), pid, n)
    decreases m
  {
    if m > 0 {
      DrainMore(Step(s, Resume(pid)), pid, m - 1, n);
    }
  }

  lemma RiskSaves(s3: Sys, pid: Pid, c: Uuid)
    requires pid in s3.inflight && s3.inflight[pid] == FinishRisk(c) && c in s3.store.cases
    requires c in s3.store.byCorrelation && s3.store.byCorrelation[c] == c && s3.store.cases[c].correlation == c
    requires Registered(s3.store.cases[c], c)
    ensures Settled(Drain(s3, pid, 2), pid, c) && Drain(s3, pid, 2).log == s3.log
  {
    RiskSaved(s3, pid, c);
    DrainStep(s3, pid, 1);
    Ended(Step(s3, Resume(pid)), pid, 1);
  }

  lemma RiskSaved(s3: Sys, pid: Pid, c: Uuid)
    requires pid in s3.inflight && s3.inflight[pid] == FinishRisk(c) && c in s3.store.cases
    requires c in s3.store.byCorrelation && s3.store.byCorrelation[c] == c && s3.store.cases[c].correlation == c
    requires Registered(s3.store.cases[c], c)
    ensures var s4 := Step(s3, Resume(pid));
      Settled(s4, pid, c) && s4.log == s3.log
  {
    var r := s3.store.cases[c];
    SaveStatusWrites(s3, c, Escalated);
    assert Step(s3, Resume(pid)) == End(PutRec(s3, c, r.(status := Escalated, version := r.version + 1)), pid);
  }

  lemma RiskFinishes(s2: Sys, pid: Pid, c: Uuid, f: RiskFinding)
    requires pid in s2.inflight && s2.inflight[pid] == EmitRisk(c, f) && c in s2.store.cases
    requires c in s2.store.byCorrelation && s2.store.byCorrelation[c] == c && s2.store.cases[c].correlation == c
    requires Registered(s2.store.cases[c], c)
    ensures var s' := Drain(s2, pid, 3);
      && Settled(s', pid, c)
      && s'.log == s2.log + [Decision(c, EscalateHuman, Some(ElevatedRisk), ElevatedRiskEmit)]
  {
    var s3 := Step(s2, Resume(pid));
    assert s3.store.cases[c] == s2.store.cases[c].(risk := Some(f));
    RiskSaves(s3, pid, c);
  }

  /** A billing result that comes after the decision changes no decision. */
  lemma LateBilling(s: Sys, pid: Pid, c: Uuid, p: BillingPayload)
    requires Settled(s, pid, c)
    ensures HandleBilling(s, pid, c, p) == s
  {
    var f := BillingFindingOf(p);
    var s1 := Step(s, DeliverBilling(pid, c, p));
    assert s1 == Spawn(s, pid, AttachBilling(c, f));
    var s2 := Step(s1, Resume(pid));
    assert s2 == Spawn(s, pid, CheckReady(c));
    DrainWaiting(s2, pid, c, 4);
    assert End(s2, pid).inflight == s.inflight;
  }

  // ---------------------------------------------------------------- both orders

  /** A fresh delegation: both peers pending, nothing found yet. */
  ghost predicate Fresh(s: Sys, pid: Pid, c: Uuid) {
    && Open(s, pid, c)
    && var r := s.store.cases[c];
    r.pending == {BillingTask(c), RiskTask(c)} && r.billing == None && r.risk == None
  }

  lemma BillingFirst(s: Sys, pid: Pid, c: Uuid, b: BillingPayload)
    requires Fresh(s, pid, c)
    ensures HandleBilling(s, pid, c, b)
        == PutRec(s, c, AttachTo(s.store.cases[c], BillingTask(c), OfBilling(BillingFindingOf(b))))
    ensures var s' := HandleBilling(s, pid, c, b);
      && Open(s', pid, c) && s'.log == s.log && c in s'.store.cases
      && s'.store.cases[c].pending == {RiskTask(c)} && s'.store.cases[c].billing == Some(BillingFindingOf(b))
      && s'.store.cases[c].triage == s.store.cases[c].triage
  {
    BillingAttaches(s, pid, c, b);
    var s1 := PutRec(s, c, AttachTo(s.store.cases[c], BillingTask(c), OfBilling(BillingFindingOf(b))));
    assert {BillingTask(c), RiskTask(c)} - {BillingTask(c)} == {RiskTask(c)};
    assert RiskTask(c) in s1.store.cases[c].pending;
    DrainWaiting(Spawn(s1, pid, CheckReady(c)), pid, c, 4);
    assert End(Spawn(s1, pid, CheckReady(c)), pid).inflight == s.inflight;
  }

  lemma RiskFirst(s: Sys, pid: Pid, c: Uuid, k: RiskPayload)
    requires Fresh(s, pid, c) && !Adverse(RiskFindingOf(k))
    ensures HandleRisk(s, pid, c, k) == PutRec(s, c, AttachTo(s.store.cases[c], RiskTask(c), OfRisk(RiskFindingOf(k))))
    ensures var s' := HandleRisk(s, pid, c, k);
      && Open(s', pid, c) && s'.log == s.log && c in s'.store.cases
      && s'.store.cases[c].pending == {BillingTask(c)} && s'.store.cases[c].risk == Some(RiskFindingOf(k))
      && s'.store.cases[c].triage == s.store.cases[c].triage
  {
    RiskAttaches(s, pid, c, k);
    var s1 := PutRec(s, c, AttachTo(s.store.cases[c], RiskTask(c), OfRisk(RiskFindingOf(k))));
    assert {BillingTask(c), RiskTask(c)} - {RiskTask(c)} == {BillingTask(c)};
    assert BillingTask(c) in s1.store.cases[c].pending;
    DrainWaiting(Spawn(s1, pid, CheckReady(c)), pid, c, 4);
    assert End(Spawn(s1, pid, CheckReady(c)), pid).inflight == s.inflight;
  }

  /** What billing first, then risk, decides. */
  function BillingThenRisk(triage: Triage, b: BillingFinding, k: RiskFinding): Verdict {
    if Adverse(k) && b.eligibility != Ineligible then Verdict(EscalateHuman, Some(ElevatedRisk))
    else Decide(triage, Some(b), Some(k), None)
  }

  /** What risk first, then billing, decides. */
  function RiskThenBilling(triage: Triage, b: BillingFinding, k: RiskFinding): Verdict {
    if Adverse(k) then Verdict(EscalateHuman, Some(ElevatedRisk))
    else Decide(triage, Some(b), Some(k), None)
  }

  lemma BillingThenRiskDecides(s: Sys, pid: Pid, c: Uuid, b: BillingPayload, k: RiskPayload)
    requires Fresh(s, pid, c)
    ensures var v := BillingThenRisk(TriageOf(s.store.cases[c]), BillingFindingOf(b), RiskFindingOf(k));
      var log' := HandleRisk(HandleBilling(s, pid, c, b), pid, c, k).log;
      |log'| == |s.log| + 1 && log'[..|s.log|] == s.log
      && log'[|s.log|].caseId == c && log'[|s.log|].outcome == v.outcome && log'[|s.log|].reason == v.reason
  {
    BillingFirst(s, pid, c, b);
    var s1 := HandleBilling(s, pid, c, b);
    if ForcesEscalation(s1.store.cases[c], RiskFindingOf(k)) {
      RiskEscalates(s1, pid, c, k);
    } else {
      SecondRisk(s1, pid, c, k);
    }
  }

  lemma SecondRisk(s1: Sys, pid: Pid, c: Uuid, k: RiskPayload)
    requires Open(s1, pid, c) && s1.store.cases[c].pending == {RiskTask(c)} && s1.store.cases[c].billing.Some?
    requires !ForcesEscalation(s1.store.cases[c], RiskFindingOf(k))
    ensures var r := s1.store.cases[c];
      var v := Decide(TriageOf(r), r.billing, Some(RiskFindingOf(k)), None);
      HandleRisk(s1, pid, c, k).log == s1.log + [Decision(c, v.outcome, v.reason, PolicyEmit(false))]
  {
    RiskAttaches(s1, pid, c, k);
    var r2 := AttachTo(s1.store.cases[c], RiskTask(c), OfRisk(RiskFindingOf(k)));
    assert {RiskTask(c)} - {RiskTask(c)} == {};
    DrainDeciding(Spawn(PutRec(s1, c, r2), pid, CheckReady(c)), pid, c);
  }

  lemma SecondBilling(s1: Sys, pid: Pid, c: Uuid, b: BillingPayload)
    requires Open(s1, pid, c) && s1.store.cases[c].pending == {BillingTask(c)} && s1.store.cases[c].risk.Some?
    ensures var r := s1.store.cases[c];
      var v := Decide(TriageOf(r), Some(BillingFindingOf(b)), r.risk, None);
      HandleBilling(s1, pid, c, b).log == s1.log + [Decision(c, v.outcome, v.reason, PolicyEmit(false))]
  {
    BillingAttaches(s1, pid, c, b);
    var r2 := AttachTo(s1.store.cases[c], BillingTask(c), OfBilling(BillingFindingOf(b)));
    assert {BillingTask(c)} - {BillingTask(c)} == {};
    DrainDeciding(Spawn(PutRec(s1, c, r2), pid, CheckReady(c)), pid, c);
  }

  lemma RiskThenBillingDecides(s: Sys, pid: Pid, c: Uuid, b: BillingPayload, k: RiskPayload)
    requires Fresh(s, pid, c)
    ensures var v := RiskThenBilling(TriageOf(s.store.cases[c]), BillingFindingOf(b), RiskFindingOf(k));
      var log' := HandleBilling(HandleRisk(s, pid, c, k), pid, c, b).log;
      |log'| == |s.log| + 1 && log'[..|s.log|] == s.log
      && log'[|s.log|].caseId == c && log'[|s.log|].outcome == v.outcome && log'[|s.log|].reason == v.reason
  {
    if Adverse(RiskFindingOf(k)) {
      RiskEscalates(s, pid, c, k);
      LateBilling(HandleRisk(s, pid, c, k), pid, c, b);
    } else {
      RiskFirst(s, pid, c, k);
      SecondBilling(HandleRisk(s, pid, c, k), pid, c, b);
    }
  }

  /** The two orders agree, outcome and reason, except exactly when an adverse risk finding meets an
      ineligible billing finding: then risk first escalates and billing first lets the policy speak. */
  lemma OrdersAgreeExactly(s: Sys, pid: Pid, c: Uuid, b: BillingPayload, k: RiskPayload)
    requires Fresh(s, pid, c)
    ensures var billingFirst := HandleRisk(HandleBilling(s, pid, c, b), pid, c, k).log;
      var riskFirst := HandleBilling(HandleRisk(s, pid, c, k), pid, c, b).log;
      var n := |s.log|;
      && |billingFirst| == n + 1 && |riskFirst| == n + 1
      && (billingFirst[n].outcome == riskFirst[n].outcome && billingFirst[n].reason == riskFirst[n].reason
          <==> !(Adverse(RiskFindingOf(k)) && BillingFindingOf(b).eligibility == Ineligible))
  {
    BillingThenRiskDecides(s, pid, c, b, k);
    RiskThenBillingDecides(s, pid, c, b, k);
    var r := s.store.cases[c];
    EscalationReasonsExactly(TriageOf(r), Some(BillingFindingOf(b)), Some(RiskFindingOf(k)), None);
    OutcomesExactly(TriageOf(r), Some(BillingFindingOf(b)), Some(RiskFindingOf(k)), None);
  }
}
