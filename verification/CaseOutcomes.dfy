/** What the log says about a decision, and what a case's status says about it once the system is at rest. */
module CaseOutcomes {
  import opened Common
  import opened CaseModels
  import opened DecisionEngine
  import opened PeerVocabulary
  import opened StoreSpec
  import opened Protocol
  import opened ProtocolSafety
  import opened ProtocolFrame
  import opened ProtocolProgress
  import opened ProtocolTheorems

  // ---------------------------------------------------------------- reasons

  /** The outcome and the reason of a decision, by who made it. */
  predicate ReasonFits(d: Decision) {
    match d.emitter
    case DirectEmit => d.outcome == DirectResponse && d.reason == None
    case DelegationFailureEmit => d.outcome == EscalateHuman && d.reason == Some(PeerFailure)
    case ElevatedRiskEmit => d.outcome == EscalateHuman && d.reason == Some(ElevatedRisk)
    case PolicyEmit(_) =>
      && (d.reason.Some? <==> d.outcome == EscalateHuman)
      && d.reason != Some(PeerFailure) && d.reason != Some(ElevatedRisk)
  }

  ghost predicate LogFits(log: seq<Decision>) {
    forall i :: 0 <= i < |log| ==> ReasonFits(log[i])
  }

  /** A step logs nothing, or one decision that fits. */
  ghost predicate LogsFitting(s: Sys, s': Sys) {
    s'.log == s.log || exists d :: s'.log == s.log + [d] && ReasonFits(d)
  }

  lemma VerdictFits(triage: Triage, billing: Option<BillingFinding>, risk: Option<RiskFinding>,
                    timeout: Option<TimeoutStatus>, c: Uuid, byReaper: bool)
    ensures var v := Decide(triage, billing, risk, timeout);
      ReasonFits(Decision(c, v.outcome, v.reason, PolicyEmit(byReaper)))
  {
    OutcomesExactly(triage, billing, risk, timeout);
    if triage.needsRefundReview {
      EscalationReasonsExactly(triage, billing, risk, timeout);
    }
  }

  lemma IntakeLogsFitting(s: Sys, triage: Triage, raises: bool)
    requires s.intake != Idle && s.intake.c in s.store.cases
    ensures LogsFitting(s, IntakeStep'(s, triage, raises))
  {
  }

  lemma PolicyLogsFitting(s: Sys, pid: Pid, c: Uuid, flow: Flow)
    requires pid in s.inflight && s.inflight[pid] == EmitPolicy(c, flow) && c in s.store.cases
    ensures LogsFitting(s, Resume'(s, pid))
  {
    var r := s.store.cases[c];
    var v := Decide(TriageOf(r), r.billing, r.risk, Some(BuildTimeoutStatus(r, s.clock)));
    VerdictFits(TriageOf(r), r.billing, r.risk, Some(BuildTimeoutStatus(r, s.clock)), c, flow.Reaper?);
    var d := Decision(c, v.outcome, v.reason, PolicyEmit(flow.Reaper?));
    assert Resume'(s, pid).log == s.log + [d];
  }

  lemma ResumeLogsFitting(s: Sys, pid: Pid)
    requires pid in s.inflight && Live(s, s.inflight[pid])
    ensures LogsFitting(s, Resume'(s, pid))
  {
    if s.inflight[pid].EmitPolicy? {
      PolicyLogsFitting(s, pid, s.inflight[pid].c, s.inflight[pid].flow);
    }
  }

  lemma StepLogsFitting(s: Sys, a: Action)
    requires LogFits(s.log)
    ensures LogFits(Step(s, a).log)
  {
    if Enabled(s, a) {
      match a {
        case IntakeStep(triage, raises) => IntakeLogsFitting(s, triage, raises);
        case Resume(pid) => ResumeLogsFitting(s, pid);
        case _ => DeliveryLogsNothing(s, a);
      }
    }
  }

  lemma {:induction false} RunLogsFitting(s: Sys, actions: seq<Action>)
    requires LogFits(s.log)
    ensures LogFits(Run(s, actions).log)
    decreases |actions|
  {
    if actions != [] {
      StepLogsFitting(s, actions[0]);
      RunLogsFitting(Step(s, actions[0]), actions[1..]);
    }
  }

  /** In every reachable state a decision has a reason exactly when it escalates; peer_failure is the reason
      exactly of a failed delegation, elevated_risk exactly of the risk handler, and a direct response is
      exactly the intake's own. */
  lemma ReasonsExactly(s: Sys, i: nat)
    requires Reachable(s) && i < |s.log|
    ensures var d := s.log[i];
      && (d.reason.Some? <==> d.outcome == EscalateHuman)
      && (d.reason == Some(PeerFailure) <==> d.emitter.DelegationFailureEmit?)
      && (d.reason == Some(ElevatedRisk) <==> d.emitter.ElevatedRiskEmit?)
      && (d.outcome == DirectResponse <==> d.emitter.DirectEmit?)
  {
    var actions :| s == Run(INIT, actions);
    RunLogsFitting(INIT, actions);
    if !s.log[i].emitter.DirectEmit? {
      VerdictExplained(s, i);
    }
  }

  // ---------------------------------------------------------------- who escalates, step by step

  /** The step emits an elevated-risk escalation of the case, or saves the status after one. */
  ghost predicate EmitsRisk(s: Sys, a: Action, c: Uuid) {
    && a.Resume? && a.pid in s.inflight && s.inflight[a.pid].EmitRisk? && s.inflight[a.pid].c == c
    && c in s.store.cases
  }

  ghost predicate SavesRisk(s: Sys, a: Action, c: Uuid) {
    a.Resume? && a.pid in s.inflight && s.inflight[a.pid] == FinishRisk(c) && c in s.store.cases
  }

  lemma ResumeElevates(s: Sys, pid: Pid, c: Uuid)
    requires pid in s.inflight && Live(s, s.inflight[pid]) && c in s.store.cases
    ensures Count(Resume'(s, pid).log, c, ElevatedKind)
         == Count(s.log, c, ElevatedKind) + if EmitsRisk(s, Resume(pid), c) then 1 else 0
  {
    var k := s.inflight[pid];
    if k.EmitRisk? {
      RiskEmits(s, pid);
      CountAppend(s.log, Decision(k.c, EscalateHuman, Some(ElevatedRisk), ElevatedRiskEmit), c, ElevatedKind);
    } else {
      var emitted := ResumeElevatesNone(s, pid);
      if emitted.Some? { CountAppend(s.log, emitted.value, c, ElevatedKind); }
    }
  }

  lemma RiskEmits(s: Sys, pid: Pid)
    requires pid in s.inflight && Live(s, s.inflight[pid]) && s.inflight[pid].EmitRisk?
    ensures Resume'(s, pid).log
         == s.log + [Decision(s.inflight[pid].c, EscalateHuman, Some(ElevatedRisk), ElevatedRiskEmit)]
  {
  }

  lemma ResumeElevatesNone(s: Sys, pid: Pid) returns (emitted: Option<Decision>)
    requires pid in s.inflight && Live(s, s.inflight[pid]) && !s.inflight[pid].EmitRisk?
    ensures emitted.Some? ==> emitted.value.emitter.PolicyEmit?
    ensures Resume'(s, pid).log == if emitted.Some? then s.log + [emitted.value] else s.log
  {
    emitted := None;
    if s.inflight[pid].EmitPolicy? {
      var r := s.store.cases[s.inflight[pid].c];
      var v := Decide(TriageOf(r), r.billing, r.risk, Some(BuildTimeoutStatus(r, s.clock)));
      emitted := Some(Decision(s.inflight[pid].c, v.outcome, v.reason, PolicyEmit(s.inflight[pid].flow.Reaper?)));
    }
  }

  lemma IntakeElevatesNone(s: Sys, triage: Triage, raises: bool, c: Uuid)
    requires s.intake != Idle && s.intake.c in s.store.cases
    ensures Count(IntakeStep'(s, triage, raises).log, c, ElevatedKind) == Count(s.log, c, ElevatedKind)
  {
    var emitted := IntakeEmission(s, triage, raises);
    if emitted.Some? { CountAppend(s.log, emitted.value, c, ElevatedKind); }
  }

  lemma IntakeEmission(s: Sys, triage: Triage, raises: bool) returns (emitted: Option<Decision>)
    requires s.intake != Idle && s.intake.c in s.store.cases
    ensures emitted.Some? ==> emitted.value.emitter.DirectEmit? || emitted.value.emitter.DelegationFailureEmit?
    ensures IntakeStep'(s, triage, raises).log == if emitted.Some? then s.log + [emitted.value] else s.log
  {
    emitted := None;
    if s.intake.PublishingClassified? {
      if !TriageOf(s.store.cases[s.intake.c]).needsRefundReview {
        emitted := Some(Decision(s.intake.c, DirectResponse, None, DirectEmit));
      }
    } else if s.intake.RequestingBilling? || s.intake.RequestingRisk? || s.intake.Announcing? {
      if raises {
        emitted := Some(Decision(s.intake.c, EscalateHuman, Some(PeerFailure), DelegationFailureEmit));
      }
    }
  }

  lemma StepElevates(s: Sys, a: Action, c: Uuid)
    requires ContsOk(s) && c in s.store.cases
    ensures Count(Step(s, a).log, c, ElevatedKind)
         == Count(s.log, c, ElevatedKind) + if EmitsRisk(s, a, c) then 1 else 0
  {
    if EmitsRisk(s, a, c) { assert Enabled(s, a); }
    if Enabled(s, a) {
      match a {
        case IntakeStep(triage, raises) => IntakeElevatesNone(s, triage, raises, c);
        case Resume(pid) => ResumeElevates(s, pid, c);
        case _ => DeliveryLogsNothing(s, a);
      }
    }
  }

  /** Between steps, a continuation that saves a status was there, or has just emitted. */
  lemma FinishComesFromEmit(s: Sys, a: Action, p: Pid, c: Uuid)
    requires p in Step(s, a).inflight
    ensures Step(s, a).inflight[p] == FinishRisk(c) ==>
      p in s.inflight && (s.inflight[p] == FinishRisk(c) || (a == Resume(p) && EmitsRisk(s, a, c)))
    ensures Step(s, a).inflight[p].FinishPolicy? && Step(s, a).inflight[p].c == c ==>
      && p in s.inflight
      && (s.inflight[p] == Step(s, a).inflight[p]
          || (a == Resume(p) && s.inflight[p].EmitPolicy? && s.inflight[p].c == c))
  {
    if Enabled(s, a) {
      if a == Resume(p) {
        ResumedFinish(s, p);
      } else if p in s.inflight {
        StaysInFlight(s, a, p);
      } else {
        StartsNoFinish(s, a, p);
      }
    }
  }

  lemma ResumedFinish(s: Sys, p: Pid)
    requires p in s.inflight && Live(s, s.inflight[p]) && p in Resume'(s, p).inflight
    ensures var k, k' := s.inflight[p], Resume'(s, p).inflight[p];
      && (k'.FinishRisk? ==> k.EmitRisk? && k.c == k'.c)
      && (k'.FinishPolicy? ==> k.EmitPolicy? && k.c == k'.c)
  {
  }

  lemma StartsNoFinish(s: Sys, a: Action, p: Pid)
    requires Enabled(s, a) && p !in s.inflight && p in Step(s, a).inflight
    ensures !Step(s, a).inflight[p].FinishRisk? && !Step(s, a).inflight[p].FinishPolicy?
  {
    match a {
      case IntakeStep(triage, raises) => IntakeMovesNone(s, triage, raises);
      case Resume(q) => ResumeMovesOne(s, q);
      case _ =>
    }
  }

  // ---------------------------------------------------------------- the status of a case, step by step

  lemma ResumeEscalates(s: Sys, pid: Pid, c: Uuid)
    requires pid in s.inflight && Live(s, s.inflight[pid]) && c in s.store.cases
    ensures var s' := Resume'(s, pid);
      && c in s'.store.cases
      && (s'.store.cases[c].status == Escalated && s.store.cases[c].status != Escalated ==>
            s.inflight[pid] == FinishRisk(c))
      && (s.inflight[pid] == FinishRisk(c) ==> s'.store.cases[c].status == Escalated)
  {
    var k := s.inflight[pid];
    if k.FinishPolicy? || k.FinishRisk? {
      FinishSetsStatus(s, pid, c);
    } else if k.AttachBilling? || k.AttachRisk? || k.FailTask? || k.AttachTaskResult? {
      ResultEscalatesNone(s, pid, c);
    }
  }

  lemma FinishSetsStatus(s: Sys, pid: Pid, c: Uuid)
    requires pid in s.inflight && Live(s, s.inflight[pid]) && c in s.store.cases
    requires s.inflight[pid].FinishPolicy? || s.inflight[pid].FinishRisk?
    ensures var k, s' := s.inflight[pid], Resume'(s, pid);
      && c in s'.store.cases
      && s'.store.cases[c].status ==
           if k.c != c then s.store.cases[c].status else if k.FinishRisk? then Escalated else Decided
  {
  }

  lemma ResultEscalatesNone(s: Sys, pid: Pid, c: Uuid)
    requires pid in s.inflight && Live(s, s.inflight[pid]) && c in s.store.cases
    requires var k := s.inflight[pid]; k.AttachBilling? || k.AttachRisk? || k.FailTask? || k.AttachTaskResult?
    ensures var s' := Resume'(s, pid);
      c in s'.store.cases && (s'.store.cases[c].status == Escalated ==> s.store.cases[c].status == Escalated)
  {
  }

  lemma IntakeEscalates(s: Sys, triage: Triage, raises: bool, c: Uuid)
    requires s.intake != Idle && s.intake.c in s.store.cases && c in s.store.cases
    ensures var s' := IntakeStep'(s, triage, raises);
      && c in s'.store.cases
      && (s'.store.cases[c].status == Escalated && s.store.cases[c].status != Escalated ==>
            s.intake == EscalatingFailure(c))
  {
  }

  lemma TicketKeepsStatus(s: Sys, d: Uuid, c: Uuid)
    requires c in s.store.cases
    ensures c in TakeTicket'(s, d).store.cases && TakeTicket'(s, d).store.cases[c] == s.store.cases[c]
  {
  }

  /** Short of a failed delegation, a case becomes escalated only by the save that follows an elevated-risk
      escalation. */
  lemma EscalatesOnlyByRisk(s: Sys, a: Action, c: Uuid)
    requires Inv(s) && c in s.store.cases && Count(Step(s, a).log, c, FailureKind) == 0
    ensures c in Step(s, a).store.cases
    ensures Step(s, a).store.cases[c].status == Escalated && s.store.cases[c].status != Escalated ==>
              SavesRisk(s, a, c)
    ensures SavesRisk(s, a, c) ==> Step(s, a).store.cases[c].status == Escalated
  {
    StepClimbs(s, a, c);
    if SavesRisk(s, a, c) { assert Enabled(s, a); }
    if Enabled(s, a) {
      match a {
        case IntakeStep(triage, raises) => IntakeEscalates(s, triage, raises, c);
        case Resume(pid) => ResumeEscalates(s, pid, c);
        case TakeTicket(d) => TicketKeepsStatus(s, d, c);
        case _ => DeliverSubject(s, a);
      }
    }
  }

  /** And it stays escalated. */
  lemma EscalatedStays(s: Sys, a: Action, c: Uuid)
    requires Inv(s) && c in s.store.cases && Count(Step(s, a).log, c, FailureKind) == 0
    requires s.store.cases[c].status == Escalated
    ensures c in Step(s, a).store.cases && Step(s, a).store.cases[c].status == Escalated
  {
    EscalatedIsDelegated(s, c);
    StepClimbs(s, a, c);
    DelegatedStays(s, a, c);
    StepInv(s, a);
    TopOfDelegated(Step(s, a), c);
  }

  lemma EscalatedIsDelegated(s: Sys, c: Uuid)
    requires CasesOk(s) && c in s.store.cases && s.store.cases[c].status == Escalated
    ensures Registered(s.store.cases[c], c)
  {
    assert CaseOk(s, c);
  }

  lemma DelegatedStays(s: Sys, a: Action, c: Uuid)
    requires Inv(s) && c in s.store.cases && Registered(s.store.cases[c], c)
    ensures c in Step(s, a).store.cases && Registered(Step(s, a).store.cases[c], c)
  {
    StepTouches(s, a);
  }

  lemma TopOfDelegated(s: Sys, c: Uuid)
    requires CasesOk(s) && c in s.store.cases && Registered(s.store.cases[c], c)
    requires Rank(s.store.cases[c].status) >= Rank(Escalated)
    ensures s.store.cases[c].status == Escalated
  {
    assert CaseOk(s, c);
  }

  // ---------------------------------------------------------------- what a status tells

  ghost predicate Finishing(s: Sys, c: Uuid) {
    exists p :: p in s.inflight && s.inflight[p] == FinishRisk(c)
  }

  ghost predicate FinishesFit(s: Sys, c: Uuid) {
    && (forall p {:trigger s.inflight[p]} :: p in s.inflight && s.inflight[p].FinishPolicy? && s.inflight[p].c == c ==>
          Count(s.log, c, ElevatedKind) == 0)
    && (forall p {:trigger s.inflight[p]} :: p in s.inflight && s.inflight[p] == FinishRisk(c) ==>
          Count(s.log, c, ElevatedKind) == 1)
  }

  /** Short of a failed delegation, a case is escalated exactly after an elevated-risk escalation, once its
      status has been saved. */
  ghost predicate Told(s: Sys, c: Uuid)
    requires c in s.store.cases
  {
    && FinishesFit(s, c)
    && (Count(s.log, c, FailureKind) == 0 ==>
          && (s.store.cases[c].status == Escalated ==> Count(s.log, c, ElevatedKind) == 1)
          && (s.store.cases[c].status != Escalated && Count(s.log, c, ElevatedKind) >= 1 ==> Finishing(s, c)))
  }

  /** Whoever is about to emit is alone with the case, and nothing has been emitted under a claim. */
  lemma EmitterIsAlone(s: Sys, p: Pid, q: Pid, c: Uuid)
    requires Inv(s) && p in s.inflight && Unemitted(s.inflight[p]) && s.inflight[p].c == c
    requires q in s.inflight && Claimed(s.inflight[q]) && s.inflight[q].c == c
    ensures p == q && Count(s.log, c, ElevatedKind) == 0
  {
    assert ContOk(s, s.inflight[p]);
    CountsAddUp(s.log, c);
  }

  lemma FinishesStillFit(s: Sys, a: Action, c: Uuid, p: Pid)
    requires Inv(s) && c in s.store.cases && FinishesFit(s, c) && p in Step(s, a).inflight
    ensures Step(s, a).inflight[p].FinishPolicy? && Step(s, a).inflight[p].c == c ==>
              Count(Step(s, a).log, c, ElevatedKind) == 0
    ensures Step(s, a).inflight[p] == FinishRisk(c) ==> Count(Step(s, a).log, c, ElevatedKind) == 1
  {
    FinishComesFromEmit(s, a, p, c);
    StepElevates(s, a, c);
    if p in s.inflight && Claimed(s.inflight[p]) && s.inflight[p].c == c {
      if EmitsRisk(s, a, c) { EmitterIsAlone(s, a.pid, p, c); }
      if Unemitted(s.inflight[p]) { EmitterIsAlone(s, p, p, c); }
    }
  }

  lemma RiskGoesToFinish(s: Sys, a: Action, c: Uuid)
    requires EmitsRisk(s, a, c)
    ensures Finishing(Step(s, a), c)
  {
    var s' := Step(s, a);
    assert a.pid in s'.inflight && s'.inflight[a.pid] == FinishRisk(c);
  }

  lemma FinishingGoesOn(s: Sys, a: Action, c: Uuid)
    requires Finishing(s, c) && c in s.store.cases && !SavesRisk(s, a, c)
    ensures Finishing(Step(s, a), c)
  {
    var p :| p in s.inflight && s.inflight[p] == FinishRisk(c);
    StaysInFlight(s, a, p);
  }

  lemma EmitsBeforeEscalated(s: Sys, a: Action, c: Uuid)
    requires Inv(s) && EmitsRisk(s, a, c) && Count(s.log, c, FailureKind) == 0
    ensures s.store.cases[c].status == Decided && Count(s.log, c, ElevatedKind) == 0
  {
    assert ContOk(s, s.inflight[a.pid]);
    EmitterIsAlone(s, a.pid, a.pid, c);
  }

  lemma StatusStillTold(s: Sys, a: Action, c: Uuid)
    requires Inv(s) && c in s.store.cases && Told(s, c) && Count(Step(s, a).log, c, FailureKind) == 0
    ensures var s' := Step(s, a);
      && c in s'.store.cases
      && (s'.store.cases[c].status == Escalated ==> Count(s'.log, c, ElevatedKind) == 1)
      && (s'.store.cases[c].status != Escalated && Count(s'.log, c, ElevatedKind) >= 1 ==> Finishing(s', c))
  {
    StepClimbs(s, a, c);
    StepElevates(s, a, c);
    EscalatesOnlyByRisk(s, a, c);
    if s.store.cases[c].status == Escalated { EscalatedStays(s, a, c); }
    if EmitsRisk(s, a, c) {
      EmitsBeforeEscalated(s, a, c);
      RiskGoesToFinish(s, a, c);
    } else if Finishing(s, c) && !SavesRisk(s, a, c) {
      FinishingGoesOn(s, a, c);
    }
  }

  lemma StepTold(s: Sys, a: Action, c: Uuid)
    requires Inv(s) && c in s.store.cases && Told(s, c)
    ensures c in Step(s, a).store.cases && Told(Step(s, a), c)
  {
    var s' := Step(s, a);
    StepClimbs(s, a, c);
    forall p | p in s'.inflight
      ensures s'.inflight[p].FinishPolicy? && s'.inflight[p].c == c ==> Count(s'.log, c, ElevatedKind) == 0
      ensures s'.inflight[p] == FinishRisk(c) ==> Count(s'.log, c, ElevatedKind) == 1
    {
      FinishesStillFit(s, a, c, p);
    }
    if Count(s'.log, c, FailureKind) == 0 { StatusStillTold(s, a, c); }
  }

  lemma ResumeCreatesNone(s: Sys, pid: Pid, c: Uuid)
    requires pid in s.inflight && Live(s, s.inflight[pid]) && c in Resume'(s, pid).store.cases
    ensures c in s.store.cases
  {
  }

  lemma NewIsReceived(s: Sys, a: Action, c: Uuid)
    requires Inv(s) && c !in s.store.cases && c in Step(s, a).store.cases
    ensures Step(s, a).store.cases[c].status == Received
  {
    match a {
      case IntakeStep(triage, raises) => IntakeCreatesNone(s, triage, raises, c);
      case Resume(pid) => ResumeCreatesNone(s, pid, c);
      case TakeTicket(d) => TicketIsReceived(s, d, c);
      case _ => DeliverSubject(s, a);
    }
  }

  lemma TicketIsReceived(s: Sys, d: Uuid, c: Uuid)
    requires c !in s.store.cases && c in TakeTicket'(s, d).store.cases
    ensures TakeTicket'(s, d).store.cases[c].status == Received
  {
  }

  lemma IntakeCreatesNone(s: Sys, triage: Triage, raises: bool, c: Uuid)
    requires s.intake != Idle && s.intake.c in s.store.cases && c in IntakeStep'(s, triage, raises).store.cases
    ensures c in s.store.cases
  {
  }

  lemma ReceivedIsTold(s: Sys, c: Uuid)
    requires Inv(s) && c in s.store.cases && s.store.cases[c].status == Received
    ensures Told(s, c)
  {
    assert CaseOk(s, c);
    CountsAddUp(s.log, c);
    forall p | p in s.inflight
      ensures !(Claimed(s.inflight[p]) && s.inflight[p].c == c)
    {
      assert ContOk(s, s.inflight[p]);
    }
  }

  lemma {:induction false} RunTold(s: Sys, actions: seq<Action>, c: Uuid)
    requires Inv(s) && (c in s.store.cases ==> Told(s, c))
    ensures var s' := Run(s, actions);
      c in s'.store.cases ==> Told(s', c)
    decreases |actions|
  {
    if actions != [] {
      var s1 := Step(s, actions[0]);
      StepInv(s, actions[0]);
      if c in s.store.cases {
        StepTold(s, actions[0], c);
      } else if c in s1.store.cases {
        NewIsReceived(s, actions[0], c);
        ReceivedIsTold(s1, c);
      }
      RunTold(s1, actions[1..], c);
    }
  }

  // ---------------------------------------------------------------- at rest

  lemma {:induction false} CountedIsLogged(log: seq<Decision>, c: Uuid, kind: Kind) returns (i: nat)
    requires Count(log, c, kind) >= 1
    ensures i < |log| && log[i].caseId == c && Matches(log[i].emitter, kind)
  {
    var last := log[|log| - 1];
    if last.caseId == c && Matches(last.emitter, kind) {
      i := |log| - 1;
    } else {
      i := CountedIsLogged(log[..|log| - 1], c, kind);
    }
  }

  /** The case has a decision with this reason. */
  ghost predicate DecidedFor(s: Sys, c: Uuid, reason: Reason) {
    exists i :: 0 <= i < |s.log| && s.log[i].caseId == c && s.log[i].reason == Some(reason)
  }

  ghost predicate Answered(s: Sys, c: Uuid) {
    exists i :: 0 <= i < |s.log| && s.log[i].caseId == c && s.log[i].outcome == DirectResponse
  }

  lemma DecidedForExactly(s: Sys, c: Uuid)
    requires Reachable(s)
    ensures DecidedFor(s, c, PeerFailure) <==> Count(s.log, c, FailureKind) >= 1
    ensures DecidedFor(s, c, ElevatedRisk) <==> Count(s.log, c, ElevatedKind) >= 1
    ensures Answered(s, c) <==> Count(s.log, c, DirectKind) >= 1
  {
    forall i | 0 <= i < |s.log| && s.log[i].caseId == c
      ensures s.log[i].reason == Some(PeerFailure) ==> Count(s.log, c, FailureKind) >= 1
      ensures s.log[i].reason == Some(ElevatedRisk) ==> Count(s.log, c, ElevatedKind) >= 1
      ensures s.log[i].outcome == DirectResponse ==> Count(s.log, c, DirectKind) >= 1
    {
      ReasonsExactly(s, i);
      if s.log[i].reason == Some(PeerFailure) { LoggedCounts(s.log, i, FailureKind); }
      if s.log[i].reason == Some(ElevatedRisk) { LoggedCounts(s.log, i, ElevatedKind); }
      if s.log[i].outcome == DirectResponse { LoggedCounts(s.log, i, DirectKind); }
    }
    if Count(s.log, c, FailureKind) >= 1 {
      var i := CountedIsLogged(s.log, c, FailureKind);
      ReasonsExactly(s, i);
    }
    if Count(s.log, c, ElevatedKind) >= 1 {
      var i := CountedIsLogged(s.log, c, ElevatedKind);
      ReasonsExactly(s, i);
    }
    if Count(s.log, c, DirectKind) >= 1 {
      var i := CountedIsLogged(s.log, c, DirectKind);
      ReasonsExactly(s, i);
    }
  }

  lemma ReachableTold(s: Sys, c: Uuid)
    requires Reachable(s) && c in s.store.cases
    ensures Told(s, c)
  {
    var actions :| s == Run(INIT, actions);
    InitInv();
    RunTold(INIT, actions, c);
  }

  lemma AtRest(s: Sys, c: Uuid)
    requires Reachable(s) && Quiescent(s) && c in s.store.cases && Count(s.log, c, FailureKind) == 0
    ensures var r := s.store.cases[c];
      && (r.status == Escalated <==> Count(s.log, c, ElevatedKind) >= 1)
      && (r.status == Closed <==> Count(s.log, c, DirectKind) >= 1)
      && (r.status == Decided <==> Count(s.log, c, GuardedKind) >= 1 && Count(s.log, c, ElevatedKind) == 0)
  {
    ReachableInv(s);
    ReachableTold(s, c);
    ReachableProgress(s);
    assert CaseOk(s, c) && Progresses(s, c);
    CountsAddUp(s.log, c);
  }

  /** At rest, the status of a case no delegation of which has failed tells its decision: escalated after an
      elevated-risk escalation only, closed after a direct response, decided after any other decision, the
      policy's own escalations included, and none of these while there is no decision. */
  lemma StatusTellsDecision(s: Sys, c: Uuid)
    requires Reachable(s) && Quiescent(s) && c in s.store.cases && !DecidedFor(s, c, PeerFailure)
    ensures var r, n := s.store.cases[c], Count(s.log, c, AnyKind);
      && (r.status == Escalated <==> DecidedFor(s, c, ElevatedRisk))
      && (r.status == Closed <==> Answered(s, c))
      && (r.status == Decided <==> n >= 1 && !DecidedFor(s, c, ElevatedRisk) && !Answered(s, c))
  {
    DecidedForExactly(s, c);
    AtRest(s, c);
    CountsAddUp(s.log, c);
  }

  // ---------------------------------------------------------------- the finding that escalated

  predicate CarriesAdverse(k: Cont) { k.ClaimForRisk? || k.EmitRisk? ==> Adverse(k.risk) }

  /** Only an adverse finding is on its way to an escalation, and after one it is on file. */
  ghost predicate OnFile(s: Sys) {
    && (forall p {:trigger s.inflight[p]} :: p in s.inflight ==> CarriesAdverse(s.inflight[p]))
    && (forall c {:trigger FiledFor(s, c)} :: c in s.store.cases ==> FiledFor(s, c))
  }

  ghost predicate FiledFor(s: Sys, c: Uuid)
    requires c in s.store.cases
  {
    Count(s.log, c, ElevatedKind) >= 1 ==> s.store.cases[c].risk.Some? && Adverse(s.store.cases[c].risk.value)
  }

  lemma CarriesOn(s: Sys, a: Action, p: Pid)
    requires p in Step(s, a).inflight && (p in s.inflight ==> CarriesAdverse(s.inflight[p]))
    ensures CarriesAdverse(Step(s, a).inflight[p])
  {
    if Enabled(s, a) {
      if a == Resume(p) {
        ResumedCarries(s, p);
      } else if p in s.inflight {
        StaysInFlight(s, a, p);
      } else {
        StartsCarrying(s, a, p);
      }
    }
  }

  lemma ResumedCarries(s: Sys, p: Pid)
    requires p in s.inflight && Live(s, s.inflight[p]) && p in Resume'(s, p).inflight && CarriesAdverse(s.inflight[p])
    ensures CarriesAdverse(Resume'(s, p).inflight[p])
  {
  }

  lemma StartsCarrying(s: Sys, a: Action, p: Pid)
    requires Enabled(s, a) && p !in s.inflight && p in Step(s, a).inflight
    ensures CarriesAdverse(Step(s, a).inflight[p])
  {
    match a {
      case IntakeStep(triage, raises) => IntakeMovesNone(s, triage, raises);
      case Resume(q) => ResumeMovesOne(s, q);
      case _ =>
    }
  }

  lemma ResumeFiles(s: Sys, p: Pid, c: Uuid)
    requires p in s.inflight && Live(s, s.inflight[p]) && c in s.store.cases
    ensures var k, s' := s.inflight[p], Resume'(s, p);
      && c in s'.store.cases
      && (k.EmitRisk? && k.c == c ==> s'.store.cases[c].risk == Some(k.risk))
      && (!(k.EmitRisk? && k.c == c) && IsSettled(s.store.cases[c].status) ==>
            s'.store.cases[c].risk == s.store.cases[c].risk)
  {
    var k := s.inflight[p];
    if k.AttachBilling? || k.AttachRisk? || k.FailTask? || k.AttachTaskResult? {
      ResultKeepsSettled(s, p, c);
    } else {
      OthersFile(s, p, c);
    }
  }

  lemma ResultKeepsSettled(s: Sys, p: Pid, c: Uuid)
    requires p in s.inflight && Live(s, s.inflight[p]) && c in s.store.cases
    requires var k := s.inflight[p]; k.AttachBilling? || k.AttachRisk? || k.FailTask? || k.AttachTaskResult?
    ensures var s' := Resume'(s, p);
      && c in s'.store.cases
      && (IsSettled(s.store.cases[c].status) ==> s'.store.cases[c].risk == s.store.cases[c].risk)
  {
  }

  lemma OthersFile(s: Sys, p: Pid, c: Uuid)
    requires p in s.inflight && Live(s, s.inflight[p]) && c in s.store.cases
    requires var k := s.inflight[p]; !k.AttachBilling? && !k.AttachRisk? && !k.FailTask? && !k.AttachTaskResult?
    ensures var k, s' := s.inflight[p], Resume'(s, p);
      && c in s'.store.cases
      && s'.store.cases[c].risk == if k.EmitRisk? && k.c == c then Some(k.risk) else s.store.cases[c].risk
  {
    var k := s.inflight[p];
    if k.FinishPolicy? || k.FinishRisk? {
      FinishKeepsFindings(s, p, c);
    } else if k.ClaimForPolicy? || k.ClaimForRisk? {
      ClaimKeepsFindings(s, p, c);
    }
  }

  lemma FinishKeepsFindings(s: Sys, p: Pid, c: Uuid)
    requires p in s.inflight && Live(s, s.inflight[p]) && c in s.store.cases
    requires s.inflight[p].FinishPolicy? || s.inflight[p].FinishRisk?
    ensures var s' := Resume'(s, p);
      c in s'.store.cases && s'.store.cases[c].risk == s.store.cases[c].risk
  {
  }

  lemma ClaimKeepsFindings(s: Sys, p: Pid, c: Uuid)
    requires p in s.inflight && Live(s, s.inflight[p]) && c in s.store.cases
    requires s.inflight[p].ClaimForPolicy? || s.inflight[p].ClaimForRisk?
    ensures var s' := Resume'(s, p);
      c in s'.store.cases && s'.store.cases[c].risk == s.store.cases[c].risk
  {
  }

  lemma OthersKeepFindings(s: Sys, a: Action, c: Uuid)
    requires Inv(s) && c in s.store.cases && !a.Resume?
    ensures c in Step(s, a).store.cases && Step(s, a).store.cases[c].risk == s.store.cases[c].risk
  {
    if Enabled(s, a) {
      match a {
        case IntakeStep(triage, raises) => IntakeKeepsFindings(s, triage, raises, c);
        case TakeTicket(d) => TicketKeepsStatus(s, d, c);
        case _ => DeliverSubject(s, a);
      }
    }
  }

  lemma IntakeKeepsFindings(s: Sys, triage: Triage, raises: bool, c: Uuid)
    requires s.intake != Idle && s.intake.c in s.store.cases && c in s.store.cases
    ensures var s' := IntakeStep'(s, triage, raises);
      c in s'.store.cases && s'.store.cases[c].risk == s.store.cases[c].risk
  {
  }

  lemma StillFiled(s: Sys, a: Action, c: Uuid)
    requires Inv(s) && OnFile(s) && c in s.store.cases
    ensures c in Step(s, a).store.cases && FiledFor(Step(s, a), c)
  {
    assert CaseOk(s, c) && FiledFor(s, c);
    CountsAddUp(s.log, c);
    StepElevates(s, a, c);
    if !a.Resume? {
      OthersKeepFindings(s, a, c);
    } else if Enabled(s, a) {
      assert CarriesAdverse(s.inflight[a.pid]);
      ResumeFiles(s, a.pid, c);
    }
  }

  lemma NewIsFiled(s: Sys, a: Action, c: Uuid)
    requires Inv(s) && c !in s.store.cases && c in Step(s, a).store.cases
    ensures FiledFor(Step(s, a), c)
  {
    StepInv(s, a);
    NewIsReceived(s, a, c);
    assert CaseOk(Step(s, a), c);
    CountsAddUp(Step(s, a).log, c);
  }

  lemma {:induction false} RunOnFile(s: Sys, actions: seq<Action>)
    requires Inv(s) && OnFile(s)
    ensures OnFile(Run(s, actions))
    decreases |actions|
  {
    if actions != [] {
      var s' := Step(s, actions[0]);
      StepInv(s, actions[0]);
      forall p | p in s'.inflight ensures CarriesAdverse(s'.inflight[p]) { CarriesOn(s, actions[0], p); }
      forall c | c in s'.store.cases
        ensures FiledFor(s', c)
      {
        if c in s.store.cases {
          StillFiled(s, actions[0], c);
        } else {
          NewIsFiled(s, actions[0], c);
        }
      }
      RunOnFile(s', actions[1..]);
    }
  }

  /** A case that was escalated for elevated risk keeps the adverse finding that escalated it. */
  lemma EscalatedRiskIsOnFile(s: Sys, c: Uuid)
    requires Reachable(s) && DecidedFor(s, c, ElevatedRisk)
    ensures c in s.store.cases && s.store.cases[c].risk.Some?
    ensures var f := s.store.cases[c].risk.value;
      f.level == Elevated || f.level == High || f.requiresHumanReview
  {
    var actions :| s == Run(INIT, actions);
    InitInv();
    RunOnFile(INIT, actions);
    DecidedForExactly(s, c);
    ReachableInv(s);
    if c !in s.store.cases { UnknownCaseSilent(s, c); }
    assert FiledFor(s, c);
  }
}
