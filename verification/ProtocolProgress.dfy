/** No decision is lost and no delegated case is stuck. */
module ProtocolProgress {
  import opened Common
  import opened CaseModels
  import opened DecisionEngine
  import opened PeerVocabulary
  import opened StoreSpec
  import opened Protocol
  import opened ProtocolSafety
  import opened ProtocolFrame

  /** A claimed decision that has not been published yet. */
  ghost predicate Owed(s: Sys, c: Uuid) {
    exists p :: p in s.inflight && Unemitted(s.inflight[p]) && s.inflight[p].c == c
  }

  predicate Attempts(k: Cont) { k.CheckReady? || k.CheckReadyAfterTask? || k.ClaimForPolicy? }

  /** Someone in flight is going to look at the case and, if it is ready, try to claim it. */
  ghost predicate Attempted(s: Sys, c: Uuid) {
    exists p :: p in s.inflight && Attempts(s.inflight[p]) && s.inflight[p].c == c
  }

  ghost predicate Progresses(s: Sys, c: Uuid)
    requires c in s.store.cases
  {
    var r := s.store.cases[c];
    && (r.status in {Decided, Escalated} ==>
          Count(s.log, c, GuardedKind) == 1 || Count(s.log, c, FailureKind) == 1 || Owed(s, c))
    && (r.status in {WaitingForPeerReviews, ReadyForDecision} ==>
          !r.IsReadyToDecide() || s.intake == RegisteringBilling(c) || Attempted(s, c))
  }

  ghost predicate ProgressInv(s: Sys) {
    forall c {:trigger Progresses(s, c)} :: c in s.store.cases ==> Progresses(s, c)
  }

  /** Continuations other than pid still stand for what they stood for. */
  lemma OwedStands(s: Sys, s': Sys, c: Uuid, pid: Pid)
    requires OnlyCont(s, s', pid)
    requires pid in s.inflight && Unemitted(s.inflight[pid]) ==> s.inflight[pid].c != c
    ensures Owed(s, c) ==> Owed(s', c)
  {
    if Owed(s, c) {
      var p :| p in s.inflight && Unemitted(s.inflight[p]) && s.inflight[p].c == c;
      assert p in s'.inflight && s'.inflight[p] == s.inflight[p];
    }
  }

  lemma AttemptStands(s: Sys, s': Sys, c: Uuid, pid: Pid)
    requires OnlyCont(s, s', pid)
    requires pid in s.inflight && Attempts(s.inflight[pid]) ==> s.inflight[pid].c != c
    ensures Attempted(s, c) ==> Attempted(s', c)
  {
    if Attempted(s, c) {
      var p :| p in s.inflight && Attempts(s.inflight[p]) && s.inflight[p].c == c;
      assert p in s'.inflight && s'.inflight[p] == s.inflight[p];
    }
  }

  lemma SameFlights(s: Sys, s': Sys, c: Uuid)
    requires s'.inflight == s.inflight
    ensures Owed(s, c) <==> Owed(s', c)
    ensures Attempted(s, c) <==> Attempted(s', c)
  {
    forall p | p in s.inflight ensures p in s'.inflight && s'.inflight[p] == s.inflight[p] {}
  }

  /** Only its own resumption moves a continuation. */
  lemma StaysInFlight(s: Sys, a: Action, pid: Pid)
    requires pid in s.inflight && a != Resume(pid)
    ensures pid in Step(s, a).inflight && Step(s, a).inflight[pid] == s.inflight[pid]
  {
    if Enabled(s, a) {
      StepMovesOne(s, a, if a.Tick? || a.TakeTicket? || a.IntakeStep? then pid + 1 else a.pid);
    }
  }

  lemma Stands(s: Sys, p: Pid)
    requires p in s.inflight && !s.inflight[p].Sweep?
    ensures Unemitted(s.inflight[p]) ==> Owed(s, s.inflight[p].c)
    ensures Attempts(s.inflight[p]) ==> Attempted(s, s.inflight[p].c)
  {
  }

  /** Nothing but the intake moves: the same continuations are in flight. */
  lemma IntakeProgress(s: Sys, s': Sys, c: Uuid)
    requires c in s.store.cases && c in s'.store.cases && s'.inflight == s.inflight && Progresses(s, c)
    requires 1 >= Count(s'.log, c, FailureKind) >= Count(s.log, c, FailureKind)
    requires s.store.cases[c].status in {Decided, Escalated} ==>
               Count(s'.log, c, GuardedKind) == Count(s.log, c, GuardedKind)
    requires s'.intake == RegisteringBilling(c) ==> s'.store.cases[c].status == WaitingForPeerReviews
    requires s.intake == RegisteringBilling(c) ==> s'.intake == s.intake || !s'.store.cases[c].IsReadyToDecide()
    requires !s.store.cases[c].IsReadyToDecide() ==> !s'.store.cases[c].IsReadyToDecide()
    requires s'.store.cases[c].status == s.store.cases[c].status || s'.intake == RegisteringBilling(c)
          || s'.store.cases[c].status in {Classified, Closed}
          || (s'.store.cases[c].status == Escalated && Count(s'.log, c, FailureKind) == 1)
    ensures Progresses(s', c)
  {
    SameFlights(s, s', c);
  }

  lemma IntakeKeepsFailures(s: Sys, s': Sys, c: Uuid, triage: Triage, raises: bool)
    requires AtIntake(s, s.intake) && s.intake.c == c && s' == IntakeStep'(s, triage, raises)
    ensures Count(s.log, c, FailureKind) <= Count(s'.log, c, FailureKind)
    ensures s.intake.EscalatingFailure? ==> Count(s.log, c, FailureKind) == 1
  {
    IntakeClimbs(s, s', c, triage, raises);
  }

  lemma IntakeCounts(s: Sys, s': Sys, c: Uuid)
    requires AtIntake(s, s.intake) && s.intake.c == c && IntakeMove(s, s', c)
    ensures c in s'.store.cases && s'.inflight == s.inflight
    ensures Count(s'.log, c, FailureKind) <= 1
    ensures s.store.cases[c].status in {Decided, Escalated} ==>
              Count(s'.log, c, GuardedKind) == Count(s.log, c, GuardedKind)
    ensures s'.intake == RegisteringBilling(c) ==> s'.store.cases[c].status == WaitingForPeerReviews
  {
    assert StatusOk(s, c, s.store.cases[c]) && CountsOk(s', c, s'.store.cases[c]);
  }

  /** A handler that has just written a result, or is about to look at the case. */
  lemma AttemptProgress(s: Sys, s': Sys, pid: Pid, c: Uuid)
    requires c in s.store.cases && c in s'.store.cases && Progresses(s, c) && OnlyCont(s, s', pid) && s'.log == s.log
    requires pid in s.inflight && Unemitted(s.inflight[pid]) ==> s.inflight[pid].c != c
    requires IsSettled(s'.store.cases[c].status) ==> s'.store.cases[c].status == s.store.cases[c].status
    requires !IsSettled(s'.store.cases[c].status) ==>
               !s'.store.cases[c].IsReadyToDecide() ||
               (pid in s'.inflight && Attempts(s'.inflight[pid]) && s'.inflight[pid].c == c)
    ensures Progresses(s', c)
  {
    OwedStands(s, s', c, pid);
    if pid in s'.inflight && Attempts(s'.inflight[pid]) { Stands(s', pid); }
  }

  lemma ClaimProgress(s: Sys, s': Sys, pid: Pid, c: Uuid)
    requires c in s'.store.cases && s'.store.cases[c].status == Decided
    requires pid in s'.inflight && Unemitted(s'.inflight[pid]) && s'.inflight[pid].c == c
    ensures Progresses(s', c)
  {
    Stands(s', pid);
  }

  lemma EmittedProgress(s': Sys, c: Uuid)
    requires c in s'.store.cases && Count(s'.log, c, GuardedKind) == 1 && IsSettled(s'.store.cases[c].status)
    ensures Progresses(s', c)
  {
  }

  lemma QuietProgress(s: Sys, s': Sys, pid: Pid, c: Uuid)
    requires Quiet(s, s') && OnlyCont(s, s', pid) && pid !in s.inflight && c in s.store.cases && Progresses(s, c)
    ensures Progresses(s', c)
  {
    OwedStands(s, s', c, pid);
    AttemptStands(s, s', c, pid);
  }

  // ---------------------------------------------------------------- the steps

  lemma ResumeBeforeClaim(s: Sys, s': Sys, pid: Pid, k: Cont)
    requires CasesOk(s) && ContOk(s, k) && pid in s.inflight && s.inflight[pid] == k && Live(s, k)
        && s' == Resume'(s, pid)
    requires k.AttachBilling? || k.AttachRisk? || k.FailTask? || k.CheckReady? || k.CheckReadyAfterTask?
    requires Progresses(s, k.c)
    ensures Progresses(s', k.c)
  {
    assert CaseOk(s, k.c);
    ResumeMovesOne(s, pid);
    if k.CheckReady? || k.CheckReadyAfterTask? {
      CheckAttempts(s, s', pid, k);
    } else {
      ResultAttempts(s, s', pid, k);
    }
    AttemptProgress(s, s', pid, k.c);
  }

  /** A result is written before the case is looked at. */
  lemma ResultAttempts(s: Sys, s': Sys, pid: Pid, k: Cont)
    requires pid in s.inflight && s.inflight[pid] == k && Live(s, k) && s' == Resume'(s, pid)
    requires k.AttachBilling? || k.AttachRisk? || k.FailTask?
    requires CaseOk(s, k.c) && ContOk(s, k)
    ensures s'.log == s.log && k.c in s'.store.cases
    ensures IsSettled(s'.store.cases[k.c].status) ==> s'.store.cases[k.c].status == s.store.cases[k.c].status
    ensures pid in s'.inflight && Attempts(s'.inflight[pid]) && s'.inflight[pid].c == k.c
  {
  }

  /** A look at the case ends the run only while a peer is pending or when the case is settled. */
  lemma CheckAttempts(s: Sys, s': Sys, pid: Pid, k: Cont)
    requires pid in s.inflight && s.inflight[pid] == k && Live(s, k) && s' == Resume'(s, pid)
    requires k.CheckReady? || k.CheckReadyAfterTask?
    ensures s'.log == s.log && s'.store == s.store
    ensures !IsSettled(s.store.cases[k.c].status) ==>
              !s.store.cases[k.c].IsReadyToDecide() ||
              (pid in s'.inflight && Attempts(s'.inflight[pid]) && s'.inflight[pid].c == k.c)
  {
  }

  lemma ResumeAtClaim(s: Sys, s': Sys, pid: Pid, k: Cont)
    requires pid in s.inflight && s.inflight[pid] == k && Live(s, k) && s' == Resume'(s, pid)
    requires k.ClaimForPolicy? || k.ClaimForRisk?
    requires Progresses(s, k.c)
    ensures Progresses(s', k.c)
  {
    if IsSettled(s.store.cases[k.c].status) {
      LostClaim(s, pid);
      AttemptProgress(s, s', pid, k.c);
    } else {
      ClaimProgress(s, s', pid, k.c);
    }
  }

  lemma ResumeSweeping(s: Sys, s': Sys, pid: Pid, rest: seq<Uuid>)
    requires pid in s.inflight && s.inflight[pid] == Sweep(rest) && Live(s, Sweep(rest)) && s' == Resume'(s, pid)
    requires rest != [] && rest[0] in s.store.cases && Progresses(s, rest[0])
    ensures Progresses(s', rest[0])
  {
    OwedStands(s, s', rest[0], pid);
    AttemptStands(s, s', rest[0], pid);
  }

  /** After an emission the claim has been paid. */
  lemma ResumePaid(s: Sys, s': Sys, pid: Pid, k: Cont)
    requires ContsOk(s) && pid in s.inflight && s.inflight[pid] == k && Live(s, k) && Claimed(k)
        && s' == Resume'(s, pid)
    ensures k.c in s'.store.cases && Progresses(s', k.c)
  {
    assert ContOk(s, k);
    if Unemitted(k) {
      ResumeEmits(s, s', pid, k);
    } else {
      ResumeFinishes(s, s', pid, k);
    }
    EmittedProgress(s', k.c);
  }

  lemma ResumeEmits(s: Sys, s': Sys, pid: Pid, k: Cont)
    requires pid in s.inflight && s.inflight[pid] == k && Live(s, k) && Unemitted(k) && s' == Resume'(s, pid)
    requires IsSettled(s.store.cases[k.c].status) && Count(s.log, k.c, GuardedKind) == 0
    ensures k.c in s'.store.cases && IsSettled(s'.store.cases[k.c].status) && Count(s'.log, k.c, GuardedKind) == 1
  {
    var d := s'.log[|s.log|];
    assert s'.log == s.log + [d] && d.caseId == k.c && Matches(d.emitter, GuardedKind);
    CountAppend(s.log, d, k.c, GuardedKind);
  }

  lemma ResumeFinishes(s: Sys, s': Sys, pid: Pid, k: Cont)
    requires pid in s.inflight && s.inflight[pid] == k && Live(s, k) && s' == Resume'(s, pid)
    requires k.FinishPolicy? || k.FinishRisk?
    ensures k.c in s'.store.cases && IsSettled(s'.store.cases[k.c].status) && s'.log == s.log
  {
  }

  lemma ResumeProgress(s: Sys, s': Sys, pid: Pid, k: Cont)
    requires Inv(s) && pid in s.inflight && s.inflight[pid] == k && Live(s, k) && s' == Resume'(s, pid)
    requires ContSubject(k) in s.store.cases && Progresses(s, ContSubject(k))
    requires ContSubject(k) in s'.store.cases && (k.Sweep? ==> k.rest != [])
    ensures Progresses(s', ContSubject(k))
  {
    assert ContOk(s, k);
    if Claimed(k) {
      ResumePaid(s, s', pid, k);
    } else if k.Sweep? {
      ResumeSweeping(s, s', pid, k.rest);
    } else if k.ClaimForPolicy? || k.ClaimForRisk? {
      ResumeAtClaim(s, s', pid, k);
    } else {
      ResumeBeforeClaim(s, s', pid, k);
    }
  }

  lemma IntakeFacts(s: Sys, s': Sys, c: Uuid, triage: Triage, raises: bool)
    requires AtIntake(s, s.intake) && s.intake.c == c && s' == IntakeStep'(s, triage, raises)
    ensures c in s'.store.cases
    ensures s.intake == RegisteringBilling(c) ==> !s'.store.cases[c].IsReadyToDecide()
    ensures !s.store.cases[c].IsReadyToDecide() ==> !s'.store.cases[c].IsReadyToDecide()
    ensures s'.store.cases[c].status == s.store.cases[c].status || s'.intake == RegisteringBilling(c)
         || s'.store.cases[c].status in {Classified, Closed}
         || (s'.store.cases[c].status == Escalated && s.intake.EscalatingFailure?)
  {
    if s.intake.RegisteringBilling? || s.intake.RegisteringRisk? {
      RegisterFacts(s, s', c, triage, raises);
    } else if s.intake.Classifying? || s.intake.PublishingClassified? || s.intake.ClosingDirect? {
      EarlyFacts(s, s', c, triage, raises);
    } else {
      LateFacts(s, s', c, triage, raises);
    }
  }

  lemma RegisterFacts(s: Sys, s': Sys, c: Uuid, triage: Triage, raises: bool)
    requires AtIntake(s, s.intake) && s.intake.c == c && s' == IntakeStep'(s, triage, raises)
    requires s.intake.RegisteringBilling? || s.intake.RegisteringRisk?
    ensures c in s'.store.cases && s'.store.cases[c].pending != {}
    ensures s'.store.cases[c].billingFailed == s.store.cases[c].billingFailed
    ensures s'.store.cases[c].riskFailed == s.store.cases[c].riskFailed
    ensures s.intake == RegisteringBilling(c) ==> !s'.store.cases[c].IsReadyToDecide()
    ensures s'.store.cases[c].status == s.store.cases[c].status
  {
    RaiseOnlyMattersLate(s, triage, raises);
    if s.intake.RegisteringBilling? {
      RegisterBillingWrites(s, c, triage);
      assert BillingTask(c) in s'.store.cases[c].pending;
    } else {
      RegisterRiskWrites(s, c, triage);
      assert RiskTask(c) in s'.store.cases[c].pending;
    }
  }

  lemma EarlyFacts(s: Sys, s': Sys, c: Uuid, triage: Triage, raises: bool)
    requires AtIntake(s, s.intake) && s.intake.c == c && s' == IntakeStep'(s, triage, raises)
    requires s.intake.Classifying? || s.intake.PublishingClassified? || s.intake.ClosingDirect?
    ensures c in s'.store.cases && s'.store.cases[c].pending == s.store.cases[c].pending
    ensures s'.store.cases[c].IsReadyToDecide() == s.store.cases[c].IsReadyToDecide()
    ensures s'.store.cases[c].status == s.store.cases[c].status || s'.intake == RegisteringBilling(c)
         || s'.store.cases[c].status in {Classified, Closed}
  {
  }

  lemma LateFacts(s: Sys, s': Sys, c: Uuid, triage: Triage, raises: bool)
    requires AtIntake(s, s.intake) && s.intake.c == c && s' == IntakeStep'(s, triage, raises)
    requires s.intake.RequestingBilling? || s.intake.RequestingRisk? || s.intake.Announcing?
        || s.intake.EscalatingFailure?
    ensures c in s'.store.cases && s'.store.cases[c].pending == s.store.cases[c].pending
    ensures s'.store.cases[c].IsReadyToDecide() == s.store.cases[c].IsReadyToDecide()
    ensures s'.store.cases[c].status == if s.intake.EscalatingFailure? then Escalated else s.store.cases[c].status
  {
  }

  lemma IntakeStepProgress(s: Sys, s': Sys, triage: Triage, raises: bool)
    requires Inv(s) && s.intake != Idle && s.intake.c in s.store.cases && s' == IntakeStep'(s, triage, raises)
    requires Progresses(s, s.intake.c)
    ensures s.intake.c in s'.store.cases && Progresses(s', s.intake.c)
  {
    InvAtIntake(s);
    IntakeMoves(s, triage, raises);
    IntakeFacts(s, s', s.intake.c, triage, raises);
    IntakeCounts(s, s', s.intake.c);
    IntakeKeepsFailures(s, s', s.intake.c, triage, raises);
    IntakeProgress(s, s', s.intake.c);
  }

  lemma NewTicketProgress(s: Sys, s': Sys, c: Uuid)
    requires Inv(s) && s.intake == Idle && s' == TakeTicket'(s, c) && ProgressInv(s)
    ensures c in s'.store.cases && Progresses(s', c)
  {
    if c in s.store.cases {
      KnownTicketSkipped(s, c);
    } else {
      NewTicketTouches(s, s', c);
    }
  }

  lemma SubjectProgress(s: Sys, a: Action)
    requires Inv(s) && ProgressInv(s) && Enabled(s, a) && Subject(s, a) in Step(s, a).store.cases
    requires a.TakeTicket? || a.IntakeStep? || a.Resume?
    requires a.Resume? && s.inflight[a.pid].Sweep? ==> s.inflight[a.pid].rest != []
    ensures Progresses(Step(s, a), Subject(s, a))
  {
    match a {
      case TakeTicket(c) => NewTicketProgress(s, Step(s, a), c);
      case IntakeStep(triage, raises) => IntakeStepProgress(s, Step(s, a), triage, raises);
      case Resume(pid) =>
        assert ContOk(s, s.inflight[pid]);
        ResumeProgress(s, Step(s, a), pid, s.inflight[pid]);
    }
  }

  lemma OthersProgressIntake(s: Sys, s': Sys, c: Uuid, d: Uuid)
    requires Touches(s, s', c) && s'.inflight == s.inflight && d != c && d in s.store.cases && Progresses(s, d)
    requires s.intake == RegisteringBilling(d) ==> s'.intake == s.intake
    ensures Progresses(s', d)
  {
    OtherCounts(s, s', c, d, GuardedKind);
    OtherCounts(s, s', c, d, FailureKind);
    SameFlights(s, s', d);
  }

  lemma IntakeSideFlights(s: Sys, a: Action)
    requires a.TakeTicket? || a.IntakeStep?
    ensures Step(s, a).inflight == s.inflight
  {
  }

  lemma IntakeSideOthers(s: Sys, s': Sys, c: Uuid, d: Uuid)
    requires ProgressInv(s) && Touches(s, s', c) && s'.inflight == s.inflight && d != c && d in s'.store.cases
    ensures Progresses(s', d)
  {
    OthersProgressIntake(s, s', c, d);
  }

  lemma IntakeSideProgress(s: Sys, a: Action, d: Uuid)
    requires Inv(s) && ProgressInv(s) && Enabled(s, a) && (a.TakeTicket? || a.IntakeStep?)
    requires d in Step(s, a).store.cases
    ensures Progresses(Step(s, a), d)
  {
    if d == Subject(s, a) {
      SubjectProgress(s, a);
    } else {
      StepTouches(s, a);
      IntakeSideFlights(s, a);
      IntakeSideOthers(s, Step(s, a), Subject(s, a), d);
    }
  }

  lemma ResumeSideProgress(s: Sys, pid: Pid, d: Uuid)
    requires Inv(s) && ProgressInv(s) && Enabled(s, Resume(pid)) && d in Step(s, Resume(pid)).store.cases
    ensures Progresses(Step(s, Resume(pid)), d)
  {
    if s.inflight[pid] != Sweep([]) && d == Subject(s, Resume(pid)) {
      SubjectProgress(s, Resume(pid));
    } else {
      StepMovesOne(s, Resume(pid), pid);
      if s.inflight[pid] == Sweep([]) {
        SweptProgress(s, Step(s, Resume(pid)), pid, d);
      } else {
        StepTouches(s, Resume(pid));
        ResumedOthers(s, Step(s, Resume(pid)), pid, d);
      }
    }
  }

  lemma SweptProgress(s: Sys, s': Sys, pid: Pid, d: Uuid)
    requires pid in s.inflight && s.inflight[pid] == Sweep([]) && s' == Resume'(s, pid) && OnlyCont(s, s', pid)
    requires d in s'.store.cases && ProgressInv(s)
    ensures Progresses(s', d)
  {
    assert Progresses(s, d);
    OwedStands(s, s', d, pid);
    AttemptStands(s, s', d, pid);
  }

  lemma DeliverSideProgress(s: Sys, a: Action, d: Uuid)
    requires IndexOk(s) && ProgressInv(s) && Enabled(s, a) && d in Step(s, a).store.cases
    requires a.DeliverBilling? || a.DeliverRisk? || a.DeliverTaskResult? || a.StartSweep? || a.Tick?
    ensures Progresses(Step(s, a), d)
  {
    DeliverSubject(s, a);
    assert d in s.store.cases ==> Progresses(s, d);
    if a.Tick? {
      SameFlights(s, Step(s, a), d);
    } else {
      StepMovesOne(s, a, a.pid);
      QuietProgress(s, Step(s, a), a.pid, d);
    }
  }

  lemma StepProgress(s: Sys, a: Action, d: Uuid)
    requires Inv(s) && ProgressInv(s) && d in Step(s, a).store.cases
    ensures Progresses(Step(s, a), d)
  {
    if Enabled(s, a) {
      if a.TakeTicket? || a.IntakeStep? {
        IntakeSideProgress(s, a, d);
      } else if a.Resume? {
        ResumeSideProgress(s, a.pid, d);
      } else {
        DeliverSideProgress(s, a, d);
      }
    }
  }

  lemma ResumedOthers(s: Sys, s': Sys, pid: Pid, d: Uuid)
    requires pid in s.inflight && OnlyCont(s, s', pid) && Touches(s, s', ContSubject(s.inflight[pid]))
    requires d != ContSubject(s.inflight[pid]) && d in s'.store.cases && ProgressInv(s)
    ensures Progresses(s', d)
  {
    assert Progresses(s, d);
    OwedStands(s, s', d, pid);
    AttemptStands(s, s', d, pid);
    OtherCounts(s, s', ContSubject(s.inflight[pid]), d, GuardedKind);
    OtherCounts(s, s', ContSubject(s.inflight[pid]), d, FailureKind);
  }

  lemma {:induction false} RunProgress(s: Sys, actions: seq<Action>)
    requires Inv(s) && ProgressInv(s)
    ensures ProgressInv(Run(s, actions))
    decreases |actions|
  {
    if actions != [] {
      var s' := Step(s, actions[0]);
      StepInv(s, actions[0]);
      forall d | d in s'.store.cases ensures Progresses(s', d) { StepProgress(s, actions[0], d); }
      RunProgress(s', actions[1..]);
    }
  }

  lemma ReachableProgress(s: Sys)
    requires Reachable(s)
    ensures ProgressInv(s)
  {
    var actions :| s == Run(INIT, actions);
    InitInv();
    RunProgress(INIT, actions);
  }
}
