/** Each step concerns one case, and moves it forward only. */
module ProtocolFrame {
  import opened Common
  import opened CaseModels
  import opened DecisionEngine
  import opened PeerVocabulary
  import opened StoreSpec
  import opened Protocol
  import opened ProtocolSafety

  function ContSubject(k: Cont): Uuid {
    if !k.Sweep? then k.c else if k.rest == [] then 0 else k.rest[0]
  }

  /** The one case an action can concern. */
  function Subject(s: Sys, a: Action): Uuid {
    match a
    case Tick(_) => 0
    case TakeTicket(c) => c
    case IntakeStep(_, _) => if s.intake == Idle then 0 else s.intake.c
    case DeliverBilling(_, correlation, _) => correlation
    case DeliverRisk(_, correlation, _) => correlation
    case DeliverTaskResult(_, t, _, _) => if t.Uuid5? then t.ns else 0
    case StartSweep(_, _) => 0
    case Resume(pid) => if pid in s.inflight then ContSubject(s.inflight[pid]) else 0
  }

  /** The continuation an action creates, advances or ends (a fresh one for none). */
  predicate Drives(a: Action, pid: Pid) {
    match a
    case Tick(_) => true
    case TakeTicket(_) => true
    case IntakeStep(_, _) => true
    case DeliverBilling(p, _, _) => p == pid
    case DeliverRisk(p, _, _) => p == pid
    case DeliverTaskResult(p, _, _, _) => p == pid
    case StartSweep(p, _) => p == pid
    case Resume(p) => p == pid
  }

  /** A case only moves forward: its version and, short of a failed delegation, its status rank
      never drop; settled stays settled; a slot that failed first is never filled, except by the
      risk finding that has itself just forced an escalation. */
  ghost predicate Climbs(s: Sys, s': Sys, c: Uuid) {
    && c in s.store.cases && c in s'.store.cases
    && var r, r' := s.store.cases[c], s'.store.cases[c];
    && r'.version >= r.version
    && Count(s'.log, c, FailureKind) >= Count(s.log, c, FailureKind)
    && Count(s'.log, c, ElevatedKind) >= Count(s.log, c, ElevatedKind)
    && (Count(s'.log, c, FailureKind) == 0 ==> Rank(r'.status) >= Rank(r.status))
    && (IsSettled(r.status) ==> IsSettled(r'.status))
    && (r.billingFailed ==> r'.billingFailed)
    && (r.riskFailed ==> r'.riskFailed)
    && (r.billingFailed && r.billing == None ==> r'.billing == None)
    && (r.riskFailed && r.risk == None ==> r'.risk == None || Count(s'.log, c, ElevatedKind) >= 1)
  }

  /** A write that keeps the findings and does not step back climbs. */
  lemma WrittenClimbs(s: Sys, s': Sys, c: Uuid, r': CaseRec)
    requires c in s.store.cases && s'.store.cases == s.store.cases[c := r'] && s'.log == s.log
    requires var r := s.store.cases[c];
      && r'.version >= r.version && (Count(s.log, c, FailureKind) == 0 ==> Rank(r'.status) >= Rank(r.status))
          && (IsSettled(r.status) ==> IsSettled(r'.status))
      && r'.billing == r.billing && r'.risk == r.risk && r'.billingFailed == r.billingFailed
          && r'.riskFailed == r.riskFailed
    ensures Climbs(s, s', c)
  {
  }

  lemma WrittenTouches(s: Sys, s': Sys, c: Uuid, r': CaseRec)
    requires c in s.store.cases && s' == s.(store := WithCase(s.store, c, r'), inflight := s'.inflight)
    requires var r := s.store.cases[c];
      && r'.billingTask == r.billingTask && r'.riskTask == r.riskTask && r'.pending <= r.pending
      && r'.deadline == r.deadline && r'.triage == r.triage
    ensures Touches(s, s', c)
  {
  }

  lemma QuietTouches(s: Sys, s': Sys, c: Uuid)
    requires Quiet(s, s')
    ensures Touches(s, s', c) && (c in s.store.cases ==> Climbs(s, s', c))
  {
  }

  lemma AttachTouches(s: Sys, s': Sys, c: Uuid, t: TaskId, f: Finding)
    requires c in s.store.cases && s' == s.(store := ApplyResult(s.store, c, t, f).0, inflight := s'.inflight)
    requires CaseOk(s, c) && t == if f.OfBilling? then BillingTask(c) else RiskTask(c)
    ensures Touches(s, s', c) && Climbs(s, s', c)
  {
    var r := s.store.cases[c];
    if Attachable(r, t) {
      WrittenTouches(s, s', c, AttachTo(r, t, f));
      AttachedClimbs(s, s', c, t, f);
    } else {
      QuietTouches(s, s', c);
    }
  }

  lemma AttachedClimbs(s: Sys, s': Sys, c: Uuid, t: TaskId, f: Finding)
    requires c in s.store.cases && s'.log == s.log && CaseOk(s, c) && Attachable(s.store.cases[c], t)
    requires s'.store.cases == s.store.cases[c := AttachTo(s.store.cases[c], t, f)]
    requires t == if f.OfBilling? then BillingTask(c) else RiskTask(c)
    ensures Climbs(s, s', c)
  {
  }

  lemma FailTouches(s: Sys, s': Sys, c: Uuid, t: TaskId, isBilling: bool)
    requires c in s.store.cases && s' == s.(store := MarkSlotFailed(s.store, c, t, isBilling), inflight := s'.inflight)
    ensures Touches(s, s', c) && Climbs(s, s', c)
  {
    if IsTerminal(s.store.cases[c].status) {
      QuietTouches(s, s', c);
    } else {
      WrittenTouches(s, s', c, FailSlot(s.store.cases[c], t, isBilling));
    }
  }

  lemma ClaimTouches(s: Sys, s': Sys, c: Uuid)
    requires c in s.store.cases && s' == s.(store := ClaimDecision(s.store, c).0, inflight := s'.inflight)
    requires s.store.cases[c].status != ResponseDrafted
    ensures Touches(s, s', c) && Climbs(s, s', c)
  {
    if ClaimDecision(s.store, c).1 {
      var r := s.store.cases[c];
      var r' := r.(status := Decided, version := r.version + 1);
      WrittenTouches(s, s', c, r');
      WrittenClimbs(s, s', c, r');
    } else {
      QuietTouches(s, s', c);
    }
  }

  lemma FinishTouches(s: Sys, s': Sys, c: Uuid, status: CaseStatus)
    requires c in s.store.cases
    requires var r := s.store.cases[c];
      s' == s.(store := WithCase(s.store, c, r.(status := status, version := r.version + 1)), inflight := s'.inflight)
    ensures Touches(s, s', c)
  {
    var r := s.store.cases[c];
    WrittenTouches(s, s', c, r.(status := status, version := r.version + 1));
  }

  lemma FinishClimbs(s: Sys, s': Sys, c: Uuid, status: CaseStatus)
    requires c in s.store.cases && s'.log == s.log
    requires var r := s.store.cases[c];
      s'.store.cases == s.store.cases[c := r.(status := status, version := r.version + 1)]
    requires status == Escalated || status == Decided
    requires status == Decided && Count(s.log, c, FailureKind) == 0 ==> s.store.cases[c].status == Decided
    ensures Climbs(s, s', c)
  {
    var r := s.store.cases[c];
    FinishRanks(r.status, status);
    WrittenClimbs(s, s', c, r.(status := status, version := r.version + 1));
  }

  lemma FinishRanks(from: CaseStatus, to: CaseStatus)
    requires to == Escalated || to == Decided
    ensures IsSettled(to) && (to == Escalated || from == Decided ==> Rank(to) >= Rank(from))
  {
  }

  lemma FinishWrites(s: Sys, c: Uuid, status: CaseStatus)
    requires CasesOk(s) && IndexOk(s) && c in s.store.cases
    ensures var r := s.store.cases[c];
      SaveStatus(s, c, status) == s.(store := WithCase(s.store, c, r.(status := status, version := r.version + 1)))
  {
    assert CaseOk(s, c);
    SaveStatusWrites(s, c, status);
  }

  lemma EmittedTouches(s: Sys, s': Sys, c: Uuid, r: CaseRec, d: Decision)
    requires c in s.store.cases && d.caseId == c && r == s.store.cases[c].(risk := r.risk)
    requires s'.store == s.store || s'.store == WithCase(s.store, c, r)
    requires s' == s.(store := s'.store, log := s.log + [d], inflight := s'.inflight)
    requires s'.store == s.store || d.emitter.ElevatedRiskEmit?
    ensures Touches(s, s', c) && Climbs(s, s', c)
  {
    EmitCounts(s, s', d);
  }

  lemma ResumeTouchesResult(s: Sys, s': Sys, pid: Pid, k: Cont)
    requires ContOk(s, k) && CasesOk(s) && pid in s.inflight && s.inflight[pid] == k && Live(s, k)
        && s' == Resume'(s, pid)
    requires k.AttachBilling? || k.AttachRisk? || k.FailTask?
    ensures Touches(s, s', k.c) && Climbs(s, s', k.c)
  {
    match k {
      case AttachBilling(c, f) => AttachTouches(s, s', c, BillingTask(c), OfBilling(f));
      case AttachRisk(c, f) => AttachTouches(s, s', c, RiskTask(c), OfRisk(f));
      case FailTask(c, t, isBilling) => FailTouches(s, s', c, t, isBilling);
    }
  }

  lemma ResumeTouchesClaim(s: Sys, s': Sys, pid: Pid, k: Cont)
    requires CasesOk(s) && pid in s.inflight && s.inflight[pid] == k && Live(s, k) && s' == Resume'(s, pid)
    requires k.ClaimForPolicy? || k.ClaimForRisk? || k.CheckReady? || k.CheckReadyAfterTask? || k.Sweep?
    ensures Touches(s, s', ContSubject(k)) && (ContSubject(k) in s.store.cases ==> Climbs(s, s', ContSubject(k)))
  {
    if k.ClaimForPolicy? || k.ClaimForRisk? {
      assert CaseOk(s, k.c);
      ClaimTouches(s, s', k.c);
    } else {
      QuietTouches(s, s', ContSubject(k));
    }
  }

  lemma ResumeTouchesEmit(s: Sys, s': Sys, pid: Pid, k: Cont)
    requires ContOk(s, k) && CasesOk(s) && IndexOk(s)
    requires pid in s.inflight && s.inflight[pid] == k && Live(s, k) && s' == Resume'(s, pid)
    requires Claimed(k)
    ensures Touches(s, s', k.c) && Climbs(s, s', k.c)
  {
    match k {
      case EmitPolicy(c, flow) => EmittedTouches(s, s', c, s.store.cases[c], s'.log[|s.log|]);
      case FinishPolicy(c, flow) =>
        FinishWrites(s, c, Decided);
        FinishTouches(s, s', c, Decided);
        FinishClimbs(s, s', c, Decided);
      case EmitRisk(c, f) => EmittedTouches(s, s', c, s.store.cases[c].(risk := Some(f)), s'.log[|s.log|]);
      case FinishRisk(c) =>
        FinishWrites(s, c, Escalated);
        FinishTouches(s, s', c, Escalated);
        FinishClimbs(s, s', c, Escalated);
    }
  }

  lemma ResumeTouches(s: Sys, s': Sys, pid: Pid, k: Cont)
    requires ContOk(s, k) && CasesOk(s) && IndexOk(s) && pid in s.inflight && s.inflight[pid] == k && Live(s, k)
    requires s' == Resume'(s, pid)
    ensures Touches(s, s', ContSubject(k)) && (ContSubject(k) in s.store.cases ==> Climbs(s, s', ContSubject(k)))
  {
    if Claimed(k) {
      ResumeTouchesEmit(s, s', pid, k);
    } else if k.AttachBilling? || k.AttachRisk? || k.FailTask? {
      ResumeTouchesResult(s, s', pid, k);
    } else {
      ResumeTouchesClaim(s, s', pid, k);
    }
  }

  lemma DeliverSubject(s: Sys, a: Action)
    requires IndexOk(s) && Enabled(s, a)
    requires a.DeliverBilling? || a.DeliverRisk? || a.DeliverTaskResult? || a.StartSweep? || a.Tick?
    ensures Quiet(s, Step(s, a))
  {
  }

  lemma TakeTouches(s: Sys, c: Uuid)
    requires Inv(s) && s.intake == Idle
    ensures Touches(s, TakeTicket'(s, c), c) && (c in s.store.cases ==> Climbs(s, TakeTicket'(s, c), c))
  {
    if c in s.store.cases {
      KnownTicketSkipped(s, c);
    } else {
      NewTicketTouches(s, TakeTicket'(s, c), c);
    }
  }

  lemma IntakeClimbsEarly(s: Sys, s': Sys, c: Uuid, triage: Triage)
    requires AtIntake(s, s.intake) && s.intake.c == c && s' == IntakeStep'(s, triage, false)
    requires s.intake.Classifying? || s.intake.PublishingClassified? || s.intake.ClosingDirect?
    ensures Climbs(s, s', c)
  {
    if s.intake.Classifying? {
      ClassifyWrites(s, c, triage);
      WrittenClimbs(s, s', c, s'.store.cases[c]);
    } else if s.intake.ClosingDirect? {
      SaveStatusWrites(s, c, Closed);
      WrittenClimbs(s, s', c, s'.store.cases[c]);
    } else {
      IntakeClimbsRoute(s, s', c, triage);
    }
  }

  lemma IntakeClimbsRoute(s: Sys, s': Sys, c: Uuid, triage: Triage)
    requires AtIntake(s, PublishingClassified(c)) && s' == IntakeStep'(s, triage, false)
    ensures Climbs(s, s', c)
  {
    if TriageOf(s.store.cases[c]).needsRefundReview {
      WaitWrites(s, c, triage);
      WrittenClimbs(s, s', c, s'.store.cases[c]);
    } else {
      EmitCounts(s, s', Decision(c, DirectResponse, None, DirectEmit));
    }
  }

  lemma IntakeClimbsRegister(s: Sys, s': Sys, c: Uuid, triage: Triage)
    requires AtIntake(s, s.intake) && s.intake.c == c && s' == IntakeStep'(s, triage, false)
    requires s.intake.RegisteringBilling? || s.intake.RegisteringRisk?
    ensures Climbs(s, s', c)
  {
    if s.intake.RegisteringBilling? {
      RegisterBillingWrites(s, c, triage);
    } else {
      RegisterRiskWrites(s, c, triage);
    }
    WrittenClimbs(s, s', c, s'.store.cases[c]);
  }

  lemma IntakeClimbsLate(s: Sys, s': Sys, c: Uuid, triage: Triage, raises: bool)
    requires AtIntake(s, s.intake) && s.intake.c == c && s' == IntakeStep'(s, triage, raises)
    requires s.intake.RequestingBilling? || s.intake.RequestingRisk? || s.intake.Announcing?
        || s.intake.EscalatingFailure?
    ensures Climbs(s, s', c)
  {
    if s.intake.EscalatingFailure? {
      SaveStatusWrites(s, c, Escalated);
      WrittenClimbs(s, s', c, s'.store.cases[c]);
    } else if raises {
      EmitCounts(s, s', Decision(c, EscalateHuman, Some(PeerFailure), DelegationFailureEmit));
    } else if s.intake.Announcing? {
      SaveStatusWrites(s, c, s.store.cases[c].status);
      WrittenClimbs(s, s', c, s'.store.cases[c]);
    }
  }

  lemma IntakeClimbs(s: Sys, s': Sys, c: Uuid, triage: Triage, raises: bool)
    requires AtIntake(s, s.intake) && s.intake.c == c && s' == IntakeStep'(s, triage, raises)
    ensures Climbs(s, s', c)
  {
    if s.intake.RequestingBilling? || s.intake.RequestingRisk? || s.intake.Announcing? || s.intake.EscalatingFailure? {
      IntakeClimbsLate(s, s', c, triage, raises);
    } else {
      RaiseOnlyMattersLate(s, triage, raises);
      if s.intake.RegisteringBilling? || s.intake.RegisteringRisk? {
        IntakeClimbsRegister(s, s', c, triage);
      } else {
        IntakeClimbsEarly(s, s', c, triage);
      }
    }
  }

  /** A step changes one case at most: every other case, its decisions included, is as before. */
  lemma StepTouches(s: Sys, a: Action)
    requires Inv(s)
    ensures Touches(s, Step(s, a), Subject(s, a))
    ensures Subject(s, a) in s.store.cases ==> Climbs(s, Step(s, a), Subject(s, a))
  {
    if !Enabled(s, a) {
      QuietTouches(s, Step(s, a), Subject(s, a));
    } else {
      match a {
        case TakeTicket(c) => TakeTouches(s, c);
        case IntakeStep(triage, raises) =>
          InvAtIntake(s);
          IntakeMoves(s, triage, raises);
          IntakeClimbs(s, Step(s, a), s.intake.c, triage, raises);
        case Resume(pid) => ResumeTouches(s, Step(s, a), pid, s.inflight[pid]);
        case _ => DeliverSubject(s, a); QuietTouches(s, Step(s, a), Subject(s, a));
      }
    }
  }

  lemma StepMovesOne(s: Sys, a: Action, pid: Pid)
    requires Drives(a, pid)
    ensures OnlyCont(s, Step(s, a), pid)
  {
    if Enabled(s, a) {
      match a {
        case IntakeStep(triage, raises) => IntakeMovesNone(s, triage, raises);
        case Resume(_) => ResumeMovesOne(s, pid);
        case _ =>
      }
    }
  }

  lemma IntakeMovesNone(s: Sys, triage: Triage, raises: bool)
    requires s.intake != Idle && s.intake.c in s.store.cases
    ensures IntakeStep'(s, triage, raises).inflight == s.inflight
  {
  }

  lemma ResumeMovesOne(s: Sys, pid: Pid)
    requires pid in s.inflight && Live(s, s.inflight[pid])
    ensures OnlyCont(s, Resume'(s, pid), pid)
  {
  }

  lemma OtherCasesUntouched(s: Sys, a: Action, d: Uuid)
    requires Reachable(s) && d in s.store.cases && d != Subject(s, a)
    ensures var s' := Step(s, a);
      d in s'.store.cases && s'.store.cases[d] == s.store.cases[d]
      && forall kind :: Count(s'.log, d, kind) == Count(s.log, d, kind)
  {
    ReachableInv(s);
    StepTouches(s, a);
    forall kind ensures Count(Step(s, a).log, d, kind) == Count(s.log, d, kind) {
      OtherCounts(s, Step(s, a), Subject(s, a), d, kind);
    }
  }

  lemma StepClimbs(s: Sys, a: Action, c: Uuid)
    requires Inv(s) && c in s.store.cases
    ensures Climbs(s, Step(s, a), c)
  {
    StepTouches(s, a);
    if c != Subject(s, a) {
      OtherCounts(s, Step(s, a), Subject(s, a), c, FailureKind);
      OtherCounts(s, Step(s, a), Subject(s, a), c, ElevatedKind);
    }
  }

  lemma ClimbsCompose(s: Sys, s1: Sys, s2: Sys, c: Uuid)
    requires Climbs(s, s1, c) && Climbs(s1, s2, c)
    ensures Climbs(s, s2, c)
  {
  }

  /** Along every run each case climbs. */
  lemma {:induction false} RunClimbs(s: Sys, actions: seq<Action>, c: Uuid)
    requires Inv(s) && c in s.store.cases
    ensures Climbs(s, Run(s, actions), c)
    decreases |actions|
  {
    if actions == [] {
      QuietTouches(s, s, c);
    } else {
      StepClimbs(s, actions[0], c);
      StepInv(s, actions[0]);
      RunClimbs(Step(s, actions[0]), actions[1..], c);
      ClimbsCompose(s, Step(s, actions[0]), Run(s, actions), c);
    }
  }
}
