/** The handlers themselves (apps/agents/customer_resolution/event_handlers.py, a2a_handlers.py and
    reaper.py), cut where they await: each method is the code between two suspension points, works on
    the shared store and its case objects in place, and is proved to be the protocol's step. */
module EventHandlers {
  import opened Common
  import opened CaseModels
  import opened DecisionEngine
  import opened PeerVocabulary
  import StoreSpec
  import opened StateStore
  import opened Protocol

  /** A refund ticket waits: the deadline is rooted when the delegation starts. */
  lemma RouteWaits(s: Sys, c: Uuid, triage: Triage, deadline: int)
    requires s.intake == PublishingClassified(c) && c in s.store.cases && TriageOf(s.store.cases[c]).needsRefundReview
    requires deadline == s.clock + CASE_DEADLINE_SECONDS
    ensures IntakeStep'(s, triage, false) ==
      SaveStatus(PutRec(s, c, s.store.cases[c].(deadline := Some(deadline))), c, WaitingForPeerReviews)
        .(intake := RegisteringBilling(c))
  {
  }

  /** Any other ticket is answered directly. */
  lemma RouteReplies(s: Sys, c: Uuid, triage: Triage)
    requires s.intake == PublishingClassified(c) && c in s.store.cases && !TriageOf(s.store.cases[c]).needsRefundReview
    ensures IntakeStep'(s, triage, false) ==
      Emit(s, Decision(c, DirectResponse, None, DirectEmit)).(intake := ClosingDirect(c))
  {
  }

  class ResolutionLoops {
    const store: InMemoryCaseStateStore
    var intake: Intake
    var inflight: map<Pid, Cont>
    var log: seq<Decision>
    var clock: int

    ghost predicate Valid()
      reads this, store, store.cases.Values
    {
      store.Valid()
    }

    ghost function View(): Sys
      reads this, store, store.cases.Values
    {
      Sys(store.View(), intake, inflight, log, clock)
    }

    constructor ()
      ensures Valid() && fresh(store) && store.cases == map[] && View() == INIT
    {
      store := new InMemoryCaseStateStore();
      intake, inflight, log, clock := Idle, map[], [], 0;
    }

    method Sleep(seconds: nat)
      requires Valid()
      modifies this`clock
      ensures Valid() && View() == Step(old(View()), Tick(seconds))
    {
      clock := clock + seconds;
    }

    method Publish(decision: Decision)
      requires Valid()
      modifies this`log
      ensures Valid() && View() == Emit(old(View()), decision)
    {
      log := log + [decision];
    }

    /** await store.save(case) of a case object already filed in the store. */
    method SaveCase(case_: ResolutionCase)
      requires Valid() && case_.caseId in store.cases && store.cases[case_.caseId] == case_
      modifies store, case_`version
      ensures Valid() && store.cases == old(store.cases)
      ensures store.View() == StoreSpec.Save(old(store.View()), case_.caseId, old(case_.Rec()), None).value
    {
      var saved := store.Save(case_, None);
      assert store.cases == old(store.cases);
    }

    /** case.status = status; await store.save(case) */
    method SaveWithStatus(c: Uuid, status: CaseStatus)
      requires Valid() && c in store.cases
      modifies store, store.cases.Values
      ensures Valid() && store.cases == old(store.cases)
      ensures View() == SaveStatus(old(View()), c, status)
    {
      var case_ := store.cases[c];
      case_.status := status;
      store.OneCaseChanged(c);
      StoreSpec.SaveAfterWrite(old(store.View()), c, case_.Rec());
      SaveCase(case_);
    }

    /** Where the intake loop, and a handler run, are suspended next. */
    method MoveIntake(next: Intake)
      requires Valid()
      modifies this`intake
      ensures Valid() && View() == old(View()).(intake := next)
    {
      intake := next;
    }

    method Suspend(pid: Pid, k: Cont)
      requires Valid()
      modifies this`inflight
      ensures Valid() && View() == Spawn(old(View()), pid, k)
    {
      inflight := inflight[pid := k];
    }

    method EndRun(pid: Pid)
      requires Valid()
      modifies this`inflight
      ensures Valid() && View() == End(old(View()), pid)
    {
      inflight := inflight - {pid};
    }

    // -------------------------------------------------------------- intake_handler

    method IntakeTicket(c: Uuid)
      requires Valid() && intake == Idle
      modifies this`intake, store
      ensures Valid() && View() == TakeTicket'(old(View()), c)
      ensures forall d :: d in old(store.cases) ==> d in store.cases && store.cases[d] == old(store.cases[d])
      ensures forall d :: d in store.cases && d !in old(store.cases) ==> fresh(store.cases[d])
    {
      var case_ := store.GetOrCreate(c, c);
      if case_.status == Received || case_.status == Classified {
        MoveIntake(Classifying(case_.caseId));
      }
    }

    method IntakeClassify(c: Uuid, triage: Triage)
      requires Valid() && intake == Classifying(c) && c in store.cases
      modifies this`intake, store, store.cases.Values
      ensures Valid() && store.cases == old(store.cases)
      ensures View() == IntakeStep'(old(View()), triage, false)
    {
      store.cases[c].triage := Some(triage);
      store.OneCaseChanged(c);
      SaveWithStatus(c, Classified);
      MoveIntake(PublishingClassified(c));
    }

    method IntakeRoute(c: Uuid, ghost triage: Triage)
      requires Valid() && intake == PublishingClassified(c) && c in store.cases
      modifies this`intake, this`log, store, store.cases.Values
      ensures Valid() && store.cases == old(store.cases)
      ensures View() == IntakeStep'(old(View()), triage, false)
    {
      var case_ := store.cases[c];
      assert View().store.cases[c] == case_.Rec();
      if case_.triage.Some? && !case_.triage.value.needsRefundReview {
        IntakeReply(c, triage);
      } else {
        IntakeDelegate(case_, c, triage, clock + CASE_DEADLINE_SECONDS);
      }
    }

    method IntakeReply(c: Uuid, ghost triage: Triage)
      requires Valid() && intake == PublishingClassified(c) && c in store.cases
      requires !TriageOf(View().store.cases[c]).needsRefundReview
      modifies this`intake, this`log
      ensures Valid() && View() == IntakeStep'(old(View()), triage, false)
    {
      RouteReplies(View(), c, triage);
      Publish(Decision(c, DirectResponse, None, DirectEmit));
      MoveIntake(ClosingDirect(c));
    }

    method IntakeDelegate(case_: ResolutionCase, c: Uuid, ghost triage: Triage, deadline: int)
      requires Valid() && case_.caseId == c && c in store.cases && store.cases[c] == case_
      requires intake == PublishingClassified(c) && TriageOf(View().store.cases[c]).needsRefundReview
      requires deadline == clock + CASE_DEADLINE_SECONDS
      modifies this`intake, store, store.cases.Values
      ensures Valid() && store.cases == old(store.cases)
      ensures View() == IntakeStep'(old(View()), triage, false)
    {
      RouteWaits(View(), c, triage, deadline);
      IntakeWait(case_, c, deadline);
      MoveIntake(RegisteringBilling(c));
    }

    method IntakeWait(case_: ResolutionCase, c: Uuid, deadline: int)
      requires Valid() && case_.caseId == c && c in store.cases && store.cases[c] == case_
      modifies store, store.cases.Values
      ensures Valid() && store.cases == old(store.cases)
      ensures var s := old(View());
        View() == SaveStatus(PutRec(s, c, s.store.cases[c].(deadline := Some(deadline))), c, WaitingForPeerReviews)
    {
      RootDeadline(case_, deadline);
      SaveWithStatus(c, WaitingForPeerReviews);
    }

    method RootDeadline(case_: ResolutionCase, deadline: int)
      requires Valid() && case_.caseId in store.cases && store.cases[case_.caseId] == case_
      modifies case_`deadlineAt
      ensures Valid() && View() == PutRec(old(View()), case_.caseId, old(case_.Rec()).(deadline := Some(deadline)))
    {
      case_.deadlineAt := Some(deadline);
      store.OneCaseChanged(case_.caseId);
    }

    method IntakeCloseDirect(c: Uuid, ghost triage: Triage)
      requires Valid() && intake == ClosingDirect(c) && c in store.cases
      modifies this`intake, store, store.cases.Values
      ensures Valid() && store.cases == old(store.cases)
      ensures View() == IntakeStep'(old(View()), triage, false)
    {
      ghost var was := View();
      assert IntakeStep'(was, triage, false) == SaveStatus(was, c, Closed).(intake := Idle);
      SaveWithStatus(c, Closed);
      MoveIntake(Idle);
    }

    /** delegate(): both task ids are minted and registered before any request goes out. */
    method DelegateRegisterBilling(c: Uuid, ghost triage: Triage)
      requires Valid() && intake == RegisteringBilling(c) && c in store.cases
      modifies this`intake, store, store.cases.Values
      ensures Valid() && store.cases == old(store.cases)
      ensures View() == IntakeStep'(old(View()), triage, false)
    {
      var billingTask := MintTasks(store.cases[c]);
      var found := store.AddPendingTask(c, billingTask);
      MoveIntake(RegisteringRisk(c));
    }

    method MintTasks(case_: ResolutionCase) returns (billingTask: TaskId)
      requires Valid() && case_.caseId in store.cases && store.cases[case_.caseId] == case_
      modifies case_
      ensures Valid()
      ensures var r := old(case_.Rec());
        var minted := r.(billingTask := if r.billingTask.None? then Some(BillingTask(r.correlation)) else r.billingTask,
                         riskTask := if r.riskTask.None? then Some(RiskTask(r.correlation)) else r.riskTask);
        View() == PutRec(old(View()), case_.caseId, minted) && minted.billingTask == Some(billingTask)
    {
      if case_.billingTaskId == None {
        case_.billingTaskId := Some(BillingTask(case_.correlationId));
      }
      if case_.riskTaskId == None {
        case_.riskTaskId := Some(RiskTask(case_.correlationId));
      }
      store.OneCaseChanged(case_.caseId);
      billingTask := case_.billingTaskId.value;
    }

    method DelegateRegisterRisk(c: Uuid, ghost triage: Triage)
      requires Valid() && intake == RegisteringRisk(c) && c in store.cases && store.cases[c].riskTaskId.Some?
      modifies this`intake, store, store.cases.Values
      ensures Valid() && store.cases == old(store.cases)
      ensures View() == IntakeStep'(old(View()), triage, false)
    {
      var found := store.AddPendingTask(c, store.cases[c].riskTaskId.value);
      MoveIntake(RequestingBilling(c));
    }

    /** The rest of delegate(): two requests and the announcement, each of which may raise into the
        branch that escalates without a claim. */
    method DelegatePublish(c: Uuid, ghost triage: Triage, publishRaises: bool)
      requires Valid() && c in store.cases
      requires intake == RequestingBilling(c) || intake == RequestingRisk(c) || intake == Announcing(c)
      modifies this`intake, this`log, store, store.cases.Values
      ensures Valid() && store.cases == old(store.cases)
      ensures View() == IntakeStep'(old(View()), triage, publishRaises)
    {
      if publishRaises {
        DelegationFails(c, triage);
      } else if intake == RequestingBilling(c) {
        MoveIntake(RequestingRisk(c));
      } else if intake == RequestingRisk(c) {
        MoveIntake(Announcing(c));
      } else {
        DelegateAnnounce(c, triage);
      }
    }

    method DelegationFails(c: Uuid, ghost triage: Triage)
      requires Valid() && c in store.cases
      requires intake == RequestingBilling(c) || intake == RequestingRisk(c) || intake == Announcing(c)
      modifies this`intake, this`log
      ensures Valid() && View() == IntakeStep'(old(View()), triage, true)
    {
      Publish(Decision(c, EscalateHuman, Some(PeerFailure), DelegationFailureEmit));
      MoveIntake(EscalatingFailure(c));
    }

    method DelegateAnnounce(c: Uuid, ghost triage: Triage)
      requires Valid() && intake == Announcing(c) && c in store.cases
      modifies this`intake, store, store.cases.Values
      ensures Valid() && store.cases == old(store.cases)
      ensures View() == IntakeStep'(old(View()), triage, false)
    {
      ghost var was := View();
      assert was.store.cases[c].status == store.cases[c].status;
      assert IntakeStep'(was, triage, false) == SaveStatus(was, c, was.store.cases[c].status).(intake := Idle);
      SaveWithStatus(c, store.cases[c].status);
      MoveIntake(Idle);
    }

    method IntakeSaveEscalated(c: Uuid, ghost triage: Triage, ghost publishRaises: bool)
      requires Valid() && intake == EscalatingFailure(c) && c in store.cases
      modifies this`intake, store, store.cases.Values
      ensures Valid() && store.cases == old(store.cases)
      ensures View() == IntakeStep'(old(View()), triage, publishRaises)
    {
      ghost var was := View();
      assert IntakeStep'(was, triage, publishRaises) == SaveStatus(was, c, Escalated).(intake := Idle);
      SaveWithStatus(c, Escalated);
      MoveIntake(Idle);
    }

    // -------------------------------------------------------------- deliveries

    method BillingResultHandler(pid: Pid, correlation: Uuid, payload: BillingPayload)
      requires Valid() && pid !in inflight
      modifies this`inflight
      ensures Valid() && View() == DeliverBilling'(old(View()), pid, correlation, payload)
    {
      var found := store.GetByCorrelationId(correlation);
      if found == None || found.value.billingTaskId == None {
        return;
      }
      Suspend(pid, AttachBilling(found.value.caseId, BillingFindingOf(payload)));
    }

    method RiskResultHandler(pid: Pid, correlation: Uuid, payload: RiskPayload)
      requires Valid() && pid !in inflight
      modifies this`inflight
      ensures Valid() && View() == DeliverRisk'(old(View()), pid, correlation, payload)
    {
      var found := store.GetByCorrelationId(correlation);
      if found != None {
        var finding := RiskFindingOf(payload);
        RouteRiskFinding(pid, found.value, finding);
      }
    }

    method RouteRiskFinding(pid: Pid, case_: ResolutionCase, finding: RiskFinding)
      requires Valid() && case_.caseId in store.cases && store.cases[case_.caseId] == case_
      modifies this`inflight
      ensures Valid() && View() == RouteRisk(old(View()), pid, case_.caseId, finding)
    {
      if case_.riskTaskId == None {
        return;
      }
      var highRisk := finding.level == Elevated || finding.level == High || finding.requiresHumanReview;
      var billingIneligible := case_.billingResult.Some? && case_.billingResult.value.eligibility == Ineligible;
      var decidable := case_.status != Decided && !IsTerminal(case_.status);
      if highRisk && !billingIneligible && decidable {
        Suspend(pid, ClaimForRisk(case_.caseId, finding));
      } else {
        Suspend(pid, AttachRisk(case_.caseId, finding));
      }
    }

    method ResultHandler(pid: Pid, taskId: TaskId, completed: bool, normalized: Option<RiskFinding>)
      requires Valid() && pid !in inflight
      modifies this`inflight
      ensures Valid() && View() == DeliverTaskResult'(old(View()), pid, taskId, completed, normalized)
    {
      var found := store.GetByTaskId(taskId);
      if found == None {
        return;
      }
      var case_ := found.value;
      assert View().store.cases[case_.caseId] == case_.Rec();
      if IsTerminal(case_.status) || case_.status == Decided {
        return;
      }
      var isBilling := case_.billingTaskId == Some(taskId);
      var isRisk := case_.riskTaskId == Some(taskId);
      if completed && (isBilling || isRisk) {
        return;
      }
      if completed {
        Suspend(pid, AttachTaskResult(case_.caseId, taskId, normalized));
      } else {
        Suspend(pid, FailTask(case_.caseId, taskId, isBilling));
      }
    }

    /** One tick of the reaper: list under the lock, then work through the list. */
    method ReaperList(pid: Pid) returns (found: seq<Uuid>)
      requires Valid() && pid !in inflight
      modifies this`inflight
      ensures Valid() && View() == Step(old(View()), StartSweep(pid, found))
      ensures Enabled(old(View()), StartSweep(pid, found))
    {
      var timedOut := store.ListTimedOutCases(clock);
      found := seq(|timedOut|, i requires 0 <= i < |timedOut| => timedOut[i].caseId);
      ghost var s := View();
      assert ListsTimedOut(s, found) by {
        forall c | c in s.store.cases && StoreSpec.TimedOut(s.store.cases[c], s.clock) ensures c in found {
          var i :| 0 <= i < |timedOut| && timedOut[i] == store.cases[c];
          assert found[i] == c;
        }
      }
      Suspend(pid, Sweep(found));
    }

    // -------------------------------------------------------------- what a suspended handler does next

    method AttachBillingFinding(pid: Pid, c: Uuid, finding: BillingFinding)
      requires Valid() && pid in inflight && inflight[pid] == AttachBilling(c, finding) && c in store.cases
      modifies this`inflight, store.cases.Values
      ensures Valid() && View() == Resume'(old(View()), pid)
    {
      var billingTask := store.cases[c].billingTaskId;
      if billingTask == None {
        EndRun(pid);
        return;
      }
      var outcome := store.ApplyResult(c, billingTask.value, OfBilling(finding));
      Suspend(pid, CheckReady(c));
    }

    method AttachRiskFinding(pid: Pid, c: Uuid, finding: RiskFinding)
      requires Valid() && pid in inflight && inflight[pid] == AttachRisk(c, finding) && c in store.cases
      modifies this`inflight, store.cases.Values
      ensures Valid() && View() == Resume'(old(View()), pid)
    {
      var riskTask := store.cases[c].riskTaskId;
      if riskTask == None {
        EndRun(pid);
        return;
      }
      var outcome := store.ApplyResult(c, riskTask.value, OfRisk(finding));
      Suspend(pid, CheckReady(c));
    }

    method CheckAfterDomainResult(pid: Pid, c: Uuid)
      requires Valid() && pid in inflight && inflight[pid] == CheckReady(c) && c in store.cases
      modifies this`inflight
      ensures Valid() && View() == Resume'(old(View()), pid)
    {
      var case_ := store.cases[c];
      var ready := case_.billingSlotFailed || case_.riskSlotFailed || case_.pendingTasks == {};
      if ready && case_.status != Decided && !IsTerminal(case_.status) {
        Suspend(pid, ClaimForPolicy(c, Handler));
      } else {
        EndRun(pid);
      }
    }

    method FailPeerTask(pid: Pid, c: Uuid, t: TaskId, isBilling: bool)
      requires Valid() && pid in inflight && inflight[pid] == FailTask(c, t, isBilling) && c in store.cases
      modifies this`inflight, store.cases.Values
      ensures Valid() && View() == Resume'(old(View()), pid)
    {
      store.MarkSlotFailed(c, t, isBilling);
      Suspend(pid, CheckReadyAfterTask(c));
    }

    method AttachGenericResult(pid: Pid, c: Uuid, t: TaskId, normalized: Option<RiskFinding>)
      requires Valid() && pid in inflight && inflight[pid] == AttachTaskResult(c, t, normalized) && c in store.cases
      modifies this`inflight, store.cases.Values
      ensures Valid() && View() == Resume'(old(View()), pid)
    {
      if normalized == None {
        store.MarkSlotFailed(c, t, false);
      } else {
        var outcome := store.ApplyResult(c, t, OfRisk(normalized.value));
      }
      Suspend(pid, CheckReadyAfterTask(c));
    }

    method CheckAfterTaskResult(pid: Pid, c: Uuid)
      requires Valid() && pid in inflight && inflight[pid] == CheckReadyAfterTask(c) && c in store.cases
      modifies this`inflight
      ensures Valid() && View() == Resume'(old(View()), pid)
    {
      var case_ := store.cases[c];
      if case_.billingSlotFailed || case_.riskSlotFailed || case_.pendingTasks == {} {
        Suspend(pid, ClaimForPolicy(c, Handler));
      } else {
        EndRun(pid);
      }
    }

    /** _apply_decision, first half: the claim. */
    method ClaimPolicyDecision(pid: Pid, c: Uuid, flow: Flow)
      requires Valid() && pid in inflight && inflight[pid] == ClaimForPolicy(c, flow) && c in store.cases
      modifies this`inflight, store.cases.Values
      ensures Valid() && View() == Resume'(old(View()), pid)
    {
      var claimed := store.ClaimDecision(c);
      if claimed {
        Suspend(pid, EmitPolicy(c, flow));
      } else {
        ContinueFlow(pid, flow);
      }
    }

    method ContinueFlow(pid: Pid, flow: Flow)
      requires Valid()
      modifies this`inflight
      ensures Valid() && View() == AfterDecision(old(View()), pid, flow)
    {
      match flow {
        case Handler => EndRun(pid);
        case Reaper(rest) => Suspend(pid, Sweep(rest));
      }
    }

    /** _apply_decision, second half: decide on the case as it stands and publish. */
    method EmitPolicyDecision(pid: Pid, c: Uuid, flow: Flow)
      requires Valid() && pid in inflight && inflight[pid] == EmitPolicy(c, flow) && c in store.cases
      modifies this`inflight, this`log
      ensures Valid() && View() == Resume'(old(View()), pid)
    {
      var r := store.cases[c].Rec();
      var verdict := Decide(TriageOf(r), r.billing, r.risk, Some(BuildTimeoutStatus(r, clock)));
      Publish(Decision(c, verdict.outcome, verdict.reason, PolicyEmit(flow.Reaper?)));
      Suspend(pid, FinishPolicy(c, flow));
    }

    method FinishPolicyDecision(pid: Pid, c: Uuid, flow: Flow)
      requires Valid() && pid in inflight && inflight[pid] == FinishPolicy(c, flow) && c in store.cases
      modifies this`inflight, store, store.cases.Values
      ensures store.cases == old(store.cases)
      ensures Valid() && View() == Resume'(old(View()), pid)
    {
      ghost var was := View();
      assert Resume'(was, pid) == AfterDecision(SaveStatus(was, c, Decided), pid, flow);
      SaveWithStatus(c, Decided);
      ContinueFlow(pid, flow);
    }

    method ClaimRiskEscalation(pid: Pid, c: Uuid, finding: RiskFinding)
      requires Valid() && pid in inflight && inflight[pid] == ClaimForRisk(c, finding) && c in store.cases
      modifies this`inflight, store.cases.Values
      ensures Valid() && View() == Resume'(old(View()), pid)
    {
      var claimed := store.ClaimDecision(c);
      if claimed {
        Suspend(pid, EmitRisk(c, finding));
      } else {
        EndRun(pid);
      }
    }

    method EmitRiskEscalation(pid: Pid, c: Uuid, finding: RiskFinding)
      requires Valid() && pid in inflight && inflight[pid] == EmitRisk(c, finding) && c in store.cases
      modifies this`inflight, this`log, store.cases.Values
      ensures Valid() && View() == Resume'(old(View()), pid)
    {
      store.cases[c].riskResult := Some(finding);
      store.OneCaseChanged(c);
      Publish(Decision(c, EscalateHuman, Some(ElevatedRisk), ElevatedRiskEmit));
      Suspend(pid, FinishRisk(c));
    }

    method FinishRiskEscalation(pid: Pid, c: Uuid)
      requires Valid() && pid in inflight && inflight[pid] == FinishRisk(c) && c in store.cases
      modifies this`inflight, store, store.cases.Values
      ensures store.cases == old(store.cases)
      ensures Valid() && View() == Resume'(old(View()), pid)
    {
      ghost var was := View();
      assert Resume'(was, pid) == End(SaveStatus(was, c, Escalated), pid);
      SaveWithStatus(c, Escalated);
      EndRun(pid);
    }

    method ReaperNext(pid: Pid, rest: seq<Uuid>)
      requires Valid() && pid in inflight && inflight[pid] == Sweep(rest)
      requires forall i :: 0 <= i < |rest| ==> rest[i] in store.cases
      modifies this`inflight
      ensures Valid() && View() == Resume'(old(View()), pid)
    {
      if rest == [] {
        EndRun(pid);
        return;
      }
      var case_ := store.cases[rest[0]];
      if IsTerminal(case_.status) || case_.status == Decided {
        Suspend(pid, Sweep(rest[1..]));
      } else {
        Suspend(pid, ClaimForPolicy(rest[0], Reaper(rest[1..])));
      }
    }
  }
}
