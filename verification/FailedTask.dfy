/** A peer's task that fails: what one failed task result leads to. */
module FailedTask {
  import opened Common
  import opened CaseModels
  import opened DecisionEngine
  import opened PeerVocabulary
  import opened StoreSpec
  import opened Protocol
  import opened ProtocolSafety
  import opened ProtocolTheorems
  import opened Confluence

  /** One of the case's two peers has yet to answer, and nobody has decided. */
  ghost predicate Waits(s: Sys, c: Uuid, t: TaskId) {
    && c in s.store.cases && t in s.store.cases[c].pending
    && !IsSettled(s.store.cases[c].status)
  }

  /** What is known of a waiting case: whose task it is, and that its finding is not in. */
  lemma WaitingCase(s: Sys, c: Uuid, t: TaskId)
    requires Inv(s) && Waits(s, c, t)
    ensures var r := s.store.cases[c];
      && Registered(r, c) && r.correlation == c
      && c in s.store.byCorrelation && s.store.byCorrelation[c] == c
      && t in s.store.byTask && s.store.byTask[t] == c
      && (t == BillingTask(c) || t == RiskTask(c))
      && (t == BillingTask(c) ==> r.billing == None)
      && (t == RiskTask(c) ==> r.risk == None)
  {
    assert CaseOk(s, c);
    CountsAddUp(s.log, c);
  }

  lemma FailureStartsRun(s: Sys, pid: Pid, c: Uuid, t: TaskId, normalized: Option<RiskFinding>)
    requires Waits(s, c, t) && pid !in s.inflight && t in s.store.byTask && s.store.byTask[t] == c
    requires Registered(s.store.cases[c], c) && (t == BillingTask(c) || t == RiskTask(c))
    ensures Step(s, DeliverTaskResult(pid, t, false, normalized)) == Spawn(s, pid, FailTask(c, t, t == BillingTask(c)))
  {
  }

  /** A case after its failed task has been taken off: the claim will find it ready and unsettled. */
  ghost predicate TakenOff(s: Sys, s1: Sys, c: Uuid, t: TaskId)
    requires c in s.store.cases
  {
    && c in s1.store.cases && s1.log == s.log && s1.clock == s.clock
    && s1.store.byCorrelation == s.store.byCorrelation
    && var r, r1 := s.store.cases[c], s1.store.cases[c];
    && r1.triage == r.triage && r1.billingTask == r.billingTask && r1.riskTask == r.riskTask
    && r1.correlation == r.correlation && r1.deadline == r.deadline
    && r1.billing == r.billing && r1.risk == r.risk && r1.pending == r.pending - {t}
    && r1.IsReadyToDecide() && !IsSettled(r1.status)
  }

  lemma TaskTakenOff(s: Sys, pid: Pid, c: Uuid, t: TaskId)
    requires pid in s.inflight && s.inflight[pid] == FailTask(c, t, t == BillingTask(c)) && Waits(s, c, t)
    ensures var s1 := Step(s, Resume(pid));
      TakenOff(s, s1, c, t) && pid in s1.inflight && s1.inflight[pid] == CheckReadyAfterTask(c)
  {
  }

  lemma ReadyGoesOn(s1: Sys, pid: Pid, c: Uuid)
    requires pid in s1.inflight && s1.inflight[pid] == CheckReadyAfterTask(c) && c in s1.store.cases
    requires s1.store.cases[c].IsReadyToDecide()
    ensures Step(s1, Resume(pid)) == Spawn(s1, pid, ClaimForPolicy(c, Handler))
  {
  }

  /** With a peer pending, or with a finding that never came, the verdict is an escalation. */
  lemma FailedVerdict(r: CaseRec, c: Uuid, t: TaskId, now: int)
    requires Registered(r, c) && t !in r.pending
    requires (t == BillingTask(c) && r.billing == None) || (t == RiskTask(c) && r.risk == None)
    ensures Decide(TriageOf(r), r.billing, r.risk, Some(BuildTimeoutStatus(r, now)))
         == Verdict(EscalateHuman,
                    Some(if r.pending != {} && now > r.deadline.value then AnalysisTimeout else MissingAnalysis))
  {
    if r.pending != {} {
      PendingVerdict(r, c, now);
    } else {
      assert !BuildTimeoutStatus(r, now).AnyMissing();
    }
  }

  /** A ready, unsettled case that its handler is about to claim, what it will be decided as, and that it is. */
  lemma ClaimLeadsTo(s1: Sys, pid: Pid, c: Uuid, v: Verdict)
    requires pid in s1.inflight && s1.inflight[pid] == ClaimForPolicy(c, Handler) && c in s1.store.cases
    requires var r := s1.store.cases[c];
      && !IsSettled(r.status)
      && v == Decide(TriageOf(r), r.billing, r.risk, Some(BuildTimeoutStatus(r, s1.clock)))
    ensures var s3 := Step(Step(s1, Resume(pid)), Resume(pid));
      && s3.log == s1.log + [Decision(c, v.outcome, v.reason, PolicyEmit(false))]
      && pid in s3.inflight && s3.inflight[pid] == FinishPolicy(c, Handler) && c in s3.store.cases
  {
    var r := s1.store.cases[c];
    var s2 := Step(s1, Resume(pid));
    ClaimKeepsEvidence(s1, pid, c);
    PolicyEmits(s2, pid, c, Handler, v);
    EmitGoesToFinish(s2, pid, c);
  }

  lemma ClaimKeepsEvidence(s1: Sys, pid: Pid, c: Uuid)
    requires pid in s1.inflight && s1.inflight[pid] == ClaimForPolicy(c, Handler) && c in s1.store.cases
    requires !IsSettled(s1.store.cases[c].status)
    ensures var r, s2 := s1.store.cases[c], Step(s1, Resume(pid));
      && pid in s2.inflight && s2.inflight[pid] == EmitPolicy(c, Handler)
      && s2.log == s1.log && s2.clock == s1.clock
      && c in s2.store.cases && s2.store.cases[c] == r.(status := Decided, version := r.version + 1)
  {
  }

  lemma EmitGoesToFinish(s2: Sys, pid: Pid, c: Uuid)
    requires pid in s2.inflight && s2.inflight[pid] == EmitPolicy(c, Handler) && c in s2.store.cases
    ensures var s3 := Step(s2, Resume(pid));
      pid in s3.inflight && s3.inflight[pid] == FinishPolicy(c, Handler) && c in s3.store.cases
  {
  }

  lemma FinishEnds(s3: Sys, pid: Pid, c: Uuid)
    requires pid in s3.inflight && s3.inflight[pid] == FinishPolicy(c, Handler) && c in s3.store.cases
    ensures var s4 := Step(s3, Resume(pid));
      && pid !in s4.inflight && s4.log == s3.log
      && c in s4.store.cases && s4.store.cases[c].status == Decided
  {
  }

  lemma FiveResumptions(s: Sys, pid: Pid)
    ensures Drain(s, pid, 5) ==
      Step(Step(Step(Step(Step(s, Resume(pid)), Resume(pid)), Resume(pid)), Resume(pid)), Resume(pid))
  {
    DrainStep(s, pid, 4);
    var s1 := Step(s, Resume(pid));
    DrainStep(s1, pid, 3);
    var s2 := Step(s1, Resume(pid));
    DrainStep(s2, pid, 2);
    var s3 := Step(s2, Resume(pid));
    DrainStep(s3, pid, 1);
    var s4 := Step(s3, Resume(pid));
    DrainStep(s4, pid, 0);
  }

  /** Why the case of a failed task is escalated: for a missing analysis, unless the other peer has yet to
      answer and its deadline has passed. */
  function FailureReason(s: Sys, c: Uuid, t: TaskId): Reason
    requires c in s.store.cases
  {
    var r := s.store.cases[c];
    if r.pending != {t} && s.clock > r.deadline.GetOr(s.clock) then AnalysisTimeout else MissingAnalysis
  }

  lemma FailedClaimVerdict(s: Sys, s1: Sys, c: Uuid, t: TaskId)
    requires Inv(s) && Waits(s, c, t) && TakenOff(s, s1, c, t)
    ensures var r1 := s1.store.cases[c];
      Decide(TriageOf(r1), r1.billing, r1.risk, Some(BuildTimeoutStatus(r1, s1.clock)))
        == Verdict(EscalateHuman, Some(FailureReason(s, c, t)))
  {
    WaitingCase(s, c, t);
    var r, r1 := s.store.cases[c], s1.store.cases[c];
    assert r1.pending == {} <==> r.pending == {t};
    FailedVerdict(r1, c, t, s1.clock);
  }

  /** One failed result of a task that an open case is waiting for, handled to its end, adds exactly one
      decision: the case is escalated to a person, at once, even with the other peer still pending. Its
      status is then decided, not escalated. */
  lemma FailedTaskEscalatesAtOnce(s: Sys, pid: Pid, c: Uuid, t: TaskId, normalized: Option<RiskFinding>)
    requires Reachable(s) && Waits(s, c, t) && pid !in s.inflight
    ensures var s' := Drain(Step(s, DeliverTaskResult(pid, t, false, normalized)), pid, 5);
      && pid !in s'.inflight
      && s'.log == s.log + [Decision(c, EscalateHuman, Some(FailureReason(s, c, t)), PolicyEmit(false))]
      && Count(s'.log, c, AnyKind) == Count(s.log, c, AnyKind) + 1
      && c in s'.store.cases && s'.store.cases[c].status == Decided
  {
    ReachableInv(s);
    WaitingCase(s, c, t);
    FailureStartsRun(s, pid, c, t, normalized);
    var s0 := Spawn(s, pid, FailTask(c, t, t == BillingTask(c)));
    FiveResumptions(s0, pid);
    TaskTakenOff(s0, pid, c, t);
    var s1 := Step(s0, Resume(pid));
    ReadyGoesOn(s1, pid, c);
    FailedClaimVerdict(s, s1, c, t);
    ClaimLeadsTo(Step(s1, Resume(pid)), pid, c, Verdict(EscalateHuman, Some(FailureReason(s, c, t))));
    FinishEnds(Step(Step(Step(s1, Resume(pid)), Resume(pid)), Resume(pid)), pid, c);
    CountAppend(s.log, Decision(c, EscalateHuman, Some(FailureReason(s, c, t)), PolicyEmit(false)), c, AnyKind);
  }
}
