/** The protocol's guarantees, over every run of every interleaving. */
module ProtocolTheorems {
  import opened Common
  import opened CaseModels
  import opened DecisionEngine
  import opened PeerVocabulary
  import opened StoreSpec
  import opened Protocol
  import opened ProtocolSafety
  import opened ProtocolFrame
  import opened ProtocolProgress

  // ---------------------------------------------------------------- how many decisions

  /** Every case has at most two decided events, and two exactly when the unguarded branch of a
      failed delegation emitted one and a claimant emitted the other. */
  lemma DecisionsExactly(s: Sys, c: Uuid)
    requires Reachable(s)
    ensures Count(s.log, c, AnyKind) <= 2
    ensures Count(s.log, c, AnyKind) == 2 <==>
              Count(s.log, c, GuardedKind) == 1 && Count(s.log, c, FailureKind) == 1
    ensures Count(s.log, c, DirectKind) == 1 ==> Count(s.log, c, AnyKind) == 1
  {
    ReachableInv(s);
    CountsAddUp(s.log, c);
    if c in s.store.cases {
      assert CaseOk(s, c);
    } else {
      UnknownCaseSilent(s, c);
    }
  }

  ghost predicate NeverRaises(actions: seq<Action>) {
    forall i :: 0 <= i < |actions| && actions[i].IntakeStep? ==> !actions[i].publishRaises
  }

  /** The log is as it was, or has one more decision, not of a failed delegation. */
  ghost predicate LogsNoFailure(s: Sys, s': Sys) {
    s'.log == s.log || exists d: Decision :: s'.log == s.log + [d] && !d.emitter.DelegationFailureEmit?
  }

  lemma IntakeLogsNoFailure(s: Sys, triage: Triage)
    requires s.intake != Idle && s.intake.c in s.store.cases
    ensures LogsNoFailure(s, IntakeStep'(s, triage, false))
  {
  }

  lemma ResumeLogsNoFailure(s: Sys, pid: Pid)
    requires pid in s.inflight && Live(s, s.inflight[pid])
    ensures LogsNoFailure(s, Resume'(s, pid))
  {
  }

  lemma DeliveryLogsNothing(s: Sys, a: Action)
    requires !a.IntakeStep? && !a.Resume?
    ensures Step(s, a).log == s.log
  {
  }

  lemma QuietStepAddsNoFailure(s: Sys, a: Action, c: Uuid)
    requires a.IntakeStep? ==> !a.publishRaises
    ensures Count(Step(s, a).log, c, FailureKind) == Count(s.log, c, FailureKind)
  {
    if Enabled(s, a) {
      match a {
        case IntakeStep(triage, _) => IntakeLogsNoFailure(s, triage);
        case Resume(pid) => ResumeLogsNoFailure(s, pid);
        case _ => DeliveryLogsNothing(s, a);
      }
      NoFailureLogged(s, Step(s, a), c);
    }
  }

  lemma NoFailureLogged(s: Sys, s': Sys, c: Uuid)
    requires LogsNoFailure(s, s')
    ensures Count(s'.log, c, FailureKind) == Count(s.log, c, FailureKind)
  {
    if s'.log != s.log {
      var d :| s'.log == s.log + [d] && !d.emitter.DelegationFailureEmit?;
      CountAppend(s.log, d, c, FailureKind);
    }
  }

  lemma {:induction false} NoRaiseNoFailure(s: Sys, actions: seq<Action>, c: Uuid)
    requires NeverRaises(actions)
    ensures Count(Run(s, actions).log, c, FailureKind) == Count(s.log, c, FailureKind)
    decreases |actions|
  {
    if actions != [] {
      QuietStepAddsNoFailure(s, actions[0], c);
      NoRaiseNoFailure(Step(s, actions[0]), actions[1..], c);
    }
  }

  /** While no publish of a delegation raises, no case is ever decided twice. */
  lemma AtMostOneDecision(actions: seq<Action>, c: Uuid)
    requires NeverRaises(actions)
    ensures Count(Run(INIT, actions).log, c, AnyKind) <= 1
  {
    NoRaiseNoFailure(INIT, actions, c);
    DecisionsExactly(Run(INIT, actions), c);
  }

  /** A case with no failed delegation is settled exactly when its one decision is out or a
      claimant owes it; the two exclude each other, and at most one continuation owes it. */
  lemma SettledExactly(s: Sys, c: Uuid)
    requires Reachable(s) && c in s.store.cases && Count(s.log, c, FailureKind) == 0
    ensures IsSettled(s.store.cases[c].status) <==>
              || Count(s.log, c, GuardedKind) == 1
              || Owed(s, c)
              || (Count(s.log, c, DirectKind) == 1 && s.intake != ClosingDirect(c))
    ensures Owed(s, c) ==> Count(s.log, c, AnyKind) == 0
    ensures forall p, q ::
      (p in s.inflight && q in s.inflight && Unemitted(s.inflight[p]) && Unemitted(s.inflight[q])
       && s.inflight[p].c == c && s.inflight[q].c == c) ==> p == q
  {
    ReachableInv(s);
    ReachableProgress(s);
    CountsAddUp(s.log, c);
    assert CaseOk(s, c) && Progresses(s, c);
    if Owed(s, c) { OwedIsSettled(s, c); }
  }

  lemma OwedIsSettled(s: Sys, c: Uuid)
    requires ContsOk(s) && Owed(s, c) && c in s.store.cases
    ensures IsSettled(s.store.cases[c].status) && Registered(s.store.cases[c], c) && Count(s.log, c, GuardedKind) == 0
  {
    var p :| p in s.inflight && Unemitted(s.inflight[p]) && s.inflight[p].c == c;
    assert ContOk(s, s.inflight[p]);
  }

  /** A refund ticket taken and registered with both peers, ready to be requested. */
  function RegisteredSys(c: Uuid, triage: Triage): Sys {
    var r := CaseRec(c, Some(triage), Some(BillingTask(c)), Some(RiskTask(c)), {BillingTask(c), RiskTask(c)},
                     None, None, false, false, WaitingForPeerReviews, Some(CASE_DEADLINE_SECONDS), 2);
    Sys(StoreState(map[c := r], map[c := c], map[BillingTask(c) := c, RiskTask(c) := c]), RequestingBilling(c),
      map[], [], 0)
  }

  lemma TakenAndClassified(c: Uuid, triage: Triage)
    requires triage.needsRefundReview
    ensures var s2 := Step(Step(INIT, TakeTicket(c)), IntakeStep(triage, false));
      s2 == Sys(StoreState(map[c := NewCase(c).(triage := Some(triage), status := Classified, version := 1)],
                           map[c := c], map[]), PublishingClassified(c), map[], [], 0)
  {
    var s1 := Step(INIT, TakeTicket(c));
    assert s1 == Sys(StoreState(map[c := NewCase(c)], map[c := c], map[]), Classifying(c), map[], [], 0);
  }

  lemma RegistersBoth(c: Uuid, triage: Triage)
    requires triage.needsRefundReview
    ensures var step := IntakeStep(triage, false);
      Step(Step(Step(Step(Step(INIT, TakeTicket(c)), step), step), step), step) == RegisteredSys(c, triage)
  {
    var step := IntakeStep(triage, false);
    TakenAndClassified(c, triage);
    var s3 := Step(Step(Step(INIT, TakeTicket(c)), step), step);
    var r3 := NewCase(c).(triage := Some(triage), status := WaitingForPeerReviews, version := 2,
      deadline := Some(CASE_DEADLINE_SECONDS));
    assert s3 == Sys(StoreState(map[c := r3], map[c := c], map[]), RegisteringBilling(c), map[], [], 0);
    RegistersTasks(c, s3, r3, step);
  }

  lemma RegistersTasks(c: Uuid, s3: Sys, r3: CaseRec, step: Action)
    requires r3.correlation == c && r3.billingTask == None && r3.riskTask == None && r3.pending == {}
    requires s3 == Sys(StoreState(map[c := r3], map[c := c], map[]), RegisteringBilling(c), map[], [], 0)
    requires step.IntakeStep? && !step.publishRaises
    ensures Step(Step(s3, step), step) ==
      Sys(StoreState(map[c := r3.(billingTask := Some(BillingTask(c)), riskTask := Some(RiskTask(c)),
                                  pending := {BillingTask(c), RiskTask(c)})],
                     map[c := c], map[BillingTask(c) := c, RiskTask(c) := c]), RequestingBilling(c), map[], [], 0)
  {
    var r4 := r3.(billingTask := Some(BillingTask(c)), riskTask := Some(RiskTask(c)), pending := {BillingTask(c)});
    RegistersFirst(c, s3, r3, step);
    RegistersSecond(c, Step(s3, step), r4, step);
    assert {BillingTask(c)} + {RiskTask(c)} == {BillingTask(c), RiskTask(c)};
  }

  lemma RegistersFirst(c: Uuid, s3: Sys, r3: CaseRec, step: Action)
    requires r3.correlation == c && r3.billingTask == None && r3.riskTask == None && r3.pending == {}
    requires s3 == Sys(StoreState(map[c := r3], map[c := c], map[]), RegisteringBilling(c), map[], [], 0)
    requires step.IntakeStep? && !step.publishRaises
    ensures Step(s3, step) ==
      Sys(StoreState(map[c := r3.(billingTask := Some(BillingTask(c)), riskTask := Some(RiskTask(c)),
                                  pending := {BillingTask(c)})],
                     map[c := c], map[BillingTask(c) := c]), RegisteringRisk(c), map[], [], 0)
  {
    assert {} + {BillingTask(c)} == {BillingTask(c)};
  }

  lemma RegistersSecond(c: Uuid, s4: Sys, r4: CaseRec, step: Action)
    requires r4.riskTask == Some(RiskTask(c)) && step.IntakeStep? && !step.publishRaises
    requires s4 ==
      Sys(StoreState(map[c := r4], map[c := c], map[BillingTask(c) := c]), RegisteringRisk(c), map[], [], 0)
    ensures Step(s4, step) ==
      Sys(StoreState(map[c := r4.(pending := r4.pending + {RiskTask(c)})],
                     map[c := c], map[BillingTask(c) := c, RiskTask(c) := c]), RequestingBilling(c), map[], [], 0)
  {
    assert map[BillingTask(c) := c][RiskTask(c) := c] == map[BillingTask(c) := c, RiskTask(c) := c];
  }

  lemma FailureReachesSlot(s: Sys, c: Uuid, triage: Triage)
    requires s == RegisteredSys(c, triage)
    ensures var s2 := Step(Step(s, IntakeStep(triage, false)), DeliverTaskResult(1, BillingTask(c), false, None));
      s2 == s.(intake := RequestingRisk(c), inflight := map[1 := FailTask(c, BillingTask(c), true)])
  {
    var s1 := Step(s, IntakeStep(triage, false));
    assert s1 == s.(intake := RequestingRisk(c));
  }

  lemma SlotFailureReady(s2: Sys, c: Uuid, triage: Triage)
    requires s2 == RegisteredSys(c, triage).(intake := RequestingRisk(c),
        inflight := map[1 := FailTask(c, BillingTask(c), true)])
    ensures var s3 := Step(s2, Resume(1));
      && s3.intake == RequestingRisk(c) && s3.inflight == map[1 := CheckReadyAfterTask(c)] && s3.log == []
      && c in s3.store.cases && s3.store.cases[c].billingFailed && s3.store.cases[c].status == ReadyForDecision
  {
  }

  lemma FailureReachesClaim(s: Sys, c: Uuid, triage: Triage)
    requires s == RegisteredSys(c, triage) && triage.needsRefundReview
    ensures var s4 := Step(Step(Step(Step(s, IntakeStep(triage, false)),
                                     DeliverTaskResult(1, BillingTask(c), false, None)), Resume(1)), Resume(1));
      && s4.intake == RequestingRisk(c) && s4.inflight == map[1 := ClaimForPolicy(c, Handler)] && s4.log == []
      && c in s4.store.cases && s4.store.cases[c].status == ReadyForDecision
  {
    FailureReachesSlot(s, c, triage);
    var s2 := Step(Step(s, IntakeStep(triage, false)), DeliverTaskResult(1, BillingTask(c), false, None));
    SlotFailureReady(s2, c, triage);
    ReadyGoesToClaim(Step(s2, Resume(1)), c);
  }

  lemma ReadyGoesToClaim(s3: Sys, c: Uuid)
    requires s3.inflight == map[1 := CheckReadyAfterTask(c)] && c in s3.store.cases && s3.store.cases[c].billingFailed
    ensures Step(s3, Resume(1)) == s3.(inflight := map[1 := ClaimForPolicy(c, Handler)])
  {
  }

  lemma ClaimThenEmit(s4: Sys, c: Uuid)
    requires s4.inflight == map[1 := ClaimForPolicy(c, Handler)]
    requires c in s4.store.cases && s4.store.cases[c].status == ReadyForDecision
    ensures var s5 := Step(s4, Resume(1));
      s5.intake == s4.intake && s5.inflight == map[1 := EmitPolicy(c, Handler)] && s5.log == s4.log
        && c in s5.store.cases
  {
  }

  lemma EmitKeepsCase(s5: Sys, c: Uuid)
    requires s5.inflight == map[1 := EmitPolicy(c, Handler)] && c in s5.store.cases
    ensures Step(s5, Resume(1)).intake == s5.intake && c in Step(s5, Resume(1)).store.cases
  {
  }

  lemma EmitCountsOne(s5: Sys, c: Uuid)
    requires s5.inflight == map[1 := EmitPolicy(c, Handler)] && s5.log == [] && c in s5.store.cases
    ensures Count(Step(s5, Resume(1)).log, c, AnyKind) == 1
  {
    var r := s5.store.cases[c];
    var v := Decide(TriageOf(r), r.billing, r.risk, Some(BuildTimeoutStatus(r, s5.clock)));
    PolicyEmits(s5, 1, c, Handler, v);
    CountAppend([], Decision(c, v.outcome, v.reason, PolicyEmit(false)), c, AnyKind);
  }

  lemma ClaimThenFailure(s4: Sys, c: Uuid, triage: Triage)
    requires s4.intake == RequestingRisk(c) && s4.inflight == map[1 := ClaimForPolicy(c, Handler)] && s4.log == []
    requires c in s4.store.cases && s4.store.cases[c].status == ReadyForDecision
    ensures var s7 := Step(Step(Step(s4, Resume(1)), Resume(1)), IntakeStep(triage, true));
      Count(s7.log, c, AnyKind) == 2
  {
    ClaimThenEmit(s4, c);
    EmitCountsOne(Step(s4, Resume(1)), c);
    EmitKeepsCase(Step(s4, Resume(1)), c);
    var s6 := Step(Step(s4, Resume(1)), Resume(1));
    DelegationFails(s6, c, triage);
    FailureAddsOne(s6, c);
  }

  lemma RunHead(s: Sys, a: Action, rest: seq<Action>)
    ensures Run(s, [a] + rest) == Run(Step(s, a), rest)
  {
    assert ([a] + rest)[1..] == rest;
  }

  lemma RunFour(s: Sys, a: Action, b: Action, c: Action, d: Action, rest: seq<Action>)
    ensures Run(s, [a, b, c, d] + rest) == Run(Step(Step(Step(Step(s, a), b), c), d), rest)
  {
    RunHead(s, a, [b, c, d] + rest);
    RunHead(Step(s, a), b, [c, d] + rest);
    RunHead(Step(Step(s, a), b), c, [d] + rest);
    RunHead(Step(Step(Step(s, a), b), c), d, rest);
    assert [a, b, c, d] + rest == [a] + ([b, c, d] + rest);
    assert [b, c, d] + rest == [b] + ([c, d] + rest);
    assert [c, d] + rest == [c] + ([d] + rest);
  }

  lemma RunThree(s: Sys, a: Action, b: Action, c: Action)
    ensures Run(s, [a, b, c]) == Step(Step(Step(s, a), b), c)
  {
    assert [a, b, c] == [a] + ([b] + ([c] + []));
    RunHead(s, a, [b] + ([c] + []));
    RunHead(Step(s, a), b, [c] + []);
    RunHead(Step(Step(s, a), b), c, []);
  }

  function TwiceTail(c: Uuid, triage: Triage): seq<Action> {
    [IntakeStep(triage, false), DeliverTaskResult(1, BillingTask(c), false, None), Resume(1), Resume(1)]
      + [Resume(1), Resume(1), IntakeStep(triage, true)]
  }

  lemma RegisteredThenTwice(s: Sys, c: Uuid, triage: Triage)
    requires s == RegisteredSys(c, triage) && triage.needsRefundReview
    ensures Count(Run(s, TwiceTail(c, triage)).log, c, AnyKind) == 2
  {
    FailureReachesClaim(s, c, triage);
    var s4 := Step(Step(Step(Step(s, IntakeStep(triage, false)), DeliverTaskResult(1, BillingTask(c), false, None)),
      Resume(1)), Resume(1));
    ClaimThenFailure(s4, c, triage);
    RunThree(s4, Resume(1), Resume(1), IntakeStep(triage, true));
    RunFour(s, IntakeStep(triage, false), DeliverTaskResult(1, BillingTask(c), false, None), Resume(1), Resume(1),
            [Resume(1), Resume(1), IntakeStep(triage, true)]);
  }

  lemma ReachRegistered(c: Uuid, triage: Triage, rest: seq<Action>)
    requires triage.needsRefundReview
    ensures var step := IntakeStep(triage, false);
      Run(INIT, [TakeTicket(c)] + ([step, step, step, step] + rest)) == Run(RegisteredSys(c, triage), rest)
  {
    var step := IntakeStep(triage, false);
    RegistersBoth(c, triage);
    RunHead(INIT, TakeTicket(c), [step, step, step, step] + rest);
    RunFour(Step(INIT, TakeTicket(c)), step, step, step, step, rest);
  }

  /** The two-decision run: billing is requested and its task fails at once, the policy escalates
      the case, and only then the risk request raises and the intake escalates it again. */
  lemma DelegationFailureDecidesTwice(c: Uuid, triage: Triage)
    requires triage.needsRefundReview
    ensures exists actions :: Count(Run(INIT, actions).log, c, AnyKind) == 2
  {
    ReachRegistered(c, triage, TwiceTail(c, triage));
    RegisteredThenTwice(RegisteredSys(c, triage), c, triage);
  }

  // ---------------------------------------------------------------- when a failed delegation is harmless

  ghost predicate SettledIn(s: Sys, c: Uuid) {
    c in s.store.cases && IsSettled(s.store.cases[c].status)
  }

  lemma SettledStays(s: Sys, a: Action, c: Uuid)
    requires Inv(s) && SettledIn(s, c)
    ensures SettledIn(Step(s, a), c)
  {
    StepClimbs(s, a, c);
  }

  ghost predicate Delegating(s: Sys, c: Uuid) {
    s.intake == RequestingBilling(c) || s.intake == RequestingRisk(c) || s.intake == Announcing(c)
  }

  ghost predicate ClaimedOn(s: Sys, c: Uuid) {
    exists p :: p in s.inflight && Claimed(s.inflight[p]) && s.inflight[p].c == c
  }

  lemma ClaimedOnSettles(s: Sys, c: Uuid)
    requires ContsOk(s) && ClaimedOn(s, c)
    ensures c in s.store.cases && IsSettled(s.store.cases[c].status)
  {
    var p :| p in s.inflight && Claimed(s.inflight[p]) && s.inflight[p].c == c;
    assert ContOk(s, s.inflight[p]);
  }

  lemma DelegationFails(s: Sys, c: Uuid, triage: Triage)
    requires Delegating(s, c) && c in s.store.cases
    ensures Step(s, IntakeStep(triage, true)) == EscalateFailure(s, c)
  {
  }

  lemma FailureAddsOne(s: Sys, c: Uuid)
    ensures var s' := EscalateFailure(s, c);
      Count(s'.log, c, AnyKind) == Count(s.log, c, AnyKind) + 1 && (Owed(s', c) <==> Owed(s, c))
  {
    var s' := EscalateFailure(s, c);
    EmitCounts(s, s', s'.log[|s.log|]);
    SameFlights(s, s', c);
  }

  /** While its delegation is still going on, a settled case has its one decision out or owed. */
  lemma SettledWhileDelegating(s: Sys, c: Uuid)
    requires Reachable(s) && Delegating(s, c) && SettledIn(s, c)
    ensures Count(s.log, c, AnyKind) == if Owed(s, c) then 0 else 1
  {
    ReachableInv(s);
    ReachableProgress(s);
    CountsAddUp(s.log, c);
    DelegatedPays(s, c);
    if Owed(s, c) { OwedIsSettled(s, c); }
  }

  lemma DelegatedPays(s: Sys, c: Uuid)
    requires Inv(s) && ProgressInv(s) && Delegating(s, c) && SettledIn(s, c)
    ensures Count(s.log, c, FailureKind) == 0 && Count(s.log, c, DirectKind) == 0
    ensures Count(s.log, c, GuardedKind) == 1 || (Count(s.log, c, GuardedKind) == 0 && Owed(s, c))
  {
    assert CaseOk(s, c) && Progresses(s, c);
  }

  /** When the delegation fails on a case somebody has already settled, a second decision is out or owed. */
  lemma FailureAfterClaimDoubles(s: Sys, c: Uuid, triage: Triage)
    requires Reachable(s) && Delegating(s, c) && SettledIn(s, c)
    ensures var s' := Step(s, IntakeStep(triage, true));
      Count(s'.log, c, AnyKind) == if Owed(s', c) then 1 else 2
  {
    DelegationFails(s, c, triage);
    FailureAddsOne(s, c);
    SettledWhileDelegating(s, c);
  }

  // ---------------------------------------------------------------- consistency of the store

  lemma CaseEntry(s: Sys, c: Uuid)
    requires c in s.store.cases && CaseOk(s, c) && IndexOk(s)
    ensures s.store.cases[c].correlation == c && c in s.store.byCorrelation && s.store.byCorrelation[c] == c
  {
  }

  lemma PendingEntry(s: Sys, c: Uuid, t: TaskId)
    requires c in s.store.cases && CaseOk(s, c) && IndexOk(s) && t in s.store.cases[c].pending
    ensures t in s.store.byTask && s.store.byTask[t] == c
    ensures s.store.cases[c].billingTask == Some(t) || s.store.cases[c].riskTask == Some(t)
  {
  }

  lemma TaskEntry(s: Sys, t: TaskId)
    requires Reachable(s) && t in s.store.byTask
    ensures s.store.byTask[t] in s.store.cases
    ensures var r := s.store.cases[s.store.byTask[t]]; r.billingTask == Some(t) || r.riskTask == Some(t)
  {
    ReachableInv(s);
    KnownTask(s, t);
  }

  lemma CorrelationEntry(s: Sys, k: Uuid)
    requires Reachable(s) && k in s.store.byCorrelation
    ensures s.store.byCorrelation[k] in s.store.cases && s.store.cases[s.store.byCorrelation[k]].correlation == k
  {
    ReachableInv(s);
    if k in s.store.cases {
      assert CaseOk(s, k);
    }
  }

  /** Indexes agree with the case map, pending tasks are the case's own, and the task ids of
      different cases are disjoint. */
  lemma StoreConsistent(s: Sys)
    requires Reachable(s)
    ensures forall k :: k in s.store.byCorrelation ==>
              s.store.byCorrelation[k] in s.store.cases && s.store.cases[s.store.byCorrelation[k]].correlation == k
    ensures forall c :: c in s.store.cases ==> c in s.store.byCorrelation && s.store.byCorrelation[c] == c
    ensures forall c, t :: c in s.store.cases && t in s.store.cases[c].pending ==>
              && t in s.store.byTask && s.store.byTask[t] == c
              && (s.store.cases[c].billingTask == Some(t) || s.store.cases[c].riskTask == Some(t))
    ensures forall t :: t in s.store.byTask ==>
              && s.store.byTask[t] in s.store.cases
              && var r := s.store.cases[s.store.byTask[t]]; r.billingTask == Some(t) || r.riskTask == Some(t)
  {
    forall k | k in s.store.byCorrelation
      ensures s.store.byCorrelation[k] in s.store.cases && s.store.cases[s.store.byCorrelation[k]].correlation == k
    {
      CorrelationEntry(s, k);
    }
    ReachableInv(s);
    forall c | c in s.store.cases
      ensures c in s.store.byCorrelation && s.store.byCorrelation[c] == c
    {
      assert CaseOk(s, c);
      CaseEntry(s, c);
    }
    forall c, t | c in s.store.cases && t in s.store.cases[c].pending
      ensures t in s.store.byTask && s.store.byTask[t] == c
      ensures s.store.cases[c].billingTask == Some(t) || s.store.cases[c].riskTask == Some(t)
    {
      assert CaseOk(s, c);
      PendingEntry(s, c, t);
    }
    forall t | t in s.store.byTask
      ensures s.store.byTask[t] in s.store.cases
      ensures var r := s.store.cases[s.store.byTask[t]]; r.billingTask == Some(t) || r.riskTask == Some(t)
    {
      TaskEntry(s, t);
    }
  }

  lemma PendingDisjoint(s: Sys, c: Uuid, d: Uuid)
    requires Reachable(s) && c in s.store.cases && d in s.store.cases && c != d
    ensures s.store.cases[c].pending !! s.store.cases[d].pending
  {
    StoreConsistent(s);
    forall t | t in s.store.cases[c].pending ensures t !in s.store.cases[d].pending {
      assert s.store.byTask[t] == c;
    }
  }

  /** Status rank and version never drop along a run without a failed delegation; a settled case
      stays settled along every run. */
  lemma CasesOnlyAdvance(s: Sys, actions: seq<Action>, c: Uuid)
    requires Reachable(s) && c in s.store.cases
    ensures var s' := Run(s, actions);
      && c in s'.store.cases
      && s'.store.cases[c].version >= s.store.cases[c].version
      && (IsSettled(s.store.cases[c].status) ==> IsSettled(s'.store.cases[c].status))
      && (Count(s'.log, c, FailureKind) == 0 ==> Rank(s'.store.cases[c].status) >= Rank(s.store.cases[c].status))
  {
    ReachableInv(s);
    RunClimbs(s, actions, c);
  }

  // ---------------------------------------------------------------- what decisions mean

  /** A policy decision other than an escalation was computed from both findings, which the case
      still holds, with nothing pending; and the peers never answer with a direct response. */
  lemma VerdictExplained(s: Sys, i: nat)
    requires Reachable(s) && i < |s.log| && !s.log[i].emitter.DirectEmit?
    ensures s.log[i].outcome != DirectResponse && s.log[i].caseId in s.store.cases
    ensures s.log[i].outcome != EscalateHuman ==>
      var r := s.store.cases[s.log[i].caseId];
      && r.billing.Some? && r.risk.Some? && r.pending == {}
      && s.log[i].outcome == Decide(TriageOf(r), r.billing, r.risk, None).outcome
  {
    ReachableInv(s);
    assert DecisionOk(s, s.log[i]);
  }

  ghost predicate FailedFirst(r: CaseRec) {
    (r.billingFailed && r.billing == None) || (r.riskFailed && r.risk == None)
  }

  /** Once a slot has failed before its finding came, no run can end in anything but an escalation
      of that case; a failed billing slot stays empty for good, and a failed risk slot is filled only
      by a finding that has itself just forced the escalation. */
  lemma FailedSlotEscalates(s: Sys, actions: seq<Action>, c: Uuid)
    requires Reachable(s) && c in s.store.cases && FailedFirst(s.store.cases[c])
    ensures var s' := Run(s, actions);
      && c in s'.store.cases
      && (s.store.cases[c].billingFailed && s.store.cases[c].billing == None ==> s'.store.cases[c].billing == None)
      && (s.store.cases[c].riskFailed && s.store.cases[c].risk == None ==>
            s'.store.cases[c].risk == None || Count(s'.log, c, ElevatedKind) >= 1)
      && forall i :: 0 <= i < |s'.log| && s'.log[i].caseId == c ==> s'.log[i].outcome == EscalateHuman
  {
    ReachableInv(s);
    RunInv(s, actions);
    RunClimbs(s, actions, c);
    var s' := Run(s, actions);
    FailedSlotIsDelegated(s, c);
    forall i | 0 <= i < |s'.log| && s'.log[i].caseId == c ensures s'.log[i].outcome == EscalateHuman {
      FailedSlotDecision(s', c, i, s.store.cases[c].billingFailed && s.store.cases[c].billing == None);
    }
  }

  lemma FailedSlotIsDelegated(s: Sys, c: Uuid)
    requires CasesOk(s) && c in s.store.cases && FailedFirst(s.store.cases[c])
    ensures Registered(s.store.cases[c], c)
  {
    assert CaseOk(s, c);
  }

  lemma {:induction false} ElevatedIsTheGuarded(log: seq<Decision>, i: nat, c: Uuid)
    requires i < |log| && log[i].caseId == c && log[i].emitter.PolicyEmit?
    ensures Count(log, c, GuardedKind) >= Count(log, c, ElevatedKind) + 1
  {
    if i < |log| - 1 {
      ElevatedIsTheGuarded(log[..|log| - 1], i, c);
    } else {
      CountsAddUp(log[..|log| - 1], c);
    }
  }

  lemma FailedSlotDecision(s: Sys, c: Uuid, i: nat, billing: bool)
    requires Inv(s) && c in s.store.cases && i < |s.log| && s.log[i].caseId == c
    requires s.store.cases[c].billingFailed || s.store.cases[c].riskFailed
    requires if billing then s.store.cases[c].billing == None
             else s.store.cases[c].risk == None || Count(s.log, c, ElevatedKind) >= 1
    ensures s.log[i].outcome == EscalateHuman
  {
    assert CaseOk(s, c) && DecisionOk(s, s.log[i]);
    match s.log[i].emitter {
      case DirectEmit => LoggedCounts(s.log, i, DirectKind);
      case PolicyEmit(_) => ElevatedIsTheGuarded(s.log, i, c);
      case ElevatedRiskEmit =>
      case DelegationFailureEmit =>
    }
  }

  lemma PendingVerdict(r: CaseRec, c: Uuid, now: int)
    requires Registered(r, c) && r.pending != {}
    ensures Decide(TriageOf(r), r.billing, r.risk, Some(BuildTimeoutStatus(r, now)))
         == Verdict(EscalateHuman, Some(if now > r.deadline.value then AnalysisTimeout else MissingAnalysis))
  {
    var t :| t in r.pending;
    assert t == BillingTask(c) || t == RiskTask(c);
  }

  /** The policy publishes the verdict of the case as it stands. */
  lemma PolicyEmits(s: Sys, pid: Pid, c: Uuid, flow: Flow, v: Verdict)
    requires pid in s.inflight && s.inflight[pid] == EmitPolicy(c, flow) && c in s.store.cases
    requires var r := s.store.cases[c];
        v == Decide(TriageOf(r), r.billing, r.risk, Some(BuildTimeoutStatus(r, s.clock)))
    ensures Step(s, Resume(pid)).log == s.log + [Decision(c, v.outcome, v.reason, PolicyEmit(flow.Reaper?))]
  {
  }

  lemma EmitterDelegated(s: Sys, pid: Pid, c: Uuid, flow: Flow)
    requires Inv(s) && pid in s.inflight && s.inflight[pid] == EmitPolicy(c, flow)
    ensures c in s.store.cases && Registered(s.store.cases[c], c)
    ensures flow.Reaper? ==> s.clock > s.store.cases[c].deadline.value
  {
    assert ContOk(s, s.inflight[pid]);
  }

  /** A decision computed while a peer is still pending is an escalation whose reason tells whether
      the deadline had passed; for the reaper it always has. */
  lemma PendingDecisionEscalates(s: Sys, pid: Pid, c: Uuid, flow: Flow)
    requires Reachable(s) && pid in s.inflight && s.inflight[pid] == EmitPolicy(c, flow) && c in s.store.cases
    requires s.store.cases[c].pending != {}
    ensures var late := s.clock > s.store.cases[c].deadline.GetOr(0);
      && s.store.cases[c].deadline.Some?
      && (flow.Reaper? ==> late)
      && Step(s, Resume(pid)).log ==
           s.log + [Decision(c, EscalateHuman, Some(if late then AnalysisTimeout else MissingAnalysis),
             PolicyEmit(flow.Reaper?))]
  {
    ReachableInv(s);
    EmitterDelegated(s, pid, c, flow);
    PendingVerdict(s.store.cases[c], c, s.clock);
    var late := s.clock > s.store.cases[c].deadline.value;
    PolicyEmits(s, pid, c, flow, Verdict(EscalateHuman, Some(if late then AnalysisTimeout else MissingAnalysis)));
  }

  // ---------------------------------------------------------------- nobody is stuck

  /** An undecided delegated case has a deadline, and either waits for a peer under that deadline, with
      none failed, or is about to be claimed. */
  lemma NeverStuck(s: Sys, c: Uuid)
    requires Reachable(s) && c in s.store.cases && s.store.cases[c].status in {WaitingForPeerReviews, ReadyForDecision}
    requires s.intake != RegisteringBilling(c)
    ensures s.store.cases[c].deadline.Some?
    ensures (s.store.cases[c].pending != {} && !s.store.cases[c].billingFailed && !s.store.cases[c].riskFailed)
         || Attempted(s, c)
  {
    ReachableInv(s);
    ReachableProgress(s);
    assert CaseOk(s, c) && Progresses(s, c);
  }

  /** A case whose status is waiting does wait: a peer has yet to answer, and none has failed. */
  lemma WaitingIsForSomebody(s: Sys, c: Uuid)
    requires Reachable(s) && c in s.store.cases && s.store.cases[c].status == WaitingForPeerReviews
    requires s.intake != RegisteringBilling(c)
    ensures BillingTask(c) in s.store.cases[c].pending || RiskTask(c) in s.store.cases[c].pending
    ensures !s.store.cases[c].billingFailed && !s.store.cases[c].riskFailed
  {
    ReachableInv(s);
    assert CaseOk(s, c);
    var t :| t in s.store.cases[c].pending;
  }

  ghost predicate Quiescent(s: Sys) { s.intake == Idle && s.inflight == map[] }

  /** With nothing in flight, what is not settled is exactly what the reaper will find in time. */
  lemma QuiescentCases(s: Sys, c: Uuid)
    requires Reachable(s) && Quiescent(s) && c in s.store.cases && !IsSettled(s.store.cases[c].status)
    ensures s.store.cases[c].deadline.Some? && s.store.cases[c].pending != {}
    ensures !s.store.cases[c].billingFailed && !s.store.cases[c].riskFailed
    ensures s.clock > s.store.cases[c].deadline.value ==> TimedOut(s.store.cases[c], s.clock)
  {
    ReachableInv(s);
    ReachableProgress(s);
    assert CaseOk(s, c) && Progresses(s, c);
  }
}
