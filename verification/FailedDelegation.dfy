/** The branch of a failed delegation, which emits without a claim: exactly when it decides a case a
    second time. */
module FailedDelegation {
  import opened Common
  import opened CaseModels
  import opened DecisionEngine
  import opened PeerVocabulary
  import opened StoreSpec
  import opened Protocol
  import opened ProtocolSafety
  import opened ProtocolFrame
  import opened ProtocolProgress
  import opened ProtocolTheorems

  // ---------------------------------------------------------------- a claim is paid once, for good

  /** A claimant has published its decision, or owes it. */
  ghost predicate Paid(s: Sys, c: Uuid) {
    Count(s.log, c, GuardedKind) == 1 || Owed(s, c)
  }

  lemma EmittedStays(s: Sys, a: Action, c: Uuid)
    requires Inv(s) && Count(s.log, c, GuardedKind) == 1 && c in s.store.cases
    ensures Count(Step(s, a).log, c, GuardedKind) == 1
  {
    StepInv(s, a);
    StepClimbs(s, a, c);
    LogGrows(s, a, c);
    assert CaseOk(Step(s, a), c);
  }

  lemma LogGrows(s: Sys, a: Action, c: Uuid)
    requires Inv(s)
    ensures Count(Step(s, a).log, c, GuardedKind) >= Count(s.log, c, GuardedKind)
  {
    StepTouches(s, a);
    TouchedLogGrows(s, Step(s, a), Subject(s, a), c);
  }

  lemma TouchedLogGrows(s: Sys, s': Sys, d: Uuid, c: Uuid)
    requires Touches(s, s', d)
    ensures Count(s'.log, c, GuardedKind) >= Count(s.log, c, GuardedKind)
  {
    if s'.log != s.log {
      assert s'.log == s.log + [s'.log[|s.log|]];
      CountAppend(s.log, s'.log[|s.log|], c, GuardedKind);
    }
  }

  lemma EmissionPays(s: Sys, p: Pid, c: Uuid)
    requires Inv(s) && p in s.inflight && Unemitted(s.inflight[p]) && s.inflight[p].c == c
    ensures Count(Step(s, Resume(p)).log, c, GuardedKind) == 1
  {
    assert ContOk(s, s.inflight[p]);
    var s' := Step(s, Resume(p));
    assert s' == Resume'(s, p);
    EmitCounts(s, s', s'.log[|s.log|]);
  }

  lemma PaidStays(s: Sys, a: Action, c: Uuid)
    requires Inv(s) && Paid(s, c) && c in s.store.cases
    ensures Paid(Step(s, a), c)
  {
    if Count(s.log, c, GuardedKind) == 1 {
      EmittedStays(s, a, c);
    } else {
      var p :| p in s.inflight && Unemitted(s.inflight[p]) && s.inflight[p].c == c;
      if a == Resume(p) {
        EmissionPays(s, p, c);
      } else {
        StaysInFlight(s, a, p);
        Stands(Step(s, a), p);
      }
    }
  }

  lemma {:induction false} PaidForGood(s: Sys, actions: seq<Action>, c: Uuid)
    requires Inv(s) && Paid(s, c) && c in s.store.cases
    ensures Paid(Run(s, actions), c)
    decreases |actions|
  {
    if actions != [] {
      PaidStays(s, actions[0], c);
      StepInv(s, actions[0]);
      StepClimbs(s, actions[0], c);
      PaidForGood(Step(s, actions[0]), actions[1..], c);
    }
  }

  // ---------------------------------------------------------------- what the failed branch finds at its save

  /** Between the unguarded emission and the save that follows it, whoever has settled the case has
      paid for it. */
  ghost predicate FailurePaid(s: Sys) {
    s.intake.EscalatingFailure? && SettledIn(s, s.intake.c) ==> Paid(s, s.intake.c)
  }

  lemma ResumeSettlesByClaim(s: Sys, s': Sys, p: Pid, c: Uuid)
    requires ContsOk(s) && p in s.inflight && Live(s, s.inflight[p]) && s' == Resume'(s, p)
    requires c in s.store.cases && !SettledIn(s, c) && SettledIn(s', c)
    ensures p in s'.inflight && Unemitted(s'.inflight[p]) && s'.inflight[p].c == c
  {
    var k := s.inflight[p];
    assert ContOk(s, k);
    if k.ClaimForPolicy? || k.ClaimForRisk? {
      ClaimSettles(s, s', p, k, c);
    } else if Claimed(k) {
      ClaimedSettlesNone(s, s', p, k, c);
    } else {
      UnclaimedSettlesNone(s, s', p, k, c);
    }
  }

  lemma ClaimSettles(s: Sys, s': Sys, p: Pid, k: Cont, c: Uuid)
    requires p in s.inflight && s.inflight[p] == k && Live(s, k) && s' == Resume'(s, p)
    requires k.ClaimForPolicy? || k.ClaimForRisk?
    requires c in s.store.cases && !SettledIn(s, c) && SettledIn(s', c)
    ensures p in s'.inflight && Unemitted(s'.inflight[p]) && s'.inflight[p].c == c
  {
  }

  lemma ClaimedSettlesNone(s: Sys, s': Sys, p: Pid, k: Cont, c: Uuid)
    requires p in s.inflight && s.inflight[p] == k && Live(s, k) && s' == Resume'(s, p)
    requires Claimed(k) && SettledIn(s, k.c) && c in s.store.cases
    ensures SettledIn(s', c) ==> SettledIn(s, c)
  {
  }

  lemma UnclaimedSettlesNone(s: Sys, s': Sys, p: Pid, k: Cont, c: Uuid)
    requires p in s.inflight && s.inflight[p] == k && Live(s, k) && s' == Resume'(s, p)
    requires !Claimed(k) && !k.ClaimForPolicy? && !k.ClaimForRisk? && c in s.store.cases
    ensures SettledIn(s', c) ==> SettledIn(s, c)
  {
  }

  lemma SettlingPays(s: Sys, a: Action, c: Uuid)
    requires Inv(s) && s.intake == EscalatingFailure(c) && c in s.store.cases && !SettledIn(s, c)
    requires Step(s, a).intake == s.intake && SettledIn(Step(s, a), c)
    ensures Paid(Step(s, a), c)
  {
    if a.Resume? {
      ResumeSettlesByClaim(s, Step(s, a), a.pid, c);
      Stands(Step(s, a), a.pid);
    }
  }

  lemma FailureFindsPaid(s: Sys, c: Uuid)
    requires Inv(s) && ProgressInv(s) && Delegating(s, c) && SettledIn(s, c)
    ensures Paid(EscalateFailure(s, c), c)
  {
    assert CaseOk(s, c) && Progresses(s, c);
    FailureKeepsPaid(s, c);
  }

  lemma FailureKeepsPaid(s: Sys, c: Uuid)
    requires Paid(s, c)
    ensures Paid(EscalateFailure(s, c), c)
  {
    var s' := EscalateFailure(s, c);
    CountAppend(s.log, s'.log[|s.log|], c, GuardedKind);
    SameFlights(s, s', c);
  }

  lemma FailureBegins(s: Sys, a: Action, c: Uuid)
    requires s.intake != EscalatingFailure(c) && Step(s, a).intake == EscalatingFailure(c)
    ensures Delegating(s, c) && c in s.store.cases && Step(s, a) == EscalateFailure(s, c)
  {
  }

  lemma StepFailurePaid(s: Sys, a: Action)
    requires Inv(s) && ProgressInv(s) && FailurePaid(s)
    ensures FailurePaid(Step(s, a))
  {
    var s' := Step(s, a);
    if s'.intake.EscalatingFailure? && SettledIn(s', s'.intake.c) {
      var c := s'.intake.c;
      if s.intake != EscalatingFailure(c) {
        FailureBegins(s, a, c);
        FailureFindsPaid(s, c);
      } else if SettledIn(s, c) {
        PaidStays(s, a, c);
      } else {
        SettlingPays(s, a, c);
      }
    }
  }

  lemma {:induction false} RunFailurePaid(s: Sys, actions: seq<Action>)
    requires Inv(s) && ProgressInv(s) && FailurePaid(s)
    ensures FailurePaid(Run(s, actions))
    decreases |actions|
  {
    if actions != [] {
      StepFailurePaid(s, actions[0]);
      StepInv(s, actions[0]);
      RunHead(s, actions[0], []);
      RunProgress(s, [actions[0]]);
      assert [actions[0]] + [] == [actions[0]];
      RunFailurePaid(Step(s, actions[0]), actions[1..]);
    }
  }

  lemma ReachableFailurePaid(s: Sys)
    requires Reachable(s)
    ensures FailurePaid(s)
  {
    var actions :| s == Run(INIT, actions);
    InitInv();
    RunFailurePaid(INIT, actions);
  }

  /** At the save, the case has its two decisions out or owed exactly when somebody has settled it. */
  lemma AtTheSave(s: Sys, c: Uuid)
    requires Reachable(s) && s.intake == EscalatingFailure(c)
    ensures c in s.store.cases && Count(s.log, c, FailureKind) == 1
    ensures SettledIn(s, c) <==> Paid(s, c)
    ensures Count(s.log, c, AnyKind) + (if Owed(s, c) then 1 else 0) == if SettledIn(s, c) then 2 else 1
  {
    ReachableInv(s);
    ReachableFailurePaid(s);
    assert CaseOk(s, c);
    CountsAddUp(s.log, c);
    if Owed(s, c) { OwedIsSettled(s, c); }
  }

  // ---------------------------------------------------------------- nothing follows a save on an unsettled case

  ghost predicate OnlyFailureDecides(s: Sys, c: Uuid) {
    && SettledIn(s, c) && !ClaimedOn(s, c)
    && Count(s.log, c, GuardedKind) == 0 && Count(s.log, c, FailureKind) == 1
  }

  lemma ResumeNoLateClaim(s: Sys, s': Sys, p: Pid, c: Uuid)
    requires p in s.inflight && Live(s, s.inflight[p]) && SettledIn(s, c) && s' == Resume'(s, p)
    requires p in s'.inflight && Claimed(s'.inflight[p]) && s'.inflight[p].c == c
    ensures Claimed(s.inflight[p]) && s.inflight[p].c == c
  {
  }

  lemma OtherNoLateClaim(s: Sys, a: Action, p: Pid)
    requires a != Resume(p) && p in Step(s, a).inflight && Claimed(Step(s, a).inflight[p])
    ensures p in s.inflight && s.inflight[p] == Step(s, a).inflight[p]
  {
    if p in s.inflight {
      StaysInFlight(s, a, p);
    } else if Enabled(s, a) {
      match a {
        case IntakeStep(triage, raises) => IntakeMovesNone(s, triage, raises);
        case Resume(q) => ResumeMovesOne(s, q);
        case _ => StartsUnclaimed(s, a, p);
      }
    }
  }

  /** What a delivery or a sweep starts holds no claim. */
  lemma StartsUnclaimed(s: Sys, a: Action, p: Pid)
    requires !a.IntakeStep? && !a.Resume? && p !in s.inflight && p in Step(s, a).inflight
    ensures !Claimed(Step(s, a).inflight[p])
  {
  }

  /** No continuation gains a claim on a settled case. */
  lemma NoLateClaim(s: Sys, a: Action, c: Uuid, p: Pid)
    requires SettledIn(s, c) && p in Step(s, a).inflight
    requires Claimed(Step(s, a).inflight[p]) && Step(s, a).inflight[p].c == c
    ensures p in s.inflight && Claimed(s.inflight[p]) && s.inflight[p].c == c
  {
    if a == Resume(p) {
      if Enabled(s, a) { ResumeNoLateClaim(s, Step(s, a), p, c); }
    } else {
      OtherNoLateClaim(s, a, p);
    }
  }

  lemma NoLateDecision(s: Sys, a: Action, c: Uuid)
    requires Inv(s) && OnlyFailureDecides(s, c)
    ensures OnlyFailureDecides(Step(s, a), c)
  {
    var s' := Step(s, a);
    SettledStays(s, a, c);
    StepInv(s, a);
    StepClimbs(s, a, c);
    assert CaseOk(s', c);
    forall p | p in s'.inflight && Claimed(s'.inflight[p]) && s'.inflight[p].c == c
      ensures false
    {
      NoLateClaim(s, a, c, p);
    }
    UnclaimedStepAddsNothing(s, a, c);
  }

  lemma UnclaimedResumeEmitsElsewhere(s: Sys, p: Pid, c: Uuid)
    requires !ClaimedOn(s, c) && p in s.inflight && Live(s, s.inflight[p])
    ensures var s' := Resume'(s, p);
      s'.log == s.log || (|s'.log| == |s.log| + 1 && s'.log == s.log + [s'.log[|s.log|]] && s'.log[|s.log|].caseId != c)
  {
  }

  lemma OtherStepEmitsUnguarded(s: Sys, a: Action)
    requires !a.Resume?
    ensures var s' := Step(s, a);
      s'.log == s.log || (|s'.log| == |s.log| + 1 && s'.log == s.log + [s'.log[|s.log|]]
                          && !Matches(s'.log[|s.log|].emitter, GuardedKind))
  {
  }

  lemma UnclaimedStepAddsNothing(s: Sys, a: Action, c: Uuid)
    requires !ClaimedOn(s, c)
    ensures Count(Step(s, a).log, c, GuardedKind) == Count(s.log, c, GuardedKind)
  {
    var s' := Step(s, a);
    if a.Resume? {
      if Enabled(s, a) {
        UnclaimedResumeEmitsElsewhere(s, a.pid, c);
      }
    } else {
      OtherStepEmitsUnguarded(s, a);
    }
    if s'.log != s.log {
      CountAppend(s.log, s'.log[|s.log|], c, GuardedKind);
    }
  }

  lemma {:induction false} NoLateDecisions(s: Sys, actions: seq<Action>, c: Uuid)
    requires Inv(s) && OnlyFailureDecides(s, c)
    ensures OnlyFailureDecides(Run(s, actions), c)
    decreases |actions|
  {
    if actions != [] {
      NoLateDecision(s, actions[0], c);
      StepInv(s, actions[0]);
      NoLateDecisions(Step(s, actions[0]), actions[1..], c);
    }
  }

  lemma EscalatedWrites(s1: Sys, c: Uuid, triage: Triage)
    requires Inv(s1) && s1.intake == EscalatingFailure(c) && c in s1.store.cases
    ensures var s2 := Step(s1, IntakeStep(triage, false));
      s2.log == s1.log && s2.inflight == s1.inflight && SettledIn(s2, c)
  {
    InvAtIntake(s1);
    SaveStatusWrites(s1, c, Escalated);
  }

  lemma UnsettledHasNoClaim(s: Sys, c: Uuid)
    requires Inv(s) && c in s.store.cases && !SettledIn(s, c)
    ensures !ClaimedOn(s, c) && Count(s.log, c, GuardedKind) == 0
  {
    if ClaimedOn(s, c) { ClaimedOnSettles(s, c); }
    assert CaseOk(s, c);
  }

  lemma SaveIgnoresRaises(s: Sys, c: Uuid, triage: Triage, raises: bool)
    requires s.intake == EscalatingFailure(c)
    ensures Step(s, IntakeStep(triage, raises)) == Step(s, IntakeStep(triage, false))
  {
  }

  lemma EscalationStands(s: Sys, c: Uuid, triage: Triage, raises: bool)
    requires Inv(s) && s.intake == EscalatingFailure(c) && c in s.store.cases && !SettledIn(s, c)
    requires Count(s.log, c, FailureKind) == 1
    ensures OnlyFailureDecides(Step(s, IntakeStep(triage, raises)), c)
  {
    SaveIgnoresRaises(s, c, triage, raises);
    EscalatedWrites(s, c, triage);
    UnsettledHasNoClaim(s, c);
  }

  /** If nobody has settled the case by the time the failed delegation saves its status, its escalation
      is the only decision of the case in every run that follows. */
  lemma FailureOnUnsettledIsAlone(s: Sys, c: Uuid, triage: Triage, raises: bool, actions: seq<Action>)
    requires Reachable(s) && s.intake == EscalatingFailure(c) && !SettledIn(s, c)
    ensures var s' := Run(Step(s, IntakeStep(triage, raises)), actions);
      Count(s'.log, c, AnyKind) == 1 && !Owed(s', c)
  {
    ReachableInv(s);
    AtTheSave(s, c);
    var s1 := Step(s, IntakeStep(triage, raises));
    EscalationStands(s, c, triage, raises);
    StepInv(s, IntakeStep(triage, raises));
    NoLateDecisions(s1, actions, c);
    RunInv(s1, actions);
    OnlyOne(Run(s1, actions), c);
  }

  lemma OnlyOne(s: Sys, c: Uuid)
    requires Inv(s) && OnlyFailureDecides(s, c)
    ensures Count(s.log, c, AnyKind) == 1 && !Owed(s, c)
  {
    CountsAddUp(s.log, c);
    assert CaseOk(s, c);
  }

  lemma BothOutOrOwed(s: Sys, c: Uuid)
    requires Inv(s) && c in s.store.cases && Count(s.log, c, FailureKind) >= 1 && Paid(s, c)
    ensures Count(s.log, c, AnyKind) + (if Owed(s, c) then 1 else 0) == 2
  {
    CountsAddUp(s.log, c);
    assert CaseOk(s, c);
    if Owed(s, c) { OwedIsSettled(s, c); }
  }

  /** The exact condition: a case whose delegation failed is decided twice, in every run from the save of
      its escalation on, when somebody had settled it by then, and once when nobody had. A decision still
      owed is counted. */
  lemma DecidedTwiceExactly(s: Sys, c: Uuid, triage: Triage, raises: bool, actions: seq<Action>)
    requires Reachable(s) && s.intake == EscalatingFailure(c)
    ensures var s' := Run(Step(s, IntakeStep(triage, raises)), actions);
      Count(s'.log, c, AnyKind) + (if Owed(s', c) then 1 else 0) == if SettledIn(s, c) then 2 else 1
  {
    if SettledIn(s, c) {
      ReachableInv(s);
      AtTheSave(s, c);
      var all := [IntakeStep(triage, raises)] + actions;
      RunHead(s, IntakeStep(triage, raises), actions);
      PaidForGood(s, all, c);
      RunInv(s, all);
      RunClimbs(s, all, c);
      BothOutOrOwed(Run(s, all), c);
    } else {
      FailureOnUnsettledIsAlone(s, c, triage, raises, actions);
    }
  }
}
