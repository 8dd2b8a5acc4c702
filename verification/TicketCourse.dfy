/** The course of one ticket through the intake loop when nothing raises, whatever else the store holds. */
module TicketCourse {
  import opened Common
  import opened CaseModels
  import opened DecisionEngine
  import opened PeerVocabulary
  import opened StoreSpec
  import opened Protocol
  import opened ProtocolSafety
  import opened ProtocolTheorems

  /** n steps of the intake loop. */
  ghost function Intakes(s: Sys, triage: Triage, n: nat): Sys
    decreases n
  {
    if n == 0 then s else Intakes(Step(s, IntakeStep(triage, false)), triage, n - 1)
  }

  /** The case is at this point of the intake, with nothing logged and no time passed since s. */
  ghost predicate CourseAt(s: Sys, s': Sys, c: Uuid, at: Intake) {
    && Inv(s') && s'.intake == at && c in s'.store.cases
    && s'.log == s.log && s'.clock == s.clock && s'.inflight == s.inflight
  }

  lemma TicketTaken(s: Sys, c: Uuid)
    requires Inv(s) && s.intake == Idle && c !in s.store.cases
    ensures CourseAt(s, Step(s, TakeTicket(c)), c, Classifying(c))
  {
    StepInv(s, TakeTicket(c));
    NewTicketTouches(s, Step(s, TakeTicket(c)), c);
  }

  lemma TicketClassified(s: Sys, s1: Sys, c: Uuid, triage: Triage)
    requires CourseAt(s, s1, c, Classifying(c))
    ensures var s2 := Step(s1, IntakeStep(triage, false));
      CourseAt(s, s2, c, PublishingClassified(c)) && s2.store.cases[c].triage == Some(triage)
  {
    InvAtIntake(s1);
    StepInv(s1, IntakeStep(triage, false));
    ClassifyWrites(s1, c, triage);
  }

  lemma TicketReplied(s: Sys, s2: Sys, c: Uuid, triage: Triage)
    requires CourseAt(s, s2, c, PublishingClassified(c)) && s2.store.cases[c].triage == Some(triage)
    requires !triage.needsRefundReview
    ensures var s4 := Intakes(s2, triage, 2);
      && s4.intake == Idle && s4.log == s.log + [Decision(c, DirectResponse, None, DirectEmit)]
      && c in s4.store.cases && s4.store.cases[c].status == Closed
  {
    var s3 := Step(s2, IntakeStep(triage, false));
    assert s3 == Emit(s2, Decision(c, DirectResponse, None, DirectEmit)).(intake := ClosingDirect(c));
    StepInv(s2, IntakeStep(triage, false));
    InvAtIntake(s3);
    SaveStatusWrites(s3, c, Closed);
    assert Intakes(s2, triage, 2) == Intakes(s3, triage, 1) == Step(s3, IntakeStep(triage, false));
  }

  lemma TicketWaits(s: Sys, s2: Sys, c: Uuid, triage: Triage)
    requires CourseAt(s, s2, c, PublishingClassified(c)) && s2.store.cases[c].triage == Some(triage)
    requires triage.needsRefundReview
    ensures var s3 := Step(s2, IntakeStep(triage, false));
      && CourseAt(s, s3, c, RegisteringBilling(c))
      && s3.store.cases[c].deadline == Some(s.clock + 15) && s3.store.cases[c].triage == Some(triage)
  {
    InvAtIntake(s2);
    StepInv(s2, IntakeStep(triage, false));
    WaitWrites(s2, c, triage);
  }

  /** What a ticket's case looks like once both peers have been asked. */
  ghost predicate Asked(s: Sys, s': Sys, c: Uuid, triage: Triage, pending: set<TaskId>) {
    && c in s'.store.cases
    && var r := s'.store.cases[c];
    && r.status == WaitingForPeerReviews && r.triage == Some(triage)
    && r.deadline == Some(s.clock + 15) && r.pending == pending
  }

  lemma BillingRegistered(s: Sys, s3: Sys, c: Uuid, triage: Triage)
    requires CourseAt(s, s3, c, RegisteringBilling(c))
    requires s3.store.cases[c].deadline == Some(s.clock + 15) && s3.store.cases[c].triage == Some(triage)
    ensures var s4 := Step(s3, IntakeStep(triage, false));
      CourseAt(s, s4, c, RegisteringRisk(c)) && Asked(s, s4, c, triage, {BillingTask(c)})
  {
    InvAtIntake(s3);
    StepInv(s3, IntakeStep(triage, false));
    RegisterBillingWrites(s3, c, triage);
  }

  lemma RiskRegistered(s: Sys, s4: Sys, c: Uuid, triage: Triage)
    requires CourseAt(s, s4, c, RegisteringRisk(c)) && Asked(s, s4, c, triage, {BillingTask(c)})
    ensures var s5 := Step(s4, IntakeStep(triage, false));
      CourseAt(s, s5, c, RequestingBilling(c)) && Asked(s, s5, c, triage, {BillingTask(c), RiskTask(c)})
  {
    InvAtIntake(s4);
    StepInv(s4, IntakeStep(triage, false));
    RegisterRiskWrites(s4, c, triage);
    assert {BillingTask(c)} + {RiskTask(c)} == {BillingTask(c), RiskTask(c)};
  }

  lemma TicketRegistered(s: Sys, s3: Sys, c: Uuid, triage: Triage)
    requires CourseAt(s, s3, c, RegisteringBilling(c))
    requires s3.store.cases[c].deadline == Some(s.clock + 15) && s3.store.cases[c].triage == Some(triage)
    ensures var s5 := Intakes(s3, triage, 2);
      CourseAt(s, s5, c, RequestingBilling(c)) && Asked(s, s5, c, triage, {BillingTask(c), RiskTask(c)})
  {
    var s4 := Step(s3, IntakeStep(triage, false));
    BillingRegistered(s, s3, c, triage);
    RiskRegistered(s, s4, c, triage);
    assert Intakes(s3, triage, 2) == Intakes(s4, triage, 1) == Step(s4, IntakeStep(triage, false));
  }

  lemma TicketAnnounced(s: Sys, s5: Sys, c: Uuid, triage: Triage)
    requires CourseAt(s, s5, c, RequestingBilling(c)) && Asked(s, s5, c, triage, {BillingTask(c), RiskTask(c)})
    ensures var s8 := Intakes(s5, triage, 3);
      CourseAt(s, s8, c, Idle) && Asked(s, s8, c, triage, {BillingTask(c), RiskTask(c)})
  {
    var step := IntakeStep(triage, false);
    var s6 := Step(s5, step);
    assert s6 == s5.(intake := RequestingRisk(c));
    StepInv(s5, step);
    var s7 := Step(s6, step);
    assert s7 == s6.(intake := Announcing(c));
    StepInv(s6, step);
    InvAtIntake(s7);
    StepInv(s7, step);
    SaveStatusWrites(s7, c, WaitingForPeerReviews);
    assert Intakes(s5, triage, 3) == Intakes(s6, triage, 2) == Intakes(s7, triage, 1) == Step(s7, step);
  }

  lemma {:induction false} IntakesCompose(s: Sys, triage: Triage, m: nat, n: nat)
    ensures Intakes(s, triage, m + n) == Intakes(Intakes(s, triage, m), triage, n)
    decreases m
  {
    if m > 0 {
      IntakesCompose(Step(s, IntakeStep(triage, false)), triage, m - 1, n);
    }
  }

  /** A new ticket that needs no refund review is answered at once: one direct response, and it is closed. */
  lemma TicketAnswered(s: Sys, c: Uuid, triage: Triage)
    requires Reachable(s) && s.intake == Idle && c !in s.store.cases && !triage.needsRefundReview
    ensures var s' := Intakes(Step(s, TakeTicket(c)), triage, 3);
      && s'.intake == Idle && s'.log == s.log + [Decision(c, DirectResponse, None, DirectEmit)]
      && c in s'.store.cases && s'.store.cases[c].status == Closed
  {
    ReachableInv(s);
    var s1 := Step(s, TakeTicket(c));
    TicketTaken(s, c);
    TicketClassified(s, s1, c, triage);
    TicketReplied(s, Step(s1, IntakeStep(triage, false)), c, triage);
  }

  /** A new ticket that needs one is handed to both peers: both tasks are pending and can be found by their
      ids, the case waits under a deadline of fifteen seconds, and nothing has been decided. */
  lemma TicketDelegated(s: Sys, c: Uuid, triage: Triage)
    requires Reachable(s) && s.intake == Idle && c !in s.store.cases && triage.needsRefundReview
    ensures var s' := Intakes(Step(s, TakeTicket(c)), triage, 7);
      && s'.intake == Idle && s'.log == s.log
      && Asked(s, s', c, triage, {BillingTask(c), RiskTask(c)})
      && forall t :: t in {BillingTask(c), RiskTask(c)} ==> t in s'.store.byTask && s'.store.byTask[t] == c
  {
    ReachableInv(s);
    var s1 := Step(s, TakeTicket(c));
    TicketTaken(s, c);
    TicketClassified(s, s1, c, triage);
    var s2 := Step(s1, IntakeStep(triage, false));
    TicketWaits(s, s2, c, triage);
    var s3 := Step(s2, IntakeStep(triage, false));
    TicketRegistered(s, s3, c, triage);
    TicketAnnounced(s, Intakes(s3, triage, 2), c, triage);
    IntakesCompose(s3, triage, 2, 3);
    var s8 := Intakes(s3, triage, 5);
    assert CaseOk(s8, c);
    PendingEntry(s8, c, BillingTask(c));
    PendingEntry(s8, c, RiskTask(c));
    assert Intakes(s1, triage, 7) == Intakes(s2, triage, 6) == s8;
  }
}
