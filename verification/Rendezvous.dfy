/** Both peers' handlers at once: any number of deliveries of one billing and one risk payload, their
    segments interleaved in any way with each other and with every other case. */
module Rendezvous {
  import opened Common
  import opened CaseModels
  import opened DecisionEngine
  import opened PeerVocabulary
  import opened StoreSpec
  import opened Protocol
  import opened ProtocolSafety
  import opened ProtocolFrame
  import opened ProtocolTheorems
  import opened Confluence

  /** The case, its triage and the two findings that come for it. */
  datatype Pair = Pair(c: Uuid, triage: Triage, b: BillingFinding, k: RiskFinding)

  /** The risk finding may be attached: it is not adverse, or billing has denied already. */
  predicate Routable(m: Pair) { !Adverse(m.k) || m.b.eligibility == Ineligible }

  predicate SweepFree(flow: Flow, c: Uuid) { flow.Reaper? ==> c !in flow.rest }

  /** A continuation of such a delivery, or one that does not concern the case. */
  predicate Fits(k: Cont, m: Pair, r: CaseRec) {
    match k
    case AttachBilling(d, f) => d == m.c ==> f == m.b
    case AttachRisk(d, f) => d == m.c ==> f == m.k && (Routable(m) || IsSettled(r.status))
    case CheckReady(_) => true
    case FailTask(d, _, _) => d != m.c
    case AttachTaskResult(d, _, _) => d != m.c
    case CheckReadyAfterTask(d) => d != m.c
    case ClaimForPolicy(d, flow) => SweepFree(flow, m.c) && (d == m.c ==> flow.Handler? && r.pending == {})
    case EmitPolicy(d, flow) => SweepFree(flow, m.c) && (d == m.c ==> flow.Handler? && r.pending == {})
    case FinishPolicy(_, flow) => SweepFree(flow, m.c)
    case ClaimForRisk(d, f) => d == m.c ==> f == m.k && Adverse(m.k)
    case EmitRisk(d, f) => d == m.c ==> f == m.k && Adverse(m.k)
    case FinishRisk(_) => true
    case Sweep(rest) => m.c !in rest
  }

  /** Only the two findings can be on the case, each once its task is no longer pending. */
  ghost predicate RecordFits(r: CaseRec, m: Pair) {
    && Registered(r, m.c) && r.triage == Some(m.triage) && !r.billingFailed && !r.riskFailed
    && r.billing in {None, Some(m.b)} && r.risk in {None, Some(m.k)}
    && (BillingTask(m.c) !in r.pending ==> r.billing == Some(m.b))
    && (RiskTask(m.c) !in r.pending ==> r.risk == Some(m.k) && Routable(m))
  }

  predicate Is(d: Decision, v: Verdict) { d.outcome == v.outcome && d.reason == v.reason }

  /** The verdict of one of the two arrival orders. */
  predicate Either(d: Decision, m: Pair) {
    && !d.emitter.DelegationFailureEmit?
    && (Is(d, BillingThenRisk(m.triage, m.b, m.k)) || Is(d, RiskThenBilling(m.triage, m.b, m.k)))
  }

  ghost predicate LogFits(log: seq<Decision>, m: Pair) {
    forall i :: 0 <= i < |log| && log[i].caseId == m.c ==> Either(log[i], m)
  }

  ghost predicate FlightsFit(s: Sys, m: Pair, r: CaseRec) {
    forall p :: p in s.inflight ==> Fits(s.inflight[p], m, r)
  }

  ghost predicate Meeting(s: Sys, m: Pair) {
    && m.c in s.store.cases && RecordFits(s.store.cases[m.c], m)
    && FlightsFit(s, m, s.store.cases[m.c])
    && LogFits(s.log, m)
    && (s.intake != Idle ==> s.intake.c != m.c)
  }

  /** What may happen: anything on other cases, these two payloads on this one, no failed task of it and
      no sweep that lists it. */
  predicate Allowed(a: Action, m: Pair) {
    match a
    case DeliverBilling(_, correlation, p) => correlation == m.c ==> BillingFindingOf(p) == m.b
    case DeliverRisk(_, correlation, p) => correlation == m.c ==> RiskFindingOf(p) == m.k
    case DeliverTaskResult(_, t, completed, _) => t.Uuid5? && t.ns == m.c ==> completed
    case StartSweep(_, found) => m.c !in found
    case _ => true
  }

  // ---------------------------------------------------------------- one step

  /** A record that has moved on: less pending, still settled if it was. */
  predicate Later(r: CaseRec, r': CaseRec) { r'.pending <= r.pending && (IsSettled(r.status) ==> IsSettled(r'.status)) }

  lemma FitsLater(k: Cont, m: Pair, r: CaseRec, r': CaseRec)
    requires Fits(k, m, r) && Later(r, r')
    ensures Fits(k, m, r')
  {
  }

  /** One continuation moved; the others still fit. */
  lemma FlightsStillFit(s: Sys, s': Sys, pid: Pid, m: Pair, r: CaseRec, r': CaseRec)
    requires FlightsFit(s, m, r) && Later(r, r') && OnlyCont(s, s', pid)
    requires pid in s'.inflight ==> Fits(s'.inflight[pid], m, r')
    ensures FlightsFit(s', m, r')
  {
    forall p | p in s'.inflight
      ensures Fits(s'.inflight[p], m, r')
    {
      if p != pid {
        FitsLater(s.inflight[p], m, r, r');
      }
    }
  }

  lemma LogStillFits(log: seq<Decision>, d: Decision, m: Pair)
    requires LogFits(log, m) && (d.caseId == m.c ==> Either(d, m))
    ensures LogFits(log + [d], m)
  {
  }

  /** What a resumption has to keep. */
  ghost predicate Keeps(s: Sys, s': Sys, pid: Pid, m: Pair)
    requires m.c in s.store.cases
  {
    && m.c in s'.store.cases && RecordFits(s'.store.cases[m.c], m) && Later(s.store.cases[m.c], s'.store.cases[m.c])
    && (pid in s'.inflight ==> Fits(s'.inflight[pid], m, s'.store.cases[m.c]))
    && LogFits(s'.log, m) && s'.intake == s.intake
  }

  lemma AttachBillingKeeps(s: Sys, s': Sys, pid: Pid, k: Cont, m: Pair)
    requires Meeting(s, m) && pid in s.inflight && s.inflight[pid] == k && Live(s, k) && s' == Resume'(s, pid)
    requires k.AttachBilling?
    ensures Keeps(s, s', pid, m)
  {
  }

  lemma AttachRiskKeeps(s: Sys, s': Sys, pid: Pid, k: Cont, m: Pair)
    requires Meeting(s, m) && pid in s.inflight && s.inflight[pid] == k && Live(s, k) && s' == Resume'(s, pid)
    requires k.AttachRisk?
    ensures Keeps(s, s', pid, m)
  {
  }

  lemma CheckKeeps(s: Sys, s': Sys, pid: Pid, k: Cont, m: Pair)
    requires Meeting(s, m) && pid in s.inflight && s.inflight[pid] == k && Live(s, k) && s' == Resume'(s, pid)
    requires k.CheckReady? || k.CheckReadyAfterTask? || k.FailTask? || k.AttachTaskResult?
    ensures Keeps(s, s', pid, m)
  {
  }

  lemma ClaimPolicyKeeps(s: Sys, s': Sys, pid: Pid, k: Cont, m: Pair)
    requires Meeting(s, m) && pid in s.inflight && s.inflight[pid] == k && Live(s, k) && s' == Resume'(s, pid)
    requires k.ClaimForPolicy?
    ensures Keeps(s, s', pid, m)
  {
  }

  lemma ClaimRiskKeeps(s: Sys, s': Sys, pid: Pid, k: Cont, m: Pair)
    requires Meeting(s, m) && pid in s.inflight && s.inflight[pid] == k && Live(s, k) && s' == Resume'(s, pid)
    requires k.ClaimForRisk?
    ensures Keeps(s, s', pid, m)
  {
  }

  /** With nothing pending the table speaks, and so it does in one of the orders. */
  lemma PolicyIsEither(r: CaseRec, m: Pair, now: int, emitter: Emitter)
    requires RecordFits(r, m) && r.pending == {} && !emitter.DelegationFailureEmit?
    ensures var v := Decide(TriageOf(r), r.billing, r.risk, Some(BuildTimeoutStatus(r, now)));
      Either(Decision(m.c, v.outcome, v.reason, emitter), m)
  {
    assert !BuildTimeoutStatus(r, now).AnyMissing();
  }

  lemma EmitPolicyKeeps(s: Sys, s': Sys, pid: Pid, k: Cont, m: Pair)
    requires Meeting(s, m) && pid in s.inflight && s.inflight[pid] == k && Live(s, k) && s' == Resume'(s, pid)
    requires k.EmitPolicy?
    ensures Keeps(s, s', pid, m)
  {
    var r := s.store.cases[k.c];
    var v := Decide(TriageOf(r), r.billing, r.risk, Some(BuildTimeoutStatus(r, s.clock)));
    var d := Decision(k.c, v.outcome, v.reason, PolicyEmit(k.flow.Reaper?));
    if k.c == m.c {
      PolicyIsEither(r, m, s.clock, d.emitter);
    }
    LogStillFits(s.log, d, m);
  }

  lemma EmitRiskKeeps(s: Sys, s': Sys, pid: Pid, k: Cont, m: Pair)
    requires Meeting(s, m) && pid in s.inflight && s.inflight[pid] == k && Live(s, k) && s' == Resume'(s, pid)
    requires k.EmitRisk?
    ensures Keeps(s, s', pid, m)
  {
    LogStillFits(s.log, Decision(k.c, EscalateHuman, Some(ElevatedRisk), ElevatedRiskEmit), m);
  }

  lemma FinishKeeps(s: Sys, s': Sys, pid: Pid, k: Cont, m: Pair)
    requires Meeting(s, m) && pid in s.inflight && s.inflight[pid] == k && Live(s, k) && s' == Resume'(s, pid)
    requires k.FinishPolicy? || k.FinishRisk?
    ensures Keeps(s, s', pid, m)
  {
  }

  lemma SweepKeeps(s: Sys, s': Sys, pid: Pid, k: Cont, m: Pair)
    requires Meeting(s, m) && pid in s.inflight && s.inflight[pid] == k && Live(s, k) && s' == Resume'(s, pid)
    requires k.Sweep?
    ensures Keeps(s, s', pid, m)
  {
    if k.rest != [] {
      assert k.rest == [k.rest[0]] + k.rest[1..];
    }
  }

  lemma ResumeKeeps(s: Sys, pid: Pid, m: Pair)
    requires Meeting(s, m) && Enabled(s, Resume(pid))
    ensures Meeting(Step(s, Resume(pid)), m)
  {
    var k, s' := s.inflight[pid], Step(s, Resume(pid));
    match k {
      case AttachBilling(_, _) => AttachBillingKeeps(s, s', pid, k, m);
      case AttachRisk(_, _) => AttachRiskKeeps(s, s', pid, k, m);
      case CheckReady(_) => CheckKeeps(s, s', pid, k, m);
      case FailTask(_, _, _) => CheckKeeps(s, s', pid, k, m);
      case AttachTaskResult(_, _, _) => CheckKeeps(s, s', pid, k, m);
      case CheckReadyAfterTask(_) => CheckKeeps(s, s', pid, k, m);
      case ClaimForPolicy(_, _) => ClaimPolicyKeeps(s, s', pid, k, m);
      case ClaimForRisk(_, _) => ClaimRiskKeeps(s, s', pid, k, m);
      case EmitPolicy(_, _) => EmitPolicyKeeps(s, s', pid, k, m);
      case EmitRisk(_, _) => EmitRiskKeeps(s, s', pid, k, m);
      case FinishPolicy(_, _) => FinishKeeps(s, s', pid, k, m);
      case FinishRisk(_) => FinishKeeps(s, s', pid, k, m);
      case Sweep(_) => SweepKeeps(s, s', pid, k, m);
    }
    StepMovesOne(s, Resume(pid), pid);
    FlightsStillFit(s, s', pid, m, s.store.cases[m.c], s'.store.cases[m.c]);
  }

  lemma ResultFits(s: Sys, a: Action, m: Pair)
    requires IndexOk(s) && Meeting(s, m) && Allowed(a, m) && Enabled(s, a)
    requires a.DeliverBilling? || a.DeliverRisk?
    ensures a.pid in Step(s, a).inflight ==> Fits(Step(s, a).inflight[a.pid], m, s.store.cases[m.c])
  {
  }

  lemma TaskResultFits(s: Sys, a: Action, m: Pair)
    requires Inv(s) && Meeting(s, m) && Allowed(a, m) && Enabled(s, a) && a.DeliverTaskResult?
    ensures a.pid in Step(s, a).inflight ==> Fits(Step(s, a).inflight[a.pid], m, s.store.cases[m.c])
  {
    if a.t in s.store.byTask {
      KnownTask(s, a.t);
    }
  }

  lemma DeliveryKeeps(s: Sys, a: Action, m: Pair)
    requires Inv(s) && Meeting(s, m) && Allowed(a, m) && Enabled(s, a)
    requires a.DeliverBilling? || a.DeliverRisk? || a.DeliverTaskResult? || a.StartSweep?
    ensures Meeting(Step(s, a), m)
  {
    if a.DeliverTaskResult? {
      TaskResultFits(s, a, m);
    } else if !a.StartSweep? {
      ResultFits(s, a, m);
    }
    DeliverSubject(s, a);
    StepMovesOne(s, a, a.pid);
    FlightsStillFit(s, Step(s, a), a.pid, m, s.store.cases[m.c], s.store.cases[m.c]);
  }

  lemma IntakeElsewhere(s: Sys, s': Sys, d: Uuid, m: Pair)
    requires Meeting(s, m) && Touches(s, s', d) && d != m.c && s'.inflight == s.inflight
    requires s'.intake != Idle ==> s'.intake.c == d
    ensures Meeting(s', m)
  {
    forall i | 0 <= i < |s'.log| && s'.log[i].caseId == m.c
      ensures Either(s'.log[i], m)
    {
      assert i < |s.log| && s'.log[i] == s.log[i];
    }
  }

  lemma IntakeMovesOn(s: Sys, a: Action)
    requires Inv(s) && Enabled(s, a) && (a.IntakeStep? || a.TakeTicket?)
    ensures var s' := Step(s, a);
      && s'.inflight == s.inflight
      && (s'.intake != Idle ==> s'.intake.c == Subject(s, a))
  {
    match a
    case IntakeStep(triage, raises) => IntakeStaysOnCase(s, triage, raises);
    case TakeTicket(c) =>
  }

  lemma IntakeStaysOnCase(s: Sys, triage: Triage, raises: bool)
    requires s.intake != Idle && s.intake.c in s.store.cases
    ensures var s' := IntakeStep'(s, triage, raises);
      s'.inflight == s.inflight && (s'.intake != Idle ==> s'.intake.c == s.intake.c)
  {
  }

  lemma StepKeeps(s: Sys, a: Action, m: Pair)
    requires Inv(s) && Meeting(s, m) && Allowed(a, m)
    ensures Meeting(Step(s, a), m)
  {
    if Enabled(s, a) {
      match a {
        case Tick(_) =>
        case Resume(pid) => ResumeKeeps(s, pid, m);
        case TakeTicket(d) =>
          if d == m.c {
            KnownTicketSkipped(s, d);
          } else {
            StepTouches(s, a);
            IntakeMovesOn(s, a);
            IntakeElsewhere(s, Step(s, a), d, m);
          }
        case IntakeStep(_, _) =>
          StepTouches(s, a);
          IntakeMovesOn(s, a);
          IntakeElsewhere(s, Step(s, a), s.intake.c, m);
        case _ => DeliveryKeeps(s, a, m);
      }
    }
  }

  // ---------------------------------------------------------------- every interleaving

  ghost predicate AllAllowed(actions: seq<Action>, m: Pair) {
    forall i :: 0 <= i < |actions| ==> Allowed(actions[i], m)
  }

  lemma {:induction false} RunKeeps(s: Sys, actions: seq<Action>, m: Pair)
    requires Inv(s) && Meeting(s, m) && AllAllowed(actions, m)
    ensures Meeting(Run(s, actions), m)
    decreases |actions|
  {
    if actions != [] {
      StepKeeps(s, actions[0], m);
      StepInv(s, actions[0]);
      RunKeeps(Step(s, actions[0]), actions[1..], m);
    }
  }

  /** A delegated case with both peers pending, nothing in flight on it and nothing decided. */
  ghost predicate Awaiting(s: Sys, c: Uuid) {
    && c in s.store.cases
    && var r := s.store.cases[c];
    && Registered(r, c) && r.pending == {BillingTask(c), RiskTask(c)}
    && r.billing == None && r.risk == None && !r.billingFailed && !r.riskFailed
    && (s.intake != Idle ==> s.intake.c != c)
    && (forall i :: 0 <= i < |s.log| ==> s.log[i].caseId != c)
    && (forall p :: p in s.inflight ==> Elsewhere(s.inflight[p], c))
  }

  predicate Elsewhere(k: Cont, c: Uuid) {
    if k.Sweep? then c !in k.rest
    else k.c != c && (k.ClaimForPolicy? || k.EmitPolicy? || k.FinishPolicy? ==> SweepFree(k.flow, c))
  }

  lemma {:induction false} NoFailureLogged(log: seq<Decision>, m: Pair)
    requires LogFits(log, m)
    ensures Count(log, m.c, FailureKind) == 0
  {
    if log != [] {
      NoFailureLogged(log[..|log| - 1], m);
    }
  }

  lemma MeetingBegins(s: Sys, m: Pair)
    requires Awaiting(s, m.c) && s.store.cases[m.c].triage == Some(m.triage)
    ensures Meeting(s, m)
  {
  }

  /** However deliveries of one billing and one risk payload interleave, duplicates and all, the case has
      at most one decision and it is that of one of the two orders; so it is the one verdict, unless an
      adverse risk finding meets an ineligible billing finding. */
  lemma InterleavingsAgree(s: Sys, m: Pair, actions: seq<Action>, i: nat)
    requires Reachable(s) && Awaiting(s, m.c) && s.store.cases[m.c].triage == Some(m.triage)
    requires AllAllowed(actions, m)
    ensures var log := Run(s, actions).log;
      && Count(log, m.c, AnyKind) <= 1
      && (i < |log| && log[i].caseId == m.c ==>
            && Either(log[i], m)
            && (!(Adverse(m.k) && m.b.eligibility == Ineligible) ==> Is(log[i], BillingThenRisk(m.triage, m.b, m.k))))
  {
    var s' := Run(s, actions);
    ReachableInv(s);
    MeetingBegins(s, m);
    RunKeeps(s, actions, m);
    RunInv(s, actions);
    NoFailureLogged(s'.log, m);
    CountsAddUp(s'.log, m.c);
    assert CaseOk(s', m.c);
  }
}
