/** The handlers at work: whatever the outside world does next, one handler segment runs. Every history
    of the loops is a run of the protocol, so its guarantees hold of the shared objects. */
module EventLoops {
  import opened Common
  import opened CaseModels
  import opened PeerVocabulary
  import opened StateStore
  import opened Protocol
  import opened ProtocolSafety
  import opened ProtocolTheorems
  import opened EventHandlers

  /** What happens next: time passes, a message arrives, the reaper ticks, or a suspended run goes on. */
  datatype Happening =
    | TimePasses(seconds: nat)
    | TicketArrives(ticketCase: Uuid)
    | IntakeGoesOn(triage: Triage, publishRaises: bool)
    | BillingArrives(pid: Pid, correlation: Uuid, billing: BillingPayload)
    | RiskArrives(pid: Pid, correlation: Uuid, risk: RiskPayload)
    | TaskResultArrives(pid: Pid, t: TaskId, completed: bool, normalized: Option<RiskFinding>)
    | ReaperTicks(pid: Pid)
    | HandlerGoesOn(pid: Pid)

  /** A message or a tick that starts a run of its own. */
  predicate StartsRun(h: Happening) {
    h.BillingArrives? || h.RiskArrives? || h.TaskResultArrives? || h.ReaperTicks?
  }

  /** Case objects are kept, and new ones are new. */
  twostate predicate CasesKept(loops: ResolutionLoops)
    reads loops.store
  {
    && (forall d :: d in old(loops.store.cases) ==>
          d in loops.store.cases && loops.store.cases[d] == old(loops.store.cases[d]))
    && (forall d :: d in loops.store.cases && d !in old(loops.store.cases) ==> fresh(loops.store.cases[d]))
  }

  lemma IntakeStepIs(s: Sys, triage: Triage, raises: bool)
    requires s.intake != Idle && s.intake.c in s.store.cases
    ensures Step(s, IntakeStep(triage, raises)) == IntakeStep'(s, triage, raises)
  {
  }

  lemma ResumeIs(s: Sys, pid: Pid)
    requires pid in s.inflight && Live(s, s.inflight[pid])
    ensures Step(s, Resume(pid)) == Resume'(s, pid)
  {
  }

  /** The intake's next segment, whatever it is waiting for. */
  method RunIntake(loops: ResolutionLoops, triage: Triage, publishRaises: bool) returns (ghost raises: bool)
    requires loops.Valid() && loops.intake != Idle && loops.intake.c in loops.store.cases
    modifies loops, loops.store, loops.store.cases.Values
    ensures loops.Valid() && CasesKept(loops)
    ensures raises ==> publishRaises
    ensures loops.View() == IntakeStep'(old(loops.View()), triage, raises)
  {
    var next := loops.intake;
    raises := publishRaises && (next.RequestingBilling? || next.RequestingRisk? || next.Announcing?);
    match next {
      case Idle =>
      case Classifying(c) => loops.IntakeClassify(c, triage);
      case PublishingClassified(c) => loops.IntakeRoute(c, triage);
      case ClosingDirect(c) => loops.IntakeCloseDirect(c, triage);
      case RegisteringBilling(c) => loops.DelegateRegisterBilling(c, triage);
      case RegisteringRisk(c) =>
        if loops.store.cases[c].riskTaskId.Some? {
          loops.DelegateRegisterRisk(c, triage);
        }
      case EscalatingFailure(c) => loops.IntakeSaveEscalated(c, triage, false);
      case RequestingBilling(c) => loops.DelegatePublish(c, triage, publishRaises);
      case RequestingRisk(c) => loops.DelegatePublish(c, triage, publishRaises);
      case Announcing(c) => loops.DelegatePublish(c, triage, publishRaises);
    }
  }

  predicate IsLive(loops: ResolutionLoops, k: Cont)
    reads loops, loops.store
  {
    if k.Sweep? then forall i :: 0 <= i < |k.rest| ==> k.rest[i] in loops.store.cases else k.c in loops.store.cases
  }

  /** A suspended run's next segment. */
  method RunHandler(loops: ResolutionLoops, pid: Pid)
    requires loops.Valid() && pid in loops.inflight && IsLive(loops, loops.inflight[pid])
    modifies loops, loops.store, loops.store.cases.Values
    ensures loops.Valid() && CasesKept(loops)
    ensures Live(old(loops.View()), old(loops.View()).inflight[pid])
    ensures loops.View() == Resume'(old(loops.View()), pid)
  {
    match loops.inflight[pid] {
      case AttachBilling(c, f) => loops.AttachBillingFinding(pid, c, f);
      case AttachRisk(c, f) => loops.AttachRiskFinding(pid, c, f);
      case CheckReady(c) => loops.CheckAfterDomainResult(pid, c);
      case FailTask(c, t, isBilling) => loops.FailPeerTask(pid, c, t, isBilling);
      case AttachTaskResult(c, t, normalized) => loops.AttachGenericResult(pid, c, t, normalized);
      case CheckReadyAfterTask(c) => loops.CheckAfterTaskResult(pid, c);
      case ClaimForPolicy(c, flow) => loops.ClaimPolicyDecision(pid, c, flow);
      case EmitPolicy(c, flow) => loops.EmitPolicyDecision(pid, c, flow);
      case FinishPolicy(c, flow) => loops.FinishPolicyDecision(pid, c, flow);
      case ClaimForRisk(c, f) => loops.ClaimRiskEscalation(pid, c, f);
      case EmitRisk(c, f) => loops.EmitRiskEscalation(pid, c, f);
      case FinishRisk(c) => loops.FinishRiskEscalation(pid, c);
      case Sweep(rest) => loops.ReaperNext(pid, rest);
    }
  }

  method StartRun(loops: ResolutionLoops, h: Happening) returns (ghost a: Action)
    requires loops.Valid() && StartsRun(h) && h.pid !in loops.inflight
    modifies loops`inflight
    ensures loops.Valid()
    ensures !a.IntakeStep? && loops.View() == Step(old(loops.View()), a)
  {
    match h {
      case BillingArrives(pid, correlation, payload) =>
        loops.BillingResultHandler(pid, correlation, payload);
        a := DeliverBilling(pid, correlation, payload);
      case RiskArrives(pid, correlation, payload) =>
        loops.RiskResultHandler(pid, correlation, payload);
        a := DeliverRisk(pid, correlation, payload);
      case TaskResultArrives(pid, t, completed, normalized) =>
        loops.ResultHandler(pid, t, completed, normalized);
        a := DeliverTaskResult(pid, t, completed, normalized);
      case ReaperTicks(pid) =>
        var found := loops.ReaperList(pid);
        a := StartSweep(pid, found);
    }
  }

  /** One message, tick or silence. A run id in use is not used again. */
  method Receive(loops: ResolutionLoops, h: Happening) returns (ghost a: Action)
    requires loops.Valid() && !h.IntakeGoesOn? && !h.HandlerGoesOn?
    modifies loops, loops.store, loops.store.cases.Values
    ensures loops.Valid() && CasesKept(loops)
    ensures !a.IntakeStep? && loops.View() == Step(old(loops.View()), a)
  {
    a := Tick(0);
    if StartsRun(h) {
      if h.pid !in loops.inflight {
        a := StartRun(loops, h);
      }
    } else if h.TimePasses? {
      loops.Sleep(h.seconds);
      a := Tick(h.seconds);
    } else if loops.intake == Idle {
      loops.IntakeTicket(h.ticketCase);
      a := TakeTicket(h.ticketCase);
    }
  }

  /** Whatever happens next is one step of the protocol. */
  method Perform(loops: ResolutionLoops, h: Happening) returns (ghost a: Action)
    requires loops.Valid()
    modifies loops, loops.store, loops.store.cases.Values
    ensures loops.Valid() && CasesKept(loops)
    ensures a.IntakeStep? && a.publishRaises ==> h.IntakeGoesOn? && h.publishRaises
    ensures loops.View() == Step(old(loops.View()), a)
  {
    a := Tick(0);
    if h.IntakeGoesOn? {
      if loops.intake != Idle && loops.intake.c in loops.store.cases {
        ghost var s := loops.View();
        ghost var raises := RunIntake(loops, h.triage, h.publishRaises);
        IntakeStepIs(s, h.triage, raises);
        a := IntakeStep(h.triage, raises);
      }
    } else if h.HandlerGoesOn? {
      if h.pid in loops.inflight && IsLive(loops, loops.inflight[h.pid]) {
        ghost var s := loops.View();
        RunHandler(loops, h.pid);
        ResumeIs(s, h.pid);
        a := Resume(h.pid);
      }
    } else {
      a := Receive(loops, h);
    }
  }

  lemma {:induction false} RunSnoc(s: Sys, actions: seq<Action>, a: Action)
    ensures Run(s, actions + [a]) == Step(Run(s, actions), a)
    decreases |actions|
  {
    if actions == [] {
      assert [] + [a] == [a] && [a][1..] == [];
    } else {
      assert (actions + [a])[1..] == actions[1..] + [a];
      RunSnoc(Step(s, actions[0]), actions[1..], a);
    }
  }

  /** From nothing, through any history: the log holds at most two decided events of any case, and at
      most one while no publish of a delegation raises. */
  method Serve(history: seq<Happening>) returns (loops: ResolutionLoops)
    ensures fresh(loops) && loops.Valid()
    ensures Reachable(loops.View())
    ensures forall c :: Count(loops.log, c, AnyKind) <= 2
    ensures (forall i :: 0 <= i < |history| && history[i].IntakeGoesOn? ==> !history[i].publishRaises) ==>
              forall c :: Count(loops.log, c, AnyKind) <= 1
  {
    loops := new ResolutionLoops();
    ghost var actions := [];
    for i := 0 to |history|
      invariant loops.Valid() && fresh(loops) && fresh(loops.store)
      invariant forall d :: d in loops.store.cases ==> fresh(loops.store.cases[d])
      invariant loops.View() == Run(INIT, actions)
      invariant (forall j :: 0 <= j < i && history[j].IntakeGoesOn? ==> !history[j].publishRaises)
          ==> NeverRaises(actions)
    {
      ghost var a := Perform(loops, history[i]);
      RunSnoc(INIT, actions, a);
      actions := actions + [a];
    }
    forall c
      ensures Count(loops.log, c, AnyKind) <= 2
      ensures NeverRaises(actions) ==> Count(loops.log, c, AnyKind) <= 1
    {
      DecisionsExactly(loops.View(), c);
      if NeverRaises(actions) {
        AtMostOneDecision(actions, c);
      }
    }
  }
}
