/** The case-resolution protocol as a step system: five loops share one store, and a handler may be
    suspended at every point where the source awaits. A suspended handler is a continuation. The
    intake loop has one slot (a consumer handles one message at a time and no other loop takes
    tickets); billing, risk, task-result and reaper runs are unboundedly many.

    Environment: event ids are fresh, the clock never goes back, and a publish raises only inside
    delegate(), where the source catches it. Results may arrive in any order, any number of times,
    early, late or never. */
module Protocol {
  import opened Common
  import opened CaseModels
  import opened DecisionEngine
  import opened PeerVocabulary
  import opened StoreSpec

  const CASE_DEADLINE_SECONDS: int := 15

  type Pid = nat

  /** Who emitted a decided event. */
  datatype Emitter = DirectEmit | DelegationFailureEmit | PolicyEmit(byReaper: bool) | ElevatedRiskEmit

  datatype Decision = Decision(caseId: Uuid, outcome: Outcome, reason: Option<Reason>, emitter: Emitter)

  datatype Intake =
    | Idle
    | Classifying(c: Uuid)
    | PublishingClassified(c: Uuid)
    | ClosingDirect(c: Uuid)
    | RegisteringBilling(c: Uuid)
    | RegisteringRisk(c: Uuid)
    | RequestingBilling(c: Uuid)
    | RequestingRisk(c: Uuid)
    | Announcing(c: Uuid)
    | EscalatingFailure(c: Uuid)

  /** What runs after a decision: a handler ends, a reaper sweep goes on with its list. */
  datatype Flow = Handler | Reaper(rest: seq<Uuid>)

  datatype Cont =
    | AttachBilling(c: Uuid, billing: BillingFinding)
    | AttachRisk(c: Uuid, risk: RiskFinding)
    | CheckReady(c: Uuid)
    | FailTask(c: Uuid, t: TaskId, isBilling: bool)
    | AttachTaskResult(c: Uuid, t: TaskId, normalized: Option<RiskFinding>)
    | CheckReadyAfterTask(c: Uuid)
    | ClaimForPolicy(c: Uuid, flow: Flow)
    | EmitPolicy(c: Uuid, flow: Flow)
    | FinishPolicy(c: Uuid, flow: Flow)
    | ClaimForRisk(c: Uuid, risk: RiskFinding)
    | EmitRisk(c: Uuid, risk: RiskFinding)
    | FinishRisk(c: Uuid)
    | Sweep(rest: seq<Uuid>)

  datatype Sys = Sys(
    store: StoreState,
    intake: Intake,
    inflight: map<Pid, Cont>,
    log: seq<Decision>,
    clock: int)

  datatype Action =
    | Tick(seconds: nat)
    | TakeTicket(ticketCase: Uuid)
    | IntakeStep(triage: Triage, publishRaises: bool)
    | DeliverBilling(pid: Pid, correlation: Uuid, billingPayload: BillingPayload)
    | DeliverRisk(pid: Pid, correlation: Uuid, riskPayload: RiskPayload)
    | DeliverTaskResult(pid: Pid, t: TaskId, completed: bool, normalized: Option<RiskFinding>)
    | StartSweep(pid: Pid, found: seq<Uuid>)
    | Resume(pid: Pid)

  const INIT: Sys := Sys(StoreState(map[], map[], map[]), Idle, map[], [], 0)

  function PutRec(s: Sys, c: Uuid, r: CaseRec): Sys {
    s.(store := WithCase(s.store, c, r))
  }

  function Spawn(s: Sys, pid: Pid, k: Cont): Sys {
    s.(inflight := s.inflight[pid := k])
  }

  function End(s: Sys, pid: Pid): Sys {
    s.(inflight := s.inflight - {pid})
  }

  function AfterDecision(s: Sys, pid: Pid, flow: Flow): Sys {
    match flow
    case Handler => End(s, pid)
    case Reaper(rest) => Spawn(s, pid, Sweep(rest))
  }

  function Emit(s: Sys, d: Decision): Sys {
    s.(log := s.log + [d])
  }

  /** case.status = status; await store.save(case) */
  function SaveStatus(s: Sys, c: Uuid, status: CaseStatus): Sys
    requires c in s.store.cases
  {
    var r := s.store.cases[c];
    var saved := Save(s.store, c, r.(status := status), None);
    s.(store := saved.value)
  }

  // ---------------------------------------------------------------- intake

  function TakeTicket'(s: Sys, c: Uuid): Sys {
    var (store, id) := GetOrCreate(s.store, c, c);
    if id in store.cases && store.cases[id].status in {Received, Classified} then
      s.(store := store, intake := Classifying(id))
    else
      s.(store := store)
  }

  function EscalateFailure(s: Sys, c: Uuid): Sys {
    Emit(s, Decision(c, EscalateHuman, Some(PeerFailure), DelegationFailureEmit)).(intake := EscalatingFailure(c))
  }

  function TriageOf(r: CaseRec): Triage {
    if r.triage.Some? then r.triage.value else Triage(true, true, 1.0)
  }

  function IntakeStep'(s: Sys, triage: Triage, publishRaises: bool): Sys
    requires s.intake != Idle ==> s.intake.c in s.store.cases
  {
    match s.intake
    case Idle => s
    case Classifying(c) =>
      var r := s.store.cases[c];
      SaveStatus(PutRec(s, c, r.(triage := Some(triage))), c, Classified).(intake := PublishingClassified(c))
    case PublishingClassified(c) =>
      var r := s.store.cases[c];
      if !TriageOf(r).needsRefundReview then
        Emit(s, Decision(c, DirectResponse, None, DirectEmit)).(intake := ClosingDirect(c))
      else
        var deadline := s.clock + CASE_DEADLINE_SECONDS;
        SaveStatus(PutRec(s, c, r.(deadline := Some(deadline))), c, WaitingForPeerReviews)
          .(intake := RegisteringBilling(c))
    case ClosingDirect(c) => SaveStatus(s, c, Closed).(intake := Idle)
    case RegisteringBilling(c) =>
      var r := s.store.cases[c];
      var minted := r.(billingTask := if r.billingTask.None? then Some(BillingTask(r.correlation)) else r.billingTask,
                       riskTask := if r.riskTask.None? then Some(RiskTask(r.correlation)) else r.riskTask);
      var s1 := PutRec(s, c, minted);
      s1.(store := AddPendingTask(s1.store, c, minted.billingTask.value), intake := RegisteringRisk(c))
    case RegisteringRisk(c) =>
      var r := s.store.cases[c];
      if r.riskTask.None? then s
      else s.(store := AddPendingTask(s.store, c, r.riskTask.value), intake := RequestingBilling(c))
    case RequestingBilling(c) =>
      if publishRaises then EscalateFailure(s, c) else s.(intake := RequestingRisk(c))
    case RequestingRisk(c) =>
      if publishRaises then EscalateFailure(s, c) else s.(intake := Announcing(c))
    case Announcing(c) =>
      if publishRaises then EscalateFailure(s, c) else SaveStatus(s, c, s.store.cases[c].status).(intake := Idle)
    case EscalatingFailure(c) => SaveStatus(s, c, Escalated).(intake := Idle)
  }

  // ---------------------------------------------------------------- peer results

  function DeliverBilling'(s: Sys, pid: Pid, correlation: Uuid, p: BillingPayload): Sys {
    if correlation !in s.store.byCorrelation || s.store.byCorrelation[correlation] !in s.store.cases then s
    else
      var c := s.store.byCorrelation[correlation];
      if s.store.cases[c].billingTask.None? then s
      else Spawn(s, pid, AttachBilling(c, BillingFindingOf(p)))
  }

  function DeliverRisk'(s: Sys, pid: Pid, correlation: Uuid, p: RiskPayload): Sys {
    if correlation !in s.store.byCorrelation || s.store.byCorrelation[correlation] !in s.store.cases then s
    else
      RouteRisk(s, pid, s.store.byCorrelation[correlation], RiskFindingOf(p))
  }

  function RouteRisk(s: Sys, pid: Pid, c: Uuid, f: RiskFinding): Sys
    requires c in s.store.cases
  {
    var r := s.store.cases[c];
    if r.riskTask.None? then s
    else if ForcesEscalation(r, f) then Spawn(s, pid, ClaimForRisk(c, f))
    else Spawn(s, pid, AttachRisk(c, f))
  }

  /** A completed result of a billing or risk task is left to the domain loops; a completed result
      of any other task would be read as a risk finding; anything else fails its slot. */
  function DeliverTaskResult'(s: Sys, pid: Pid, t: TaskId, completed: bool, normalized: Option<RiskFinding>): Sys {
    if t !in s.store.byTask || s.store.byTask[t] !in s.store.cases then s
    else
      var c := s.store.byTask[t];
      var r := s.store.cases[c];
      var isBilling := r.billingTask == Some(t);
      var isRisk := r.riskTask == Some(t);
      if IsSettled(r.status) then s
      else if completed && (isBilling || isRisk) then s
      else if completed then Spawn(s, pid, AttachTaskResult(c, t, normalized))
      else Spawn(s, pid, FailTask(c, t, isBilling))
  }

  /** list_timed_out_cases: exactly the timed-out cases, each once, in some order. */
  ghost predicate ListsTimedOut(s: Sys, found: seq<Uuid>) {
    && (forall i :: 0 <= i < |found| ==> found[i] in s.store.cases && TimedOut(s.store.cases[found[i]], s.clock))
    && (forall i, j :: 0 <= i < j < |found| ==> found[i] != found[j])
    && (forall c :: c in s.store.cases && TimedOut(s.store.cases[c], s.clock) ==> c in found)
  }

  function Resume'(s: Sys, pid: Pid): Sys
    requires pid in s.inflight
    requires s.inflight[pid].Sweep? || s.inflight[pid].c in s.store.cases
    requires s.inflight[pid].Sweep? ==>
        forall i :: 0 <= i < |s.inflight[pid].rest| ==> s.inflight[pid].rest[i] in s.store.cases
  {
    match s.inflight[pid]
    case AttachBilling(c, f) =>
      var r := s.store.cases[c];
      if r.billingTask.None? then End(s, pid)
      else Spawn(s.(store := ApplyResult(s.store, c, r.billingTask.value, OfBilling(f)).0), pid, CheckReady(c))
    case AttachRisk(c, f) =>
      var r := s.store.cases[c];
      if r.riskTask.None? then End(s, pid)
      else Spawn(s.(store := ApplyResult(s.store, c, r.riskTask.value, OfRisk(f)).0), pid, CheckReady(c))
    case CheckReady(c) =>
      var r := s.store.cases[c];
      if r.IsReadyToDecide() && !IsSettled(r.status) then Spawn(s, pid, ClaimForPolicy(c, Handler)) else End(s, pid)
    case FailTask(c, t, isBilling) =>
      Spawn(s.(store := MarkSlotFailed(s.store, c, t, isBilling)), pid, CheckReadyAfterTask(c))
    case AttachTaskResult(c, t, normalized) =>
      var store := if normalized.None? then MarkSlotFailed(s.store, c, t, false)
                   else ApplyResult(s.store, c, t, OfRisk(normalized.value)).0;
      Spawn(s.(store := store), pid, CheckReadyAfterTask(c))
    case CheckReadyAfterTask(c) =>
      if s.store.cases[c].IsReadyToDecide() then Spawn(s, pid, ClaimForPolicy(c, Handler)) else End(s, pid)
    case ClaimForPolicy(c, flow) =>
      var (store, claimed) := ClaimDecision(s.store, c);
      if claimed then Spawn(s.(store := store), pid, EmitPolicy(c, flow)) else AfterDecision(s, pid, flow)
    case EmitPolicy(c, flow) =>
      var r := s.store.cases[c];
      var v := Decide(TriageOf(r), r.billing, r.risk, Some(BuildTimeoutStatus(r, s.clock)));
      Spawn(Emit(s, Decision(c, v.outcome, v.reason, PolicyEmit(flow.Reaper?))), pid, FinishPolicy(c, flow))
    case FinishPolicy(c, flow) => AfterDecision(SaveStatus(s, c, Decided), pid, flow)
    case ClaimForRisk(c, f) =>
      var (store, claimed) := ClaimDecision(s.store, c);
      if claimed then Spawn(s.(store := store), pid, EmitRisk(c, f)) else End(s, pid)
    case EmitRisk(c, f) =>
      var r := s.store.cases[c];
      var s1 := PutRec(s, c, r.(risk := Some(f)));
      Spawn(Emit(s1, Decision(c, EscalateHuman, Some(ElevatedRisk), ElevatedRiskEmit)), pid, FinishRisk(c))
    case FinishRisk(c) => End(SaveStatus(s, c, Escalated), pid)
    case Sweep(rest) =>
      if rest == [] then End(s, pid)
      else if IsSettled(s.store.cases[rest[0]].status) then Spawn(s, pid, Sweep(rest[1..]))
      else Spawn(s, pid, ClaimForPolicy(rest[0], Reaper(rest[1..])))
  }

  // ---------------------------------------------------------------- runs

  /** The case references a continuation holds are live. */
  predicate Live(s: Sys, k: Cont) {
    if k.Sweep? then forall i :: 0 <= i < |k.rest| ==> k.rest[i] in s.store.cases else k.c in s.store.cases
  }

  ghost predicate Enabled(s: Sys, a: Action) {
    match a
    case Tick(_) => true
    case TakeTicket(_) => s.intake == Idle
    case IntakeStep(_, _) => s.intake != Idle && s.intake.c in s.store.cases
    case DeliverBilling(pid, _, _) => pid !in s.inflight
    case DeliverRisk(pid, _, _) => pid !in s.inflight
    case DeliverTaskResult(pid, _, _, _) => pid !in s.inflight
    case StartSweep(pid, found) => pid !in s.inflight && ListsTimedOut(s, found)
    case Resume(pid) => pid in s.inflight && Live(s, s.inflight[pid])
  }

  /** One step; an action that is not enabled does nothing. */
  ghost function Step(s: Sys, a: Action): Sys {
    if !Enabled(s, a) then s
    else match a
      case Tick(seconds) => s.(clock := s.clock + seconds)
      case TakeTicket(c) => TakeTicket'(s, c)
      case IntakeStep(triage, publishRaises) => IntakeStep'(s, triage, publishRaises)
      case DeliverBilling(pid, correlation, p) => DeliverBilling'(s, pid, correlation, p)
      case DeliverRisk(pid, correlation, p) => DeliverRisk'(s, pid, correlation, p)
      case DeliverTaskResult(pid, t, completed, normalized) => DeliverTaskResult'(s, pid, t, completed, normalized)
      case StartSweep(pid, found) => Spawn(s, pid, Sweep(found))
      case Resume(pid) => Resume'(s, pid)
  }

  ghost function Run(s: Sys, actions: seq<Action>): Sys
    decreases |actions|
  {
    if actions == [] then s else Run(Step(s, actions[0]), actions[1..])
  }

  /** A state some interleaving leads to. */
  ghost predicate Reachable(s: Sys) {
    exists actions :: s == Run(INIT, actions)
  }
}
