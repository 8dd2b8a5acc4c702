/** What every step of every interleaving keeps. */
module ProtocolSafety {
  import opened Common
  import opened CaseModels
  import opened DecisionEngine
  import opened PeerVocabulary
  import opened StoreSpec
  import opened Protocol

  // ---------------------------------------------------------------- counting emissions

  datatype Kind = AnyKind | GuardedKind | ElevatedKind | FailureKind | DirectKind

  predicate Matches(e: Emitter, kind: Kind) {
    match kind
    case AnyKind => true
    case GuardedKind => e.PolicyEmit? || e.ElevatedRiskEmit?
    case ElevatedKind => e.ElevatedRiskEmit?
    case FailureKind => e.DelegationFailureEmit?
    case DirectKind => e.DirectEmit?
  }

  /** How many decided events of a kind a case has had. */
  function Count(log: seq<Decision>, c: Uuid, kind: Kind): nat {
    if log == [] then 0
    else
      var last := log[|log| - 1];
      Count(log[..|log| - 1], c, kind) + (if last.caseId == c && Matches(last.emitter, kind) then 1 else 0)
  }

  lemma CountAppend(log: seq<Decision>, d: Decision, c: Uuid, kind: Kind)
    ensures Count(log + [d], c, kind)
        == Count(log, c, kind) + (if d.caseId == c && Matches(d.emitter, kind) then 1 else 0)
  {
    assert (log + [d])[..|log|] == log;
  }

  lemma {:induction false} CountsAddUp(log: seq<Decision>, c: Uuid)
    ensures Count(log, c, AnyKind)
        == Count(log, c, GuardedKind) + Count(log, c, FailureKind) + Count(log, c, DirectKind)
    ensures Count(log, c, ElevatedKind) <= Count(log, c, GuardedKind)
  {
    if log != [] {
      CountsAddUp(log[..|log| - 1], c);
    }
  }

  lemma {:induction false} LoggedCounts(log: seq<Decision>, i: nat, kind: Kind)
    requires i < |log| && Matches(log[i].emitter, kind)
    ensures Count(log, log[i].caseId, kind) >= 1
  {
    if i < |log| - 1 {
      LoggedCounts(log[..|log| - 1], i, kind);
    }
  }

  // ---------------------------------------------------------------- the invariant

  ghost predicate NoTasks(r: CaseRec) {
    && r.billingTask == None && r.riskTask == None && r.pending == {}
    && r.billing == None && r.risk == None && !r.billingFailed && !r.riskFailed
  }

  ghost predicate Registered(r: CaseRec, c: Uuid) {
    && r.billingTask == Some(BillingTask(c)) && r.riskTask == Some(RiskTask(c))
    && r.pending <= {BillingTask(c), RiskTask(c)}
    && r.deadline.Some?
    && r.triage.Some? && r.triage.value.needsRefundReview
  }

  ghost predicate SlotsOk(s: Sys, c: Uuid, r: CaseRec) {
    && (forall t :: t in r.pending ==> t in s.store.byTask)
    && (r.billing.Some? || r.billingFailed ==> BillingTask(c) in s.store.byTask && BillingTask(c) !in r.pending)
    && (r.riskFailed ==> RiskTask(c) in s.store.byTask && RiskTask(c) !in r.pending)
    && (r.risk.Some? && Count(s.log, c, ElevatedKind) == 0 ==>
          RiskTask(c) in s.store.byTask && RiskTask(c) !in r.pending)
  }

  ghost predicate StatusOk(s: Sys, c: Uuid, r: CaseRec) {
    match r.status
    case Received | Classified => NoTasks(r) && r.deadline == None && s.intake != Idle && s.intake.c == c
    case WaitingForPeerReviews =>
      (Registered(r, c) && !r.IsReadyToDecide()) || (NoTasks(r) && s.intake == RegisteringBilling(c))
    case ReadyForDecision | Decided | Escalated => Registered(r, c)
    case Closed => NoTasks(r) && Count(s.log, c, DirectKind) == 1
    case ResponseDrafted | Failed => false
  }

  ghost predicate CountsOk(s: Sys, c: Uuid, r: CaseRec) {
    && Count(s.log, c, GuardedKind) <= 1
    && Count(s.log, c, FailureKind) <= 1
    && Count(s.log, c, DirectKind) <= 1
    && (Count(s.log, c, GuardedKind) == 1 ==> IsSettled(r.status) && Registered(r, c))
    && (Count(s.log, c, FailureKind) == 1 ==> Registered(r, c))
    && (Count(s.log, c, DirectKind) == 1 ==> NoTasks(r) && (r.status == Closed || s.intake == ClosingDirect(c)))
  }

  ghost predicate CaseOk(s: Sys, c: Uuid)
    requires c in s.store.cases
  {
    var r := s.store.cases[c];
    && r.correlation == c && c in s.store.byCorrelation
    && StatusOk(s, c, r) && SlotsOk(s, c, r) && CountsOk(s, c, r)
  }

  ghost predicate IndexOk(s: Sys) {
    && (forall k :: k in s.store.byCorrelation ==> s.store.byCorrelation[k] == k && k in s.store.cases)
    && (forall t :: t in s.store.byTask ==>
          && t.Uuid5? && s.store.byTask[t] == t.ns && t.ns in s.store.cases
          && Registered(s.store.cases[t.ns], t.ns))
  }

  ghost predicate IntakeOk(s: Sys) {
    s.intake != Idle ==>
      var c := s.intake.c;
      && c in s.store.cases
      && var r := s.store.cases[c];
      match s.intake
      case Classifying(_) => r.status in {Received, Classified} && Count(s.log, c, AnyKind) == 0
      case PublishingClassified(_) => r.status == Classified && r.triage.Some? && Count(s.log, c, AnyKind) == 0
      case ClosingDirect(_) => r.status == Classified && Count(s.log, c, DirectKind) == 1
      case RegisteringBilling(_) =>
        && r.status == WaitingForPeerReviews && NoTasks(r) && r.deadline.Some?
        && r.triage.Some? && r.triage.value.needsRefundReview && Count(s.log, c, AnyKind) == 0
      case RegisteringRisk(_) =>
        && Registered(r, c) && BillingTask(c) in s.store.byTask && RiskTask(c) !in s.store.byTask
        && Count(s.log, c, FailureKind) == 0
      case RequestingBilling(_) | RequestingRisk(_) | Announcing(_) =>
        Registered(r, c) && RiskTask(c) in s.store.byTask && Count(s.log, c, FailureKind) == 0
      case EscalatingFailure(_) =>
        Registered(r, c) && RiskTask(c) in s.store.byTask && Count(s.log, c, FailureKind) == 1
      case Idle => true
  }

  /** A sweep only carries cases whose deadline has passed. */
  ghost predicate Overdue(s: Sys, c: Uuid) {
    && c in s.store.cases && Registered(s.store.cases[c], c)
    && s.clock > s.store.cases[c].deadline.value
  }

  ghost predicate FlowOk(s: Sys, c: Uuid, flow: Flow) {
    flow.Reaper? ==> Overdue(s, c) && forall d :: d in flow.rest ==> Overdue(s, d)
  }

  predicate Claimed(k: Cont) { k.EmitPolicy? || k.FinishPolicy? || k.EmitRisk? || k.FinishRisk? }

  predicate Unemitted(k: Cont) { k.EmitPolicy? || k.EmitRisk? }

  ghost predicate ContOk(s: Sys, k: Cont) {
    if k.Sweep? then forall d :: d in k.rest ==> Overdue(s, d)
    else
      && k.c in s.store.cases
      && var r := s.store.cases[k.c];
      && Registered(r, k.c)
      && !k.AttachTaskResult?
      && (k.FailTask? ==>
            k.t.Uuid5? && k.t in s.store.byTask && k.t.ns == k.c && (k.isBilling <==> k.t == BillingTask(k.c)))
      && (k.ClaimForPolicy? || k.EmitPolicy? || k.FinishPolicy? ==> FlowOk(s, k.c, k.flow))
      && (Claimed(k) ==>
            && IsSettled(r.status)
            && Count(s.log, k.c, GuardedKind) == (if Unemitted(k) then 0 else 1)
            && (Count(s.log, k.c, FailureKind) == 0 ==> r.status == Decided))
  }

  ghost predicate OneClaimant(s: Sys) {
    forall p, q ::
      (p in s.inflight && q in s.inflight && Claimed(s.inflight[p]) && Claimed(s.inflight[q])
       && s.inflight[p].c == s.inflight[q].c) ==> p == q
  }

  /** What an emitted decision says about its case, ever after. */
  ghost predicate DecisionOk(s: Sys, d: Decision) {
    && d.caseId in s.store.cases
    && var r := s.store.cases[d.caseId];
    match d.emitter
    case DirectEmit => d.outcome == DirectResponse
    case DelegationFailureEmit => d.outcome == EscalateHuman
    case ElevatedRiskEmit => d.outcome == EscalateHuman
    case PolicyEmit(_) =>
      && d.outcome != DirectResponse
      && (d.outcome != EscalateHuman ==>
            && r.billing.Some? && r.risk.Some? && r.pending == {} && RiskTask(d.caseId) in s.store.byTask
            && d.outcome == Decide(TriageOf(r), r.billing, r.risk, None).outcome)
  }

  ghost predicate LogOk(s: Sys) {
    forall i {:trigger DecisionOk(s, s.log[i])} :: 0 <= i < |s.log| ==> DecisionOk(s, s.log[i])
  }

  ghost predicate CasesOk(s: Sys) {
    forall c {:trigger CaseOk(s, c)} :: c in s.store.cases ==> CaseOk(s, c)
  }

  ghost predicate ContsOk(s: Sys) {
    forall p {:trigger ContOk(s, s.inflight[p])} :: p in s.inflight ==> ContOk(s, s.inflight[p])
  }

  ghost predicate Inv(s: Sys) {
    CasesOk(s) && IndexOk(s) && IntakeOk(s) && ContsOk(s) && OneClaimant(s) && LogOk(s)
  }

  // ---------------------------------------------------------------- framing

  /** s' differs from s in nothing that concerns another case than c. */
  ghost predicate Touches(s: Sys, s': Sys, c: Uuid) {
    && s.store.cases.Keys <= s'.store.cases.Keys <= s.store.cases.Keys + {c}
    && (forall d :: d in s.store.cases && d != c ==> s'.store.cases[d] == s.store.cases[d])
    && (c in s.store.cases && Registered(s.store.cases[c], c) ==>
          Registered(s'.store.cases[c], c) && s'.store.cases[c].deadline == s.store.cases[c].deadline)
    && (forall t :: t in s.store.byTask ==> t in s'.store.byTask && s'.store.byTask[t] == s.store.byTask[t])
    && (forall k :: k in s.store.byCorrelation ==> k in s'.store.byCorrelation)
    && s'.clock >= s.clock
    && (s'.log == s.log || (|s'.log| == |s.log| + 1 && s'.log[..|s.log|] == s.log && s'.log[|s.log|].caseId == c))
    && (s.intake != Idle && s.intake.c != c ==> s'.intake == s.intake)
  }

  lemma OtherCounts(s: Sys, s': Sys, c: Uuid, d: Uuid, kind: Kind)
    requires Touches(s, s', c) && d != c
    ensures Count(s'.log, d, kind) == Count(s.log, d, kind)
  {
    if s'.log != s.log {
      CountAppend(s.log, s'.log[|s.log|], d, kind);
      assert s'.log == s.log + [s'.log[|s.log|]];
    }
  }

  lemma CasesKept(s: Sys, s': Sys, c: Uuid)
    requires CasesOk(s) && Touches(s, s', c)
    requires c in s'.store.cases ==> CaseOk(s', c)
    ensures CasesOk(s')
  {
    forall d | d in s'.store.cases && d != c ensures CaseOk(s', d) {
      assert CaseOk(s, d);
      forall kind ensures Count(s'.log, d, kind) == Count(s.log, d, kind) { OtherCounts(s, s', c, d, kind); }
    }
  }

  lemma IndexKept(s: Sys, s': Sys, c: Uuid)
    requires IndexOk(s) && Touches(s, s', c)
    requires forall k :: k in s'.store.byCorrelation && k !in s.store.byCorrelation ==>
               k == c && c in s'.store.cases && s'.store.byCorrelation[k] == c
    requires forall k :: k in s.store.byCorrelation ==> s'.store.byCorrelation[k] == s.store.byCorrelation[k]
    requires forall t :: t in s'.store.byTask && t !in s.store.byTask ==>
               && t in {BillingTask(c), RiskTask(c)} && s'.store.byTask[t] == c
               && c in s'.store.cases && Registered(s'.store.cases[c], c)
    ensures IndexOk(s')
  {
  }

  lemma OverdueKept(s: Sys, s': Sys, c: Uuid, d: Uuid)
    requires Touches(s, s', c) && Overdue(s, d)
    ensures Overdue(s', d)
  {
  }

  /** The facts about c that a continuation holding a claim on it relies on. */
  ghost predicate ClaimKept(s: Sys, s': Sys, c: Uuid)
    requires c in s.store.cases && c in s'.store.cases
  {
    && (IsSettled(s.store.cases[c].status) ==> IsSettled(s'.store.cases[c].status))
    && Count(s'.log, c, GuardedKind) == Count(s.log, c, GuardedKind)
    && Count(s'.log, c, FailureKind) >= Count(s.log, c, FailureKind)
    && (Count(s'.log, c, FailureKind) == 0 && s.store.cases[c].status == Decided
        ==> s'.store.cases[c].status == Decided)
  }

  lemma ContKept(s: Sys, s': Sys, c: Uuid, k: Cont)
    requires Touches(s, s', c) && ContOk(s, k)
    requires !k.Sweep? && Claimed(k) && k.c == c ==> ClaimKept(s, s', c)
    ensures ContOk(s', k)
  {
    if k.Sweep? {
      forall d | d in k.rest ensures Overdue(s', d) { OverdueKept(s, s', c, d); }
    } else {
      if (k.ClaimForPolicy? || k.EmitPolicy? || k.FinishPolicy?) && k.flow.Reaper? {
        OverdueKept(s, s', c, k.c);
        forall d | d in k.flow.rest ensures Overdue(s', d) { OverdueKept(s, s', c, d); }
      }
      if k.c != c {
        OtherCounts(s, s', c, k.c, GuardedKind);
        OtherCounts(s, s', c, k.c, FailureKind);
      }
    }
  }

  /** Only continuation pid moved. */
  ghost predicate OnlyCont(s: Sys, s': Sys, pid: Pid) {
    forall p :: p != pid
      ==> (p in s.inflight <==> p in s'.inflight) && (p in s.inflight ==> s'.inflight[p] == s.inflight[p])
  }

  ghost predicate ClaimedElsewhere(s: Sys, c: Uuid, pid: Pid) {
    exists q :: q in s.inflight && q != pid && Claimed(s.inflight[q]) && s.inflight[q].c == c
  }

  /** A case nobody has settled has no claimant. */
  lemma NoClaimOn(s: Sys, c: Uuid, pid: Pid)
    requires ContsOk(s)
    requires c !in s.store.cases || !IsSettled(s.store.cases[c].status)
    ensures !ClaimedElsewhere(s, c, pid)
  {
    forall q | q in s.inflight ensures !(Claimed(s.inflight[q]) && s.inflight[q].c == c) {
      assert ContOk(s, s.inflight[q]);
    }
  }

  lemma ContsKept(s: Sys, s': Sys, c: Uuid, pid: Pid)
    requires ContsOk(s) && OneClaimant(s) && Touches(s, s', c) && OnlyCont(s, s', pid)
    requires ClaimedElsewhere(s, c, pid) ==> c in s.store.cases && ClaimKept(s, s', c)
    requires pid in s'.inflight ==> ContOk(s', s'.inflight[pid])
    requires pid in s'.inflight && Claimed(s'.inflight[pid]) ==> s'.inflight[pid].c == c && !ClaimedElsewhere(s, c, pid)
    ensures ContsOk(s') && OneClaimant(s')
  {
    forall p | p in s'.inflight ensures ContOk(s', s'.inflight[p]) {
      if p != pid {
        var k := s.inflight[p];
        assert ContOk(s, k);
        if !k.Sweep? && Claimed(k) && k.c == c { assert ClaimedElsewhere(s, c, pid); }
        ContKept(s, s', c, k);
      }
    }
    forall p, q | p in s'.inflight && q in s'.inflight && Claimed(s'.inflight[p]) && Claimed(s'.inflight[q])
                  && s'.inflight[p].c == s'.inflight[q].c
      ensures p == q
    {
    }
  }

  /** Decisions of c stay well explained if its findings do. */
  lemma LogKept(s: Sys, s': Sys, c: Uuid)
    requires LogOk(s) && Touches(s, s', c)
    requires c in s.store.cases && (exists i :: 0 <= i < |s.log| && s.log[i].caseId == c && s.log[i].emitter.PolicyEmit?
                                                && s.log[i].outcome != EscalateHuman) ==>
      var r, r' := s.store.cases[c], s'.store.cases[c];
      r'.triage == r.triage && r'.billing == r.billing && r'.risk == r.risk && r'.pending <= r.pending
    requires |s'.log| > |s.log| ==> DecisionOk(s', s'.log[|s.log|])
    ensures LogOk(s')
  {
    forall i | 0 <= i < |s'.log| ensures DecisionOk(s', s'.log[i]) {
      if i < |s.log| {
        assert s'.log[i] == s'.log[..|s.log|][i] == s.log[i];
        assert DecisionOk(s, s.log[i]);
      }
    }
  }

  // ---------------------------------------------------------------- shapes of steps

  /** Neither the store, the log nor the intake loop moves. */
  ghost predicate Quiet(s: Sys, s': Sys) {
    s'.store == s.store && s'.log == s.log && s'.intake == s.intake && s'.clock >= s.clock
  }

  lemma QuietCase(s: Sys, s': Sys, c: Uuid)
    requires Quiet(s, s') && c in s.store.cases && CaseOk(s, c)
    ensures CaseOk(s', c)
  {
  }

  lemma QuietCont(s: Sys, s': Sys, k: Cont)
    requires Quiet(s, s') && ContOk(s, k)
    ensures ContOk(s', k)
  {
  }

  lemma QuietRest(s: Sys, s': Sys)
    requires Quiet(s, s') && CasesOk(s) && IndexOk(s) && LogOk(s)
    ensures CasesOk(s') && IndexOk(s') && LogOk(s')
  {
    forall c | c in s'.store.cases ensures CaseOk(s', c) { QuietCase(s, s', c); }
    forall i | 0 <= i < |s'.log| ensures DecisionOk(s', s'.log[i]) { assert DecisionOk(s, s.log[i]); }
  }

  lemma QuietIntake(s: Sys, s': Sys)
    requires Quiet(s, s') && IntakeOk(s)
    ensures IntakeOk(s')
  {
  }

  /** A continuation moves on and nothing else happens. */
  lemma MoveKeeps(s: Sys, s': Sys, pid: Pid)
    requires Inv(s) && OnlyCont(s, s', pid) && Quiet(s, s')
    requires pid in s'.inflight ==> ContOk(s, s'.inflight[pid])
    requires pid in s'.inflight && Claimed(s'.inflight[pid]) ==>
               pid in s.inflight && Claimed(s.inflight[pid]) && s.inflight[pid].c == s'.inflight[pid].c
    ensures Inv(s')
  {
    QuietRest(s, s');
    QuietIntake(s, s');
    forall p | p in s'.inflight ensures ContOk(s', s'.inflight[p]) { QuietCont(s, s', s'.inflight[p]); }
  }

  /** A delegated case is rewritten in place: its identity, tasks, triage and deadline stay, its
      pending set shrinks, it does not go on waiting when it is ready, and once it is settled its
      findings stay too. */
  ghost predicate Rewrites(s: Sys, s': Sys, c: Uuid) {
    && c in s.store.cases && Registered(s.store.cases[c], c)
    && c in s'.store.cases
    && s'.store == WithCase(s.store, c, s'.store.cases[c])
    && s'.log == s.log && s'.clock == s.clock
    && var r, r' := s.store.cases[c], s'.store.cases[c];
    && r' == r.(pending := r'.pending, billing := r'.billing, risk := r'.risk, billingFailed := r'.billingFailed,
                riskFailed := r'.riskFailed, status := r'.status, version := r'.version)
    && r'.pending <= r.pending
    && r'.status in {WaitingForPeerReviews, ReadyForDecision, Decided, Escalated}
    && (r'.status == WaitingForPeerReviews ==> !r'.IsReadyToDecide())
    && (IsSettled(r.status) ==> IsSettled(r'.status) && r'.billing == r.billing && r'.risk == r.risk)
    && SlotsOk(s', c, r')
  }

  lemma RewriteTouches(s: Sys, s': Sys, c: Uuid)
    requires Rewrites(s, s', c)
    requires s.intake != Idle && s.intake.c != c ==> s'.intake == s.intake
    ensures Touches(s, s', c)
  {
  }

  lemma RewriteCase(s: Sys, s': Sys, c: Uuid)
    requires CasesOk(s) && Rewrites(s, s', c)
    ensures CaseOk(s', c)
  {
    assert CaseOk(s, c);
  }

  lemma RewriteLog(s: Sys, s': Sys, c: Uuid)
    requires CasesOk(s) && LogOk(s) && Rewrites(s, s', c) && Touches(s, s', c)
    ensures LogOk(s')
  {
    assert CaseOk(s, c);
    if i :|
      && 0 <= i < |s.log| && s.log[i].caseId == c
      && s.log[i].emitter.PolicyEmit? && s.log[i].outcome != EscalateHuman
    {
      LoggedCounts(s.log, i, GuardedKind);
    }
    LogKept(s, s', c);
  }

  lemma RewriteIntake(s: Sys, s': Sys, c: Uuid)
    requires CasesOk(s) && IntakeOk(s) && Rewrites(s, s', c) && s'.intake == s.intake
    ensures IntakeOk(s')
  {
    assert CaseOk(s, c);
  }

  lemma RewriteKeeps(s: Sys, s': Sys, c: Uuid, pid: Pid)
    requires Inv(s) && Rewrites(s, s', c) && s'.intake == s.intake && OnlyCont(s, s', pid)
    requires ClaimedElsewhere(s, c, pid) ==> ClaimKept(s, s', c)
    requires pid in s'.inflight ==> ContOk(s', s'.inflight[pid])
    requires pid in s'.inflight && Claimed(s'.inflight[pid]) ==> s'.inflight[pid].c == c && !ClaimedElsewhere(s, c, pid)
    ensures Inv(s')
  {
    RewriteTouches(s, s', c);
    RewriteCase(s, s', c);
    CasesKept(s, s', c);
    RewriteIntake(s, s', c);
    ContsKept(s, s', c, pid);
    RewriteLog(s, s', c);
    assert IndexOk(s') by { IndexKept(s, s', c); }
  }

  // ---------------------------------------------------------------- preservation

  lemma InitInv()
    ensures Inv(INIT)
  {
  }

  lemma TickInv(s: Sys, s': Sys)
    requires Inv(s) && Quiet(s, s') && s'.inflight == s.inflight
    ensures Inv(s')
  {
    QuietRest(s, s');
    QuietIntake(s, s');
    forall p | p in s'.inflight ensures ContOk(s', s'.inflight[p]) { QuietCont(s, s', s'.inflight[p]); }
  }

  /** A redelivered ticket is skipped: with the intake loop idle, every known case is past intake. */
  lemma KnownTicketSkipped(s: Sys, c: Uuid)
    requires Inv(s) && s.intake == Idle && c in s.store.cases
    ensures TakeTicket'(s, c) == s
  {
    assert CaseOk(s, c);
  }

  lemma NewTicketTouches(s: Sys, s': Sys, c: Uuid)
    requires s.intake == Idle && c !in s.store.cases && c !in s.store.byCorrelation && s' == TakeTicket'(s, c)
    ensures Touches(s, s', c)
    ensures s' == s.(store := s'.store, intake := Classifying(c))
    ensures s'.store == StoreState(s.store.cases[c := NewCase(c)], s.store.byCorrelation[c := c], s.store.byTask)
  {
  }

  lemma NewTicketCase(s: Sys, s': Sys, c: Uuid)
    requires LogOk(s) && s.intake == Idle && c !in s.store.cases && c !in s.store.byCorrelation
        && s' == TakeTicket'(s, c)
    ensures CaseOk(s', c) && IntakeOk(s')
  {
    UnknownCaseSilent(s, c);
  }

  lemma NewTicketIndex(s: Sys, s': Sys, c: Uuid)
    requires IndexOk(s) && Touches(s, s', c)
    requires s'.store == StoreState(s.store.cases[c := NewCase(c)], s.store.byCorrelation[c := c], s.store.byTask)
    ensures IndexOk(s')
  {
    IndexKept(s, s', c);
  }

  lemma NewTicketConts(s: Sys, s': Sys, c: Uuid)
    requires ContsOk(s) && c !in s.store.cases && Touches(s, s', c) && s'.inflight == s.inflight
    ensures ContsOk(s')
  {
    forall p | p in s'.inflight ensures ContOk(s', s'.inflight[p]) {
      assert ContOk(s, s.inflight[p]);
      ContKept(s, s', c, s.inflight[p]);
    }
  }

  lemma NewTicketInv(s: Sys, s': Sys, c: Uuid)
    requires Inv(s) && s.intake == Idle && c !in s.store.cases && s' == TakeTicket'(s, c)
    ensures Inv(s')
  {
    NewTicketTouches(s, s', c);
    NewTicketCase(s, s', c);
    CasesKept(s, s', c);
    NewTicketConts(s, s', c);
    NewTicketIndex(s, s', c);
    LogKept(s, s', c);
  }

  lemma TakeTicketInv(s: Sys, c: Uuid)
    requires Inv(s) && s.intake == Idle
    ensures Inv(TakeTicket'(s, c))
  {
    if c in s.store.cases {
      KnownTicketSkipped(s, c);
    } else {
      NewTicketInv(s, TakeTicket'(s, c), c);
    }
  }

  lemma UnknownCaseSilent(s: Sys, c: Uuid)
    requires LogOk(s) && c !in s.store.cases
    ensures forall kind :: Count(s.log, c, kind) == 0
  {
    forall i | 0 <= i < |s.log| ensures s.log[i].caseId != c { assert DecisionOk(s, s.log[i]); }
    forall kind ensures Count(s.log, c, kind) == 0 {
      SilentIf(s.log, c, kind);
    }
  }

  lemma {:induction false} SilentIf(log: seq<Decision>, c: Uuid, kind: Kind)
    requires forall i :: 0 <= i < |log| ==> log[i].caseId != c
    ensures Count(log, c, kind) == 0
  {
    if log != [] {
      SilentIf(log[..|log| - 1], c, kind);
    }
  }

  // ---------------------------------------------------------------- peer and reaper steps

  lemma NotElsewhere(s: Sys, pid: Pid)
    requires OneClaimant(s) && pid in s.inflight && Claimed(s.inflight[pid])
    ensures !ClaimedElsewhere(s, s.inflight[pid].c, pid)
  {
  }

  lemma SpawnKeeps(s: Sys, pid: Pid, k: Cont)
    requires Inv(s) && ContOk(s, k) && !Claimed(k)
    ensures Inv(Spawn(s, pid, k))
  {
    MoveKeeps(s, Spawn(s, pid, k), pid);
  }

  lemma EndKeeps(s: Sys, pid: Pid)
    requires Inv(s)
    ensures Inv(End(s, pid))
  {
    MoveKeeps(s, End(s, pid), pid);
  }

  lemma DeliverBillingInv(s: Sys, pid: Pid, correlation: Uuid, p: BillingPayload)
    requires Inv(s) && pid !in s.inflight
    ensures Inv(DeliverBilling'(s, pid, correlation, p))
  {
    if DeliverBilling'(s, pid, correlation, p) != s {
      assert CaseOk(s, correlation);
      SpawnKeeps(s, pid, AttachBilling(correlation, BillingFindingOf(p)));
    }
  }

  lemma DeliverRiskInv(s: Sys, pid: Pid, correlation: Uuid, p: RiskPayload)
    requires Inv(s) && pid !in s.inflight
    ensures Inv(DeliverRisk'(s, pid, correlation, p))
  {
    if DeliverRisk'(s, pid, correlation, p) != s {
      var f := RiskFindingOf(p);
      assert CaseOk(s, correlation);
      if ForcesEscalation(s.store.cases[correlation], f) {
        SpawnKeeps(s, pid, ClaimForRisk(correlation, f));
      } else {
        SpawnKeeps(s, pid, AttachRisk(correlation, f));
      }
    }
  }

  lemma KnownTask(s: Sys, t: TaskId)
    requires IndexOk(s) && t in s.store.byTask
    ensures t.Uuid5? && s.store.byTask[t] == t.ns && t.ns in s.store.cases && Registered(s.store.cases[t.ns], t.ns)
    ensures t == if t.capability == AnalyzeRefundEligibility then BillingTask(t.ns) else RiskTask(t.ns)
  {
  }

  /** Every indexed task is its case's billing or risk task, so a completed generic TaskResult
      never changes anything. */
  lemma CompletedTaskResultIgnored(s: Sys, pid: Pid, t: TaskId, normalized: Option<RiskFinding>)
    requires Inv(s)
    ensures DeliverTaskResult'(s, pid, t, true, normalized) == s
  {
    if t in s.store.byTask {
      KnownTask(s, t);
    }
  }

  lemma DeliverTaskResultInv(s: Sys, pid: Pid, t: TaskId, completed: bool, normalized: Option<RiskFinding>)
    requires Inv(s) && pid !in s.inflight
    ensures Inv(DeliverTaskResult'(s, pid, t, completed, normalized))
  {
    if completed {
      CompletedTaskResultIgnored(s, pid, t, normalized);
    } else if DeliverTaskResult'(s, pid, t, completed, normalized) != s {
      KnownTask(s, t);
      SpawnKeeps(s, pid, FailTask(t.ns, t, t == BillingTask(t.ns)));
    }
  }

  lemma StartSweepInv(s: Sys, pid: Pid, found: seq<Uuid>)
    requires Inv(s) && ListsTimedOut(s, found)
    ensures Inv(Spawn(s, pid, Sweep(found)))
  {
    forall d | d in found ensures Overdue(s, d) {
      var i :| 0 <= i < |found| && found[i] == d;
      assert CaseOk(s, d);
    }
    SpawnKeeps(s, pid, Sweep(found));
  }

  lemma AttachRewrites(s: Sys, s': Sys, c: Uuid, t: TaskId, f: Finding)
    requires CasesOk(s) && c in s.store.cases && Registered(s.store.cases[c], c)
    requires Attachable(s.store.cases[c], t)
    requires t == if f.OfBilling? then BillingTask(c) else RiskTask(c)
    requires s' == s.(store := WithCase(s.store, c, AttachTo(s.store.cases[c], t, f)), inflight := s'.inflight)
    ensures Rewrites(s, s', c)
  {
    assert CaseOk(s, c);
  }

  lemma AttachInv(s: Sys, s': Sys, pid: Pid, c: Uuid, t: TaskId, f: Finding)
    requires Inv(s) && c in s.store.cases && Registered(s.store.cases[c], c)
    requires t == if f.OfBilling? then BillingTask(c) else RiskTask(c)
    requires s' == s.(store := ApplyResult(s.store, c, t, f).0, inflight := s.inflight[pid := CheckReady(c)])
    ensures Inv(s')
  {
    if Attachable(s.store.cases[c], t) {
      AttachRewrites(s, s', c, t, f);
      NoClaimOn(s, c, pid);
      RewriteKeeps(s, s', c, pid);
    } else {
      MoveKeeps(s, s', pid);
    }
  }

  lemma FailRewrites(s: Sys, s': Sys, c: Uuid, t: TaskId, isBilling: bool)
    requires CasesOk(s) && c in s.store.cases && Registered(s.store.cases[c], c)
    requires !IsTerminal(s.store.cases[c].status) && t in s.store.byTask
    requires t == if isBilling then BillingTask(c) else RiskTask(c)
    requires s' == s.(store := WithCase(s.store, c, FailSlot(s.store.cases[c], t, isBilling)), inflight := s'.inflight)
    ensures Rewrites(s, s', c) && ClaimKept(s, s', c)
  {
    assert CaseOk(s, c);
  }

  lemma FailTaskInv(s: Sys, s': Sys, pid: Pid, c: Uuid, t: TaskId, isBilling: bool)
    requires Inv(s) && c in s.store.cases && Registered(s.store.cases[c], c) && t in s.store.byTask
    requires t == if isBilling then BillingTask(c) else RiskTask(c)
    requires s' == s.(store := MarkSlotFailed(s.store, c, t, isBilling),
        inflight := s.inflight[pid := CheckReadyAfterTask(c)])
    ensures Inv(s')
  {
    if IsTerminal(s.store.cases[c].status) {
      MoveKeeps(s, s', pid);
    } else {
      FailSlotInv(s, s', pid, c, t, isBilling);
    }
  }

  lemma FailSlotInv(s: Sys, s': Sys, pid: Pid, c: Uuid, t: TaskId, isBilling: bool)
    requires Inv(s) && c in s.store.cases && Registered(s.store.cases[c], c) && t in s.store.byTask
    requires t == if isBilling then BillingTask(c) else RiskTask(c)
    requires !IsTerminal(s.store.cases[c].status)
    requires s' == s.(store := WithCase(s.store, c, FailSlot(s.store.cases[c], t, isBilling)),
        inflight := s.inflight[pid := CheckReadyAfterTask(c)])
    ensures Inv(s')
  {
    FailRewrites(s, s', c, t, isBilling);
    assert OnlyCont(s, s', pid) && ContOk(s', CheckReadyAfterTask(c));
    RewriteKeeps(s, s', c, pid);
  }

  lemma ClaimRewrites(s: Sys, s': Sys, pid: Pid, k: Cont)
    requires CasesOk(s) && Unemitted(k) && k.c in s.store.cases && !IsSettled(s.store.cases[k.c].status)
    requires Registered(s.store.cases[k.c], k.c) && (k.EmitPolicy? ==> FlowOk(s, k.c, k.flow))
    requires s' == s.(store := ClaimDecision(s.store, k.c).0, inflight := s.inflight[pid := k])
    ensures Rewrites(s, s', k.c) && ContOk(s', k)
  {
    assert CaseOk(s, k.c);
    RewriteTouches(s, s', k.c);
    if k.EmitPolicy? && k.flow.Reaper? {
      OverdueKept(s, s', k.c, k.c);
      forall d | d in k.flow.rest ensures Overdue(s', d) { OverdueKept(s, s', k.c, d); }
    }
  }

  lemma ClaimInv(s: Sys, s': Sys, pid: Pid, k: Cont)
    requires Inv(s) && Unemitted(k) && k.c in s.store.cases && !IsSettled(s.store.cases[k.c].status)
    requires Registered(s.store.cases[k.c], k.c) && (k.EmitPolicy? ==> FlowOk(s, k.c, k.flow))
    requires s' == s.(store := ClaimDecision(s.store, k.c).0, inflight := s.inflight[pid := k])
    ensures Inv(s')
  {
    NoClaimOn(s, k.c, pid);
    ClaimRewrites(s, s', pid, k);
    RewriteKeeps(s, s', k.c, pid);
  }

  lemma FinishInv(s: Sys, s': Sys, pid: Pid, c: Uuid, status: CaseStatus)
    requires Inv(s) && pid in s.inflight && Claimed(s.inflight[pid]) && s.inflight[pid].c == c
    requires c in s.store.cases && status in {Decided, Escalated} && OnlyCont(s, s', pid)
    requires s' == SaveStatus(s, c, status).(inflight := s'.inflight)
    requires pid in s'.inflight ==> !Claimed(s'.inflight[pid]) && ContOk(s, s'.inflight[pid])
    ensures Inv(s')
  {
    assert ContOk(s, s.inflight[pid]);
    assert CaseOk(s, c);
    NotElsewhere(s, pid);
    assert Save(s.store, c, s.store.cases[c].(status := status), None).value.byCorrelation == s.store.byCorrelation;
    assert Rewrites(s, s', c);
    RewriteTouches(s, s', c);
    if pid in s'.inflight { ContKept(s, s', c, s'.inflight[pid]); }
    RewriteKeeps(s, s', c, pid);
  }

  // ---------------------------------------------------------------- emissions

  lemma EmitCounts(s: Sys, s': Sys, d: Decision)
    requires s'.log == s.log + [d]
    ensures forall kind ::
        Count(s'.log, d.caseId, kind) == Count(s.log, d.caseId, kind) + (if Matches(d.emitter, kind) then 1 else 0)
  {
    forall kind
      ensures Count(s'.log, d.caseId, kind)
        == Count(s.log, d.caseId, kind) + (if Matches(d.emitter, kind) then 1 else 0)
    {
      CountAppend(s.log, d, d.caseId, kind);
    }
  }

  /** The claimant emits: the case itself may only gain the risk finding that forced the escalation. */
  ghost predicate EmitShape(s: Sys, s': Sys, d: Decision) {
    && d.caseId in s.store.cases && d.caseId in s'.store.cases && Registered(s.store.cases[d.caseId], d.caseId)
    && IsSettled(s.store.cases[d.caseId].status)
    && (d.emitter.PolicyEmit? || d.emitter.ElevatedRiskEmit?)
    && Count(s.log, d.caseId, GuardedKind) == 0
    && s'.store == WithCase(s.store, d.caseId, s'.store.cases[d.caseId])
    && s'.store.cases[d.caseId] == s.store.cases[d.caseId].(risk := s'.store.cases[d.caseId].risk)
    && (d.emitter.PolicyEmit? ==> s'.store == s.store)
    && s' == s.(store := s'.store, log := s.log + [d], inflight := s'.inflight)
  }

  lemma EmitTouches(s: Sys, s': Sys, d: Decision)
    requires EmitShape(s, s', d)
    ensures Touches(s, s', d.caseId)
  {
  }

  lemma EmitCase(s: Sys, s': Sys, d: Decision)
    requires CasesOk(s) && EmitShape(s, s', d)
    ensures CaseOk(s', d.caseId)
  {
    assert CaseOk(s, d.caseId);
    EmitCounts(s, s', d);
  }

  lemma EmitIntake(s: Sys, s': Sys, d: Decision)
    requires CasesOk(s) && IntakeOk(s) && EmitShape(s, s', d)
    ensures IntakeOk(s')
  {
    assert CaseOk(s, d.caseId);
    EmitCounts(s, s', d);
    if s.intake != Idle && s.intake.c != d.caseId {
      forall kind ensures Count(s'.log, s.intake.c, kind) == Count(s.log, s.intake.c, kind) {
        CountAppend(s.log, d, s.intake.c, kind);
      }
    }
  }

  lemma EmitLog(s: Sys, s': Sys, d: Decision)
    requires LogOk(s) && EmitShape(s, s', d) && Touches(s, s', d.caseId) && DecisionOk(s', d)
    ensures LogOk(s')
  {
    if i :|
      && 0 <= i < |s.log| && s.log[i].caseId == d.caseId
      && s.log[i].emitter.PolicyEmit? && s.log[i].outcome != EscalateHuman
    {
      LoggedCounts(s.log, i, GuardedKind);
    }
    LogKept(s, s', d.caseId);
  }

  lemma EmitCont(s: Sys, s': Sys, d: Decision, was: Cont, now: Cont)
    requires EmitShape(s, s', d) && Touches(s, s', d.caseId) && ContOk(s, was) && Unemitted(was) && was.c == d.caseId
    requires now == if was.EmitPolicy? then FinishPolicy(was.c, was.flow) else FinishRisk(was.c)
    ensures ContOk(s', now)
  {
    EmitCounts(s, s', d);
    if was.EmitPolicy? && was.flow.Reaper? {
      OverdueKept(s, s', was.c, was.c);
      forall e | e in was.flow.rest ensures Overdue(s', e) { OverdueKept(s, s', was.c, e); }
    }
  }

  lemma EmitGuardedInv(s: Sys, s': Sys, pid: Pid, d: Decision)
    requires Inv(s) && pid in s.inflight && Unemitted(s.inflight[pid]) && s.inflight[pid].c == d.caseId
    requires EmitShape(s, s', d) && DecisionOk(s', d)
    requires var was := s.inflight[pid];
      s'.inflight == s.inflight[pid := if was.EmitPolicy? then FinishPolicy(was.c, was.flow) else FinishRisk(was.c)]
    ensures Inv(s')
  {
    NotElsewhere(s, pid);
    EmitTouches(s, s', d);
    EmitCase(s, s', d);
    CasesKept(s, s', d.caseId);
    EmitCont(s, s', d, s.inflight[pid], s'.inflight[pid]);
    ContsKept(s, s', d.caseId, pid);
    EmitIntake(s, s', d);
    EmitLog(s, s', d);
    assert IndexOk(s') by { IndexKept(s, s', d.caseId); }
  }

  /** What the policy emits is explained by the case as it stands. */
  lemma PolicyDecisionOk(s: Sys, c: Uuid, byReaper: bool, v: Verdict)
    requires CasesOk(s) && c in s.store.cases && Registered(s.store.cases[c], c) && Count(s.log, c, GuardedKind) == 0
    requires var r := s.store.cases[c];
        v == Decide(TriageOf(r), r.billing, r.risk, Some(BuildTimeoutStatus(r, s.clock)))
    ensures DecisionOk(s, Decision(c, v.outcome, v.reason, PolicyEmit(byReaper)))
  {
    var r := s.store.cases[c];
    var ts := BuildTimeoutStatus(r, s.clock);
    assert CaseOk(s, c);
    CountsAddUp(s.log, c);
    OutcomesExactly(TriageOf(r), r.billing, r.risk, Some(ts));
    if v.outcome != EscalateHuman {
      assert BillingTask(c) !in r.pending && RiskTask(c) !in r.pending;
      assert r.pending == {};
    }
  }

  lemma EmitPolicyInv(s: Sys, s': Sys, pid: Pid, c: Uuid, flow: Flow)
    requires Inv(s) && pid in s.inflight && s.inflight[pid] == EmitPolicy(c, flow) && c in s.store.cases
    requires s' == Resume'(s, pid)
    ensures Inv(s')
  {
    assert ContOk(s, EmitPolicy(c, flow));
    var r := s.store.cases[c];
    var v := Decide(TriageOf(r), r.billing, r.risk, Some(BuildTimeoutStatus(r, s.clock)));
    var d := Decision(c, v.outcome, v.reason, PolicyEmit(flow.Reaper?));
    PolicyDecisionOk(s, c, flow.Reaper?, v);
    assert s' == s.(log := s.log + [d], inflight := s.inflight[pid := FinishPolicy(c, flow)]);
    assert s'.store == WithCase(s.store, c, r);
    EmitGuardedInv(s, s', pid, d);
  }

  lemma EmitRiskInv(s: Sys, s': Sys, pid: Pid, c: Uuid, f: RiskFinding)
    requires Inv(s) && pid in s.inflight && s.inflight[pid] == EmitRisk(c, f) && c in s.store.cases
    requires s' == Resume'(s, pid)
    ensures Inv(s')
  {
    assert ContOk(s, EmitRisk(c, f));
    var d := Decision(c, EscalateHuman, Some(ElevatedRisk), ElevatedRiskEmit);
    EmitGuardedInv(s, s', pid, d);
  }

  // ---------------------------------------------------------------- every resumption

  lemma ResumeAttach(s: Sys, pid: Pid)
    requires Inv(s) && pid in s.inflight && Live(s, s.inflight[pid])
    requires s.inflight[pid].AttachBilling? || s.inflight[pid].AttachRisk?
    ensures Inv(Resume'(s, pid))
  {
    var k := s.inflight[pid];
    assert ContOk(s, k);
    match k {
      case AttachBilling(c, f) => AttachInv(s, Resume'(s, pid), pid, c, BillingTask(c), OfBilling(f));
      case AttachRisk(c, f) => AttachInv(s, Resume'(s, pid), pid, c, RiskTask(c), OfRisk(f));
    }
  }

  lemma ResumeTask(s: Sys, pid: Pid)
    requires Inv(s) && pid in s.inflight && Live(s, s.inflight[pid])
    requires s.inflight[pid].FailTask?
    ensures Inv(Resume'(s, pid))
  {
    var k := s.inflight[pid];
    assert ContOk(s, k);
    KnownTask(s, k.t);
    FailTaskInv(s, Resume'(s, pid), pid, k.c, k.t, k.isBilling);
  }

  lemma ResumeCheck(s: Sys, pid: Pid)
    requires Inv(s) && pid in s.inflight && Live(s, s.inflight[pid])
    requires s.inflight[pid].CheckReady? || s.inflight[pid].CheckReadyAfterTask?
    ensures Inv(Resume'(s, pid))
  {
    assert ContOk(s, s.inflight[pid]);
    if Resume'(s, pid) == End(s, pid) {
      EndKeeps(s, pid);
    } else {
      SpawnKeeps(s, pid, ClaimForPolicy(s.inflight[pid].c, Handler));
    }
  }

  lemma SweepHead(s: Sys, rest: seq<Uuid>)
    requires ContOk(s, Sweep(rest)) && rest != []
    ensures ContOk(s, Sweep(rest[1..])) && ContOk(s, ClaimForPolicy(rest[0], Reaper(rest[1..])))
  {
    assert forall d :: d in rest[1..] ==> d in rest;
    assert Overdue(s, rest[0]);
  }

  lemma ResumeSweep(s: Sys, pid: Pid)
    requires Inv(s) && pid in s.inflight && Live(s, s.inflight[pid])
    requires s.inflight[pid].Sweep?
    ensures Inv(Resume'(s, pid))
  {
    var rest := s.inflight[pid].rest;
    assert ContOk(s, s.inflight[pid]);
    if rest == [] {
      EndKeeps(s, pid);
      return;
    }
    SweepHead(s, rest);
    if IsSettled(s.store.cases[rest[0]].status) {
      SpawnKeeps(s, pid, Sweep(rest[1..]));
    } else {
      SpawnKeeps(s, pid, ClaimForPolicy(rest[0], Reaper(rest[1..])));
    }
  }

  lemma FlowSweeps(s: Sys, k: Cont)
    requires ContOk(s, k) && (k.ClaimForPolicy? || k.FinishPolicy?) && k.flow.Reaper?
    ensures ContOk(s, Sweep(k.flow.rest))
  {
  }

  /** A claim on a settled case is refused: the handler ends, a sweep goes on. */
  lemma LostClaim(s: Sys, pid: Pid)
    requires pid in s.inflight && Live(s, s.inflight[pid])
    requires s.inflight[pid].ClaimForPolicy? || s.inflight[pid].ClaimForRisk?
    requires IsSettled(s.store.cases[s.inflight[pid].c].status)
    ensures var k := s.inflight[pid];
      Resume'(s, pid) == if k.ClaimForPolicy? && k.flow.Reaper? then Spawn(s, pid, Sweep(k.flow.rest)) else End(s, pid)
  {
  }

  lemma ResumeClaimLost(s: Sys, s': Sys, pid: Pid, k: Cont)
    requires Inv(s) && ContOk(s, k) && (k.ClaimForPolicy? || k.ClaimForRisk?)
    requires s' == if k.ClaimForPolicy? && k.flow.Reaper? then Spawn(s, pid, Sweep(k.flow.rest)) else End(s, pid)
    ensures Inv(s')
  {
    if k.ClaimForPolicy? && k.flow.Reaper? {
      FlowSweeps(s, k);
      SpawnKeeps(s, pid, Sweep(k.flow.rest));
    } else {
      EndKeeps(s, pid);
    }
  }

  lemma ResumeClaim(s: Sys, pid: Pid)
    requires Inv(s) && pid in s.inflight && Live(s, s.inflight[pid])
    requires s.inflight[pid].ClaimForPolicy? || s.inflight[pid].ClaimForRisk?
    ensures Inv(Resume'(s, pid))
  {
    var k := s.inflight[pid];
    assert ContOk(s, k);
    if IsSettled(s.store.cases[k.c].status) {
      LostClaim(s, pid);
      ResumeClaimLost(s, Resume'(s, pid), pid, k);
    } else {
      ClaimInv(s, Resume'(s, pid), pid, if k.ClaimForPolicy? then EmitPolicy(k.c, k.flow) else EmitRisk(k.c, k.risk));
    }
  }

  lemma ResumeFinish(s: Sys, pid: Pid)
    requires Inv(s) && pid in s.inflight && Live(s, s.inflight[pid])
    requires s.inflight[pid].FinishPolicy? || s.inflight[pid].FinishRisk?
    ensures Inv(Resume'(s, pid))
  {
    var k := s.inflight[pid];
    if k.FinishPolicy? && k.flow.Reaper? { FlowSweeps(s, k); }
    FinishInv(s, Resume'(s, pid), pid, k.c, if k.FinishPolicy? then Decided else Escalated);
  }

  lemma ResumeInv(s: Sys, pid: Pid)
    requires Inv(s) && pid in s.inflight && Live(s, s.inflight[pid])
    ensures Inv(Resume'(s, pid))
  {
    assert ContOk(s, s.inflight[pid]);
    match s.inflight[pid] {
      case AttachBilling(_, _) => ResumeAttach(s, pid);
      case AttachRisk(_, _) => ResumeAttach(s, pid);
      case CheckReady(_) => ResumeCheck(s, pid);
      case FailTask(_, _, _) => ResumeTask(s, pid);
      case AttachTaskResult(_, _, _) => assert false;
      case CheckReadyAfterTask(_) => ResumeCheck(s, pid);
      case ClaimForPolicy(_, _) => ResumeClaim(s, pid);
      case EmitPolicy(c, flow) => EmitPolicyInv(s, Resume'(s, pid), pid, c, flow);
      case FinishPolicy(_, _) => ResumeFinish(s, pid);
      case ClaimForRisk(_, _) => ResumeClaim(s, pid);
      case EmitRisk(c, f) => EmitRiskInv(s, Resume'(s, pid), pid, c, f);
      case FinishRisk(_) => ResumeFinish(s, pid);
      case Sweep(_) => ResumeSweep(s, pid);
    }
  }

  // ---------------------------------------------------------------- intake steps

  ghost predicate HasVerdict(s: Sys, c: Uuid) {
    exists i :: 0 <= i < |s.log| && s.log[i].caseId == c && s.log[i].emitter.PolicyEmit?
      && s.log[i].outcome != EscalateHuman
  }

  lemma SilentCaseHasNoVerdict(s: Sys, c: Uuid)
    requires Count(s.log, c, GuardedKind) == 0
    ensures !HasVerdict(s, c)
  {
    forall i | 0 <= i < |s.log| && s.log[i].caseId == c && s.log[i].emitter.PolicyEmit? ensures false {
      LoggedCounts(s.log, i, GuardedKind);
    }
  }

  lemma UnregisteredHasNoVerdict(s: Sys, c: Uuid)
    requires LogOk(s) && RiskTask(c) !in s.store.byTask
    ensures !HasVerdict(s, c)
  {
    forall i | 0 <= i < |s.log| && s.log[i].caseId == c && s.log[i].emitter.PolicyEmit?
      ensures s.log[i].outcome == EscalateHuman
    {
      assert DecisionOk(s, s.log[i]);
    }
  }

  /** An undelegated case has no continuation but the intake's own. */
  lemma IntakeConts(s: Sys, s': Sys, c: Uuid, pid: Pid)
    requires ContsOk(s) && OneClaimant(s) && Touches(s, s', c) && s'.inflight == s.inflight && c in s.store.cases
    requires c in s'.store.cases && (Registered(s.store.cases[c], c) ==> ClaimKept(s, s', c))
    ensures ContsOk(s') && OneClaimant(s')
  {
    forall p | p in s'.inflight ensures ContOk(s', s'.inflight[p]) {
      assert ContOk(s, s.inflight[p]);
      ContKept(s, s', c, s.inflight[p]);
    }
  }

  /** What a step of the intake on its case c may do. */
  ghost predicate IntakeMove(s: Sys, s': Sys, c: Uuid) {
    && s.intake != Idle && s.intake.c == c && c in s.store.cases && c in s'.store.cases
    && Touches(s, s', c) && s'.inflight == s.inflight && s'.store.byCorrelation == s.store.byCorrelation
    && (forall t :: t in s'.store.byTask && t !in s.store.byTask ==>
          && t in {BillingTask(c), RiskTask(c)} && s'.store.byTask[t] == c && Registered(s'.store.cases[c], c))
    && CaseOk(s', c) && IntakeOk(s')
    && (Registered(s.store.cases[c], c) ==> ClaimKept(s, s', c))
    && (HasVerdict(s, c) ==>
          var r, r' := s.store.cases[c], s'.store.cases[c];
          r'.triage == r.triage && r'.billing == r.billing && r'.risk == r.risk && r'.pending <= r.pending)
    && (|s'.log| > |s.log| ==> DecisionOk(s', s'.log[|s.log|]))
  }

  lemma IntakeIndex(s: Sys, s': Sys, c: Uuid)
    requires IndexOk(s) && LogOk(s) && IntakeMove(s, s', c)
    ensures IndexOk(s') && LogOk(s')
  {
    IndexKept(s, s', c);
    LogKept(s, s', c);
  }

  lemma IntakeKeeps(s: Sys, s': Sys, c: Uuid)
    requires Inv(s) && IntakeMove(s, s', c)
    ensures Inv(s')
  {
    CasesKept(s, s', c);
    IntakeConts(s, s', c, 0);
    IntakeIndex(s, s', c);
  }

  /** One case, the task index, the log and the intake position: all an intake step writes. */
  function Written(s: Sys, c: Uuid, r: CaseRec, next: Intake): Sys {
    s.(store := WithCase(s.store, c, r), intake := next)
  }

  ghost predicate AtIntake(s: Sys, at: Intake) {
    && at != Idle && s.intake == at && at.c in s.store.cases && CaseOk(s, at.c) && IntakeOk(s)
    && at.c in s.store.byCorrelation && s.store.byCorrelation[at.c] == at.c
  }

  lemma SaveStatusWrites(s: Sys, c: Uuid, status: CaseStatus)
    requires c in s.store.cases && c in s.store.byCorrelation && s.store.byCorrelation[c] == c
    requires s.store.cases[c].correlation == c
    ensures var r := s.store.cases[c];
      SaveStatus(s, c, status) == s.(store := WithCase(s.store, c, r.(status := status, version := r.version + 1)))
  {
    assert s.store.byCorrelation[c := c] == s.store.byCorrelation;
  }

  lemma ClassifyWrites(s: Sys, c: Uuid, triage: Triage)
    requires AtIntake(s, Classifying(c))
    ensures var r := s.store.cases[c];
      IntakeStep'(s, triage, false)
        == Written(s, c, r.(triage := Some(triage), status := Classified, version := r.version + 1),
                                               PublishingClassified(c))
  {
    var r := s.store.cases[c];
    SaveStatusWrites(PutRec(s, c, r.(triage := Some(triage))), c, Classified);
  }

  lemma ClassifyMoves(s: Sys, s': Sys, c: Uuid, triage: Triage)
    requires AtIntake(s, Classifying(c))
    requires var r := s.store.cases[c];
      s' == Written(s, c, r.(triage := Some(triage), status := Classified, version := r.version + 1),
        PublishingClassified(c))
    ensures IntakeMove(s, s', c)
  {
    CountsAddUp(s.log, c);
    SilentCaseHasNoVerdict(s, c);
  }

  lemma DirectMoves(s: Sys, s': Sys, c: Uuid)
    requires AtIntake(s, PublishingClassified(c))
    requires s' == Emit(s, Decision(c, DirectResponse, None, DirectEmit)).(intake := ClosingDirect(c))
    ensures IntakeMove(s, s', c)
  {
    CountsAddUp(s.log, c);
    EmitCounts(s, s', Decision(c, DirectResponse, None, DirectEmit));
    SilentCaseHasNoVerdict(s, c);
  }

  lemma WaitWrites(s: Sys, c: Uuid, triage: Triage)
    requires AtIntake(s, PublishingClassified(c)) && TriageOf(s.store.cases[c]).needsRefundReview
    ensures var r := s.store.cases[c];
      IntakeStep'(s, triage, false) ==
        Written(s, c, r.(deadline := Some(s.clock + CASE_DEADLINE_SECONDS), status := WaitingForPeerReviews,
                         version := r.version + 1), RegisteringBilling(c))
  {
    var r := s.store.cases[c];
    SaveStatusWrites(PutRec(s, c, r.(deadline := Some(s.clock + CASE_DEADLINE_SECONDS))), c, WaitingForPeerReviews);
  }

  lemma WaitMoves(s: Sys, s': Sys, c: Uuid)
    requires AtIntake(s, PublishingClassified(c)) && TriageOf(s.store.cases[c]).needsRefundReview
    requires var r := s.store.cases[c];
      s' == Written(s, c, r.(deadline := Some(s.clock + CASE_DEADLINE_SECONDS), status := WaitingForPeerReviews,
                             version := r.version + 1), RegisteringBilling(c))
    ensures IntakeMove(s, s', c)
  {
    CountsAddUp(s.log, c);
    SilentCaseHasNoVerdict(s, c);
  }

  lemma CloseMoves(s: Sys, s': Sys, c: Uuid)
    requires AtIntake(s, ClosingDirect(c))
    requires var r := s.store.cases[c];
      s' == Written(s, c, r.(status := Closed, version := r.version + 1), Idle)
    ensures IntakeMove(s, s', c)
  {
  }

  lemma AnnounceMoves(s: Sys, s': Sys, c: Uuid)
    requires AtIntake(s, Announcing(c))
    requires var r := s.store.cases[c]; s' == Written(s, c, r.(version := r.version + 1), Idle)
    ensures IntakeMove(s, s', c)
  {
  }

  lemma EscalateMoves(s: Sys, s': Sys, c: Uuid)
    requires AtIntake(s, EscalatingFailure(c))
    requires var r := s.store.cases[c];
      s' == Written(s, c, r.(status := Escalated, version := r.version + 1), Idle)
    ensures IntakeMove(s, s', c)
  {
  }

  lemma RegisterBillingWrites(s: Sys, c: Uuid, triage: Triage)
    requires AtIntake(s, RegisteringBilling(c))
    ensures var r := s.store.cases[c];
      IntakeStep'(s, triage, false) ==
        s.(store := StoreState(
             s.store.cases[c := r.(billingTask := Some(BillingTask(c)), riskTask := Some(RiskTask(c)),
               pending := {BillingTask(c)})],
             s.store.byCorrelation, s.store.byTask[BillingTask(c) := c]),
           intake := RegisteringRisk(c))
  {
    assert s.store.cases[c].pending + {BillingTask(c)} == {BillingTask(c)};
  }

  lemma RegisterBillingMoves(s: Sys, s': Sys, c: Uuid)
    requires AtIntake(s, RegisteringBilling(c)) && RiskTask(c) !in s.store.byTask
    requires var r := s.store.cases[c];
      s' == s.(store := StoreState(
                 s.store.cases[c := r.(billingTask := Some(BillingTask(c)), riskTask := Some(RiskTask(c)),
                   pending := {BillingTask(c)})],
                 s.store.byCorrelation, s.store.byTask[BillingTask(c) := c]),
               intake := RegisteringRisk(c))
    requires BillingTask(c) in s.store.byTask ==> s.store.byTask[BillingTask(c)] == c
    ensures IntakeMove(s, s', c)
  {
    CountsAddUp(s.log, c);
    RegisteredIsOk(s, s', c);
    SilentCaseHasNoVerdict(s, c);
  }

  lemma RegisteredIsOk(s: Sys, s': Sys, c: Uuid)
    requires AtIntake(s, RegisteringBilling(c)) && RiskTask(c) !in s.store.byTask
    requires Count(s.log, c, GuardedKind) == 0 && Count(s.log, c, DirectKind) == 0 && s'.log == s.log
    requires var r := s.store.cases[c];
      s'.store.cases == s.store.cases[c := r.(billingTask := Some(BillingTask(c)), riskTask := Some(RiskTask(c)),
                                              pending := {BillingTask(c)})]
    requires s'.store.byCorrelation == s.store.byCorrelation && s'.intake == RegisteringRisk(c)
    requires s'.store.byTask == s.store.byTask[BillingTask(c) := c]
    ensures CaseOk(s', c) && IntakeOk(s')
  {
  }

  lemma RegisterRiskWrites(s: Sys, c: Uuid, triage: Triage)
    requires AtIntake(s, RegisteringRisk(c))
    ensures var r := s.store.cases[c];
      IntakeStep'(s, triage, false) ==
        s.(store := StoreState(s.store.cases[c := r.(pending := r.pending + {RiskTask(c)})],
                               s.store.byCorrelation, s.store.byTask[RiskTask(c) := c]),
           intake := RequestingBilling(c))
  {
  }

  lemma RegisterRiskMoves(s: Sys, s': Sys, c: Uuid)
    requires AtIntake(s, RegisteringRisk(c)) && LogOk(s)
    requires var r := s.store.cases[c];
      s' == s.(store := StoreState(s.store.cases[c := r.(pending := r.pending + {RiskTask(c)})],
                                   s.store.byCorrelation, s.store.byTask[RiskTask(c) := c]),
               intake := RequestingBilling(c))
    ensures IntakeMove(s, s', c)
  {
    UnregisteredHasNoVerdict(s, c);
  }

  /** The unguarded escalation of a failed delegation. */
  lemma FailDelegationMoves(s: Sys, s': Sys, c: Uuid)
    requires AtIntake(s, s.intake) && s' == EscalateFailure(s, c)
    requires s.intake == RequestingBilling(c) || s.intake == RequestingRisk(c) || s.intake == Announcing(c)
    ensures IntakeMove(s, s', c)
  {
    EmitCounts(s, s', Decision(c, EscalateHuman, Some(PeerFailure), DelegationFailureEmit));
    FailedIsOk(s, s', c);
    FailedTouches(s, s', c);
    FailureStands(s, s', c);
  }

  lemma FailedTouches(s: Sys, s': Sys, c: Uuid)
    requires s.intake != Idle && s.intake.c == c && c in s.store.cases && s' == EscalateFailure(s, c)
    ensures Touches(s, s', c)
  {
  }

  lemma FailureStands(s: Sys, s': Sys, c: Uuid)
    requires c in s.store.cases && s' == EscalateFailure(s, c)
    requires forall kind ::
      Count(s'.log, c, kind) == Count(s.log, c, kind) + if Matches(DelegationFailureEmit, kind) then 1 else 0
    ensures ClaimKept(s, s', c) && DecisionOk(s', s'.log[|s.log|])
  {
  }

  lemma FailedIsOk(s: Sys, s': Sys, c: Uuid)
    requires AtIntake(s, s.intake)
    requires s.intake == RequestingBilling(c) || s.intake == RequestingRisk(c) || s.intake == Announcing(c)
    requires s'.store == s.store && s'.intake == EscalatingFailure(c)
    requires forall kind ::
      Count(s'.log, c, kind) == Count(s.log, c, kind) + if Matches(DelegationFailureEmit, kind) then 1 else 0
    ensures CaseOk(s', c) && IntakeOk(s')
  {
  }

  lemma AdvanceMoves(s: Sys, s': Sys, c: Uuid)
    requires AtIntake(s, s.intake)
    requires (s.intake == RequestingBilling(c) && s' == s.(intake := RequestingRisk(c)))
          || (s.intake == RequestingRisk(c) && s' == s.(intake := Announcing(c)))
    ensures IntakeMove(s, s', c)
  {
  }

  lemma InvAtIntake(s: Sys)
    requires Inv(s) && s.intake != Idle
    ensures AtIntake(s, s.intake)
    ensures s.intake.RegisteringBilling?
        ==> BillingTask(s.intake.c) !in s.store.byTask && RiskTask(s.intake.c) !in s.store.byTask
  {
    assert CaseOk(s, s.intake.c);
  }

  lemma IntakeMovesEarly(s: Sys, s': Sys, c: Uuid, triage: Triage)
    requires AtIntake(s, s.intake) && s.intake.c == c && s' == IntakeStep'(s, triage, false)
    requires s.intake.Classifying? || s.intake.PublishingClassified? || s.intake.ClosingDirect?
    ensures IntakeMove(s, s', c)
  {
    if s.intake.Classifying? {
      ClassifyWrites(s, c, triage);
      ClassifyMoves(s, s', c, triage);
    } else if s.intake.ClosingDirect? {
      SaveStatusWrites(s, c, Closed);
      CloseMoves(s, s', c);
    } else if TriageOf(s.store.cases[c]).needsRefundReview {
      WaitWrites(s, c, triage);
      WaitMoves(s, s', c);
    } else {
      DirectMoves(s, s', c);
    }
  }

  lemma IntakeMovesRegister(s: Sys, s': Sys, c: Uuid, triage: Triage)
    requires AtIntake(s, s.intake) && s.intake.c == c && LogOk(s) && s' == IntakeStep'(s, triage, false)
    requires s.intake.RegisteringBilling? || s.intake.RegisteringRisk?
    requires s.intake.RegisteringBilling? ==> BillingTask(c) !in s.store.byTask && RiskTask(c) !in s.store.byTask
    ensures IntakeMove(s, s', c)
  {
    if s.intake.RegisteringBilling? {
      RegisterBillingWrites(s, c, triage);
      RegisterBillingMoves(s, s', c);
    } else {
      RegisterRiskWrites(s, c, triage);
      RegisterRiskMoves(s, s', c);
    }
  }

  lemma IntakeMovesLate(s: Sys, s': Sys, c: Uuid, triage: Triage, raises: bool)
    requires AtIntake(s, s.intake) && s.intake.c == c && s' == IntakeStep'(s, triage, raises)
    requires s.intake.RequestingBilling? || s.intake.RequestingRisk? || s.intake.Announcing?
        || s.intake.EscalatingFailure?
    ensures IntakeMove(s, s', c)
  {
    if s.intake.EscalatingFailure? {
      SaveStatusWrites(s, c, Escalated);
      EscalateMoves(s, s', c);
    } else if raises {
      FailDelegationMoves(s, s', c);
    } else if s.intake.Announcing? {
      SaveStatusWrites(s, c, s.store.cases[c].status);
      AnnounceMoves(s, s', c);
    } else {
      AdvanceMoves(s, s', c);
    }
  }

  lemma RaiseOnlyMattersLate(s: Sys, triage: Triage, raises: bool)
    requires s.intake != Idle && s.intake.c in s.store.cases
    requires !(s.intake.RequestingBilling? || s.intake.RequestingRisk? || s.intake.Announcing?
        || s.intake.EscalatingFailure?)
    ensures IntakeStep'(s, triage, raises) == IntakeStep'(s, triage, false)
  {
  }

  lemma IntakeMoves(s: Sys, triage: Triage, raises: bool)
    requires Inv(s) && s.intake != Idle && s.intake.c in s.store.cases
    ensures IntakeMove(s, IntakeStep'(s, triage, raises), s.intake.c)
  {
    InvAtIntake(s);
    var s' := IntakeStep'(s, triage, raises);
    if s.intake.RequestingBilling? || s.intake.RequestingRisk? || s.intake.Announcing? || s.intake.EscalatingFailure? {
      IntakeMovesLate(s, s', s.intake.c, triage, raises);
    } else {
      RaiseOnlyMattersLate(s, triage, raises);
      if s.intake.RegisteringBilling? || s.intake.RegisteringRisk? {
        IntakeMovesRegister(s, s', s.intake.c, triage);
      } else {
        IntakeMovesEarly(s, s', s.intake.c, triage);
      }
    }
  }

  lemma IntakeInv(s: Sys, triage: Triage, raises: bool)
    requires Inv(s) && s.intake != Idle && s.intake.c in s.store.cases
    ensures Inv(IntakeStep'(s, triage, raises))
  {
    IntakeMoves(s, triage, raises);
    IntakeKeeps(s, IntakeStep'(s, triage, raises), s.intake.c);
  }

  // ---------------------------------------------------------------- every step, every run

  lemma StepInv(s: Sys, a: Action)
    requires Inv(s)
    ensures Inv(Step(s, a))
  {
    if Enabled(s, a) {
      match a {
        case Tick(seconds) => TickInv(s, Step(s, a));
        case TakeTicket(c) => TakeTicketInv(s, c);
        case IntakeStep(triage, raises) => IntakeInv(s, triage, raises);
        case DeliverBilling(pid, correlation, p) => DeliverBillingInv(s, pid, correlation, p);
        case DeliverRisk(pid, correlation, p) => DeliverRiskInv(s, pid, correlation, p);
        case DeliverTaskResult(pid, t, completed, normalized) => DeliverTaskResultInv(s, pid, t, completed, normalized);
        case StartSweep(pid, found) => StartSweepInv(s, pid, found);
        case Resume(pid) => ResumeInv(s, pid);
      }
    }
  }

  lemma {:induction false} RunInv(s: Sys, actions: seq<Action>)
    requires Inv(s)
    ensures Inv(Run(s, actions))
    decreases |actions|
  {
    if actions != [] {
      StepInv(s, actions[0]);
      RunInv(Step(s, actions[0]), actions[1..]);
    }
  }

  lemma ReachableInv(s: Sys)
    requires Reachable(s)
    ensures Inv(s)
  {
    var actions :| s == Run(INIT, actions);
    InitInv();
    RunInv(INIT, actions);
  }
}
