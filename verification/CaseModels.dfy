/** The resolution case, its findings and its status machine
    (apps/agents/customer_resolution/models.py). */
module CaseModels {
  import opened Common

  type Uuid = nat

  datatype Capability = AnalyzeRefundEligibility | AssessFraudRisk

  /** Task ids are uuid5(correlation id, capability id): distinct arguments, distinct ids.
      Any id minted elsewhere is Foreign. */
  datatype TaskId = Uuid5(ns: Uuid, capability: Capability) | Foreign(raw: nat)

  function BillingTask(c: Uuid): TaskId { Uuid5(c, AnalyzeRefundEligibility) }

  function RiskTask(c: Uuid): TaskId { Uuid5(c, AssessFraudRisk) }

  datatype CaseStatus =
    | Received | Classified | WaitingForPeerReviews | ReadyForDecision
    | Decided | ResponseDrafted | Closed | Escalated | Failed

  function AllowedTransitions(from: CaseStatus): set<CaseStatus> {
    match from
    case Received => {Classified, ReadyForDecision, Escalated, Failed}
    case Classified => {WaitingForPeerReviews, Decided, Escalated, Failed}
    case WaitingForPeerReviews => {ReadyForDecision, Escalated, Failed}
    case ReadyForDecision => {Decided, Escalated, Failed}
    case Decided => {ResponseDrafted, Escalated, Failed}
    case ResponseDrafted => {Closed, Escalated}
    case Closed => {}
    case Escalated => {}
    case Failed => {}
  }

  predicate CanTransition(from: CaseStatus, to: CaseStatus) { to in AllowedTransitions(from) }

  /** The table, read by columns: every case that is not over may be escalated, and fail until its response is
      drafted; otherwise the work goes on in order, and a case may become ready before it is classified. */
  lemma TransitionsExactly(from: CaseStatus, to: CaseStatus)
    ensures CanTransition(from, to) <==>
      match to
      case Received => false
      case Classified => from == Received
      case WaitingForPeerReviews => from == Classified
      case ReadyForDecision => from == Received || from == WaitingForPeerReviews
      case Decided => from == Classified || from == ReadyForDecision
      case ResponseDrafted => from == Decided
      case Closed => from == ResponseDrafted
      case Escalated => from !in {Closed, Escalated, Failed}
      case Failed => from !in {ResponseDrafted, Closed, Escalated, Failed}
  {
  }

  predicate IsTerminal(status: CaseStatus) { status.Closed? || status.Escalated? || status.Failed? }

  /** Neither claim_decision nor apply_result acts on a case in such a status. */
  predicate IsSettled(status: CaseStatus) { status == Decided || IsTerminal(status) }

  predicate CanTransitionToReady(status: CaseStatus) {
    status.Received? || status.Classified? || status.WaitingForPeerReviews? || status.ReadyForDecision?
  }

  /** The order in which a case moves through its life. */
  function Rank(status: CaseStatus): (r: nat)
    ensures r <= 6
  {
    match status
    case Received => 0
    case Classified => 1
    case WaitingForPeerReviews => 2
    case ReadyForDecision => 3
    case Decided => 4
    case ResponseDrafted => 5
    case Closed => 6
    case Escalated => 6
    case Failed => 6
  }

  /** A chain of statuses each reached from the one before by a legal transition. */
  ghost predicate IsTransitionChain(chain: seq<CaseStatus>) {
    forall i :: 0 <= i < |chain| - 1 ==> CanTransition(chain[i], chain[i + 1])
  }

  lemma {:induction false} TransitionChainClimbs(chain: seq<CaseStatus>)
    requires |chain| > 0 && IsTransitionChain(chain)
    ensures Rank(chain[|chain| - 1]) >= Rank(chain[0]) + (|chain| - 1)
  {
    if |chain| > 1 {
      var front := chain[..|chain| - 1];
      forall i | 0 <= i < |front| - 1 ensures CanTransition(front[i], front[i + 1]) {
        assert CanTransition(chain[i], chain[i + 1]);
      }
      TransitionChainClimbs(front);
      assert CanTransition(chain[|chain| - 2], chain[|chain| - 1]);
    }
  }

  /** The transition table is acyclic: at most six transition() calls can succeed on one case,
      and no status is ever revisited. */
  lemma TransitionChainsAreShort(chain: seq<CaseStatus>)
    requires |chain| > 0 && IsTransitionChain(chain)
    ensures |chain| - 1 <= 6
    ensures forall i, j :: 0 <= i < j < |chain| ==> chain[i] != chain[j]
  {
    TransitionChainClimbs(chain);
    forall i, j | 0 <= i < j < |chain| ensures chain[i] != chain[j] {
      var part := chain[i..j + 1];
      forall k | 0 <= k < |part| - 1 ensures CanTransition(part[k], part[k + 1]) {
        assert CanTransition(chain[i + k], chain[i + k + 1]);
      }
      TransitionChainClimbs(part);
    }
  }

  /** Six is attained. */
  lemma LongestTransitionChain() returns (chain: seq<CaseStatus>)
    ensures |chain| - 1 == 6 && IsTransitionChain(chain)
  {
    chain := [Received, Classified, WaitingForPeerReviews, ReadyForDecision, Decided, ResponseDrafted, Closed];
  }

  datatype Triage = Triage(needsRefundReview: bool, ambiguous: bool, confidence: real)

  datatype Eligibility = Eligible | Partial | Ineligible | Indeterminate

  datatype BillingFinding = BillingFinding(eligibility: Eligibility, requiresHumanReview: bool,
      confidence: Option<real>) {
    // The source hard-wires this property to False.
    predicate Failed() { false }
  }

  datatype Level = Low | Elevated | High

  datatype RiskFinding = RiskFinding(level: Level, requiresHumanReview: bool, score: Option<real>) {
    // The source hard-wires this property to False.
    predicate Failed() { false }
  }

  datatype Finding = OfBilling(billing: BillingFinding) | OfRisk(risk: RiskFinding)

  datatype TimeoutStatus = TimeoutStatus(billingMissing: bool, riskMissing: bool, deadlineExceeded: bool) {
    predicate AnyMissing() { billingMissing || riskMissing }
  }

  /** The value of a ResolutionCase: every field that drives a verdict. */
  datatype CaseRec = CaseRec(
    correlation: Uuid,
    triage: Option<Triage>,
    billingTask: Option<TaskId>,
    riskTask: Option<TaskId>,
    pending: set<TaskId>,
    billing: Option<BillingFinding>,
    risk: Option<RiskFinding>,
    billingFailed: bool,
    riskFailed: bool,
    status: CaseStatus,
    deadline: Option<int>,
    version: nat) {

    predicate IsReadyToDecide() {
      billingFailed || riskFailed || pending == {}
    }
  }

  function NewCase(correlation: Uuid): CaseRec {
    CaseRec(correlation, None, None, None, {}, None, None, false, false, Received, None, 0)
  }

  function BuildTimeoutStatus(r: CaseRec, now: int): TimeoutStatus {
    TimeoutStatus(
      r.billingTask.Some? && r.billingTask.value in r.pending,
      r.riskTask.Some? && r.riskTask.value in r.pending,
      r.deadline.Some? && now > r.deadline.value)
  }
}
