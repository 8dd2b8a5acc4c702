/** What each store operation does to the stored values. The class in StateStore.dfy is proved
    against these functions, and the protocol's steps are built from them. */
module StoreSpec {
  import opened Common
  import opened CaseModels

  datatype StoreState = StoreState(
    cases: map<Uuid, CaseRec>,
    byCorrelation: map<Uuid, Uuid>,
    byTask: map<TaskId, Uuid>)

  datatype AttachOutcome = Attached | UnknownCase | Duplicate

  datatype TransitionOutcome = Moved | NoSuchCase | IllegalTransition

  function GetOrCreate(s: StoreState, caseId: Uuid, correlation: Uuid): (StoreState, Uuid) {
    if correlation in s.byCorrelation && s.byCorrelation[correlation] in s.cases then
      (s, s.byCorrelation[correlation])
    else if caseId in s.cases then
      (s, caseId)
    else
      (s.(cases := s.cases[caseId := NewCase(correlation)],
          byCorrelation := s.byCorrelation[correlation := caseId]), caseId)
  }

  function WithCase(s: StoreState, c: Uuid, r: CaseRec): StoreState {
    s.(cases := s.cases[c := r])
  }

  function AddPendingTask(s: StoreState, c: Uuid, t: TaskId): StoreState
    requires c in s.cases
  {
    var r := s.cases[c];
    WithCase(s, c, r.(pending := r.pending + {t})).(byTask := s.byTask[t := c])
  }

  function WithFinding(r: CaseRec, f: Finding): CaseRec {
    match f
    case OfBilling(b) => r.(billing := Some(b))
    case OfRisk(k) => r.(risk := Some(k))
  }

  function AttachTo(r: CaseRec, t: TaskId, f: Finding): CaseRec {
    var pending := r.pending - {t};
    var status := if pending == {} && CanTransitionToReady(r.status) then ReadyForDecision else r.status;
    WithFinding(r, f).(pending := pending, status := status, version := r.version + 1)
  }

  predicate Attachable(r: CaseRec, t: TaskId) { !IsSettled(r.status) && t in r.pending }

  function ApplyResult(s: StoreState, c: Uuid, t: TaskId, f: Finding): (StoreState, AttachOutcome) {
    if c !in s.cases then (s, UnknownCase)
    else if !Attachable(s.cases[c], t) then (s, Duplicate)
    else (WithCase(s, c, AttachTo(s.cases[c], t, f)), Attached)
  }

  function ClaimDecision(s: StoreState, c: Uuid): (StoreState, bool) {
    if c !in s.cases || IsSettled(s.cases[c].status) then (s, false)
    else
      var r := s.cases[c];
      (WithCase(s, c, r.(status := Decided, version := r.version + 1)), true)
  }

  function FailSlot(r: CaseRec, t: TaskId, isBilling: bool): CaseRec {
    var status := if CanTransitionToReady(r.status) then ReadyForDecision else r.status;
    (if isBilling then r.(billingFailed := true) else r.(riskFailed := true))
      .(pending := r.pending - {t}, status := status, version := r.version + 1)
  }

  function MarkSlotFailed(s: StoreState, c: Uuid, t: TaskId, isBilling: bool): StoreState {
    if c !in s.cases || IsTerminal(s.cases[c].status) then s
    else WithCase(s, c, FailSlot(s.cases[c], t, isBilling))
  }

  /** save() of a case whose value is r: None is the stale-version conflict. */
  function Save(s: StoreState, c: Uuid, r: CaseRec, expected: Option<nat>): Option<StoreState> {
    if c in s.cases && expected.Some? && s.cases[c].version != expected.value then None
    else
      var version := if c in s.cases then s.cases[c].version + 1 else 0;
      Some(WithCase(s, c, r.(version := version)).(byCorrelation := s.byCorrelation[r.correlation := c]))
  }

  /** Writing the shared object before saving it comes to the same as saving the new value. */
  lemma SaveAfterWrite(s: StoreState, c: Uuid, r: CaseRec)
    requires c in s.cases && s.cases[c].version == r.version
    ensures Save(WithCase(s, c, r), c, r, None) == Save(s, c, r, None)
  {
    assert s.cases[c := r][c := r.(version := r.version + 1)] == s.cases[c := r.(version := r.version + 1)];
  }

  function Transition(s: StoreState, c: Uuid, to: CaseStatus): (StoreState, TransitionOutcome) {
    if c !in s.cases then (s, NoSuchCase)
    else if !CanTransition(s.cases[c].status, to) then (s, IllegalTransition)
    else
      var r := s.cases[c];
      (WithCase(s, c, r.(status := to, version := r.version + 1)), Moved)
  }

  predicate TimedOut(r: CaseRec, now: int) {
    && !IsSettled(r.status)
    && r.deadline.Some? && now > r.deadline.value
    && r.pending != {}
  }

  /** The operations the handlers run on the store, other than saving a case they hold. */
  datatype StoreOp =
    | Create(caseId: Uuid, correlation: Uuid)
    | Register(caseId: Uuid, task: TaskId)
    | Attach(caseId: Uuid, task: TaskId, finding: Finding)
    | MarkFailed(caseId: Uuid, task: TaskId, isBilling: bool)
    | Claim(caseId: Uuid)

  function Perform(s: StoreState, op: StoreOp): StoreState {
    match op
    case Create(c, correlation) => GetOrCreate(s, c, correlation).0
    case Register(c, t) => if c in s.cases then AddPendingTask(s, c, t) else s
    case Attach(c, t, f) => ApplyResult(s, c, t, f).0
    case MarkFailed(c, t, isBilling) => MarkSlotFailed(s, c, t, isBilling)
    case Claim(c) => ClaimDecision(s, c).0
  }

  function PerformAll(s: StoreState, ops: seq<StoreOp>): StoreState
    decreases |ops|
  {
    if ops == [] then s else PerformAll(Perform(s, ops[0]), ops[1..])
  }

  lemma {:induction false} SettledThroughout(s: StoreState, ops: seq<StoreOp>, c: Uuid)
    requires c in s.cases && IsSettled(s.cases[c].status)
    ensures c in PerformAll(s, ops).cases && IsSettled(PerformAll(s, ops).cases[c].status)
    decreases |ops|
  {
    if ops != [] {
      SettledThroughout(Perform(s, ops[0]), ops[1..], c);
    }
  }

  /** claim_decision succeeds once: whatever the handlers create, register, attach, fail or claim in
      between, a settled case is never handed to a second claimant and never takes a result. */
  lemma ClaimSucceedsOnce(s: StoreState, c: Uuid, ops: seq<StoreOp>, t: TaskId, f: Finding)
    requires c in s.cases
    ensures ClaimDecision(s, c).1 <==> !IsSettled(s.cases[c].status)
    ensures var s' := PerformAll(ClaimDecision(s, c).0, ops);
      && c in s'.cases && IsSettled(s'.cases[c].status)
      && !ClaimDecision(s', c).1 && ApplyResult(s', c, t, f) == (s', Duplicate)
  {
    SettledThroughout(ClaimDecision(s, c).0, ops, c);
  }

  /** One finding per task: after a task is attached or failed, a redelivery finds nothing pending. */
  lemma ResultAppliesOnce(s: StoreState, c: Uuid, t: TaskId, f: Finding, g: Finding, b: bool)
    ensures ApplyResult(ApplyResult(s, c, t, f).0, c, t, g).1 != Attached
    ensures c in s.cases && IsTerminal(s.cases[c].status) ==> MarkSlotFailed(s, c, t, b) == s
    ensures ApplyResult(MarkSlotFailed(s, c, t, b), c, t, g).1 != Attached
  {
  }

  /** Saves that carry the version they were read at do not overwrite each other: of two such saves the
      second fails, whatever it would have written, until it is redone on the new version. */
  lemma LostUpdatePrevented(s: StoreState, c: Uuid, r: CaseRec, late: CaseRec)
    requires c in s.cases
    ensures var read := s.cases[c].version;
      && Save(s, c, r, Some(read)).Some?
      && var s' := Save(s, c, r, Some(read)).value;
      && c in s'.cases && s'.cases[c] == r.(version := read + 1)
      && Save(s', c, late, Some(read)) == None
      && Save(s', c, late, Some(read + 1)).Some?
  {
  }

  /** A case is created once: asked for again by the same correlation, it is found as it was left. */
  lemma CreatedOnce(s: StoreState, a: Uuid, b: Uuid, correlation: Uuid)
    requires forall k :: k in s.byCorrelation ==> s.byCorrelation[k] in s.cases
    ensures var (s', id) := GetOrCreate(s, a, correlation);
      && id in s'.cases
      && (correlation in s'.byCorrelation ==> GetOrCreate(s', b, correlation) == (s', id))
      && (a !in s.cases ==> correlation in s'.byCorrelation)
  {
  }

  /** A saved case is found under its id and its correlation, as it was saved. */
  lemma SavedIsFound(s: StoreState, c: Uuid, r: CaseRec, expected: Option<nat>)
    requires Save(s, c, r, expected).Some?
    ensures var s' := Save(s, c, r, expected).value;
      && c in s'.cases && s'.cases[c] == r.(version := s'.cases[c].version)
      && r.correlation in s'.byCorrelation && s'.byCorrelation[r.correlation] == c
      && s'.cases[c].version == if c in s.cases then s.cases[c].version + 1 else 0
  {
  }

  /** A failed task is waited for no longer, unless the case is over; then nothing changes. Every other task
      is waited for as before. */
  lemma FailureReleasesTask(s: StoreState, c: Uuid, t: TaskId, isBilling: bool, u: TaskId)
    requires c in s.cases
    ensures var s' := MarkSlotFailed(s, c, t, isBilling);
      && c in s'.cases
      && (s.cases[c].status in {Closed, Escalated, Failed} ==> s' == s)
      && (s.cases[c].status !in {Closed, Escalated, Failed} ==>
            (u in s'.cases[c].pending <==> u in s.cases[c].pending && u != t))
  {
  }

  // ---------------------------------------------------------------- runs of transition()

  /** How many of some transitions of one case succeed, one after the other. */
  function Moves(s: StoreState, c: Uuid, tos: seq<CaseStatus>): nat
    decreases |tos|
  {
    if tos == [] then 0
    else
      var (s', outcome) := Transition(s, c, tos[0]);
      (if outcome == Moved then 1 else 0) + Moves(s', c, tos[1..])
  }

  function AfterMoves(s: StoreState, c: Uuid, tos: seq<CaseStatus>): StoreState
    decreases |tos|
  {
    if tos == [] then s else AfterMoves(Transition(s, c, tos[0]).0, c, tos[1..])
  }

  /** A transition that succeeds leaves the case in the status asked for, everything else but the version as it
      was, and cannot be repeated; one that does not changes nothing. */
  lemma TransitionHappensOnce(s: StoreState, c: Uuid, to: CaseStatus)
    ensures var (s', outcome) := Transition(s, c, to);
      && (outcome == Moved ==>
            && c in s'.cases && s'.cases[c].status == to && Transition(s', c, to) == (s', IllegalTransition)
            && WithCase(s', c, s.cases[c]) == s)
      && (outcome != Moved ==> s' == s)
  {
    if c in s.cases {
      TransitionsExactly(to, to);
      assert s.cases[c := s.cases[c]] == s.cases;
    }
  }

  /** However often transition() is called on a case, at most six calls succeed, and its version counts them. */
  lemma {:induction false} MovesAtMostSix(s: StoreState, c: Uuid, tos: seq<CaseStatus>)
    requires c in s.cases
    ensures Moves(s, c, tos) <= 6 - Rank(s.cases[c].status)
    ensures var s' := AfterMoves(s, c, tos);
      c in s'.cases && s'.cases[c].version == s.cases[c].version + Moves(s, c, tos)
    decreases |tos|
  {
    if tos != [] {
      var s1 := Transition(s, c, tos[0]).0;
      TransitionsExactly(s.cases[c].status, tos[0]);
      MovesAtMostSix(s1, c, tos[1..]);
    }
  }
}
