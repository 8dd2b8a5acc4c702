/** The in-memory case store (apps/agents/customer_resolution/state_store.py): case objects that the
    store and the handlers share by reference, a primary index and two secondary ones. Each method
    body runs under the store lock without suspending, so it is one atomic step. */
module StateStore {
  import opened Common
  import opened CaseModels
  import opened StoreSpec

  /** A mutable aggregate: its identity is fixed, everything else is written in place. */
  class ResolutionCase {
    const caseId: Uuid
    const correlationId: Uuid
    var triage: Option<Triage>
    var billingTaskId: Option<TaskId>
    var riskTaskId: Option<TaskId>
    var pendingTasks: set<TaskId>
    var billingResult: Option<BillingFinding>
    var riskResult: Option<RiskFinding>
    var billingSlotFailed: bool
    var riskSlotFailed: bool
    var status: CaseStatus
    var deadlineAt: Option<int>
    var version: nat

    constructor (caseId: Uuid, correlationId: Uuid)
      ensures this.caseId == caseId && this.correlationId == correlationId
      ensures Rec() == NewCase(correlationId)
    {
      this.caseId, this.correlationId := caseId, correlationId;
      triage, billingTaskId, riskTaskId, pendingTasks := None, None, None, {};
      billingResult, riskResult := None, None;
      billingSlotFailed, riskSlotFailed := false, false;
      status, deadlineAt, version := Received, None, 0;
    }

    function Rec(): CaseRec
      reads this
    {
      CaseRec(correlationId, triage, billingTaskId, riskTaskId, pendingTasks, billingResult, riskResult,
              billingSlotFailed, riskSlotFailed, status, deadlineAt, version)
    }

    /** case.status = to; case.version += 1 */
    method MoveTo(to: CaseStatus)
      modifies this`status, this`version
      ensures Rec() == old(Rec()).(status := to, version := old(version) + 1)
    {
      status := to;
      version := version + 1;
    }

    /** A finding comes in for a pending task. */
    method Attach(taskId: TaskId, finding: Finding)
      modifies this
      ensures Rec() == AttachTo(old(Rec()), taskId, finding)
    {
      match finding {
        case OfBilling(b) => billingResult := Some(b);
        case OfRisk(k) => riskResult := Some(k);
      }
      pendingTasks := pendingTasks - {taskId};
      version := version + 1;
      if pendingTasks == {} && CanTransitionToReady(status) {
        status := ReadyForDecision;
      }
    }

    /** A task fails: its slot is marked and it is no longer pending. */
    method FailSlot(taskId: TaskId, isBilling: bool)
      modifies this
      ensures Rec() == StoreSpec.FailSlot(old(Rec()), taskId, isBilling)
    {
      if isBilling {
        billingSlotFailed := true;
      } else {
        riskSlotFailed := true;
      }
      pendingTasks := pendingTasks - {taskId};
      version := version + 1;
      if CanTransitionToReady(status) {
        status := ReadyForDecision;
      }
    }
  }

  class InMemoryCaseStateStore {
    var cases: map<Uuid, ResolutionCase>
    var byCorrelation: map<Uuid, Uuid>
    var byTask: map<TaskId, Uuid>

    /** Objects are filed under their own id, so two entries never alias; the secondary indexes
        never dangle. */
    ghost predicate Valid()
      reads this, cases.Values
    {
      && (forall c :: c in cases ==> cases[c].caseId == c)
      && (forall k :: k in byCorrelation ==> byCorrelation[k] in cases)
      && (forall t :: t in byTask ==> byTask[t] in cases)
    }

    ghost function View(): StoreState
      reads this, cases.Values
    {
      StoreState(map c | c in cases :: cases[c].Rec(), byCorrelation, byTask)
    }

    /** Writing one case object in place changes one entry of the view. */
    twostate lemma OneCaseChanged(c: Uuid)
      requires old(Valid()) && cases == old(cases) && c in cases
      requires forall d :: d in cases && d != c ==> unchanged(cases[d])
      ensures View().cases == old(View()).cases[c := cases[c].Rec()]
    {
    }

    /** Filing an object under its own id changes one entry of the view. */
    twostate lemma CaseFiled(new case_: ResolutionCase)
      requires old(Valid())
      requires cases == old(cases)[case_.caseId := case_] && byTask == old(byTask)
      requires byCorrelation == old(byCorrelation)[case_.correlationId := case_.caseId]
      requires forall d :: d in old(cases) && d != case_.caseId ==> old(cases)[d].Rec() == old(cases[d].Rec())
      ensures Valid()
      ensures View().cases == old(View()).cases[case_.caseId := case_.Rec()]
    {
    }

    constructor ()
      ensures Valid() && cases == map[] && View() == StoreState(map[], map[], map[])
    {
      cases, byCorrelation, byTask := map[], map[], map[];
    }

    method GetOrCreate(caseId: Uuid, correlationId: Uuid) returns (case_: ResolutionCase)
      requires Valid()
      modifies this
      ensures Valid()
      ensures var r := StoreSpec.GetOrCreate(old(View()), caseId, correlationId);
              View() == r.0 && r.1 in cases && cases[r.1] == case_
      ensures old(cases.Keys) <= cases.Keys && forall c :: c in old(cases) ==> cases[c] == old(cases[c])
      ensures forall c :: c in cases && c !in old(cases) ==> fresh(cases[c])
    {
      if correlationId in byCorrelation && byCorrelation[correlationId] in cases {
        return cases[byCorrelation[correlationId]];
      }
      if caseId in cases {
        return cases[caseId];
      }
      case_ := new ResolutionCase(caseId, correlationId);
      cases := cases[caseId := case_];
      byCorrelation := byCorrelation[correlationId := caseId];
      CaseFiled(case_);
    }

    method GetByCorrelationId(correlationId: Uuid) returns (case_: Option<ResolutionCase>)
      requires Valid()
      ensures case_.Some? <==> correlationId in byCorrelation
      ensures case_.Some? ==>
          byCorrelation[correlationId] in cases && case_.value == cases[byCorrelation[correlationId]]
    {
      if correlationId in byCorrelation {
        case_ := Some(cases[byCorrelation[correlationId]]);
      } else {
        case_ := None;
      }
    }

    method GetByTaskId(taskId: TaskId) returns (case_: Option<ResolutionCase>)
      requires Valid()
      ensures case_.Some? <==> taskId in byTask
      ensures case_.Some? ==> byTask[taskId] in cases && case_.value == cases[byTask[taskId]]
    {
      if taskId in byTask {
        case_ := Some(cases[byTask[taskId]]);
      } else {
        case_ := None;
      }
    }

    /** A stale expected version changes nothing; otherwise the object is (re)filed and its
        version is one more than that of the entry it replaces. */
    method Save(case_: ResolutionCase, expectedVersion: Option<nat>) returns (saved: bool)
      requires Valid()
      modifies this, case_`version
      ensures Valid()
      ensures var r := StoreSpec.Save(old(View()), case_.caseId, old(case_.Rec()), expectedVersion);
              && (saved <==> r.Some?)
              && View() == (if saved then r.value else old(View()))
      ensures cases == if saved then old(cases)[case_.caseId := case_] else old(cases)
    {
      var c := case_.caseId;
      if c in cases && expectedVersion.Some? && cases[c].version != expectedVersion.value {
        return false;
      }
      ghost var was := case_.Rec();
      case_.version := if c in cases then cases[c].version + 1 else 0;
      cases := cases[c := case_];
      byCorrelation := byCorrelation[case_.correlationId := c];
      CaseFiled(case_);
      assert case_.Rec() == was.(version := case_.version);
      return true;
    }

    method Transition(caseId: Uuid, to: CaseStatus) returns (outcome: TransitionOutcome)
      requires Valid()
      modifies cases.Values
      ensures Valid()
      ensures View() == StoreSpec.Transition(old(View()), caseId, to).0
      ensures outcome == StoreSpec.Transition(old(View()), caseId, to).1
    {
      if caseId !in cases {
        return NoSuchCase;
      }
      var case_ := cases[caseId];
      ghost var was := View();
      assert was.cases[caseId] == case_.Rec();
      if !CanTransition(case_.status, to) {
        assert StoreSpec.Transition(was, caseId, to) == (was, IllegalTransition);
        return IllegalTransition;
      }
      assert StoreSpec.Transition(was, caseId, to) ==
             (WithCase(was, caseId, case_.Rec().(status := to, version := case_.version + 1)), Moved);
      case_.MoveTo(to);
      OneCaseChanged(caseId);
      return Moved;
    }

    /** False is the KeyError of an unknown case. */
    method AddPendingTask(caseId: Uuid, taskId: TaskId) returns (found: bool)
      requires Valid()
      modifies this`byTask, cases.Values
      ensures Valid()
      ensures found <==> caseId in cases
      ensures View() == if found then StoreSpec.AddPendingTask(old(View()), caseId, taskId) else old(View())
    {
      if caseId !in cases {
        return false;
      }
      var case_ := cases[caseId];
      case_.pendingTasks := case_.pendingTasks + {taskId};
      byTask := byTask[taskId := caseId];
      OneCaseChanged(caseId);
      return true;
    }

    method ApplyResult(caseId: Uuid, taskId: TaskId, finding: Finding) returns (outcome: AttachOutcome)
      requires Valid()
      modifies cases.Values
      ensures Valid()
      ensures View() == StoreSpec.ApplyResult(old(View()), caseId, taskId, finding).0
      ensures outcome == StoreSpec.ApplyResult(old(View()), caseId, taskId, finding).1
    {
      if caseId !in cases {
        return UnknownCase;
      }
      var case_ := cases[caseId];
      if IsTerminal(case_.status) || case_.status == Decided {
        return Duplicate;
      }
      if taskId !in case_.pendingTasks {
        return Duplicate;
      }
      case_.Attach(taskId, finding);
      OneCaseChanged(caseId);
      return Attached;
    }

    method ClaimDecision(caseId: Uuid) returns (claimed: bool)
      requires Valid()
      modifies cases.Values
      ensures Valid()
      ensures View() == StoreSpec.ClaimDecision(old(View()), caseId).0
      ensures claimed == StoreSpec.ClaimDecision(old(View()), caseId).1
    {
      if caseId !in cases {
        return false;
      }
      var case_ := cases[caseId];
      if case_.status == Decided || IsTerminal(case_.status) {
        return false;
      }
      case_.MoveTo(Decided);
      OneCaseChanged(caseId);
      return true;
    }

    method MarkSlotFailed(caseId: Uuid, taskId: TaskId, isBilling: bool)
      requires Valid()
      modifies cases.Values
      ensures Valid()
      ensures View() == StoreSpec.MarkSlotFailed(old(View()), caseId, taskId, isBilling)
    {
      if caseId !in cases {
        return;
      }
      var case_ := cases[caseId];
      if IsTerminal(case_.status) {
        return;
      }
      case_.FailSlot(taskId, isBilling);
      OneCaseChanged(caseId);
    }

    method SetDeadline(caseId: Uuid, deadlineAt: int)
      requires Valid()
      modifies cases.Values
      ensures Valid()
      ensures View() == if caseId in old(View()).cases
                        then WithCase(old(View()), caseId, old(View()).cases[caseId].(deadline := Some(deadlineAt)))
                        else old(View())
    {
      if caseId in cases {
        cases[caseId].deadlineAt := Some(deadlineAt);
        OneCaseChanged(caseId);
      }
    }

    /** Exactly the timed-out cases, each once. */
    method ListTimedOutCases(now: int) returns (found: seq<ResolutionCase>)
      requires Valid()
      ensures forall i :: 0 <= i < |found| ==>
                found[i].caseId in cases && cases[found[i].caseId] == found[i] && TimedOut(found[i].Rec(), now)
      ensures forall i, j :: 0 <= i < j < |found| ==> found[i] != found[j]
      ensures forall c :: c in cases && TimedOut(cases[c].Rec(), now) ==> cases[c] in found
    {
      found := [];
      var todo := cases.Keys;
      while todo != {}
        invariant todo <= cases.Keys
        invariant forall i :: 0 <= i < |found| ==>
                    && found[i].caseId in cases && found[i].caseId !in todo
                    && cases[found[i].caseId] == found[i] && TimedOut(found[i].Rec(), now)
        invariant forall i, j :: 0 <= i < j < |found| ==> found[i] != found[j]
        invariant forall c :: c in cases && c !in todo && TimedOut(cases[c].Rec(), now) ==> cases[c] in found
        decreases |todo|
      {
        var c :| c in todo;
        todo := todo - {c};
        if TimedOut(cases[c].Rec(), now) {
          found := found + [cases[c]];
        }
      }
    }
  }
}
