/** The reaper's sweep: it ends, and it leaves nothing it listed undecided. */
module ReaperSweep {
  import opened Common
  import opened CaseModels
  import opened DecisionEngine
  import opened PeerVocabulary
  import opened StoreSpec
  import opened Protocol
  import opened ProtocolSafety
  import opened ProtocolFrame
  import opened ProtocolProgress
  import opened ProtocolTheorems

  // ---------------------------------------------------------------- what a sweep covers

  /** What a sweep still has to look at. */
  function Remaining(k: Cont): seq<Uuid> {
    match k
    case Sweep(rest) => rest
    case ClaimForPolicy(c, Reaper(rest)) => [c] + rest
    case EmitPolicy(_, Reaper(rest)) => rest
    case FinishPolicy(_, Reaper(rest)) => rest
    case _ => []
  }

  /** Everything the sweep listed is settled or still ahead of it. */
  ghost predicate Covers(s: Sys, pid: Pid, found: seq<Uuid>) {
    forall c :: c in found
      ==> SettledIn(s, c) || (pid in s.inflight && c in Remaining(s.inflight[pid]) && c in s.store.cases)
  }

  lemma SweepAdvancesList(s: Sys, s': Sys, pid: Pid, rest: seq<Uuid>, c: Uuid)
    requires pid in s.inflight && s.inflight[pid] == Sweep(rest) && Live(s, Sweep(rest)) && s' == Resume'(s, pid)
    requires c in rest && !SettledIn(s, c)
    ensures pid in s'.inflight && c in Remaining(s'.inflight[pid])
  {
    assert rest == [rest[0]] + rest[1..];
  }

  lemma SweepAdvancesClaim(s: Sys, s': Sys, pid: Pid, k: Cont, c: Uuid)
    requires pid in s.inflight && s.inflight[pid] == k && Live(s, k) && s' == Resume'(s, pid)
    requires (k.ClaimForPolicy? || k.EmitPolicy? || k.FinishPolicy?) && k.flow.Reaper?
    requires c in Remaining(k) && !SettledIn(s, c) && c in s.store.cases
    ensures SettledIn(s', c) || (pid in s'.inflight && c in Remaining(s'.inflight[pid]))
  {
    if k.ClaimForPolicy? && c != k.c { assert c in k.flow.rest; }
  }

  /** Resuming the sweep either settles the case at its head, or moves past a settled one. */
  lemma SweepAdvances(s: Sys, pid: Pid, c: Uuid)
    requires Inv(s) && pid in s.inflight && c in Remaining(s.inflight[pid]) && c in s.store.cases && !SettledIn(s, c)
    ensures var s' := Step(s, Resume(pid));
      SettledIn(s', c) || (pid in s'.inflight && c in Remaining(s'.inflight[pid]))
  {
    var k := s.inflight[pid];
    ContLive(s, k, pid);
    if k.Sweep? {
      SweepAdvancesList(s, Resume'(s, pid), pid, k.rest, c);
    } else {
      SweepAdvancesClaim(s, Resume'(s, pid), pid, k, c);
    }
  }

  lemma ContLive(s: Sys, k: Cont, pid: Pid)
    requires ContsOk(s) && pid in s.inflight && s.inflight[pid] == k
    ensures Live(s, k)
  {
    assert ContOk(s, k);
    if k.Sweep? {
      forall i | 0 <= i < |k.rest| ensures k.rest[i] in s.store.cases { assert Overdue(s, k.rest[i]); }
    }
  }

  lemma CoversStep(s: Sys, a: Action, pid: Pid, found: seq<Uuid>)
    requires Inv(s) && Covers(s, pid, found)
    ensures Covers(Step(s, a), pid, found)
  {
    var s' := Step(s, a);
    forall c | c in found
      ensures SettledIn(s', c) || (pid in s'.inflight && c in Remaining(s'.inflight[pid]) && c in s'.store.cases)
    {
      if SettledIn(s, c) {
        SettledStays(s, a, c);
      } else {
        StepClimbs(s, a, c);
        if a == Resume(pid) {
          SweepAdvances(s, pid, c);
        } else {
          StaysInFlight(s, a, pid);
        }
      }
    }
  }

  lemma {:induction false} CoversRun(s: Sys, actions: seq<Action>, pid: Pid, found: seq<Uuid>)
    requires Inv(s) && Covers(s, pid, found)
    ensures Covers(Run(s, actions), pid, found)
    decreases |actions|
  {
    if actions != [] {
      CoversStep(s, actions[0], pid, found);
      StepInv(s, actions[0]);
      CoversRun(Step(s, actions[0]), actions[1..], pid, found);
    }
  }

  lemma CoversStart(s: Sys, pid: Pid, found: seq<Uuid>)
    requires ListsTimedOut(s, found)
    ensures Covers(Spawn(s, pid, Sweep(found)), pid, found)
  {
    forall c | c in found ensures c in s.store.cases {
      var i :| 0 <= i < |found| && found[i] == c;
    }
  }

  /** What the reaper lists: exactly the delegated cases nobody has decided on, with a peer still to answer
      after the deadline. */
  lemma ListedExactly(s: Sys, found: seq<Uuid>, c: Uuid)
    requires Reachable(s) && ListsTimedOut(s, found) && c in s.store.cases
    ensures var r := s.store.cases[c];
      c in found <==>
        && (r.status == WaitingForPeerReviews || r.status == ReadyForDecision)
        && (BillingTask(c) in r.pending || RiskTask(c) in r.pending)
        && r.deadline.Some? && s.clock > r.deadline.value
  {
    ReachableInv(s);
    assert CaseOk(s, c);
    TimedOutExactly(s.store.cases[c], c, s.clock);
    if c in found {
      var i :| 0 <= i < |found| && found[i] == c;
    }
  }

  lemma TimedOutExactly(r: CaseRec, c: Uuid, now: int)
    requires NoTasks(r) || Registered(r, c)
    requires r.status in {Received, Classified} ==> NoTasks(r)
    requires r.status != ResponseDrafted && r.status != Failed
    ensures TimedOut(r, now) <==>
      && (r.status == WaitingForPeerReviews || r.status == ReadyForDecision)
      && (BillingTask(c) in r.pending || RiskTask(c) in r.pending)
      && r.deadline.Some? && now > r.deadline.value
  {
    if r.pending != {} {
      var t :| t in r.pending;
    }
  }

  // ---------------------------------------------------------------- a sweep ends

  predicate InSweep(k: Cont) {
    k.Sweep? || ((k.ClaimForPolicy? || k.EmitPolicy? || k.FinishPolicy?) && k.flow.Reaper?)
  }

  /** How many resumptions a sweep can still take: at most four a case, and one to end. */
  function SweepLeft(k: Cont): nat {
    match k
    case Sweep(rest) => 4 * |rest| + 1
    case ClaimForPolicy(_, Reaper(rest)) => 4 * |rest| + 4
    case EmitPolicy(_, Reaper(rest)) => 4 * |rest| + 3
    case FinishPolicy(_, Reaper(rest)) => 4 * |rest| + 2
    case _ => 0
  }

  lemma SweepShrinks(s: Sys, s': Sys, pid: Pid, k: Cont)
    requires pid in s.inflight && s.inflight[pid] == k && Live(s, k) && InSweep(k) && s' == Resume'(s, pid)
    ensures pid in s'.inflight ==> InSweep(s'.inflight[pid]) && SweepLeft(s'.inflight[pid]) < SweepLeft(k)
  {
  }

  function Resumptions(actions: seq<Action>, pid: Pid): nat {
    if actions == [] then 0 else (if actions[0] == Resume(pid) then 1 else 0) + Resumptions(actions[1..], pid)
  }

  lemma SweepStepLeft(s: Sys, a: Action, pid: Pid)
    requires ContsOk(s) && pid in s.inflight && InSweep(s.inflight[pid])
    ensures var s' := Step(s, a);
      pid in s'.inflight ==>
        && InSweep(s'.inflight[pid])
        && SweepLeft(s'.inflight[pid]) + (if a == Resume(pid) then 1 else 0) <= SweepLeft(s.inflight[pid])
  {
    if a == Resume(pid) {
      ContLive(s, s.inflight[pid], pid);
      SweepShrinks(s, Step(s, a), pid, s.inflight[pid]);
    } else {
      StaysInFlight(s, a, pid);
    }
  }

  /** Resumed often enough, whatever else goes on in between, a sweep comes to its end. */
  lemma {:induction false} SweepEnds(s: Sys, pid: Pid, actions: seq<Action>) returns (n: nat)
    requires Inv(s) && pid in s.inflight && InSweep(s.inflight[pid])
    requires Resumptions(actions, pid) >= SweepLeft(s.inflight[pid])
    ensures n <= |actions| && pid !in Run(s, actions[..n]).inflight
    decreases |actions|
  {
    var a, rest := actions[0], actions[1..];
    var s' := Step(s, a);
    StepInv(s, a);
    var m := 0;
    SweepStepLeft(s, a, pid);
    if pid in s'.inflight {
      m := SweepEnds(s', pid, rest);
    }
    n := m + 1;
    assert actions[..n] == [a] + rest[..m];
    RunHead(s, a, rest[..m]);
  }

  lemma {:induction false} RunSplit(s: Sys, actions: seq<Action>, n: nat)
    requires n <= |actions|
    ensures Run(s, actions) == Run(Run(s, actions[..n]), actions[n..])
    decreases |actions|
  {
    if n == 0 {
      assert actions[n..] == actions;
    } else {
      RunSplit(Step(s, actions[0]), actions[1..], n - 1);
      assert actions[..n] == [actions[0]] + actions[1..][..n - 1];
      RunHead(s, actions[0], actions[1..][..n - 1]);
      assert actions[1..][n - 1..] == actions[n..];
    }
  }

  lemma SettledAtEnd(s: Sys, pid: Pid, found: seq<Uuid>, actions: seq<Action>, c: Uuid)
    requires Inv(s) && Enabled(s, StartSweep(pid, found)) && c in found
    requires pid !in Run(Step(s, StartSweep(pid, found)), actions).inflight
    ensures SettledIn(Run(Step(s, StartSweep(pid, found)), actions), c)
  {
    StepInv(s, StartSweep(pid, found));
    CoversStart(s, pid, found);
    CoversRun(Step(s, StartSweep(pid, found)), actions, pid, found);
  }

  lemma {:induction false} SettledForGood(s: Sys, actions: seq<Action>, c: Uuid)
    requires Inv(s) && SettledIn(s, c)
    ensures SettledIn(Run(s, actions), c)
  {
    RunClimbs(s, actions, c);
  }

  lemma SweepSettlesCovered(s: Sys, pid: Pid, found: seq<Uuid>, actions: seq<Action>, c: Uuid)
    requires Inv(s) && Covers(s, pid, found) && c in found && pid in s.inflight && InSweep(s.inflight[pid])
    requires Resumptions(actions, pid) >= SweepLeft(s.inflight[pid])
    ensures SettledIn(Run(s, actions), c)
  {
    var n := SweepEnds(s, pid, actions);
    CoversRun(s, actions[..n], pid, found);
    RunInv(s, actions[..n]);
    SettledForGood(Run(s, actions[..n]), actions[n..], c);
    RunSplit(s, actions, n);
  }

  lemma SweepStarts(s: Sys, pid: Pid, found: seq<Uuid>, c: Uuid)
    requires Enabled(s, StartSweep(pid, found)) && c in s.store.cases && TimedOut(s.store.cases[c], s.clock)
    ensures Step(s, StartSweep(pid, found)) == Spawn(s, pid, Sweep(found))
    ensures ListsTimedOut(s, found) && c in found
  {
  }

  lemma SweepJustStarted(s: Sys, pid: Pid, found: seq<Uuid>)
    ensures var s1 := Spawn(s, pid, Sweep(found));
      pid in s1.inflight && InSweep(s1.inflight[pid]) && SweepLeft(s1.inflight[pid]) == 4 * |found| + 1
  {
  }

  /** However the other loops interleave with it, a sweep that is resumed 4n + 1 times for a list of n
      cases has settled every case that was timed out when it began, and they stay settled. */
  lemma SweepSettlesTimedOut(s: Sys, pid: Pid, found: seq<Uuid>, actions: seq<Action>, c: Uuid)
    requires Reachable(s) && Enabled(s, StartSweep(pid, found))
    requires c in s.store.cases && TimedOut(s.store.cases[c], s.clock)
    requires Resumptions(actions, pid) >= 4 * |found| + 1
    ensures SettledIn(Run(Step(s, StartSweep(pid, found)), actions), c)
  {
    ReachableInv(s);
    StepInv(s, StartSweep(pid, found));
    SweepStarts(s, pid, found, c);
    CoversStart(s, pid, found);
    SweepJustStarted(s, pid, found);
    SweepSettlesCovered(Spawn(s, pid, Sweep(found)), pid, found, actions, c);
  }

  // ---------------------------------------------------------------- and every case is decided

  /** At rest, a settled case has its decision published. */
  lemma SettledAtRestIsDecided(s: Sys, c: Uuid)
    requires Reachable(s) && Quiescent(s) && SettledIn(s, c)
    ensures Count(s.log, c, AnyKind) >= 1
  {
    ReachableInv(s);
    ReachableProgress(s);
    assert CaseOk(s, c) && Progresses(s, c);
    CountsAddUp(s.log, c);
  }

  lemma ReachableRun(s: Sys, actions: seq<Action>)
    requires Reachable(s)
    ensures Reachable(Run(s, actions))
  {
    var before :| s == Run(INIT, before);
    RunSplit(INIT, before + actions, |before|);
    assert (before + actions)[..|before|] == before && (before + actions)[|before|..] == actions;
  }

  /** A sweep begun at rest after every deadline leaves every case with a published decision, once
      everything that ran meanwhile is at rest again. */
  lemma SweepDecidesEverything(s: Sys, pid: Pid, found: seq<Uuid>, actions: seq<Action>, c: Uuid)
    requires Reachable(s) && Quiescent(s) && Enabled(s, StartSweep(pid, found)) && c in s.store.cases
    requires s.store.cases[c].deadline.Some? ==> s.clock > s.store.cases[c].deadline.value
    requires Quiescent(Run(Step(s, StartSweep(pid, found)), actions))
    ensures Count(Run(Step(s, StartSweep(pid, found)), actions).log, c, AnyKind) >= 1
  {
    var s1 := Step(s, StartSweep(pid, found));
    ReachableInv(s);
    StepInv(s, StartSweep(pid, found));
    if SettledIn(s, c) {
      SettledForGood(s1, actions, c);
    } else {
      QuiescentCases(s, c);
      SettledAtEnd(s, pid, found, actions, c);
    }
    RunHead(s, StartSweep(pid, found), actions);
    ReachableRun(s, [StartSweep(pid, found)] + actions);
    SettledAtRestIsDecided(Run(s1, actions), c);
  }

  function Resumes(pid: Pid, n: nat): seq<Action> { seq(n, i => Resume(pid)) }

  /** Left to itself, the sweep brings the system to rest: no other assumption is needed above. */
  lemma SweepAloneComesToRest(s: Sys, pid: Pid, found: seq<Uuid>)
    requires Reachable(s) && Quiescent(s) && Enabled(s, StartSweep(pid, found))
    ensures Quiescent(Run(Step(s, StartSweep(pid, found)), Resumes(pid, 4 * |found| + 1)))
  {
    ReachableInv(s);
    StepInv(s, StartSweep(pid, found));
    AloneComesToRest(Step(s, StartSweep(pid, found)), pid, 4 * |found| + 1);
  }

  ghost predicate Alone(s: Sys, pid: Pid) { s.intake == Idle && s.inflight.Keys <= {pid} }

  lemma AloneStays(s: Sys, pid: Pid)
    requires Inv(s) && Alone(s, pid)
    ensures Alone(Step(s, Resume(pid)), pid)
  {
  }

  lemma {:induction false} AloneComesToRest(s: Sys, pid: Pid, n: nat)
    requires Inv(s) && Alone(s, pid)
    requires pid in s.inflight ==> InSweep(s.inflight[pid]) && SweepLeft(s.inflight[pid]) <= n
    ensures Quiescent(Run(s, Resumes(pid, n)))
    decreases n
  {
    if n > 0 {
      var s' := Step(s, Resume(pid));
      AloneStays(s, pid);
      StepInv(s, Resume(pid));
      if pid in s.inflight {
        ContLive(s, s.inflight[pid], pid);
        SweepShrinks(s, s', pid, s.inflight[pid]);
      }
      AloneComesToRest(s', pid, n - 1);
      assert Resumes(pid, n) == [Resume(pid)] + Resumes(pid, n - 1);
      RunHead(s, Resume(pid), Resumes(pid, n - 1));
    }
  }
}
