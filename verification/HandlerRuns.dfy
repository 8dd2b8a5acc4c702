/** How often a handler runs for a task, where the run stands among a delivery's effects, and what the
    delivery is answered with. */
module HandlerRuns {
  import opened Common
  import opened Lru
  import opened Idempotency
  import opened AgentRuntime

  // ---------------------------------------------------------------- how often

  /** How often the handler has run for a task. */
  function RunCount(effects: seq<Effect>, t: Id): nat {
    if effects == [] then 0
    else RunCount(effects[..|effects| - 1], t) + if effects[|effects| - 1] == RunHandler(t) then 1 else 0
  }

  /** A request sent here for a capability offered here. */
  predicate Offered(c: Config, m: Delivered) {
    m.Request? && m.request.target == c.agentId && m.request.capability in c.capabilities
  }

  /** Such a request for this task, with a handler for its capability. */
  predicate Wants(c: Config, m: Delivered, t: Id) {
    Offered(c, m) && m.request.taskId == t && m.request.capability in c.handlers
  }

  /** What the cache still holds of a task: it was added, and fewer than maxsize others came since. */
  predicate Remembered(ops: seq<Op<Id>>, maxsize: nat, t: Id) {
    Add(t) in ops && |OthersSince(Touched(ops, maxsize), t)| < maxsize
  }

  lemma RunCountSnoc(effects: seq<Effect>, e: Effect, t: Id)
    ensures RunCount(effects + [e], t) == RunCount(effects, t) + if e == RunHandler(t) then 1 else 0
  {
    assert (effects + [e])[..|effects|] == effects;
  }

  lemma RunCountPair(a: Effect, b: Effect, t: Id)
    ensures RunCount([a, b], t) == (if a == RunHandler(t) then 1 else 0) + if b == RunHandler(t) then 1 else 0
  {
    RunCountSnoc([], a, t);
    RunCountSnoc([a], b, t);
    assert [] + [a] == [a] && [a] + [b] == [a, b];
  }

  lemma {:induction false} RunCountConcat(a: seq<Effect>, b: seq<Effect>, t: Id)
    ensures RunCount(a + b, t) == RunCount(a, t) + RunCount(b, t)
  {
    if b == [] {
      assert a + b == a;
    } else {
      RunCountConcat(a, b[..|b| - 1], t);
      assert (a + b)[..|a + b| - 1] == a + b[..|b| - 1];
    }
  }

  lemma {:induction false} NoRunNoCount(effects: seq<Effect>, t: Id)
    requires RunHandler(t) !in effects
    ensures RunCount(effects, t) == 0
  {
    if effects != [] {
      NoRunNoCount(effects[..|effects| - 1], t);
    }
  }

  /** Refusing, skipping and answering for want of a handler run nothing. */
  lemma AnswersRunNothing(c: Config, seen: bool, d: Delivery, t: Id)
    requires d.message.Request? && Offered(c, d.message) && !seen ==> d.message.request.capability !in c.handlers
    ensures RunCount(Effects(c, seen, d), t) == 0
  {
    NoRunNoCount(Effects(c, seen, d), t);
  }

  lemma RunsOnce(c: Config, seen: bool, d: Delivery, t: Id)
    ensures RunCount(Effects(c, seen, d), t) == if Wants(c, d.message, t) && !seen then 1 else 0
  {
    if Offered(c, d.message) && !seen && d.message.request.capability in c.handlers {
      var id := d.message.request.taskId;
      var front, pair := [Audit(AuditAccepted, Some(id)), RunHandler(id)], Terminal(id, d.outcome);
      RunCountConcat(front, pair, t);
      RunCountPair(front[0], front[1], t);
      RunCountPair(pair[0], pair[1], t);
      assert pair == [pair[0], pair[1]];
    } else {
      AnswersRunNothing(c, seen, d, t);
    }
  }

  /** One delivery adds at most one run, and adds it exactly when it is wanted and not remembered. */
  lemma OneMoreRunExactly(c: Config, ops: seq<Op<Id>>, maxsize: nat, ds: seq<Delivery>, d: Delivery, t: Id)
    ensures RunCount(RunEffects(c, ops, maxsize, ds + [d]), t) == RunCount(RunEffects(c, ops, maxsize, ds), t)
      + if Wants(c, d.message, t) && !Remembered(RunOps(c, ops, maxsize, ds), maxsize, t) then 1 else 0
  {
    var before := RunOps(c, ops, maxsize, ds);
    assert (ds + [d])[..|ds|] == ds;
    var seen := Seen(before, maxsize, d.message);
    RunsOnce(c, seen, d, t);
    RunCountConcat(RunEffects(c, ops, maxsize, ds), Effects(c, seen, d), t);
    PresentExactly(before, maxsize, t);
  }

  // ---------------------------------------------------------------- how far apart

  /** The other tasks asked for in some deliveries. */
  function OtherTasks(ds: seq<Delivery>, t: Id): set<Id> {
    if ds == [] then {} else OtherTasks(ds[..|ds| - 1], t) + OtherTask(ds[|ds| - 1], t)
  }

  function OtherTask(d: Delivery, t: Id): set<Id> {
    if d.message.Request? && d.message.request.taskId != t then {d.message.request.taskId} else {}
  }

  lemma OthersAfter(ops: seq<Op<Id>>, maxsize: nat, op: Op<Id>, t: Id)
    ensures OthersSince(Touched(ops + [op], maxsize), t)
         <= OthersSince(Touched(ops, maxsize), t) + (if op.key == t then {} else {op.key})
    ensures op == Add(t) ==> OthersSince(Touched(ops + [op], maxsize), t) == {}
  {
    assert (ops + [op])[..|ops|] == ops;
    var log := Touched(ops, maxsize);
    assert (log + [op.key])[..|log|] == log;
  }

  lemma OthersAfterDelivery(c: Config, ops: seq<Op<Id>>, maxsize: nat, d: Delivery, t: Id)
    ensures var ops' := ops + CacheOps(c, Seen(ops, maxsize, d.message), d);
      && OthersSince(Touched(ops', maxsize), t) <= OthersSince(Touched(ops, maxsize), t) + OtherTask(d, t)
      && (Add(t) in ops' <==> Add(t) in ops || (Wants(c, d.message, t) && !Remembered(ops, maxsize, t)))
      && (Wants(c, d.message, t) && !Remembered(ops, maxsize, t) ==> OthersSince(Touched(ops', maxsize), t) == {})
  {
    PresentExactly(ops, maxsize, t);
    if Acceptable(c, d.message) {
      var id := d.message.request.taskId;
      OthersAfter(ops, maxsize, Lookup(id), t);
      OthersAfter(ops + [Lookup(id)], maxsize, Add(id), t);
      assert ops + [Lookup(id)] + [Add(id)] == ops + ([Lookup(id)] + [Add(id)]);
    } else {
      assert ops + [] == ops;
    }
  }

  lemma RunOpsSnoc(c: Config, ops: seq<Op<Id>>, maxsize: nat, ds: seq<Delivery>, d: Delivery)
    ensures var before := RunOps(c, ops, maxsize, ds);
      RunOps(c, ops, maxsize, ds + [d]) == before + CacheOps(c, Seen(before, maxsize, d.message), d)
  {
    assert (ds + [d])[..|ds|] == ds;
  }

  lemma {:induction false} RunsCompose(c: Config, ops: seq<Op<Id>>, maxsize: nat, ds: seq<Delivery>, n: nat)
    requires n <= |ds|
    ensures RunOps(c, ops, maxsize, ds) == RunOps(c, RunOps(c, ops, maxsize, ds[..n]), maxsize, ds[n..])
    decreases |ds|
  {
    if n == |ds| {
      assert ds[..n] == ds;
    } else {
      var front, es := ds[..|ds| - 1], ds[n..];
      RunsCompose(c, ops, maxsize, front, n);
      assert front[..n] == ds[..n] && front[n..] == es[..|es| - 1];
    }
  }

  /** Only what is delivered can displace a task. */
  lemma {:induction false} OthersAreDelivered(c: Config, ops: seq<Op<Id>>, maxsize: nat, ds: seq<Delivery>, t: Id)
    ensures OthersSince(Touched(RunOps(c, ops, maxsize, ds), maxsize), t)
         <= OthersSince(Touched(ops, maxsize), t) + OtherTasks(ds, t)
  {
    if ds != [] {
      var front, d := ds[..|ds| - 1], ds[|ds| - 1];
      OthersAreDelivered(c, ops, maxsize, front, t);
      OthersAfterDelivery(c, RunOps(c, ops, maxsize, front), maxsize, d, t);
    }
  }

  lemma SubsetIsSmaller(a: set<Id>, b: set<Id>)
    requires a <= b
    ensures |a| <= |b|
  {
    assert b == a + (b - a);
  }

  lemma {:induction false} AddStays(c: Config, ops: seq<Op<Id>>, maxsize: nat, ds: seq<Delivery>, t: Id)
    requires Add(t) in ops
    ensures Add(t) in RunOps(c, ops, maxsize, ds)
  {
    if ds != [] {
      AddStays(c, ops, maxsize, ds[..|ds| - 1], t);
    }
  }

  /** After some deliveries, the next one makes the handler run for the task. */
  ghost predicate RunsNext(c: Config, ops: seq<Op<Id>>, maxsize: nat, ds: seq<Delivery>, d: Delivery, t: Id) {
    RunCount(RunEffects(c, ops, maxsize, ds + [d]), t) > RunCount(RunEffects(c, ops, maxsize, ds), t)
  }

  lemma RunsNextExactly(c: Config, ops: seq<Op<Id>>, maxsize: nat, ds: seq<Delivery>, d: Delivery, t: Id)
    ensures RunsNext(c, ops, maxsize, ds, d, t) <==>
      Wants(c, d.message, t) && !Remembered(RunOps(c, ops, maxsize, ds), maxsize, t)
  {
    OneMoreRunExactly(c, ops, maxsize, ds, d, t);
  }

  /** Between two runs of a handler for one task at least maxsize other tasks have been delivered. */
  lemma RunsFarApart(c: Config, ops: seq<Op<Id>>, maxsize: nat, ds: seq<Delivery>, d: Delivery,
                     between: seq<Delivery>, e: Delivery, t: Id)
    requires RunsNext(c, ops, maxsize, ds, d, t) && RunsNext(c, ops, maxsize, ds + [d] + between, e, t)
    ensures |OtherTasks(between, t)| >= maxsize
  {
    RunLeavesTask(c, ops, maxsize, ds, d, t);
    RunsNextExactly(c, ops, maxsize, ds + [d] + between, e, t);
    var all := ds + [d] + between;
    RunsCompose(c, ops, maxsize, all, |ds| + 1);
    assert all[..|ds| + 1] == ds + [d] && all[|ds| + 1..] == between;
    ForgottenByOthers(c, RunOps(c, ops, maxsize, ds + [d]), maxsize, between, t);
  }

  lemma RunLeavesTask(c: Config, ops: seq<Op<Id>>, maxsize: nat, ds: seq<Delivery>, d: Delivery, t: Id)
    requires RunsNext(c, ops, maxsize, ds, d, t)
    ensures var at := RunOps(c, ops, maxsize, ds + [d]);
      Add(t) in at && OthersSince(Touched(at, maxsize), t) == {}
  {
    RunsNextExactly(c, ops, maxsize, ds, d, t);
    RunOpsSnoc(c, ops, maxsize, ds, d);
    OthersAfterDelivery(c, RunOps(c, ops, maxsize, ds), maxsize, d, t);
  }

  lemma ForgottenByOthers(c: Config, at: seq<Op<Id>>, maxsize: nat, between: seq<Delivery>, t: Id)
    requires Add(t) in at && OthersSince(Touched(at, maxsize), t) == {}
    requires !Remembered(RunOps(c, at, maxsize, between), maxsize, t)
    ensures |OtherTasks(between, t)| >= maxsize
  {
    OthersAreDelivered(c, at, maxsize, between, t);
    AddStays(c, at, maxsize, between, t);
    SubsetIsSmaller(OthersSince(Touched(RunOps(c, at, maxsize, between), maxsize), t), OtherTasks(between, t));
  }

  ghost predicate Wanted(c: Config, ds: seq<Delivery>, t: Id) {
    exists i :: 0 <= i < |ds| && Wants(c, ds[i].message, t)
  }

  lemma WantedSnoc(c: Config, ds: seq<Delivery>, d: Delivery, t: Id)
    ensures Wanted(c, ds + [d], t) <==> Wanted(c, ds, t) || Wants(c, d.message, t)
  {
    var all := ds + [d];
    if Wants(c, d.message, t) { assert Wants(c, all[|ds|].message, t); }
    if i :| 0 <= i < |ds| && Wants(c, ds[i].message, t) { assert Wants(c, all[i].message, t); }
  }

  /** Before the handler has run for a task nothing is known of it; afterwards only what has been delivered
      can have displaced it. */
  ghost predicate Tracks(count: nat, wanted: bool, after: seq<Op<Id>>, maxsize: nat, others: set<Id>, t: Id) {
    && count == (if wanted then 1 else 0)
    && (Add(t) in after <==> wanted)
    && (wanted ==> OthersSince(Touched(after, maxsize), t) <= others)
  }

  ghost predicate Tracked(c: Config, ops: seq<Op<Id>>, maxsize: nat, ds: seq<Delivery>, t: Id) {
    Tracks(RunCount(RunEffects(c, ops, maxsize, ds), t), Wanted(c, ds, t), RunOps(c, ops, maxsize, ds), maxsize,
           OtherTasks(ds, t), t)
  }

  lemma TracksOn(c: Config, ops: seq<Op<Id>>, maxsize: nat, others: set<Id>, d: Delivery, t: Id, n: nat, wanted: bool)
    requires Tracks(n, wanted, ops, maxsize, others, t) && |others| < maxsize
    ensures var more := if Wants(c, d.message, t) && !Remembered(ops, maxsize, t) then 1 else 0;
      Tracks(n + more, wanted || Wants(c, d.message, t), ops + CacheOps(c, Seen(ops, maxsize, d.message), d), maxsize,
             others + OtherTask(d, t), t)
  {
    OthersAfterDelivery(c, ops, maxsize, d, t);
    if wanted {
      SubsetIsSmaller(OthersSince(Touched(ops, maxsize), t), others);
    }
  }

  lemma TrackedNext(c: Config, ops: seq<Op<Id>>, maxsize: nat, ds: seq<Delivery>, d: Delivery, t: Id)
    requires Tracked(c, ops, maxsize, ds, t) && |OtherTasks(ds, t)| < maxsize
    ensures Tracked(c, ops, maxsize, ds + [d], t)
  {
    WantedSnoc(c, ds, d, t);
    OneMoreRunExactly(c, ops, maxsize, ds, d, t);
    RunOpsSnoc(c, ops, maxsize, ds, d);
    TracksOn(c, RunOps(c, ops, maxsize, ds), maxsize, OtherTasks(ds, t), d, t,
             RunCount(RunEffects(c, ops, maxsize, ds), t), Wanted(c, ds, t));
    assert (ds + [d])[..|ds|] == ds;
  }

  lemma {:induction false} StaysTracked(c: Config, ops: seq<Op<Id>>, maxsize: nat, ds: seq<Delivery>, t: Id)
    requires Add(t) !in ops && |OtherTasks(ds, t)| < maxsize
    ensures Tracked(c, ops, maxsize, ds, t)
  {
    if ds != [] {
      var front, d := ds[..|ds| - 1], ds[|ds| - 1];
      SubsetIsSmaller(OtherTasks(front, t), OtherTasks(ds, t));
      StaysTracked(c, ops, maxsize, front, t);
      TrackedNext(c, ops, maxsize, front, d, t);
      FrontAndLast(ds);
    }
  }

  lemma FrontAndLast(ds: seq<Delivery>)
    requires ds != []
    ensures ds[..|ds| - 1] + [ds[|ds| - 1]] == ds
  {
  }

  /** Over any run with fewer than maxsize other tasks, however often a task is delivered, its handler
      runs exactly once if it is wanted at all. */
  lemma AtMostOncePerTask(c: Config, ops: seq<Op<Id>>, maxsize: nat, ds: seq<Delivery>, t: Id)
    requires Add(t) !in ops && |OtherTasks(ds, t)| < maxsize
    ensures RunCount(RunEffects(c, ops, maxsize, ds), t) == if Wanted(c, ds, t) then 1 else 0
  {
    StaysTracked(c, ops, maxsize, ds, t);
  }

  // ---------------------------------------------------------------- where

  /** The run stands directly between the accepted audit and the published result of its own task. */
  lemma RunStandsBetween(c: Config, seen: bool, d: Delivery, k: nat, t: Id)
    requires k < |Effects(c, seen, d)| && Effects(c, seen, d)[k] == RunHandler(t)
    ensures var effects := Effects(c, seen, d);
      && effects[..k] == [Audit(AuditAccepted, Some(t))]
      && k + 1 < |effects| && effects[k + 1].Publish? && effects[k + 1].result.taskId == t
  {
  }

  function AuditOf(status: Status): AuditKind {
    match status
    case Completed => AuditCompleted
    case Failed => AuditFailed
    case Rejected => AuditRejected
  }

  /** A published result is directly followed by the audit of its status, and that is the end. */
  lemma AuditFollowsResult(c: Config, seen: bool, d: Delivery, k: nat)
    requires k < |Effects(c, seen, d)| && Effects(c, seen, d)[k].Publish?
    ensures var effects := Effects(c, seen, d);
      && |effects| == k + 2
      && effects[k + 1] == Audit(AuditOf(effects[k].result.status),
                                 if d.message.Request? then Some(effects[k].result.taskId) else None)
  {
  }

  // ---------------------------------------------------------------- with what

  /** What a published result says, both ways: it is completed, with the handler's own output, exactly when
      the handler ran and returned one; and each error has its one reason. */
  lemma AnsweredExactly(c: Config, seen: bool, d: Delivery, r: TaskResult)
    requires r in Published(Effects(c, seen, d))
    ensures r.status == Completed <==>
      Wants(c, d.message, r.taskId) && !seen && d.outcome.Returns? && d.outcome.output.Some?
    ensures r.status == Completed ==> r.output == d.outcome.output
    ensures r.error == Some(HandlerError) <==>
      Wants(c, d.message, r.taskId) && !seen && (d.outcome.Raises? || d.outcome.output.None?)
    ensures r.error == Some(Internal) <==>
      Offered(c, d.message) && !seen && d.message.request.capability !in c.handlers
    ensures r.error == Some(UnsupportedCapability) <==>
      d.message.Request? && d.message.request.target == c.agentId && d.message.request.capability !in c.capabilities
    ensures r.error == Some(Validation) <==>
      d.message.InvalidPayload? || (d.message.Request? && d.message.request.target != c.agentId)
    ensures r.status == Rejected <==> !Offered(c, d.message)
    ensures d.message.InvalidPayload? ==> r.taskId == d.message.named.GetOr(d.minted)
  {
    PublishedExactly(c, seen, d);
  }
}
