/** The task lifecycle of an agent (src/agent_foundation/runtime/runtime.py, _handle_message, with the
    payloads of src/agent_foundation/payloads/task.py). */
module AgentRuntime {
  import opened Common
  import opened Lru
  import opened Compaction
  import opened Idempotency

  // ---------------------------------------------------------------- payloads

  datatype TaskRequest = TaskRequest(taskId: Id, capability: string, target: string)

  datatype Status = Completed | Failed | Rejected
  datatype Category = Validation | UnsupportedCapability | HandlerError | Duplicate | Internal
  type Message = string
  datatype TaskResult = TaskResult(taskId: Id, status: Status, output: Option<Message>, error: Option<Category>) {
    /** validate_status_fields. */
    predicate Valid() {
      match status
      case Completed => output.Some? && error.None?
      case Failed => error.Some? && output.None? && error.value in {HandlerError, Internal}
      case Rejected => error.Some? && output.None? && error.value in {Validation, UnsupportedCapability, Duplicate}
    }
  }

  /** Building a result raises when the validator refuses it. */
  function BuildResult(taskId: Id, status: Status, output: Option<Message>,
      error: Option<Category>): Option<TaskResult>
  {
    var r := TaskResult(taskId, status, output, error);
    if r.Valid() then Some(r) else None
  }

  /** What a message turns out to be. A payload that does not validate may still name a task. */
  datatype Delivered = InvalidEnvelope | InvalidPayload(named: Option<Id>) | Request(request: TaskRequest)

  datatype HandlerOutcome = Returns(output: Option<Message>) | Raises

  /** One message, with what the world does while it is handled: the handler's outcome, whether the
      processed id reaches the topic, and the id uuid4 would mint. */
  datatype Delivery = Delivery(message: Delivered, outcome: HandlerOutcome, persisted: bool, minted: Id)

  datatype AuditKind = AuditRejected | AuditDuplicateSkipped | AuditAccepted | AuditCompleted | AuditFailed

  datatype Effect = Publish(result: TaskResult) | Audit(kind: AuditKind, audited: Option<Id>) | RunHandler(taskId: Id)

  datatype Config = Config(agentId: string, capabilities: set<string>, handlers: set<string>)

  // ---------------------------------------------------------------- one delivery, as a specification

  predicate Acceptable(c: Config, m: Delivered) {
    m.Request? && m.request.target == c.agentId && m.request.capability in c.capabilities
  }

  function Reject(taskId: Id, audited: Option<Id>, category: Category): seq<Effect> {
    [Publish(TaskResult(taskId, Rejected, None, Some(category))), Audit(AuditRejected, audited)]
  }

  function Terminal(taskId: Id, o: HandlerOutcome): seq<Effect> {
    if o.Returns? && o.output.Some? then
      [Publish(TaskResult(taskId, Completed, o.output, None)), Audit(AuditCompleted, Some(taskId))]
    else
      [Publish(TaskResult(taskId, Failed, None, Some(HandlerError))), Audit(AuditFailed, Some(taskId))]
  }

  function Effects(c: Config, seen: bool, d: Delivery): seq<Effect> {
    match d.message
    case InvalidEnvelope => []
    case InvalidPayload(named) => Reject(named.GetOr(d.minted), None, Validation)
    case Request(r) =>
      if r.target != c.agentId then Reject(r.taskId, Some(r.taskId), Validation)
      else if r.capability !in c.capabilities then Reject(r.taskId, Some(r.taskId), UnsupportedCapability)
      else if seen then [Audit(AuditDuplicateSkipped, Some(r.taskId))]
      else if r.capability !in c.handlers then
        [Audit(AuditAccepted, Some(r.taskId)),
         Publish(TaskResult(r.taskId, Failed, None, Some(Internal))), Audit(AuditFailed, Some(r.taskId))]
      else [Audit(AuditAccepted, Some(r.taskId)), RunHandler(r.taskId)] + Terminal(r.taskId, d.outcome)
  }

  /** What the delivery does to the cache: a lookup, and an add once the handler has run. */
  function CacheOps(c: Config, seen: bool, d: Delivery): seq<Op<Id>> {
    if !Acceptable(c, d.message) then []
    else
      var id := d.message.request.taskId;
      [Lookup(id)] + (if !seen && d.message.request.capability in c.handlers then [Add(id)] else [])
  }

  predicate Seen(ops: seq<Op<Id>>, maxsize: nat, m: Delivered) {
    m.Request? && m.request.taskId in Replay(ops, maxsize)
  }

  // ---------------------------------------------------------------- whole runs

  ghost function RunOps(c: Config, ops: seq<Op<Id>>, maxsize: nat, ds: seq<Delivery>): seq<Op<Id>> {
    if ds == [] then ops
    else
      var before := RunOps(c, ops, maxsize, ds[..|ds| - 1]);
      var d := ds[|ds| - 1];
      before + CacheOps(c, Seen(before, maxsize, d.message), d)
  }

  ghost function RunEffects(c: Config, ops: seq<Op<Id>>, maxsize: nat, ds: seq<Delivery>): seq<Effect> {
    if ds == [] then []
    else
      var before := RunOps(c, ops, maxsize, ds[..|ds| - 1]);
      var d := ds[|ds| - 1];
      RunEffects(c, ops, maxsize, ds[..|ds| - 1]) + Effects(c, Seen(before, maxsize, d.message), d)
  }

  lemma RunSnoc(c: Config, ops: seq<Op<Id>>, maxsize: nat, ds: seq<Delivery>, i: nat, base: seq<Effect>)
    requires i < |ds|
    ensures var before := RunOps(c, ops, maxsize, ds[..i]);
      var seen := Seen(before, maxsize, ds[i].message);
      && RunOps(c, ops, maxsize, ds[..i + 1]) == before + CacheOps(c, seen, ds[i])
      && base + RunEffects(c, ops, maxsize, ds[..i + 1])
           == base + RunEffects(c, ops, maxsize, ds[..i]) + Effects(c, seen, ds[i])
  {
    assert ds[..i + 1][..i] == ds[..i];
  }

  // ---------------------------------------------------------------- the runtime

  class Runtime {
    const config: Config
    const tracker: IdempotencyTracker
    var effects: seq<Effect>

    /** The state serve() loops in: the tracker has been initialised. */
    ghost predicate Valid()
      reads this, tracker, tracker.lru
    {
      tracker.Valid() && tracker.initialized
    }

    constructor (config: Config, topic: seq<ProcessedRecord>, maxsize: nat, readable: nat)
      requires readable <= |topic|
      ensures Valid() && fresh(tracker) && fresh(tracker.lru)
      ensures this.config == config && tracker.lru.maxsize == maxsize && effects == []
      ensures tracker.ops == Adds(Parsed(topic[..readable]))
    {
      this.config := config;
      var t := new IdempotencyTracker(topic, maxsize);
      t.Initialize(readable);
      tracker := t;
      effects := [];
    }

    method Emit(e: Effect)
      modifies this`effects
      ensures effects == old(effects) + [e]
    {
      effects := effects + [e];
    }

    /** Publish a result the validator accepts, then audit it. */
    method Conclude(r: TaskResult, kind: AuditKind, audited: Option<Id>)
      requires r.Valid()
      modifies this`effects
      ensures effects == old(effects) + [Publish(r), Audit(kind, audited)]
    {
      Emit(Publish(r));
      Emit(Audit(kind, audited));
    }

    /** The handler's try block: an exception raised by the handler or by building the result of a
        handler that returned nothing ends in a failed result. */
    method RunTask(r: TaskRequest, outcome: HandlerOutcome)
      modifies this`effects
      ensures effects == old(effects) + ([RunHandler(r.taskId)] + Terminal(r.taskId, outcome))
    {
      Emit(RunHandler(r.taskId));
      var result := None;
      if outcome.Returns? {
        result := BuildResult(r.taskId, Completed, outcome.output, None);
      }
      if result.Some? {
        Conclude(result.value, AuditCompleted, Some(r.taskId));
      } else {
        Conclude(TaskResult(r.taskId, Failed, None, Some(HandlerError)), AuditFailed, Some(r.taskId));
      }
    }

    method Accept(r: TaskRequest, d: Delivery)
      requires Valid() && d.message == Request(r) && Acceptable(config, d.message)
      modifies this, tracker, tracker.lru
      ensures Valid()
      ensures var seen := Seen(old(tracker.ops), tracker.lru.maxsize, d.message);
        effects == old(effects) + Effects(config, seen, d)
          && tracker.ops == old(tracker.ops) + CacheOps(config, seen, d)
    {
      var seen := tracker.IsDuplicate(r.taskId, 0);
      if seen {
        Emit(Audit(AuditDuplicateSkipped, Some(r.taskId)));
      } else {
        AcceptNew(r, d);
      }
    }

    method AcceptNew(r: TaskRequest, d: Delivery)
      requires Valid() && d.message == Request(r) && Acceptable(config, d.message)
      modifies this, tracker, tracker.lru
      ensures Valid()
      ensures effects == old(effects) + Effects(config, false, d)
      ensures tracker.ops == old(tracker.ops) + if r.capability in config.handlers then [Add(r.taskId)] else []
    {
      Emit(Audit(AuditAccepted, Some(r.taskId)));
      if r.capability !in config.handlers {
        Conclude(TaskResult(r.taskId, Failed, None, Some(Internal)), AuditFailed, Some(r.taskId));
      } else {
        RunTask(r, d.outcome);
        tracker.MarkProcessed(r.taskId, d.persisted);
      }
    }

    /** The serve loop over the messages that arrive before it is stopped. */
    method Serve(ds: seq<Delivery>)
      requires Valid()
      modifies this, tracker, tracker.lru
      ensures Valid()
      ensures tracker.ops == RunOps(config, old(tracker.ops), tracker.lru.maxsize, ds)
      ensures effects == old(effects) + RunEffects(config, old(tracker.ops), tracker.lru.maxsize, ds)
    {
      for i := 0 to |ds|
        invariant Valid()
        invariant tracker.ops == RunOps(config, old(tracker.ops), tracker.lru.maxsize, ds[..i])
        invariant effects == old(effects) + RunEffects(config, old(tracker.ops), tracker.lru.maxsize, ds[..i])
      {
        RunSnoc(config, old(tracker.ops), tracker.lru.maxsize, ds, i, old(effects));
        HandleMessage(ds[i]);
      }
      assert ds[..|ds|] == ds;
    }

    method HandleMessage(d: Delivery)
      requires Valid()
      modifies this, tracker, tracker.lru
      ensures Valid()
      ensures var seen := Seen(old(tracker.ops), tracker.lru.maxsize, d.message);
        effects == old(effects) + Effects(config, seen, d)
          && tracker.ops == old(tracker.ops) + CacheOps(config, seen, d)
    {
      match d.message
      case InvalidEnvelope =>
      case InvalidPayload(named) =>
        Conclude(TaskResult(named.GetOr(d.minted), Rejected, None, Some(Validation)), AuditRejected, None);
      case Request(r) =>
        if r.target != config.agentId {
          Conclude(TaskResult(r.taskId, Rejected, None, Some(Validation)), AuditRejected, Some(r.taskId));
        } else if r.capability !in config.capabilities {
          Conclude(TaskResult(r.taskId, Rejected, None, Some(UnsupportedCapability)), AuditRejected, Some(r.taskId));
        } else {
          Accept(r, d);
        }
    }
  }

  // ---------------------------------------------------------------- at most once while remembered

  /** A handler that has run has left its task id in the cache's history. */
  lemma {:induction false} RanMeansAdded(c: Config, ops: seq<Op<Id>>, maxsize: nat, ds: seq<Delivery>, t: Id)
    requires RunHandler(t) in RunEffects(c, ops, maxsize, ds)
    ensures Add(t) in RunOps(c, ops, maxsize, ds)
  {
    var front, d := ds[..|ds| - 1], ds[|ds| - 1];
    var before := RunOps(c, ops, maxsize, front);
    if RunHandler(t) in RunEffects(c, ops, maxsize, front) {
      RanMeansAdded(c, ops, maxsize, front, t);
    } else {
      var seen := Seen(before, maxsize, d.message);
      assert RunHandler(t) in Effects(c, seen, d);
      RunMeansAdded(c, seen, d, t);
    }
  }

  lemma RunMeansAdded(c: Config, seen: bool, d: Delivery, t: Id)
    requires RunHandler(t) in Effects(c, seen, d)
    ensures Add(t) in CacheOps(c, seen, d)
  {
  }

  /** A task whose handler has run is run again exactly when at least maxsize distinct other tasks have
      been touched since it last was, whether or not any processed id ever reached the topic. */
  lemma RunsAgainExactly(c: Config, ops: seq<Op<Id>>, maxsize: nat, ds: seq<Delivery>, d: Delivery, t: Id)
    requires RunHandler(t) in RunEffects(c, ops, maxsize, ds)
    requires Acceptable(c, d.message) && d.message.request.capability in c.handlers && d.message.request.taskId == t
    ensures var after := RunOps(c, ops, maxsize, ds);
      RunHandler(t) in Effects(c, Seen(after, maxsize, d.message), d) <==>
        |OthersSince(Touched(after, maxsize), t)| >= maxsize
  {
    RanMeansAdded(c, ops, maxsize, ds, t);
    PresentExactly(RunOps(c, ops, maxsize, ds), maxsize, t);
  }

  /** An acceptable delivery is skipped exactly when its id was marked processed and fewer than maxsize
      distinct others have been touched since; whether its capability has a handler plays no part. */
  lemma SkippedExactly(c: Config, ops: seq<Op<Id>>, maxsize: nat, ds: seq<Delivery>, d: Delivery)
    requires Acceptable(c, d.message)
    ensures var after, id := RunOps(c, ops, maxsize, ds), d.message.request.taskId;
      Effects(c, Seen(after, maxsize, d.message), d) == [Audit(AuditDuplicateSkipped, Some(id))] <==>
        Add(id) in after && |OthersSince(Touched(after, maxsize), id)| < maxsize
  {
    PresentExactly(RunOps(c, ops, maxsize, ds), maxsize, d.message.request.taskId);
  }

  /** A task without a handler is never marked, so a second delivery of it is answered again. */
  lemma UnhandledAnsweredTwice(c: Config, maxsize: nat, d: Delivery, e: Delivery)
    requires Acceptable(c, d.message) && d.message.request.capability !in c.handlers && e.message == d.message
    ensures Published(RunEffects(c, [], maxsize, [d, e])) == [ResultOf(c, false, d).value, ResultOf(c, false, e).value]
  {
    assert [d, e][..1] == [d];
    UnhandledOnce(c, maxsize, d);
    PublishedExactly(c, false, d);
    PublishedExactly(c, false, e);
    PublishedConcat(Effects(c, false, d), Effects(c, false, e));
  }

  lemma UnhandledOnce(c: Config, maxsize: nat, d: Delivery)
    requires Acceptable(c, d.message) && d.message.request.capability !in c.handlers
    ensures RunEffects(c, [], maxsize, [d]) == Effects(c, false, d)
    ensures !Seen(RunOps(c, [], maxsize, [d]), maxsize, d.message)
  {
    var ops := [Lookup(d.message.request.taskId)];
    assert [d][..0] == [] && ops[..0] == [];
    assert RunOps(c, [], maxsize, [d]) == ops;
    assert Replay(ops, maxsize) == [];
  }

  lemma {:induction false} PublishedConcat(a: seq<Effect>, b: seq<Effect>)
    ensures Published(a + b) == Published(a) + Published(b)
  {
    if a == [] {
      assert a + b == b;
    } else {
      PublishedConcat(a[1..], b);
      PublishedFront(a[0], a[1..] + b);
      assert a + b == [a[0]] + (a[1..] + b);
    }
  }

  // ---------------------------------------------------------------- what a delivery emits

  /** The results among some effects. */
  function Published(effects: seq<Effect>): seq<TaskResult> {
    if effects == [] then []
    else (if effects[0].Publish? then [effects[0].result] else []) + Published(effects[1..])
  }

  datatype Course = Nothing | RejectedOnce | Skipped | AcceptedOnce

  /** The course a delivery takes, read off its effects. */
  ghost predicate Takes(effects: seq<Effect>, course: Course) {
    match course
    case Nothing => effects == []
    case RejectedOnce => |Published(effects)| == 1 && Published(effects)[0].status == Rejected
                         && forall a :: Audit(AuditAccepted, a) !in effects
    case Skipped => Published(effects) == [] && exists a :: effects == [Audit(AuditDuplicateSkipped, a)]
    case AcceptedOnce => |Published(effects)| == 1 && Published(effects)[0].status != Rejected
                         && effects[0].Audit? && effects[0].kind == AuditAccepted
  }

  function CourseOf(c: Config, seen: bool, m: Delivered): Course {
    if m.InvalidEnvelope? then Nothing
    else if !Acceptable(c, m) then RejectedOnce
    else if seen then Skipped
    else AcceptedOnce
  }

  lemma PublishedFront(a: Effect, rest: seq<Effect>)
    ensures Published([a] + rest) == (if a.Publish? then [a.result] else []) + Published(rest)
  {
    assert ([a] + rest)[1..] == rest;
  }

  /** The one result of a delivery, if it has one. */
  function ResultOf(c: Config, seen: bool, d: Delivery): Option<TaskResult> {
    match d.message
    case InvalidEnvelope => None
    case InvalidPayload(named) => Some(TaskResult(named.GetOr(d.minted), Rejected, None, Some(Validation)))
    case Request(r) =>
      if r.target != c.agentId then Some(TaskResult(r.taskId, Rejected, None, Some(Validation)))
      else if r.capability !in c.capabilities then
        Some(TaskResult(r.taskId, Rejected, None, Some(UnsupportedCapability)))
      else if seen then None
      else if r.capability !in c.handlers then Some(TaskResult(r.taskId, Failed, None, Some(Internal)))
      else if d.outcome.Returns? && d.outcome.output.Some? then
        Some(TaskResult(r.taskId, Completed, d.outcome.output, None))
      else Some(TaskResult(r.taskId, Failed, None, Some(HandlerError)))
  }

  lemma PublishedPair(r: TaskResult, kind: AuditKind, audited: Option<Id>)
    ensures Published([Publish(r), Audit(kind, audited)]) == [r]
  {
    PublishedFront(Audit(kind, audited), []);
    PublishedFront(Publish(r), [Audit(kind, audited)]);
    assert [Audit(kind, audited)] + [] == [Audit(kind, audited)];
    assert [Publish(r)] + [Audit(kind, audited)] == [Publish(r), Audit(kind, audited)];
  }

  lemma PublishedExactly(c: Config, seen: bool, d: Delivery)
    ensures Published(Effects(c, seen, d)) == if ResultOf(c, seen, d).Some? then [ResultOf(c, seen, d).value] else []
  {
    match d.message
    case InvalidEnvelope =>
    case InvalidPayload(named) =>
      PublishedPair(ResultOf(c, seen, d).value, AuditRejected, None);
    case Request(r) =>
      var id := Some(r.taskId);
      if !Acceptable(c, d.message) {
        PublishedPair(ResultOf(c, seen, d).value, AuditRejected, id);
      } else if seen {
        PublishedFront(Audit(AuditDuplicateSkipped, id), []);
      } else if r.capability !in c.handlers {
        var pair := [Publish(ResultOf(c, seen, d).value), Audit(AuditFailed, id)];
        PublishedPair(ResultOf(c, seen, d).value, AuditFailed, id);
        PublishedFront(Audit(AuditAccepted, id), pair);
        assert Effects(c, seen, d) == [Audit(AuditAccepted, id)] + pair;
      } else {
        var pair := Terminal(r.taskId, d.outcome);
        PublishedPair(ResultOf(c, seen, d).value, pair[1].kind, id);
        PublishedFront(RunHandler(r.taskId), pair);
        PublishedFront(Audit(AuditAccepted, id), [RunHandler(r.taskId)] + pair);
        assert Effects(c, seen, d) == [Audit(AuditAccepted, id)] + ([RunHandler(r.taskId)] + pair);
      }
  }

  /** Each delivery takes exactly one course, and every result it publishes satisfies the validator and
      answers the task that was asked for. */
  lemma OneCourse(c: Config, seen: bool, d: Delivery, course: Course)
    ensures Takes(Effects(c, seen, d), course) <==> course == CourseOf(c, seen, d.message)
    ensures forall r :: r in Published(Effects(c, seen, d)) ==> r.Valid()
    ensures d.message.Request? ==>
        forall r :: r in Published(Effects(c, seen, d)) ==> r.taskId == d.message.request.taskId
  {
    PublishedExactly(c, seen, d);
    CourseTaken(c, seen, d);
    if Takes(Effects(c, seen, d), course) {
      CoursesExclude(Effects(c, seen, d), course, CourseOf(c, seen, d.message));
    }
  }

  lemma CourseTaken(c: Config, seen: bool, d: Delivery)
    ensures Takes(Effects(c, seen, d), CourseOf(c, seen, d.message))
  {
    PublishedExactly(c, seen, d);
    if Acceptable(c, d.message) && !seen {
      assert Effects(c, seen, d)[0] == Audit(AuditAccepted, Some(d.message.request.taskId));
    }
  }

  lemma CoursesExclude(effects: seq<Effect>, a: Course, b: Course)
    requires Takes(effects, a) && Takes(effects, b)
    ensures a == b
  {
  }
}
