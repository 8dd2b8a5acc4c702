/** The case trace (apps/agents/customer_resolution/trace.py): a breadth-first walk over resolved
    causes, with a visited set, followed by whatever it did not reach. */
module Trace {
  import opened Common
  import opened EventLog
  import opened CausalForest

  datatype TraceStep = TraceStep(seqNo: nat, event: Event, parent: Option<Id>)

  // ---------------------------------------------------------------- resolved causes

  predicate OccursAt(text: string, word: string, i: nat) {
    i + |word| <= |text| && text[i..i + |word|] == word
  }

  predicate Mentions(text: string, word: string) {
    exists i: nat | i <= |text| :: OccursAt(text, word, i)
  }

  predicate RequestsTask(e: Event, task: Id) {
    Mentions(e.eventType, "task_request") && e.taskId == Some(task)
  }

  /** The first task request that carries this task id. */
  ghost function RequestFor(events: seq<Event>, task: Id): (r: Option<Id>)
    ensures r.Some? ==> r.value in Ids(events)
  {
    if events == [] then None
    else
      var earlier := RequestFor(events[..|events| - 1], task);
      if earlier.Some? then earlier
      else if RequestsTask(events[|events| - 1], task) then Some(events[|events| - 1].id)
      else None
  }

  function Get(m: map<Id, Id>, k: Id): Option<Id> { if k in m then Some(m[k]) else None }

  /** request_eid_by_task: setdefault keeps the first. */
  method IndexRequests(events: seq<Event>) returns (requests: map<Id, Id>)
    ensures forall t :: Get(requests, t) == RequestFor(events, t)
  {
    requests := map[];
    for i := 0 to |events|
      invariant forall t :: Get(requests, t) == RequestFor(events[..i], t)
    {
      var e := events[i];
      ghost var before := requests;
      if Mentions(e.eventType, "task_request") && e.taskId.Some? && e.taskId.value !in requests {
        requests := requests[e.taskId.value := e.id];
      }
      forall t
        ensures Get(requests, t) == RequestFor(events[..i + 1], t)
      {
        assert events[..i + 1][..i] == events[..i];
        assert Get(before, t) == RequestFor(events[..i], t);
      }
    }
    assert events[..|events|] == events;
  }

  function ResolveParent(e: Event, ids: set<Id>, requests: map<Id, Id>): Option<Id> {
    if e.causation.None? || e.causation.value in ids then e.causation else Get(requests, e.causation.value)
  }

  function ResolveWith(ids: set<Id>, requests: map<Id, Id>): Event -> Option<Id> {
    (e: Event) => ResolveParent(e, ids, requests)
  }

  /** The cause itself when it is an event of the case; the request that carries it when it is a task id. */
  ghost function ResolvedCause(events: seq<Event>): Event -> Option<Id> {
    (e: Event) =>
      if e.causation.None? || e.causation.value in Ids(events) then e.causation
      else RequestFor(events, e.causation.value)
  }

  ghost function CaseParents(events: seq<Event>): (g: Parents)
    requires DistinctIds(events)
    ensures Log(events, g)
  {
    var g := ParentsBy(events, ResolvedCause(events));
    assert Closed(g) by {
      forall x | x in g && g[x].Some?
        ensures g[x].value in g
      {
        assert g[x] == ResolvedCause(events)(EventWith(events, x));
      }
    }
    g
  }

  // ---------------------------------------------------------------- the cause, read off the envelopes

  /** The type of the event has the words task_request in it. */
  ghost predicate NamesRequest(e: Event) {
    exists before: string, after: string :: e.eventType == before + "task_request" + after
  }

  ghost predicate RequestsOf(e: Event, t: Id) { NamesRequest(e) && e.taskId == Some(t) }

  ghost predicate FirstRequest(events: seq<Event>, t: Id, i: nat) {
    i < |events| && RequestsOf(events[i], t) && forall j :: 0 <= j < i ==> !RequestsOf(events[j], t)
  }

  /** The parent is the event the causation names; failing that, the first request that carries it as its
      task; failing that, nothing. */
  ghost predicate CausedBy(events: seq<Event>, e: Event, parent: Option<Id>) {
    match e.causation
    case None => parent == None
    case Some(t) =>
      if Names(events, t) then parent == Some(t) else RequestedBy(events, t, parent)
  }

  ghost predicate RequestedBy(events: seq<Event>, t: Id, parent: Option<Id>) {
    && (forall i: nat :: FirstRequest(events, t, i) ==> parent == Some(events[i].id))
    && ((forall i: nat :: !FirstRequest(events, t, i)) ==> parent == None)
  }

  lemma MentionsExactly(e: Event)
    ensures Mentions(e.eventType, "task_request") <==> NamesRequest(e)
  {
    var text, word := e.eventType, "task_request";
    if i: nat :| i <= |text| && OccursAt(text, word, i) {
      assert text == text[..i] + word + text[i + |word|..];
    }
    if before: string, after: string :| text == before + word + after {
      assert OccursAt(text, word, |before|);
    }
  }

  lemma {:induction false} RequestForExactly(events: seq<Event>, t: Id) returns (i: nat)
    ensures RequestFor(events, t).Some? ==> FirstRequest(events, t, i) && RequestFor(events, t) == Some(events[i].id)
    ensures RequestFor(events, t).None? ==> forall j :: 0 <= j < |events| ==> !RequestsOf(events[j], t)
  {
    i := 0;
    if events != [] {
      i := RequestForExactly(events[..|events| - 1], t);
      MentionsExactly(events[|events| - 1]);
      if RequestFor(events[..|events| - 1], t).None? {
        i := |events| - 1;
      }
    }
  }

  lemma FirstRequestUnique(events: seq<Event>, t: Id, i: nat, j: nat)
    requires FirstRequest(events, t, i) && FirstRequest(events, t, j)
    ensures i == j
  {
  }

  /** The parents the trace works with are the causes. */
  lemma ParentExactly(events: seq<Event>, e: Event, parent: Option<Id>)
    requires DistinctIds(events) && e in events
    ensures CaseParents(events)[e.id] == parent <==> CausedBy(events, e, parent)
  {
    IdsAreNames(events);
    assert CaseParents(events)[e.id] == ResolvedCause(events)(e);
    if e.causation.Some? && !Names(events, e.causation.value) {
      RequesterExactly(events, e.causation.value, parent);
    }
  }

  lemma RequesterExactly(events: seq<Event>, t: Id, parent: Option<Id>)
    ensures RequestFor(events, t) == parent <==> RequestedBy(events, t, parent)
  {
    var i := RequestForExactly(events, t);
    forall j: nat | FirstRequest(events, t, j)
      ensures RequestFor(events, t) == Some(events[j].id)
    {
      FirstRequestUnique(events, t, i, j);
    }
  }

  // ---------------------------------------------------------------- roots

  function Uncaused(): Event -> bool { (e: Event) => e.causation.None? }

  /** min by timestamp: the first of the earliest. */
  function Earliest(s: seq<Event>): (r: Event)
    requires s != []
    ensures r in s && forall e :: e in s ==> r.at <= e.at
  {
    if |s| == 1 then s[0]
    else
      var r := Earliest(s[..|s| - 1]);
      if s[|s| - 1].at < r.at then s[|s| - 1] else r
  }

  function Roots(events: seq<Event>): seq<Event> {
    var uncaused := Select(events, Uncaused());
    if uncaused != [] then SortByTime(uncaused) else if events == [] then [] else [Earliest(events)]
  }

  /** Either no root has a parent, or there is one root only. */
  ghost predicate RootedBy(events: seq<Event>, g: Parents, roots: seq<Event>) {
    && DistinctIds(roots)
    && (forall r :: r in roots ==> r in events && r.id in g)
    && (|roots| > 1 ==> forall r :: r in roots ==> g[r.id].None?)
  }

  lemma RootsFacts(events: seq<Event>)
    requires DistinctIds(events)
    ensures RootedBy(events, CaseParents(events), Roots(events))
    ensures ByTime(Roots(events)) && (events != [] ==> Roots(events) != [])
    ensures forall r :: r in Roots(events) ==> r.causation.None? || (forall e :: e in events ==> r.at <= e.at)
  {
    var uncaused := Select(events, Uncaused());
    SortSorts(uncaused);
    SelectDistinct(events, Uncaused());
    PermutedDistinct(uncaused, SortByTime(uncaused));
  }

  // ---------------------------------------------------------------- breadth first

  /** What visiting x adds to the queue: its children, earliest first, unless they are roots. */
  ghost function Enqueued(kids: Family, roots: seq<Event>, x: Event): seq<Event> {
    Select(kids(Some(x.id)), NotIn(Ids(roots)))
  }

  ghost function Brood(kids: Family, roots: seq<Event>, walk: seq<Event>): seq<Event> {
    if walk == [] then []
    else Brood(kids, roots, walk[..|walk| - 1]) + Enqueued(kids, roots, walk[|walk| - 1])
  }

  /** Everything that has ever been in the queue, in the order it joined. */
  ghost function History(kids: Family, roots: seq<Event>, walk: seq<Event>): seq<Event> {
    roots + Brood(kids, roots, walk)
  }

  /** A queue as a function of what has left it: everything that has joined. */
  type Queue = seq<Event> -> seq<Event>

  ghost function QueueOf(kids: Family, roots: seq<Event>): Queue {
    (walk: seq<Event>) => History(kids, roots, walk)
  }

  /** First in, first out: x leaves after `before`, in its turn, and had joined by then. */
  ghost predicate LeavesAfter(q: Queue, before: seq<Event>, x: Event) {
    |before| < |q(before)| && x == q(before)[|before|]
  }

  ghost predicate Fifo(q: Queue, walk: seq<Event>) {
    forall m :: 0 <= m < |walk| ==> LeavesAfter(q, walk[..m], walk[m])
  }

  /** ... until the queue is empty. */
  ghost predicate BreadthFirst(q: Queue, walk: seq<Event>) {
    Fifo(q, walk) && |q(walk)| == |walk|
  }

  lemma {:induction false} FifoAgree(q: Queue, a: seq<Event>, b: seq<Event>, n: nat)
    requires Fifo(q, a) && Fifo(q, b) && n <= |a| && n <= |b|
    ensures a[..n] == b[..n]
    ensures n == |a| ==> a == b[..n]
    ensures n == |b| ==> b == a[..n]
  {
    if n > 0 {
      FifoAgree(q, a, b, n - 1);
      assert LeavesAfter(q, a[..n - 1], a[n - 1]) && LeavesAfter(q, b[..n - 1], b[n - 1]);
      assert a[..n] == a[..n - 1] + [a[n - 1]] && b[..n] == b[..n - 1] + [b[n - 1]];
    }
    assert n == |a| ==> a[..n] == a;
    assert n == |b| ==> b[..n] == b;
  }

  lemma HadJoined(q: Queue, walk: seq<Event>, n: nat)
    requires Fifo(q, walk) && n < |walk|
    ensures |q(walk[..n])| > n
  {
    assert LeavesAfter(q, walk[..n], walk[n]);
  }

  lemma NoLonger(q: Queue, a: seq<Event>, b: seq<Event>)
    requires BreadthFirst(q, a) && Fifo(q, b)
    ensures |b| <= |a|
  {
    if |a| < |b| {
      HadJoined(q, b, |a|);
      FifoAgree(q, a, b, |a|);
    }
  }

  /** A breadth-first order is unique. */
  lemma BreadthFirstUnique(q: Queue, a: seq<Event>, b: seq<Event>)
    requires BreadthFirst(q, a) && BreadthFirst(q, b)
    ensures a == b
  {
    NoLonger(q, a, b);
    NoLonger(q, b, a);
    FifoAgree(q, a, b, |a|);
    assert b[..|a|] == b;
  }

  lemma HistorySnoc(kids: Family, roots: seq<Event>, walk: seq<Event>, x: Event)
    ensures History(kids, roots, walk + [x]) == History(kids, roots, walk) + Enqueued(kids, roots, x)
  {
    assert (walk + [x])[..|walk|] == walk;
  }

  lemma {:induction false} HistoryGrows(kids: Family, roots: seq<Event>, walk: seq<Event>, m: nat)
    requires m <= |walk|
    ensures History(kids, roots, walk[..m]) <= History(kids, roots, walk)
    decreases |walk|
  {
    if m == |walk| {
      assert walk[..m] == walk;
    } else {
      var front := walk[..|walk| - 1];
      HistoryGrows(kids, roots, front, m);
      assert front[..m] == walk[..m];
      HistorySnoc(kids, roots, front, walk[|walk| - 1]);
      assert front + [walk[|walk| - 1]] == walk;
    }
  }

  lemma FifoIsPrefix(kids: Family, roots: seq<Event>, walk: seq<Event>)
    requires Fifo(QueueOf(kids, roots), walk) && |walk| <= |History(kids, roots, walk)|
    ensures walk <= History(kids, roots, walk)
  {
    forall m | 0 <= m < |walk|
      ensures walk[m] == History(kids, roots, walk)[m]
    {
      HistoryGrows(kids, roots, walk, m);
      assert LeavesAfter(QueueOf(kids, roots), walk[..m], walk[m]);
    }
  }

  // ---------------------------------------------------------------- the queue holds each event once

  ghost predicate Walking(events: seq<Event>, g: Parents, kids: Family, roots: seq<Event>, walk: seq<Event>) {
    && FamilyOf(events, g, kids) && RootedBy(events, g, roots)
    && Fifo(QueueOf(kids, roots), walk) && |walk| <= |History(kids, roots, walk)|
    && DistinctIds(History(kids, roots, walk))
    && forall h :: h in History(kids, roots, walk) ==> h in events
  }

  lemma EnqueuedFacts(events: seq<Event>, g: Parents, kids: Family, roots: seq<Event>, x: Event)
    requires FamilyOf(events, g, kids)
    ensures forall k :: k in Enqueued(kids, roots, x) <==>
              k in events && k.id in g && g[k.id] == Some(x.id) && k.id !in Ids(roots)
    ensures DistinctIds(Enqueued(kids, roots, x)) && ByTime(Enqueued(kids, roots, x))
  {
    assert AreKids(events, g, Some(x.id), kids(Some(x.id)));
    SelectDistinct(kids(Some(x.id)), NotIn(Ids(roots)));
    SelectByTime(kids(Some(x.id)), NotIn(Ids(roots)));
  }

  lemma {:induction false} SelectByTime(s: seq<Event>, keep: Event -> bool)
    requires ByTime(s)
    ensures ByTime(Select(s, keep))
  {
    if s != [] {
      var front, last := s[..|s| - 1], s[|s| - 1];
      SelectByTime(front, keep);
      forall e | e in Select(front, keep)
        ensures e.at <= last.at
      {
      }
    }
  }

  lemma {:induction false} HistoryMembers(kids: Family, roots: seq<Event>, walk: seq<Event>, h: Event)
    ensures h in History(kids, roots, walk) <==> h in roots || exists y :: y in walk && h in Enqueued(kids, roots, y)
  {
    if walk != [] {
      HistoryMembers(kids, roots, walk[..|walk| - 1], h);
    }
  }

  /** Nothing already queued is queued again by its only parent. */
  lemma NotQueuedBefore(events: seq<Event>, g: Parents, kids: Family, roots: seq<Event>, walk: seq<Event>,
                        x: Event, h: Event, k: Event)
    requires Walking(events, g, kids, roots, walk) && x !in walk && x in events
    requires h in History(kids, roots, walk) && h.id == k.id && k in kids(Some(x.id))
    ensures h in roots
  {
    HistoryMembers(kids, roots, walk, h);
    assert AreKids(events, g, Some(x.id), kids(Some(x.id)));
    if h !in roots {
      var y :| y in walk && h in Enqueued(kids, roots, y);
      EnqueuedFacts(events, g, kids, roots, y);
      FifoIsPrefix(kids, roots, walk);
      assert y in History(kids, roots, walk);
      IdNamesEvent(events, x, y);
    }
  }

  lemma RootKidIsVisited(events: seq<Event>, g: Parents, kids: Family, roots: seq<Event>, walk: seq<Event>,
                         x: Event, k: Event)
    requires Walking(events, g, kids, roots, walk) && LeavesAfter(QueueOf(kids, roots), walk, x)
    requires k in kids(Some(x.id)) && k.id in Ids(roots)
    ensures k.id in Ids(walk + [x])
  {
    FifoIsPrefix(kids, roots, walk);
    assert AreKids(events, g, Some(x.id), kids(Some(x.id)));
    var r :| r in roots && r.id == k.id;
    assert |roots| == 1 && roots[0] == r;
    assert (walk + [x])[0] == History(kids, roots, walk)[0] == r;
  }

  /** The children the visited set filters out are exactly the roots among them. */
  lemma VisitedKidsAreRoots(events: seq<Event>, g: Parents, kids: Family, roots: seq<Event>, walk: seq<Event>,
                            x: Event, k: Event)
    requires Walking(events, g, kids, roots, walk) && LeavesAfter(QueueOf(kids, roots), walk, x)
    requires k in kids(Some(x.id))
    ensures k.id in Ids(walk + [x]) <==> k.id in Ids(roots)
  {
    if k.id in Ids(roots) {
      RootKidIsVisited(events, g, kids, roots, walk, x, k);
    } else if k.id in Ids(walk + [x]) {
      FifoIsPrefix(kids, roots, walk);
      assert x in History(kids, roots, walk) && x !in walk;
      var h :| h in walk + [x] && h.id == k.id;
      assert h in History(kids, roots, walk);
      NotQueuedBefore(events, g, kids, roots, walk, x, h, k);
    }
  }

  lemma VisitKeeps(events: seq<Event>, g: Parents, kids: Family, roots: seq<Event>, walk: seq<Event>, x: Event)
    requires Walking(events, g, kids, roots, walk) && LeavesAfter(QueueOf(kids, roots), walk, x)
    ensures Walking(events, g, kids, roots, walk + [x])
    ensures History(kids, roots, walk + [x]) == History(kids, roots, walk) + Enqueued(kids, roots, x)
    ensures Select(kids(Some(x.id)), NotIn(Ids(walk + [x]))) == Enqueued(kids, roots, x)
  {
    HistorySnoc(kids, roots, walk, x);
    FifoSnoc(QueueOf(kids, roots), walk, x);
    QueueStaysDistinct(events, g, kids, roots, walk, x);
    forall k | k in kids(Some(x.id))
      ensures NotIn(Ids(walk + [x]))(k) == NotIn(Ids(roots))(k)
    {
      VisitedKidsAreRoots(events, g, kids, roots, walk, x, k);
    }
    SelectSame(kids(Some(x.id)), NotIn(Ids(walk + [x])), NotIn(Ids(roots)));
  }

  lemma FifoSnoc(q: Queue, walk: seq<Event>, x: Event)
    requires Fifo(q, walk) && LeavesAfter(q, walk, x)
    ensures Fifo(q, walk + [x])
  {
    forall m | 0 <= m < |walk + [x]|
      ensures LeavesAfter(q, (walk + [x])[..m], (walk + [x])[m])
    {
      assert (walk + [x])[..m] == walk[..m];
      assert m == |walk| ==> walk[..m] == walk;
    }
  }

  lemma QueueStaysDistinct(events: seq<Event>, g: Parents, kids: Family, roots: seq<Event>, walk: seq<Event>, x: Event)
    requires Walking(events, g, kids, roots, walk) && LeavesAfter(QueueOf(kids, roots), walk, x)
    ensures DistinctIds(History(kids, roots, walk) + Enqueued(kids, roots, x))
    ensures forall k :: k in Enqueued(kids, roots, x) ==> k in events
  {
    var history := History(kids, roots, walk);
    FifoIsPrefix(kids, roots, walk);
    EnqueuedFacts(events, g, kids, roots, x);
    assert x in history && x !in walk;
    forall h, k | h in history && k in Enqueued(kids, roots, x)
      ensures h.id != k.id
    {
      if h.id == k.id {
        NotQueuedBefore(events, g, kids, roots, walk, x, h, k);
      }
    }
    DistinctConcat(history, Enqueued(kids, roots, x));
  }

  lemma StartWalking(events: seq<Event>, g: Parents, kids: Family, roots: seq<Event>)
    requires FamilyOf(events, g, kids) && RootedBy(events, g, roots)
    ensures Walking(events, g, kids, roots, []) && History(kids, roots, []) == roots
  {
    assert roots + Brood(kids, roots, []) == roots;
  }

  lemma WalkIsBounded(events: seq<Event>, g: Parents, kids: Family, roots: seq<Event>, walk: seq<Event>)
    requires Walking(events, g, kids, roots, walk)
    ensures DistinctIds(walk) && (forall e :: e in walk ==> e in events) && |walk| <= |events|
  {
    FifoIsPrefix(kids, roots, walk);
    NoMoreThan(walk, events);
  }

  // ---------------------------------------------------------------- the search

  /** Visit whatever is next in the queue until nothing is. */
  ghost function Search(events: seq<Event>, g: Parents, kids: Family, roots: seq<Event>,
      walk: seq<Event>): (r: seq<Event>)
    requires Walking(events, g, kids, roots, walk)
    ensures Walking(events, g, kids, roots, r) && BreadthFirst(QueueOf(kids, roots), r)
    decreases |events| - |walk|
  {
    var history := History(kids, roots, walk);
    WalkIsBounded(events, g, kids, roots, walk);
    if |walk| == |history| then walk
    else
      VisitKeeps(events, g, kids, roots, walk, history[|walk|]);
      WalkIsBounded(events, g, kids, roots, walk + [history[|walk|]]);
      Search(events, g, kids, roots, walk + [history[|walk|]])
  }

  /** The events a trace reaches, in the order it reaches them. */
  ghost function Reached(events: seq<Event>): seq<Event>
    requires DistinctIds(events)
  {
    var g := CaseParents(events);
    KidsInFamily(events, g);
    RootsFacts(events);
    StartWalking(events, g, KidsIn(events, g), Roots(events));
    Search(events, g, KidsIn(events, g), Roots(events), [])
  }

  ghost function Orphans(events: seq<Event>): seq<Event>
    requires DistinctIds(events)
  {
    SortByTime(Select(events, NotIn(Ids(Reached(events)))))
  }

  lemma NextVisit(events: seq<Event>, g: Parents, kids: Family, roots: seq<Event>, walk: seq<Event>, queue: seq<Event>)
    requires Walking(events, g, kids, roots, walk) && History(kids, roots, walk) == walk + queue && queue != []
    ensures queue[0].id !in Ids(walk)
    ensures Walking(events, g, kids, roots, walk + [queue[0]]) && |walk| < |events|
    ensures Ids(walk + [queue[0]]) == Ids(walk) + {queue[0].id}
    ensures History(kids, roots, walk + [queue[0]])
         == walk + [queue[0]] + (queue[1..] + Select(kids(Some(queue[0].id)), NotIn(Ids(walk + [queue[0]]))))
  {
    var x := queue[0];
    assert (walk + queue)[|walk|] == x;
    VisitKeeps(events, g, kids, roots, walk, x);
    WalkIsBounded(events, g, kids, roots, walk + [x]);
    NewId(walk, x);
    Requeue(walk, queue, Enqueued(kids, roots, x));
  }

  lemma NewId(walk: seq<Event>, x: Event)
    requires DistinctIds(walk + [x])
    ensures x.id !in Ids(walk)
    ensures Ids(walk + [x]) == Ids(walk) + {x.id}
  {
    forall w | w in walk
      ensures w.id != x.id
    {
      var i :| 0 <= i < |walk| && walk[i] == w;
      assert (walk + [x])[i] == w && (walk + [x])[|walk|] == x;
    }
  }

  lemma Requeue(walk: seq<Event>, queue: seq<Event>, more: seq<Event>)
    requires queue != []
    ensures walk + queue + more == walk + [queue[0]] + (queue[1..] + more)
  {
    assert queue == [queue[0]] + queue[1..];
  }

  method BreadthFirstSearch(children: map<Option<Id>, seq<Event>>, roots: seq<Event>,
                            ghost events: seq<Event>, ghost g: Parents, ghost kids: Family)
    returns (ordered: seq<Event>, visited: set<Id>)
    requires FamilyOf(events, g, kids) && RootedBy(events, g, roots)
    requires forall k :: Lookup(children, k) == kids(k)
    ensures Walking(events, g, kids, roots, ordered) && BreadthFirst(QueueOf(kids, roots), ordered)
    ensures visited == Ids(ordered)
  {
    visited := {};
    ordered := [];
    var queue := roots;
    StartWalking(events, g, kids, roots);
    while queue != []
      invariant Walking(events, g, kids, roots, ordered)
      invariant History(kids, roots, ordered) == ordered + queue
      invariant visited == Ids(ordered)
      decreases |events| - |ordered|, |queue|
    {
      NextVisit(events, g, kids, roots, ordered, queue);
      var env := queue[0];
      queue := queue[1..];
      if env.id !in visited {
        visited := visited + {env.id};
        ordered := ordered + [env];
        queue := EnqueueUnvisited(Lookup(children, Some(env.id)), visited, queue);
      }
    }
  }

  method EnqueueUnvisited(children: seq<Event>, visited: set<Id>, waiting: seq<Event>) returns (queue: seq<Event>)
    ensures queue == waiting + Select(children, NotIn(visited))
  {
    queue := waiting;
    for i := 0 to |children|
      invariant queue == waiting + Select(children[..i], NotIn(visited))
    {
      SelectStep(children, NotIn(visited), i);
      if children[i].id !in visited {
        queue := queue + [children[i]];
      }
    }
    assert children[..|children|] == children;
  }

  // ---------------------------------------------------------------- trace_case

  function OfCase(correlation: Id): Event -> bool { (e: Event) => e.correlation == correlation }

  function Relevant(correlation: Id, envelopes: seq<Event>): seq<Event> {
    Select(envelopes, OfCase(correlation))
  }

  method FindRoots(events: seq<Event>) returns (roots: seq<Event>)
    requires events != []
    ensures roots == Roots(events)
  {
    roots := Select(events, Uncaused());
    if roots == [] {
      roots := [Earliest(events)];
    }
    SortOne(Earliest(events));
    roots := SortByTime(roots);
  }

  lemma SortOne(e: Event)
    ensures SortByTime([e]) == [e]
  {
    assert [e][..0] == [];
    assert Insert([], e) == [e];
  }

  method OrderCase(events: seq<Event>) returns (ordered: seq<Event>, parents: Parents)
    requires DistinctIds(events) && events != []
    ensures parents == CaseParents(events)
    ensures ordered == Reached(events) + Orphans(events)
  {
    var ids := Ids(events);
    var requests := IndexRequests(events);
    parents := AssignParents(events, ResolveWith(ids, requests));
    SameResolution(events, requests, parents);
    var roots := FindRoots(events);
    var groups := GroupByParent(events, parents);
    var children := SortSiblings(events, parents, groups);
    KidsInFamily(events, parents);
    RootsFacts(events);
    var visited;
    ordered, visited := BreadthFirstSearch(children, roots, events, parents, KidsIn(events, parents));
    ReachedUnique(events, ordered);
    ordered := ordered + SortByTime(Select(events, NotIn(visited)));
  }

  lemma SameCause(events: seq<Event>, requests: map<Id, Id>, e: Event)
    requires forall t :: Get(requests, t) == RequestFor(events, t)
    ensures ResolveWith(Ids(events), requests)(e) == ResolvedCause(events)(e)
  {
  }

  lemma SameResolution(events: seq<Event>, requests: map<Id, Id>, g: Parents)
    requires DistinctIds(events) && g == ParentsBy(events, ResolveWith(Ids(events), requests))
    requires forall t :: Get(requests, t) == RequestFor(events, t)
    ensures g == CaseParents(events)
  {
    forall e | e in events
      ensures g[e.id] == ResolvedCause(events)(e)
    {
      SameCause(events, requests, e);
    }
    ParentsUnique(events, ResolvedCause(events), g);
  }

  lemma ReachedUnique(events: seq<Event>, walk: seq<Event>)
    requires DistinctIds(events)
    requires BreadthFirst(QueueOf(KidsIn(events, CaseParents(events)), Roots(events)), walk)
    ensures walk == Reached(events)
  {
    ReachedIsBreadthFirst(events);
    BreadthFirstUnique(QueueOf(KidsIn(events, CaseParents(events)), Roots(events)), walk, Reached(events));
  }

  /** The search visits in breadth-first order from the roots. */
  lemma ReachedIsBreadthFirst(events: seq<Event>)
    requires DistinctIds(events)
    ensures Walking(events, CaseParents(events), KidsIn(events, CaseParents(events)), Roots(events), Reached(events))
    ensures BreadthFirst(QueueOf(KidsIn(events, CaseParents(events)), Roots(events)), Reached(events))
  {
    KidsInFamily(events, CaseParents(events));
    RootsFacts(events);
    StartWalking(events, CaseParents(events), KidsIn(events, CaseParents(events)), Roots(events));
  }

  /** One numbered step per event of the case, each with its cause. */
  method TraceCase(correlation: Id, envelopes: seq<Event>) returns (steps: seq<TraceStep>)
    requires DistinctIds(Relevant(correlation, envelopes))
    ensures var events := Relevant(correlation, envelopes);
      && NumberedSteps(Reached(events) + Orphans(events), CaseParents(events), steps)
      && StepsAreCaused(events, steps)
    ensures forall e :: Lists(steps, e) <==> e in envelopes && e.correlation == correlation
  {
    var relevant := Relevant(correlation, envelopes);
    TraceMembers(relevant);
    if relevant == [] {
      steps := [];
    } else {
      var ordered, parents := OrderCase(relevant);
      steps := NumberSteps(ordered, parents);
    }
    StepsExactly(relevant, steps);
  }

  /** Some step is about this event. */
  ghost predicate Lists(steps: seq<TraceStep>, e: Event) {
    exists i :: 0 <= i < |steps| && steps[i].event == e
  }

  ghost predicate StepsAreCaused(events: seq<Event>, steps: seq<TraceStep>) {
    forall i :: 0 <= i < |steps| ==> steps[i].seqNo == i + 1 && CausedBy(events, steps[i].event, steps[i].parent)
  }

  /** The steps of a trace are those of the case's events, each with the cause its envelope names. */
  lemma StepsExactly(events: seq<Event>, steps: seq<TraceStep>)
    requires DistinctIds(events) && NumberedSteps(Reached(events) + Orphans(events), CaseParents(events), steps)
    ensures StepsAreCaused(events, steps)
    ensures forall e :: Lists(steps, e) <==> e in events
  {
    var ordered := Reached(events) + Orphans(events);
    TraceMembers(events);
    forall i | 0 <= i < |steps|
      ensures CausedBy(events, steps[i].event, steps[i].parent)
    {
      assert ordered[i] in ordered;
      ParentExactly(events, ordered[i], steps[i].parent);
    }
    forall e
      ensures Lists(steps, e) <==> e in events
    {
      StepOf(ordered, CaseParents(events), steps, e);
    }
  }

  lemma StepOf(ordered: seq<Event>, g: Parents, steps: seq<TraceStep>, e: Event)
    requires NumberedSteps(ordered, g, steps)
    ensures Lists(steps, e) <==> e in ordered
  {
    if i :| 0 <= i < |steps| && steps[i].event == e {
      assert ordered[i] == e;
    }
    if i :| 0 <= i < |ordered| && ordered[i] == e {
      assert steps[i].event == e;
    }
  }

  /** One step per event, numbered from one, with its parent. */
  ghost predicate NumberedSteps(ordered: seq<Event>, g: Parents, steps: seq<TraceStep>) {
    && |steps| == |ordered|
    && forall i :: 0 <= i < |steps| ==> ordered[i].id in g && steps[i] == TraceStep(i + 1, ordered[i], g[ordered[i].id])
  }

  method NumberSteps(ordered: seq<Event>, parents: Parents) returns (steps: seq<TraceStep>)
    requires forall e :: e in ordered ==> e.id in parents
    ensures NumberedSteps(ordered, parents, steps)
  {
    steps := [];
    for i := 0 to |ordered|
      invariant NumberedSteps(ordered[..i], parents, steps)
    {
      assert ordered[i] in ordered;
      steps := steps + [TraceStep(i + 1, ordered[i], parents[ordered[i].id])];
    }
    assert ordered[..|ordered|] == ordered;
  }

  lemma TraceMembers(events: seq<Event>)
    requires DistinctIds(events)
    ensures forall e :: e in Reached(events) + Orphans(events) <==> e in events
  {
    ReachedIsBreadthFirst(events);
    WalkIsBounded(events, CaseParents(events), KidsIn(events, CaseParents(events)), Roots(events), Reached(events));
    OrphansExactly(events);
  }

  lemma OrphansExactly(events: seq<Event>)
    requires DistinctIds(events)
    ensures forall e :: e in Orphans(events) <==> e in events && e !in Reached(events)
    ensures ByTime(Orphans(events)) && DistinctIds(Orphans(events))
  {
    var rest := Select(events, NotIn(Ids(Reached(events))));
    SortSorts(rest);
    SelectDistinct(events, NotIn(Ids(Reached(events))));
    PermutedDistinct(rest, SortByTime(rest));
    ReachedIsBreadthFirst(events);
    WalkIsBounded(events, CaseParents(events), KidsIn(events, CaseParents(events)), Roots(events), Reached(events));
    forall e
      ensures e in rest <==> e in events && e !in Reached(events)
    {
      if e in events && e.id in Ids(Reached(events)) {
        var f :| f in Reached(events) && f.id == e.id;
        IdNamesEvent(events, e, f);
      }
    }
  }
}
