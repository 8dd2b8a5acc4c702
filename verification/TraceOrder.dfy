/** What the order of a case trace means. */
module TraceOrder {
  import opened Common
  import opened EventLog
  import opened CausalForest
  import opened Trace

  // ---------------------------------------------------------------- where a visited event came from

  ghost function Joined(kids: Family, roots: seq<Event>, walk: seq<Event>, j: nat): nat
    requires j <= |walk|
  {
    |Brood(kids, roots, walk[..j])|
  }

  lemma JoinedStep(kids: Family, roots: seq<Event>, walk: seq<Event>, j: nat)
    requires j < |walk|
    ensures Joined(kids, roots, walk, j + 1) == Joined(kids, roots, walk, j) + |Enqueued(kids, roots, walk[j])|
  {
    assert walk[..j + 1][..j] == walk[..j];
  }

  lemma {:induction false} BroodGrows(kids: Family, roots: seq<Event>, walk: seq<Event>, j: nat)
    requires j <= |walk|
    ensures |Brood(kids, roots, walk[..j])| <= |Brood(kids, roots, walk)|
    decreases |walk|
  {
    if j == |walk| {
      assert walk[..j] == walk;
    } else {
      BroodGrows(kids, roots, walk[..|walk| - 1], j);
      assert walk[..|walk| - 1][..j] == walk[..j];
    }
  }

  lemma JoinedGrows(kids: Family, roots: seq<Event>, walk: seq<Event>, j: nat, k: nat)
    requires j <= k <= |walk|
    ensures Joined(kids, roots, walk, j) <= Joined(kids, roots, walk, k)
  {
    BroodGrows(kids, roots, walk[..k], j);
    assert walk[..k][..j] == walk[..j];
  }

  /** Position t among everything enqueued belongs to what visiting one walk[j] added. */
  ghost predicate JoinedAt(kids: Family, roots: seq<Event>, walk: seq<Event>, t: nat, j: nat, x: Event) {
    && j < |walk|
    && var offset := Joined(kids, roots, walk, j);
    && offset <= t < offset + |Enqueued(kids, roots, walk[j])|
    && x == Enqueued(kids, roots, walk[j])[t - offset]
  }

  lemma {:induction false} BroodAt(kids: Family, roots: seq<Event>, walk: seq<Event>, t: nat) returns (j: nat)
    requires t < |Brood(kids, roots, walk)|
    ensures JoinedAt(kids, roots, walk, t, j, Brood(kids, roots, walk)[t])
    decreases |walk|
  {
    var front := walk[..|walk| - 1];
    if t < |Brood(kids, roots, front)| {
      j := BroodAt(kids, roots, front, t);
      assert front[..j] == walk[..j];
    } else {
      j := |walk| - 1;
    }
  }

  /** Event i of the walk, not a root, was enqueued when some earlier event j was visited. */
  ghost predicate CameFrom(kids: Family, roots: seq<Event>, walk: seq<Event>, i: nat, j: nat) {
    && |roots| <= i < |walk| && j < i
    && JoinedAt(kids, roots, walk, i - |roots|, j, walk[i])
  }

  lemma ParentPosition(kids: Family, roots: seq<Event>, walk: seq<Event>, i: nat) returns (j: nat)
    requires Fifo(QueueOf(kids, roots), walk) && |roots| <= i < |walk|
    ensures CameFrom(kids, roots, walk, i, j)
  {
    assert LeavesAfter(QueueOf(kids, roots), walk[..i], walk[i]);
    j := BroodAt(kids, roots, walk[..i], i - |roots|);
    JoinedInPrefix(kids, roots, walk, i, i - |roots|, j, walk[i]);
  }

  lemma JoinedInPrefix(kids: Family, roots: seq<Event>, walk: seq<Event>, i: nat, t: nat, j: nat, x: Event)
    requires i <= |walk| && JoinedAt(kids, roots, walk[..i], t, j, x)
    ensures JoinedAt(kids, roots, walk, t, j, x)
  {
    assert walk[..i][..j] == walk[..j] && walk[..i][j] == walk[j];
  }

  /** Parents are never overtaken: a later event came from the same event or a later one. */
  lemma ParentsInOrder(kids: Family, roots: seq<Event>, walk: seq<Event>, i: nat, j: nat, k: nat, l: nat)
    requires CameFrom(kids, roots, walk, i, j) && CameFrom(kids, roots, walk, k, l) && i <= k
    ensures j <= l
  {
    if l < j {
      JoinedStep(kids, roots, walk, l);
      JoinedGrows(kids, roots, walk, l + 1, j);
    }
  }

  lemma CauseOf(events: seq<Event>, g: Parents, kids: Family, roots: seq<Event>, walk: seq<Event>, i: nat, j: nat)
    requires FamilyOf(events, g, kids) && CameFrom(kids, roots, walk, i, j)
    ensures walk[i].id in g && g[walk[i].id] == Some(walk[j].id) && walk[i].id !in Ids(roots)
  {
    EnqueuedFacts(events, g, kids, roots, walk[j]);
    assert walk[i] in Enqueued(kids, roots, walk[j]);
  }

  lemma RootsComeFirst(events: seq<Event>, g: Parents, kids: Family, roots: seq<Event>, walk: seq<Event>)
    requires Walking(events, g, kids, roots, walk) && BreadthFirst(QueueOf(kids, roots), walk)
    ensures roots <= walk && walk == History(kids, roots, walk)
  {
    FifoIsPrefix(kids, roots, walk);
    assert walk[..|walk|] == walk;
  }

  // ---------------------------------------------------------------- distance from the roots

  /** n steps up from x is a root, and nothing nearer is. */
  ghost predicate AtDistance(g: Parents, roots: set<Id>, x: Id, n: nat)
    requires Closed(g) && x in g
  {
    && Up(g, x, n).Some? && Up(g, x, n).value in roots
    && forall m: nat :: m < n ==> Up(g, x, m).Some? && Up(g, x, m).value !in roots
  }

  lemma DistanceOfRoot(g: Parents, roots: set<Id>, x: Id, n: nat)
    requires Closed(g) && x in g && x in roots && AtDistance(g, roots, x, n)
    ensures n == 0
  {
    assert Up(g, x, 0) == Some(x);
  }

  lemma DistanceOfParent(g: Parents, roots: set<Id>, x: Id, p: Id, n: nat)
    requires Closed(g) && x in g && p in g && x !in roots && g[x] == Some(p) && AtDistance(g, roots, x, n)
    ensures n > 0 && AtDistance(g, roots, p, n - 1)
  {
    assert Up(g, x, 0) == Some(x);
    assert Up(g, x, n) == Up(g, p, n - 1);
    forall m: nat | m < n - 1
      ensures Up(g, p, m).Some? && Up(g, p, m).value !in roots
    {
      assert Up(g, x, m + 1) == Up(g, p, m);
    }
  }

  /** Where each listed event's parent stands: earlier, and never overtaken. */
  ghost predicate InCauseOrder(g: Parents, roots: set<Id>, walk: seq<Id>, r: nat, from: seq<nat>) {
    && r <= |walk| == |from|
    && (forall i :: 0 <= i < r ==> walk[i] in roots)
    && (forall i :: r <= i < |walk| ==> from[i] < i && ChildOf(g, roots, walk[i], walk[from[i]]))
    && (forall i, k :: r <= i <= k < |walk| ==> from[i] <= from[k])
  }

  ghost predicate ChildOf(g: Parents, roots: set<Id>, x: Id, p: Id) {
    x !in roots && x in g && p in g && g[x] == Some(p)
  }

  /** A walk in the order of its causes moves away from the roots. */
  lemma {:induction false} DistanceNeverDrops(g: Parents, roots: set<Id>, walk: seq<Id>, r: nat, from: seq<nat>,
                                              i: nat, k: nat, m: nat, n: nat)
    requires Closed(g) && InCauseOrder(g, roots, walk, r, from) && i <= k < |walk|
    requires walk[i] in g && walk[k] in g && AtDistance(g, roots, walk[i], m) && AtDistance(g, roots, walk[k], n)
    ensures m <= n
    decreases k
  {
    if i < r {
      DistanceOfRoot(g, roots, walk[i], m);
    } else {
      DistanceOfParent(g, roots, walk[i], walk[from[i]], m);
      DistanceOfParent(g, roots, walk[k], walk[from[k]], n);
      DistanceNeverDrops(g, roots, walk, r, from, from[i], from[k], m - 1, n - 1);
    }
  }

  // ---------------------------------------------------------------- what is reached

  ghost predicate BelowRoot(g: Parents, roots: set<Id>, x: Id)
    requires Closed(g) && x in g
  {
    exists n: nat :: Up(g, x, n).Some? && Up(g, x, n).value in roots
  }

  lemma {:induction false} ReachedIsBelowRoot(events: seq<Event>, g: Parents, kids: Family, roots: seq<Event>,
                                              walk: seq<Event>, i: nat)
    requires Walking(events, g, kids, roots, walk) && BreadthFirst(QueueOf(kids, roots), walk) && i < |walk|
    ensures walk[i].id in g && BelowRoot(g, Ids(roots), walk[i].id)
    decreases i
  {
    RootsComeFirst(events, g, kids, roots, walk);
    if i < |roots| {
      assert walk[i] == roots[i] && roots[i] in roots;
      assert Up(g, walk[i].id, 0) == Some(walk[i].id);
    } else {
      var j := ParentPosition(kids, roots, walk, i);
      CauseOf(events, g, kids, roots, walk, i, j);
      ReachedIsBelowRoot(events, g, kids, roots, walk, j);
      var n: nat :| Up(g, walk[j].id, n).Some? && Up(g, walk[j].id, n).value in Ids(roots);
      assert Up(g, walk[i].id, n + 1) == Up(g, walk[j].id, n);
    }
  }

  lemma ChildIsReached(events: seq<Event>, g: Parents, kids: Family, roots: seq<Event>, walk: seq<Event>,
                       e: Event, p: Event)
    requires Walking(events, g, kids, roots, walk) && BreadthFirst(QueueOf(kids, roots), walk)
    requires e in events && e.id !in Ids(roots) && p in walk && g[e.id] == Some(p.id)
    ensures e in walk
  {
    RootsComeFirst(events, g, kids, roots, walk);
    EnqueuedFacts(events, g, kids, roots, p);
    HistoryMembers(kids, roots, walk, e);
  }

  lemma RootIsReached(events: seq<Event>, g: Parents, kids: Family, roots: seq<Event>, walk: seq<Event>, e: Event)
    requires Walking(events, g, kids, roots, walk) && BreadthFirst(QueueOf(kids, roots), walk)
    requires e in events && e.id in Ids(roots)
    ensures e in walk
  {
    RootsComeFirst(events, g, kids, roots, walk);
    var r :| r in roots && r.id == e.id;
    IdNamesEvent(events, e, r);
  }

  /** The roots are in, and so is every child of a member. */
  ghost predicate ClosedDownwards(g: Parents, roots: set<Id>, within: set<Id>) {
    roots <= within && forall x {:trigger g[x]} :: x in g && g[x].Some? && g[x].value in within ==> x in within
  }

  lemma WalkIsClosed(events: seq<Event>, g: Parents, kids: Family, roots: seq<Event>, walk: seq<Event>)
    requires Walking(events, g, kids, roots, walk) && BreadthFirst(QueueOf(kids, roots), walk)
    ensures ClosedDownwards(g, Ids(roots), Ids(walk))
  {
    forall i | i in Ids(roots)
      ensures i in Ids(walk)
    {
      RootIsReached(events, g, kids, roots, walk, EventWith(roots, i));
    }
    forall x | x in g && g[x].Some? && g[x].value in Ids(walk)
      ensures x in Ids(walk)
    {
      var e := EventWith(events, x);
      if x in Ids(roots) {
        RootIsReached(events, g, kids, roots, walk, e);
      } else {
        ChildIsReached(events, g, kids, roots, walk, e, EventWith(walk, g[x].value));
      }
    }
  }

  lemma {:induction false} BelowRootIsWithin(g: Parents, roots: set<Id>, within: set<Id>, x: Id, n: nat)
    requires Closed(g) && x in g && ClosedDownwards(g, roots, within)
    requires Up(g, x, n).Some? && Up(g, x, n).value in roots
    ensures x in within
    decreases n
  {
    if n > 0 {
      BelowRootIsWithin(g, roots, within, g[x].value, n - 1);
    }
  }

  // ---------------------------------------------------------------- theorems about a trace

  ghost predicate Reachable(events: seq<Event>, e: Event)
    requires DistinctIds(events) && e in events
  {
    BelowRoot(CaseParents(events), Ids(Roots(events)), e.id)
  }

  /** A trace reaches exactly the events whose resolved causes lead back to a root; the orphans at its
      end are exactly the others, by time. */
  lemma ReachedExactly(events: seq<Event>, e: Event)
    requires DistinctIds(events) && e in events
    ensures e in Reached(events) <==> Reachable(events, e)
    ensures e in Orphans(events) <==> !Reachable(events, e)
    ensures ByTime(Orphans(events))
  {
    var g, kids, roots, walk := CaseParents(events), KidsIn(events, CaseParents(events)), Roots(events),
      Reached(events);
    ReachedIsBreadthFirst(events);
    OrphansExactly(events);
    if e in walk {
      var i :| 0 <= i < |walk| && walk[i] == e;
      ReachedIsBelowRoot(events, g, kids, roots, walk, i);
    }
    if Reachable(events, e) {
      var n: nat :| Up(g, e.id, n).Some? && Up(g, e.id, n).value in Ids(roots);
      WalkIsClosed(events, g, kids, roots, walk);
      BelowRootIsWithin(g, Ids(roots), Ids(walk), e.id, n);
      WalkIsBounded(events, g, kids, roots, walk);
      IdNamesEvent(events, e, EventWith(walk, e.id));
    }
  }

  /** Every event of the case appears once. */
  lemma TracePermutes(events: seq<Event>)
    requires DistinctIds(events)
    ensures multiset(Reached(events) + Orphans(events)) == multiset(events)
  {
    ReachedIsBreadthFirst(events);
    WalkIsBounded(events, CaseParents(events), KidsIn(events, CaseParents(events)), Roots(events), Reached(events));
    OrphansExactly(events);
    TraceMembers(events);
    forall e, f | e in Reached(events) && f in Orphans(events)
      ensures e.id != f.id
    {
      if e.id == f.id {
        IdNamesEvent(events, e, f);
      }
    }
    DistinctConcat(Reached(events), Orphans(events));
    SameMembersPermute(Reached(events) + Orphans(events), events);
  }

  lemma HasPosition(kids: Family, roots: seq<Event>, walk: seq<Event>, i: nat)
    requires Fifo(QueueOf(kids, roots), walk) && |roots| <= i < |walk|
    ensures exists j: nat :: CameFrom(kids, roots, walk, i, j)
  {
    var j := ParentPosition(kids, roots, walk, i);
  }

  ghost function PositionOf(kids: Family, roots: seq<Event>, walk: seq<Event>, i: nat): (j: nat)
    requires Fifo(QueueOf(kids, roots), walk) && i < |walk|
    ensures |roots| <= i ==> CameFrom(kids, roots, walk, i, j)
  {
    if i < |roots| then 0
    else
      HasPosition(kids, roots, walk, i);
      var j: nat :| CameFrom(kids, roots, walk, i, j);
      j
  }

  ghost function Positions(kids: Family, roots: seq<Event>, walk: seq<Event>): seq<nat>
    requires Fifo(QueueOf(kids, roots), walk)
  {
    seq(|walk|, i requires 0 <= i < |walk| => PositionOf(kids, roots, walk, i))
  }

  ghost function IdList(walk: seq<Event>): seq<Id> { seq(|walk|, i requires 0 <= i < |walk| => walk[i].id) }

  ghost predicate AllFrom(kids: Family, roots: seq<Event>, walk: seq<Event>, from: seq<nat>) {
    |from| == |walk| && forall i :: |roots| <= i < |walk| ==> CameFrom(kids, roots, walk, i, from[i])
  }

  lemma AllCameFrom(kids: Family, roots: seq<Event>, walk: seq<Event>) returns (from: seq<nat>)
    requires Fifo(QueueOf(kids, roots), walk)
    ensures AllFrom(kids, roots, walk, from)
  {
    from := Positions(kids, roots, walk);
  }

  lemma WalkInCauseOrder(events: seq<Event>, g: Parents, kids: Family, roots: seq<Event>, walk: seq<Event>,
      from: seq<nat>)
    requires FamilyOf(events, g, kids) && roots <= walk && AllFrom(kids, roots, walk, from)
    requires forall e :: e in walk ==> e.id in g
    ensures InCauseOrder(g, Ids(roots), IdList(walk), |roots|, from)
  {
    forall i | |roots| <= i < |walk|
      ensures from[i] < i && ChildOf(g, Ids(roots), walk[i].id, walk[from[i]].id)
    {
      CauseOf(events, g, kids, roots, walk, i, from[i]);
      assert walk[from[i]] in walk;
    }
    forall i, k | |roots| <= i <= k < |walk|
      ensures from[i] <= from[k]
    {
      ParentsInOrder(kids, roots, walk, i, from[i], k, from[k]);
    }
    forall i | 0 <= i < |roots|
      ensures walk[i].id in Ids(roots)
    {
      assert walk[i] == roots[i] && roots[i] in roots;
    }
  }

  lemma EffectsByTime(events: seq<Event>, g: Parents, kids: Family, roots: seq<Event>, walk: seq<Event>,
                      i: nat, k: nat, j: nat)
    requires FamilyOf(events, g, kids) && i <= k
    requires CameFrom(kids, roots, walk, i, j) && CameFrom(kids, roots, walk, k, j)
    ensures walk[i].at <= walk[k].at
  {
    EnqueuedFacts(events, g, kids, roots, walk[j]);
  }

  /** Roots lead the trace, by time. Every other reached event comes after its cause; effects stand in
      the order of their causes, and those of one cause by time. */
  lemma CausesFirst(events: seq<Event>) returns (from: seq<nat>)
    requires DistinctIds(events)
    ensures Roots(events) <= Reached(events) && ByTime(Roots(events))
    ensures InCauseOrder(CaseParents(events), Ids(Roots(events)), IdList(Reached(events)), |Roots(events)|, from)
    ensures forall i, k :: |Roots(events)| <= i < k < |Reached(events)| && from[i] == from[k] ==>
              Reached(events)[i].at <= Reached(events)[k].at
  {
    ReachedIsBreadthFirst(events);
    RootsFacts(events);
    var g, kids, roots, walk := CaseParents(events), KidsIn(events, CaseParents(events)), Roots(events),
      Reached(events);
    RootsComeFirst(events, g, kids, roots, walk);
    WalkIsBounded(events, g, kids, roots, walk);
    from := AllCameFrom(kids, roots, walk);
    WalkInCauseOrder(events, g, kids, roots, walk, from);
    forall i, k | |roots| <= i < k < |walk| && from[i] == from[k]
      ensures walk[i].at <= walk[k].at
    {
      EffectsByTime(events, g, kids, roots, walk, i, k, from[i]);
    }
  }

  lemma NearestInWalk(g: Parents, roots: set<Id>, walk: seq<Event>, r: nat, from: seq<nat>, i: nat, k: nat, m: nat,
      n: nat)
    requires Closed(g) && InCauseOrder(g, roots, IdList(walk), r, from) && i <= k < |walk|
    requires walk[i].id in g && walk[k].id in g
    requires AtDistance(g, roots, walk[i].id, m) && AtDistance(g, roots, walk[k].id, n)
    ensures m <= n
  {
    DistanceNeverDrops(g, roots, IdList(walk), r, from, i, k, m, n);
  }

  /** The trace never returns to an event nearer the roots than one it has passed. */
  lemma NearestFirst(events: seq<Event>, i: nat, k: nat, m: nat, n: nat)
    requires DistinctIds(events) && i <= k < |Reached(events)|
    requires Reached(events)[i] in events && Reached(events)[k] in events
    requires AtDistance(CaseParents(events), Ids(Roots(events)), Reached(events)[i].id, m)
    requires AtDistance(CaseParents(events), Ids(Roots(events)), Reached(events)[k].id, n)
    ensures m <= n
  {
    var from := CausesFirst(events);
    NearestInWalk(CaseParents(events), Ids(Roots(events)), Reached(events), |Roots(events)|, from, i, k, m, n);
  }

  // ---------------------------------------------------------------- a linear extension of causation

  /** Every event with a resolved cause comes after it. */
  ghost predicate CausesPrecede(ordered: seq<Event>, g: Parents) {
    forall i :: 0 <= i < |ordered| ==> CausePrecedes(ordered, g, i)
  }

  ghost predicate CausePrecedes(ordered: seq<Event>, g: Parents, i: nat)
    requires i < |ordered|
  {
    ordered[i].id in g && g[ordered[i].id].Some? ==>
      exists j :: 0 <= j < i && ordered[j].id == g[ordered[i].id].value
  }

  /** An event stood in for a root, although it has a cause, only when no event is without one. */
  ghost predicate RootsUncaused(roots: seq<Event>, g: Parents) {
    forall r :: r in roots ==> r.id in g && g[r.id].None?
  }

  /** Every unreachable effect follows its cause in time, or in the input at the same time. */
  ghost predicate OrphansOrdered(events: seq<Event>, g: Parents, reached: seq<Event>)
    requires Log(events, g)
  {
    forall e, p :: e in events && p in events && e !in reached && g[e.id] == Some(p.id) ==> StablyBefore(events, p, e)
  }

  lemma ReachedCausePrecedes(events: seq<Event>, i: nat)
    requires DistinctIds(events) && RootsUncaused(Roots(events), CaseParents(events)) && i < |Reached(events)|
    ensures CausePrecedes(Reached(events), CaseParents(events), i)
  {
    var from := CausesFirst(events);
    if i < |Roots(events)| {
      assert Reached(events)[i] == Roots(events)[i] && Roots(events)[i] in Roots(events);
    } else {
      assert IdList(Reached(events))[from[i]] == Reached(events)[from[i]].id;
      assert IdList(Reached(events))[i] == Reached(events)[i].id;
    }
  }

  lemma OnlyRootUncaused(events: seq<Event>, g: Parents, roots: seq<Event>, ordered: seq<Event>)
    requires RootedBy(events, g, roots) && roots <= ordered && CausesPrecede(ordered, g)
    ensures RootsUncaused(roots, g)
  {
    if |roots| == 1 {
      assert ordered[0] == roots[0] && roots[0] in roots;
      assert CausePrecedes(ordered, g, 0);
    }
  }

  ghost predicate Split(events: seq<Event>, g: Parents, walk: seq<Event>, orphans: seq<Event>) {
    && Log(events, g) && DistinctIds(walk + orphans)
    && (forall e :: e in events <==> e in walk || e in orphans)
    && (forall e, p :: p in walk && e in orphans ==> g[e.id] != Some(p.id))
    && orphans == SortByTime(Select(events, NotIn(Ids(walk))))
  }

  /** An orphan follows its cause in the trace exactly when it does in time. */
  lemma OrphanFollowsExactly(events: seq<Event>, g: Parents, walk: seq<Event>, orphans: seq<Event>, e: Event, p: Event)
    requires Split(events, g, walk, orphans) && e in orphans && p in orphans
    ensures Precedes(orphans, p, e) <==> StablyBefore(events, p, e)
  {
    SortSorts(Select(events, NotIn(Ids(walk))));
    SortedSelectionExactly(events, NotIn(Ids(walk)), p, e);
  }

  lemma PrecedesInTail(walk: seq<Event>, orphans: seq<Event>, k: nat, p: Event)
    requires DistinctIds(walk + orphans) && k < |orphans| && Precedes(orphans, p, orphans[k])
    ensures exists j :: 0 <= j < |walk| + k && (walk + orphans)[j].id == p.id
  {
    var i, l :| 0 <= i < l < |orphans| && orphans[i] == p && orphans[l] == orphans[k];
    assert (walk + orphans)[|walk| + i] == p;
    assert (walk + orphans)[|walk| + l] == orphans[l] && (walk + orphans)[|walk| + k] == orphans[k];
  }

  lemma OrphanCausePrecedes(events: seq<Event>, g: Parents, walk: seq<Event>, orphans: seq<Event>, k: nat, p: Event)
    requires Split(events, g, walk, orphans) && k < |orphans| && p in events && orphans[k] in events
    requires g[orphans[k].id] == Some(p.id)
    ensures CausePrecedes(walk + orphans, g, |walk| + k) <==> StablyBefore(events, p, orphans[k])
  {
    var ordered, e := walk + orphans, orphans[k];
    assert ordered[|walk| + k] == e && e in orphans;
    OrphanFollowsExactly(events, g, walk, orphans, e, p);
    if Precedes(orphans, p, e) {
      PrecedesInTail(walk, orphans, k, p);
    } else if j :| 0 <= j < |walk| + k && ordered[j].id == p.id {
      SameInOrder(events, walk, orphans, j, k, p);
    }
  }

  lemma SameInOrder(events: seq<Event>, walk: seq<Event>, orphans: seq<Event>, j: nat, k: nat, p: Event)
    requires DistinctIds(events) && p in events && p in orphans
    requires forall e :: e in events <==> e in walk || e in orphans
    requires DistinctIds(walk + orphans) && k < |orphans| && j < |walk| + k && (walk + orphans)[j].id == p.id
    ensures Precedes(orphans, p, orphans[k])
  {
    var i :| 0 <= i < |orphans| && orphans[i] == p;
    assert (walk + orphans)[|walk| + i] == p;
    assert j == |walk| + i;
  }

  lemma TraceSplits(events: seq<Event>)
    requires DistinctIds(events)
    ensures Split(events, CaseParents(events), Reached(events), Orphans(events))
  {
    var g := CaseParents(events);
    TracePermutes(events);
    PermutedDistinct(events, Reached(events) + Orphans(events));
    TraceMembers(events);
    OrphansExactly(events);
    ReachedIsBreadthFirst(events);
    WalkIsClosed(events, g, KidsIn(events, g), Roots(events), Reached(events));
    forall e
      ensures e in events <==> e in Reached(events) || e in Orphans(events)
    {
      assert e in events <==> e in Reached(events) + Orphans(events);
    }
    forall e, p | p in Reached(events) && e in Orphans(events)
      ensures g[e.id] != Some(p.id)
    {
      if g[e.id] == Some(p.id) {
        assert e.id in Ids(Reached(events));
        IdNamesEvent(events, e, EventWith(Reached(events), e.id));
      }
    }
  }

  lemma OrderedThenPrecede(events: seq<Event>, g: Parents, walk: seq<Event>, orphans: seq<Event>)
    requires Split(events, g, walk, orphans) && CausesPrecede(walk, g) && OrphansOrdered(events, g, walk)
    ensures CausesPrecede(walk + orphans, g)
  {
    var ordered := walk + orphans;
    forall i | 0 <= i < |ordered|
      ensures CausePrecedes(ordered, g, i)
    {
      if i < |walk| {
        assert CausePrecedes(walk, g, i);
        assert forall j :: 0 <= j <= i ==> ordered[j] == walk[j];
      } else {
        var e := orphans[i - |walk|];
        assert ordered[i] == e && e in orphans;
        if g[e.id].Some? {
          NotInBoth(walk, orphans, e);
          OrphanCausePrecedes(events, g, walk, orphans, i - |walk|, EventWith(events, g[e.id].value));
        }
      }
    }
  }

  lemma NotInBoth(walk: seq<Event>, orphans: seq<Event>, e: Event)
    requires DistinctIds(walk + orphans) && e in orphans
    ensures e !in walk
  {
    var k :| 0 <= k < |orphans| && orphans[k] == e;
    assert (walk + orphans)[|walk| + k] == e;
    forall i | 0 <= i < |walk|
      ensures walk[i] != e
    {
      assert (walk + orphans)[i] == walk[i];
    }
  }

  lemma PrecedeThenOrdered(events: seq<Event>, g: Parents, walk: seq<Event>, orphans: seq<Event>)
    requires Split(events, g, walk, orphans) && CausesPrecede(walk + orphans, g)
    ensures OrphansOrdered(events, g, walk)
  {
    forall e, p | e in events && p in events && e !in walk && g[e.id] == Some(p.id)
      ensures StablyBefore(events, p, e)
    {
      var k :| 0 <= k < |orphans| && orphans[k] == e;
      assert CausePrecedes(walk + orphans, g, |walk| + k);
      OrphanCausePrecedes(events, g, walk, orphans, k, p);
    }
  }

  /** The trace lists every resolved cause before its effect exactly when no event with a cause had to
      stand in for a root and every unreachable effect is no older than its cause. */
  lemma TraceExtendsCausationExactly(events: seq<Event>)
    requires DistinctIds(events)
    ensures CausesPrecede(Reached(events) + Orphans(events), CaseParents(events)) <==>
      RootsUncaused(Roots(events), CaseParents(events)) && OrphansOrdered(events, CaseParents(events), Reached(events))
  {
    var g, walk, orphans := CaseParents(events), Reached(events), Orphans(events);
    TraceSplits(events);
    if CausesPrecede(walk + orphans, g) {
      RootsFacts(events);
      var from := CausesFirst(events);
      OnlyRootUncaused(events, g, Roots(events), walk + orphans);
      PrecedeThenOrdered(events, g, walk, orphans);
    }
    if RootsUncaused(Roots(events), g) && OrphansOrdered(events, g, walk) {
      forall i | 0 <= i < |walk|
        ensures CausePrecedes(walk, g, i)
      {
        ReachedCausePrecedes(events, i);
      }
      OrderedThenPrecede(events, g, walk, orphans);
    }
  }

  /** Two events that cause each other: one stands in for a root, and the trace lists it before its cause. */
  lemma MutualCausesMisordered(a: Event, b: Event)
    requires a.id != b.id && a.causation == Some(b.id) && b.causation == Some(a.id)
    ensures !CausesPrecede(Reached([a, b]) + Orphans([a, b]), CaseParents([a, b]))
  {
    var events := [a, b];
    var g := CaseParents(events);
    assert Select(events, Uncaused()) == [] by {
      assert forall e :: e in Select(events, Uncaused()) ==> e in events && e.causation.None?;
    }
    var root := Roots(events)[0];
    assert root in events && g[root.id] == ResolvedCause(events)(root);
    assert a in events && b in events && root in Roots(events);
    TraceExtendsCausationExactly(events);
  }

  lemma RootsAreUncaused(events: seq<Event>, root: Event, r: Event)
    requires root in events && root.causation == None && r in Roots(events)
    ensures r.causation == None
  {
    assert root in Select(events, Uncaused());
    SortSorts(Select(events, Uncaused()));
  }

  lemma TwoStepsUp(g: Parents, x: Id, p: Id, n: nat)
    requires Closed(g) && x in g && g[x] == Some(p) && g[p] == None
    ensures Up(g, x, n) == if n == 0 then Some(x) else if n == 1 then Some(p) else None
  {
    if n > 0 {
      assert Up(g, x, n) == Up(g, p, n - 1);
    }
  }

  lemma LostIsUnreached(events: seq<Event>, root: Event, lost: Event, effect: Event)
    requires DistinctIds(events) && root in events && lost in events && effect in events
    requires root.causation == None && lost.causation.Some? && effect.causation.Some?
    requires CaseParents(events)[effect.id] == Some(lost.id) && CaseParents(events)[lost.id] == None
    ensures effect !in Reached(events)
  {
    var g, roots := CaseParents(events), Roots(events);
    RootsFacts(events);
    forall r | r in roots
      ensures r.id != lost.id && r.id != effect.id
    {
      RootsAreUncaused(events, root, r);
      if r.id == lost.id { IdNamesEvent(events, r, lost); }
      if r.id == effect.id { IdNamesEvent(events, r, effect); }
    }
    forall n: nat
      ensures !(Up(g, effect.id, n).Some? && Up(g, effect.id, n).value in Ids(roots))
    {
      TwoStepsUp(g, effect.id, lost.id, n);
    }
    ReachedExactly(events, effect);
  }

  lemma EarlierThanItsCause(events: seq<Event>, g: Parents, reached: seq<Event>, e: Event, p: Event)
    requires Log(events, g) && e in events && p in events && e !in reached && g[e.id] == Some(p.id) && e.at < p.at
    ensures !OrphansOrdered(events, g, reached)
  {
    assert !StablyBefore(events, p, e);
  }

  /** In a case with a root, an event whose cause is nowhere in the case, and an effect of it with an
      earlier timestamp: the effect is listed first. */
  lemma EarlyEffectMisordered(events: seq<Event>, root: Event, lost: Event, effect: Event)
    requires DistinctIds(events) && root in events && lost in events && effect in events
    requires root.causation == None && lost.causation.Some? && CaseParents(events)[lost.id] == None
    requires effect.causation == Some(lost.id) && effect.at < lost.at
    ensures !CausesPrecede(Reached(events) + Orphans(events), CaseParents(events))
  {
    assert CaseParents(events)[effect.id] == ResolvedCause(events)(effect);
    LostIsUnreached(events, root, lost, effect);
    EarlierThanItsCause(events, CaseParents(events), Reached(events), effect, lost);
    TraceExtendsCausationExactly(events);
  }

  /** Every cause is strictly older than its effect. */
  ghost predicate TimesIncrease(events: seq<Event>, g: Parents)
    requires Log(events, g)
  {
    forall e, p :: e in events && p in events && g[e.id] == Some(p.id) ==> p.at < e.at
  }

  lemma IncreasingRootsUncaused(events: seq<Event>)
    requires DistinctIds(events) && TimesIncrease(events, CaseParents(events))
    ensures RootsUncaused(Roots(events), CaseParents(events))
  {
    var g := CaseParents(events);
    RootsFacts(events);
    forall r | r in Roots(events)
      ensures r.id in g && g[r.id].None?
    {
      if g[r.id].Some? {
        assert EventWith(events, g[r.id].value).at < r.at;
      }
    }
  }

  /** So with times that increase along causes, the whole trace, orphans included, lists causes first. */
  lemma TraceExtendsCausation(events: seq<Event>)
    requires DistinctIds(events) && TimesIncrease(events, CaseParents(events))
    ensures CausesPrecede(Reached(events) + Orphans(events), CaseParents(events))
  {
    IncreasingRootsUncaused(events);
    TraceExtendsCausationExactly(events);
  }

  // ---------------------------------------------------------------- in terms of the envelopes

  lemma CausedHasCause(events: seq<Event>, e: Event, p: Event)
    requires DistinctIds(events) && e in events && CausedBy(events, e, Some(p.id))
    ensures e.causation.Some? && CaseParents(events)[e.id] == Some(p.id)
  {
    ParentExactly(events, e, Some(p.id));
  }

  lemma ReachedCauseFirst(events: seq<Event>, k: nat, p: Event)
    requires DistinctIds(events) && k < |Reached(events)| && Reached(events)[k] in events && p in events
    requires CaseParents(events)[Reached(events)[k].id] == Some(p.id) && Reached(events)[k].causation.Some?
    requires p.at < Reached(events)[k].at
    ensures exists j :: 0 <= j < k && Reached(events)[j] == p
  {
    var walk, roots := Reached(events), Roots(events);
    var from := CausesFirst(events);
    CausedRootIsEarliest(events, walk[k], p);
    BehindThePrefix(roots, walk, k);
    assert IdList(walk)[from[k]] == walk[from[k]].id && IdList(walk)[k] == walk[k].id;
    TraceMembers(events);
    assert walk[from[k]] in walk + Orphans(events);
    IdNamesEvent(events, walk[from[k]], p);
  }

  lemma BehindThePrefix(roots: seq<Event>, walk: seq<Event>, k: nat)
    requires roots <= walk && k < |walk|
    ensures walk[k] !in roots ==> k >= |roots|
  {
    if k < |roots| {
      assert walk[k] == roots[k];
    }
  }

  lemma CausedRootIsEarliest(events: seq<Event>, r: Event, p: Event)
    requires DistinctIds(events) && r.causation.Some? && p in events
    ensures r in Roots(events) ==> r.at <= p.at
  {
    RootsFacts(events);
  }

  lemma PrecedesInFront(a: seq<Event>, b: seq<Event>, p: Event, e: Event)
    ensures Precedes(a, p, e) ==> Precedes(a + b, p, e)
    ensures Precedes(b, p, e) ==> Precedes(a + b, p, e)
    ensures p in a && e in b ==> Precedes(a + b, p, e)
  {
    var s := a + b;
    if i, j :| 0 <= i < j < |a| && a[i] == p && a[j] == e { assert s[i] == p && s[j] == e; }
    if i, j :| 0 <= i < j < |b| && b[i] == p && b[j] == e { assert s[|a| + i] == p && s[|a| + j] == e; }
    if p in a && e in b {
      var i :| 0 <= i < |a| && a[i] == p;
      var j :| 0 <= j < |b| && b[j] == e;
      assert s[i] == p && s[|a| + j] == e;
    }
  }

  /** An event is listed after its cause, be that another event or the request that carries the task it
      names, whenever the cause has the earlier timestamp. */
  lemma CauseListedFirst(events: seq<Event>, e: Event, p: Event)
    requires DistinctIds(events) && e in events && p in events && CausedBy(events, e, Some(p.id)) && p.at < e.at
    ensures Precedes(Reached(events) + Orphans(events), p, e)
  {
    var g, walk, orphans := CaseParents(events), Reached(events), Orphans(events);
    CausedHasCause(events, e, p);
    TraceSplits(events);
    PrecedesInFront(walk, orphans, p, e);
    if e in walk {
      var k :| 0 <= k < |walk| && walk[k] == e;
      ReachedCauseFirst(events, k, p);
    } else if p in orphans {
      OrphanFollowsExactly(events, g, walk, orphans, e, p);
    }
  }

  /** A peer's result, which names its task as its cause, is listed after the request of that task. */
  lemma ResultAfterRequest(events: seq<Event>, e: Event, i: nat)
    requires DistinctIds(events) && e in events && e.causation.Some? && !Names(events, e.causation.value)
    requires FirstRequest(events, e.causation.value, i) && events[i].at < e.at
    ensures CausedBy(events, e, Some(events[i].id))
    ensures Precedes(Reached(events) + Orphans(events), events[i], e)
  {
    forall j: nat | FirstRequest(events, e.causation.value, j)
      ensures j == i
    {
      FirstRequestUnique(events, e.causation.value, i, j);
    }
    assert events[i] in events;
    CauseListedFirst(events, e, events[i]);
  }

  /** When there are events without a causation, they are the roots. */
  lemma UncausedAreRoots(events: seq<Event>, e: Event)
    requires e in events && e.causation == None
    ensures e in Roots(events) && forall r :: r in Roots(events) ==> r.causation == None
  {
    assert e in Select(events, Uncaused());
    SortSorts(Select(events, Uncaused()));
  }

  lemma LeadsInTime(roots: seq<Event>, ordered: seq<Event>, i: nat, j: nat)
    requires roots <= ordered && DistinctIds(ordered) && ByTime(roots)
    requires i < j < |ordered| && ordered[j] in roots
    ensures ordered[i] in roots && ordered[i].at <= ordered[j].at
  {
    var k :| 0 <= k < |roots| && roots[k] == ordered[j];
    assert ordered[k] == roots[k];
    assert k == j && ordered[i] == roots[i];
  }

  lemma TraceBeginsWithRoots(events: seq<Event>)
    requires DistinctIds(events)
    ensures Roots(events) <= Reached(events) + Orphans(events) && DistinctIds(Reached(events) + Orphans(events))
    ensures |Reached(events) + Orphans(events)| == |events|
  {
    var from := CausesFirst(events);
    TracePermutes(events);
    PermutedDistinct(events, Reached(events) + Orphans(events));
    assert |multiset(Reached(events) + Orphans(events))| == |multiset(events)|;
  }

  /** Events without a causation lead the trace, by time. */
  lemma UncausedLead(events: seq<Event>, i: nat, j: nat)
    requires DistinctIds(events) && i < j < |Reached(events) + Orphans(events)|
    ensures var ordered := Reached(events) + Orphans(events);
      ordered[j].causation == None ==> ordered[i].causation == None && ordered[i].at <= ordered[j].at
  {
    var ordered := Reached(events) + Orphans(events);
    if ordered[j].causation == None {
      TraceMembers(events);
      assert ordered[j] in ordered;
      UncausedAreRoots(events, ordered[j]);
      TraceBeginsWithRoots(events);
      RootsFacts(events);
      LeadsInTime(Roots(events), ordered, i, j);
    }
  }

  /** Without any, an earliest event leads. */
  lemma EarliestLeads(events: seq<Event>)
    requires DistinctIds(events) && events != [] && forall e :: e in events ==> e.causation.Some?
    ensures Reached(events) != [] && Reached(events)[0] in events
    ensures forall e :: e in events ==> Reached(events)[0].at <= e.at
  {
    var from := CausesFirst(events);
    RootsFacts(events);
    assert Roots(events)[0] in Roots(events) && Roots(events)[0] == Reached(events)[0];
  }
}
