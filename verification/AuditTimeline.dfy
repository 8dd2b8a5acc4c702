/** The audit timeline's causal sort (packages/testing/audit_timeline.py): a depth-first walk over the
    causation relation with no record of where it has been. */
module AuditTimeline {
  import opened Common
  import opened EventLog
  import opened CausalForest

  /** The cause an event names, when that is an event of the log. */
  function CauseIn(e: Event, ids: set<Id>): Option<Id> {
    if e.causation.Some? && e.causation.value in ids then e.causation else None
  }

  function CauseWithin(ids: set<Id>): Event -> Option<Id> { (e: Event) => CauseIn(e, ids) }

  ghost function CausationParents(events: seq<Event>): (g: Parents)
    requires DistinctIds(events)
    ensures Log(events, g)
  {
    ParentsBy(events, CauseWithin(Ids(events)))
  }

  // ---------------------------------------------------------------- the walk

  ghost predicate Siblings(events: seq<Event>, g: Parents, depth: nat, xs: seq<Event>)
    requires Log(events, g)
  {
    DistinctIds(xs) && forall x :: x in xs ==> x in events && AtDepth(g, x.id, depth)
  }

  /** What a walk may be started from: no parent, or one that is `depth` levels down. */
  ghost predicate Level(g: Parents, parent: Option<Id>, depth: nat)
    requires Closed(g)
  {
    match parent
    case None => depth == 0
    case Some(p) => p in g && AtDepth(g, p, depth)
  }

  lemma KidsAreSiblings(events: seq<Event>, g: Parents, kids: Family, parent: Option<Id>, depth: nat)
    requires FamilyOf(events, g, kids) && Level(g, parent, depth)
    ensures Siblings(events, g, depth + 1, kids(parent))
  {
    forall x | x in kids(parent)
      ensures AtDepth(g, x.id, depth + 1)
    {
      DepthOfChild(g, x.id, if depth == 0 then 1 else depth);
    }
  }

  /** Each event of a sibling list, directly followed by everything below it. */
  ghost function Preorder(events: seq<Event>, g: Parents, kids: Family, depth: nat, xs: seq<Event>): seq<Event>
    requires FamilyOf(events, g, kids) && Siblings(events, g, depth, xs)
    decreases |g| + 1 - depth, |xs|
  {
    if xs == [] then [] else
      DepthBounded(g, xs[0].id, depth);
      [xs[0]] + Below(events, g, kids, depth, xs[0]) + Preorder(events, g, kids, depth, xs[1..])
  }

  ghost function Below(events: seq<Event>, g: Parents, kids: Family, depth: nat, x: Event): seq<Event>
    requires FamilyOf(events, g, kids) && x in events && AtDepth(g, x.id, depth)
    decreases |g| + 1 - depth, 0
  {
    DepthBounded(g, x.id, depth);
    KidsAreSiblings(events, g, kids, Some(x.id), depth);
    Preorder(events, g, kids, depth + 1, kids(Some(x.id)))
  }

  lemma PreorderUnfolds(events: seq<Event>, g: Parents, kids: Family, depth: nat, xs: seq<Event>)
    requires FamilyOf(events, g, kids) && Siblings(events, g, depth, xs) && xs != []
    ensures Preorder(events, g, kids, depth, xs)
         == [xs[0]] + Below(events, g, kids, depth, xs[0]) + Preorder(events, g, kids, depth, xs[1..])
    ensures Siblings(events, g, depth, xs[1..])
  {
  }

  lemma VisitNext(events: seq<Event>, g: Parents, kids: Family, depth: nat, rest: seq<Event>, result: seq<Event>)
    requires FamilyOf(events, g, kids) && rest != [] && Siblings(events, g, depth, rest)
    ensures AtDepth(g, rest[0].id, depth) && depth <= |g| && Siblings(events, g, depth, rest[1..])
    ensures result + Preorder(events, g, kids, depth, rest)
         == result + ([rest[0]] + Below(events, g, kids, depth, rest[0])) + Preorder(events, g, kids, depth, rest[1..])
  {
    DepthBounded(g, rest[0].id, depth);
    PreorderUnfolds(events, g, kids, depth, rest);
    Regroup(result, [rest[0]], Below(events, g, kids, depth, rest[0]), Preorder(events, g, kids, depth, rest[1..]));
  }

  lemma Associate(a: seq<Event>, b: seq<Event>, c: seq<Event>)
    ensures a + b + c == a + (b + c)
  {
  }

  lemma Regroup(a: seq<Event>, b: seq<Event>, c: seq<Event>, d: seq<Event>)
    ensures a + (b + c + d) == a + (b + c) + d
  {
  }

  ghost function Walked(events: seq<Event>): seq<Event>
    requires DistinctIds(events)
  {
    var g := CausationParents(events);
    var kids := KidsIn(events, g);
    KidsInFamily(events, g);
    KidsAreSiblings(events, g, kids, None, 0);
    Preorder(events, g, kids, 1, kids(None))
  }

  ghost function Stragglers(events: seq<Event>): seq<Event>
    requires DistinctIds(events)
  {
    SortByTime(Select(events, NotIn(Ids(Walked(events)))))
  }

  class CausalSorter {
    const children: map<Option<Id>, seq<Event>>
    var result: seq<Event>

    constructor (children: map<Option<Id>, seq<Event>>)
      ensures this.children == children && result == []
    {
      this.children := children;
      result := [];
    }

    /** The sorted sibling lists are those of the log. */
    ghost predicate Holds(kids: Family) { forall k :: Lookup(children, k) == kids(k) }

    method Walk(parent: Option<Id>, ghost events: seq<Event>, ghost g: Parents, ghost kids: Family, ghost depth: nat)
      requires FamilyOf(events, g, kids) && Level(g, parent, depth) && Holds(kids)
      modifies this`result
      ensures Siblings(events, g, depth + 1, kids(parent))
      ensures result == old(result) + Preorder(events, g, kids, depth + 1, kids(parent))
      decreases |g| + 1 - depth, 2
    {
      var xs := Lookup(children, parent);
      assert xs == kids(parent);
      KidsAreSiblings(events, g, kids, parent, depth);
      VisitAll(xs, events, g, kids, depth + 1);
    }

    method VisitAll(xs: seq<Event>, ghost events: seq<Event>, ghost g: Parents, ghost kids: Family, ghost depth: nat)
      requires FamilyOf(events, g, kids) && Siblings(events, g, depth, xs) && Holds(kids)
      modifies this`result
      ensures result == old(result) + Preorder(events, g, kids, depth, xs)
      decreases |g| + 2 - depth, 1
    {
      ghost var rest, whole := xs, result + Preorder(events, g, kids, depth, xs);
      for i := 0 to |xs|
        invariant rest == xs[i..]
        invariant Siblings(events, g, depth, rest)
        invariant result + Preorder(events, g, kids, depth, rest) == whole
      {
        Visit(xs[i], rest, events, g, kids, depth);
        rest := rest[1..];
      }
    }

    method Visit(x: Event, ghost rest: seq<Event>, ghost events: seq<Event>, ghost g: Parents, ghost kids: Family,
                 ghost depth: nat)
      requires FamilyOf(events, g, kids) && rest != [] && rest[0] == x && Siblings(events, g, depth, rest)
          && Holds(kids)
      modifies this`result
      ensures Siblings(events, g, depth, rest[1..])
      ensures result + Preorder(events, g, kids, depth, rest[1..])
          == old(result) + Preorder(events, g, kids, depth, rest)
      decreases |g| + 2 - depth, 0
    {
      ghost var before := result;
      VisitNext(events, g, kids, depth, rest, result);
      result := result + [x];
      Walk(Some(x.id), events, g, kids, depth);
      Associate(before, [x], Below(events, g, kids, depth, x));
    }
  }

  lemma FromNothing(walk: seq<Event>)
    ensures [] + walk == walk
  {
  }

  method WalkFromTop(envelopes: seq<Event>, children: map<Option<Id>, seq<Event>>, ghost g: Parents, ghost kids: Family)
    returns (walked: seq<Event>)
    requires FamilyOf(envelopes, g, kids) && forall k :: Lookup(children, k) == kids(k)
    ensures Siblings(envelopes, g, 1, kids(None))
    ensures walked == Preorder(envelopes, g, kids, 1, kids(None))
  {
    var sorter := new CausalSorter(children);
    sorter.Walk(None, envelopes, g, kids, 0);
    walked := sorter.result;
    FromNothing(Preorder(envelopes, g, kids, 1, kids(None)));
  }

  method CausalSort(envelopes: seq<Event>) returns (ordered: seq<Event>)
    requires DistinctIds(envelopes)
    ensures ordered == Walked(envelopes) + Stragglers(envelopes)
  {
    var g := AssignParents(envelopes, CauseWithin(Ids(envelopes)));
    var groups := GroupByParent(envelopes, g);
    var children := SortSiblings(envelopes, g, groups);
    ghost var kids := KidsIn(envelopes, g);
    KidsInFamily(envelopes, g);
    var walked := WalkFromTop(envelopes, children, g, kids);
    assert walked == Walked(envelopes);
    var stragglers := Select(envelopes, NotIn(Ids(walked)));
    ordered := walked + SortByTime(stragglers);
  }

  // ---------------------------------------------------------------- what the walk visits

  /** x is a proper descendant of the event named p. */
  ghost predicate Descends(g: Parents, x: Id, p: Id)
    requires Closed(g) && x in g
  {
    exists n: nat :: n > 0 && Up(g, x, n) == Some(p)
  }

  ghost predicate UnderSome(g: Parents, x: Id, xs: seq<Event>)
    requires Closed(g) && x in g
  {
    exists i :: 0 <= i < |xs| && Under(g, x, xs[i].id)
  }

  ghost predicate Under(g: Parents, x: Id, p: Id)
    requires Closed(g) && x in g
  {
    exists n: nat :: Up(g, x, n) == Some(p)
  }

  lemma DescendsThrough(g: Parents, x: Id, y: Id, p: Id)
    requires Closed(g) && x in g && y in g && Under(g, x, y) && g[y] == Some(p)
    ensures Descends(g, x, p)
  {
    var n: nat :| Up(g, x, n) == Some(y);
    UpStep(g, x, n);
  }

  lemma LastStepUp(g: Parents, x: Id, p: Id) returns (y: Id)
    requires Closed(g) && x in g && Descends(g, x, p)
    ensures y in g && Under(g, x, y) && g[y] == Some(p)
  {
    var n: nat :| n > 0 && Up(g, x, n) == Some(p);
    UpStep(g, x, n - 1);
    y := Up(g, x, n - 1).value;
  }

  lemma UnderMember(g: Parents, x: Id, xs: seq<Event>, e: Event)
    requires Closed(g) && x in g && e in xs && Under(g, x, e.id)
    ensures UnderSome(g, x, xs)
  {
  }

  lemma UnderKidsExactly(events: seq<Event>, g: Parents, kids: Family, x: Id, p: Id)
    requires FamilyOf(events, g, kids) && x in g && p in g
    ensures UnderSome(g, x, kids(Some(p))) <==> Descends(g, x, p)
  {
    var xs := kids(Some(p));
    assert AreKids(events, g, Some(p), xs);
    if UnderSome(g, x, xs) {
      var i :| 0 <= i < |xs| && Under(g, x, xs[i].id);
      assert xs[i] in xs;
      DescendsThrough(g, x, xs[i].id, p);
    }
    if Descends(g, x, p) {
      var y := LastStepUp(g, x, p);
      UnderMember(g, x, xs, EventWith(events, y));
    }
  }

  /** A walk visits exactly the events under the ones it starts from. */
  lemma {:induction false} PreorderMembers(events: seq<Event>, g: Parents, kids: Family, depth: nat, xs: seq<Event>,
      e: Event)
    requires FamilyOf(events, g, kids) && Siblings(events, g, depth, xs)
    ensures e in Preorder(events, g, kids, depth, xs) <==> e in events && UnderSome(g, e.id, xs)
    decreases |g| + 1 - depth, |xs|
  {
    if xs != [] {
      var x, rest := xs[0], xs[1..];
      BelowMembers(events, g, kids, depth, x, e);
      PreorderMembers(events, g, kids, depth, rest, e);
      if e in events {
        UnderSplits(g, e.id, xs);
        UnderExactly(g, e.id, x.id);
        if e.id == x.id {
          IdNamesEvent(events, e, x);
        }
      }
    }
  }

  lemma {:induction false} BelowMembers(events: seq<Event>, g: Parents, kids: Family, depth: nat, x: Event, e: Event)
    requires FamilyOf(events, g, kids) && x in events && AtDepth(g, x.id, depth)
    ensures e in Below(events, g, kids, depth, x) <==> e in events && Descends(g, e.id, x.id)
    decreases |g| + 1 - depth, 0
  {
    DepthBounded(g, x.id, depth);
    KidsAreSiblings(events, g, kids, Some(x.id), depth);
    PreorderMembers(events, g, kids, depth + 1, kids(Some(x.id)), e);
    if e in events {
      UnderKidsExactly(events, g, kids, e.id, x.id);
    }
  }

  lemma UnderSplits(g: Parents, x: Id, xs: seq<Event>)
    requires Closed(g) && x in g && xs != []
    ensures UnderSome(g, x, xs) <==> Under(g, x, xs[0].id) || UnderSome(g, x, xs[1..])
  {
    if UnderSome(g, x, xs[1..]) {
      var i :| 0 <= i < |xs[1..]| && Under(g, x, xs[1..][i].id);
      assert xs[i + 1] == xs[1..][i];
    }
    if i :| 1 <= i < |xs| && Under(g, x, xs[i].id) {
      assert xs[1..][i - 1] == xs[i];
    }
  }

  lemma UnderExactly(g: Parents, x: Id, p: Id)
    requires Closed(g) && x in g
    ensures Under(g, x, p) <==> x == p || Descends(g, x, p)
  {
    assert Up(g, x, 0) == Some(x);
  }

  // ---------------------------------------------------------------- each event once

  /** Nothing lies under two different events of the same depth. */
  lemma UnderOneSibling(g: Parents, x: Id, p: Id, q: Id, depth: nat)
    requires Closed(g) && x in g && p in g && q in g
    requires AtDepth(g, p, depth) && AtDepth(g, q, depth)
    requires Under(g, x, p) && Under(g, x, q)
    ensures p == q
  {
    var m: nat :| Up(g, x, m) == Some(p);
    var n: nat :| Up(g, x, n) == Some(q);
    DepthOfAncestor(g, x, m, depth);
    DepthOfAncestor(g, x, n, depth);
    DepthIsUnique(g, x, depth + m, depth + n);
  }

  lemma NotUnderItself(g: Parents, x: Id, depth: nat)
    requires Closed(g) && x in g && AtDepth(g, x, depth)
    ensures !Descends(g, x, x)
  {
    if Descends(g, x, x) {
      var n: nat :| n > 0 && Up(g, x, n) == Some(x);
      DepthOfAncestor(g, x, n, depth);
      DepthIsUnique(g, x, depth, depth + n);
    }
  }

  lemma {:induction false} BelowDistinct(events: seq<Event>, g: Parents, kids: Family, depth: nat, x: Event)
    requires FamilyOf(events, g, kids) && x in events && AtDepth(g, x.id, depth)
    ensures DistinctIds(Below(events, g, kids, depth, x))
    ensures forall e | e in Below(events, g, kids, depth, x) :: e.id != x.id
    decreases |g| + 1 - depth, 0
  {
    DepthBounded(g, x.id, depth);
    KidsAreSiblings(events, g, kids, Some(x.id), depth);
    PreorderDistinct(events, g, kids, depth + 1, kids(Some(x.id)));
    forall e | e in Below(events, g, kids, depth, x)
      ensures e.id != x.id
    {
      BelowMembers(events, g, kids, depth, x, e);
      NotUnderItself(g, x.id, depth);
    }
  }

  lemma {:induction false} PreorderDistinct(events: seq<Event>, g: Parents, kids: Family, depth: nat, xs: seq<Event>)
    requires FamilyOf(events, g, kids) && Siblings(events, g, depth, xs)
    ensures DistinctIds(Preorder(events, g, kids, depth, xs))
    decreases |g| + 1 - depth, |xs|
  {
    if xs != [] {
      var x, rest := xs[0], xs[1..];
      BelowDistinct(events, g, kids, depth, x);
      PreorderDistinct(events, g, kids, depth, rest);
      forall e, f | (e == x || e in Below(events, g, kids, depth, x)) && f in Preorder(events, g, kids, depth, rest)
        ensures e.id != f.id
      {
        ApartFromSiblings(events, g, kids, depth, xs, e, f);
      }
      DistinctThree(x, Below(events, g, kids, depth, x), Preorder(events, g, kids, depth, rest));
    }
  }

  lemma DistinctThree(x: Event, below: seq<Event>, after: seq<Event>)
    requires DistinctIds(below) && DistinctIds(after)
    requires forall e | e in below :: e.id != x.id
    requires forall e, f | (e == x || e in below) && f in after :: e.id != f.id
    ensures DistinctIds([x] + below + after)
  {
    DistinctConcat([x], below);
    DistinctConcat([x] + below, after);
  }

  lemma ApartFromSiblings(events: seq<Event>, g: Parents, kids: Family, depth: nat, xs: seq<Event>, e: Event, f: Event)
    requires FamilyOf(events, g, kids) && Siblings(events, g, depth, xs) && xs != []
    requires e == xs[0] || e in Below(events, g, kids, depth, xs[0])
    requires f in Preorder(events, g, kids, depth, xs[1..])
    ensures e.id != f.id
  {
    BelowMembers(events, g, kids, depth, xs[0], e);
    PreorderMembers(events, g, kids, depth, xs[1..], f);
    UnderExactly(g, e.id, xs[0].id);
    var i :| 0 <= i < |xs[1..]| && Under(g, f.id, xs[1..][i].id);
    assert xs[1..][i] == xs[i + 1] && xs[i + 1] in xs;
    if e.id == f.id {
      UnderOneSibling(g, e.id, xs[0].id, xs[i + 1].id, depth);
    }
  }

  // ---------------------------------------------------------------- subtrees are contiguous

  /** The next k events after position i are exactly the descendants of the event there. */
  ghost predicate SubtreeFollows(events: seq<Event>, g: Parents, walk: seq<Event>, i: nat, k: nat)
    requires Log(events, g)
  {
    && i + 1 + k <= |walk|
    && forall e {:trigger Descends(g, e.id, walk[i].id)} {:trigger e in walk[i + 1..i + 1 + k]} ::
        e in walk[i + 1..i + 1 + k] <==> e in events && Descends(g, e.id, walk[i].id)
  }

  lemma SubtreeInContext(events: seq<Event>, g: Parents, a: seq<Event>, walk: seq<Event>, b: seq<Event>, i: nat, k: nat)
    requires Log(events, g) && i < |walk| && SubtreeFollows(events, g, walk, i, k)
    ensures SubtreeFollows(events, g, a + walk + b, |a| + i, k)
  {
    var all := a + walk + b;
    assert all[|a| + i + 1..|a| + i + 1 + k] == walk[i + 1..i + 1 + k];
    assert all[|a| + i] == walk[i];
  }

  lemma SubtreeAfter(events: seq<Event>, g: Parents, a: seq<Event>, walk: seq<Event>, all: seq<Event>, i: nat, k: nat)
    requires Log(events, g) && all == a + walk && |a| <= i < |all| && SubtreeFollows(events, g, walk, i - |a|, k)
    ensures SubtreeFollows(events, g, all, i, k)
  {
    SubtreeInContext(events, g, a, walk, [], i - |a|, k);
    assert a + walk + [] == all;
  }

  lemma SubtreeBefore(events: seq<Event>, g: Parents, walk: seq<Event>, b: seq<Event>, i: nat, k: nat)
    requires Log(events, g) && i < |walk| && SubtreeFollows(events, g, walk, i, k)
    ensures SubtreeFollows(events, g, walk + b, i, k)
  {
    SubtreeInContext(events, g, [], walk, b, i, k);
    assert [] + walk + b == walk + b;
  }

  lemma WholeSubtree(events: seq<Event>, g: Parents, kids: Family, depth: nat, x: Event, after: seq<Event>)
    requires FamilyOf(events, g, kids) && x in events && AtDepth(g, x.id, depth)
    ensures SubtreeFollows(events, g, [x] + Below(events, g, kids, depth, x) + after, 0,
        |Below(events, g, kids, depth, x)|)
  {
    var below := Below(events, g, kids, depth, x);
    assert ([x] + below + after)[1..1 + |below|] == below;
    forall e
      ensures e in below <==> e in events && Descends(g, e.id, x.id)
    {
      BelowMembers(events, g, kids, depth, x, e);
    }
  }

  lemma {:induction false} BelowSubtree(events: seq<Event>, g: Parents, kids: Family, depth: nat, x: Event, i: nat)
    returns (k: nat)
    requires FamilyOf(events, g, kids) && x in events && AtDepth(g, x.id, depth)
    requires i < |Below(events, g, kids, depth, x)|
    ensures SubtreeFollows(events, g, Below(events, g, kids, depth, x), i, k)
    decreases |g| + 1 - depth, 0
  {
    DepthBounded(g, x.id, depth);
    KidsAreSiblings(events, g, kids, Some(x.id), depth);
    k := PreorderSubtree(events, g, kids, depth + 1, kids(Some(x.id)), i);
  }

  lemma {:induction false} HeadSubtree(events: seq<Event>, g: Parents, kids: Family, depth: nat, x: Event,
                                       after: seq<Event>, i: nat) returns (k: nat)
    requires FamilyOf(events, g, kids) && x in events && AtDepth(g, x.id, depth)
    requires i <= |Below(events, g, kids, depth, x)|
    ensures SubtreeFollows(events, g, [x] + Below(events, g, kids, depth, x) + after, i, k)
    decreases |g| + 1 - depth, 1
  {
    if i == 0 {
      k := |Below(events, g, kids, depth, x)|;
      WholeSubtree(events, g, kids, depth, x, after);
    } else {
      k := BelowSubtree(events, g, kids, depth, x, i - 1);
      SubtreeInContext(events, g, [x], Below(events, g, kids, depth, x), after, i - 1, k);
    }
  }

  lemma {:induction false} PreorderSubtree(events: seq<Event>, g: Parents, kids: Family, depth: nat, xs: seq<Event>,
      i: nat)
    returns (k: nat)
    requires FamilyOf(events, g, kids) && Siblings(events, g, depth, xs)
    requires i < |Preorder(events, g, kids, depth, xs)|
    ensures SubtreeFollows(events, g, Preorder(events, g, kids, depth, xs), i, k)
    decreases |g| + 1 - depth, 1 + |xs|
  {
    var x, rest := xs[0], xs[1..];
    PreorderUnfolds(events, g, kids, depth, xs);
    var below, after := Below(events, g, kids, depth, x), Preorder(events, g, kids, depth, rest);
    if i <= |below| {
      k := HeadSubtree(events, g, kids, depth, x, after, i);
    } else {
      k := PreorderSubtree(events, g, kids, depth, rest, i - |[x] + below|);
      SubtreeAfter(events, g, [x] + below, after, Preorder(events, g, kids, depth, xs), i, k);
    }
  }

  // ---------------------------------------------------------------- siblings by time

  ghost predicate SameParent(g: Parents, x: Id, y: Id) { x in g && y in g && g[x] == g[y] }

  lemma SameParentSameDepth(g: Parents, x: Id, y: Id, depth: nat)
    requires Closed(g) && SameParent(g, x, y) && AtDepth(g, x, depth)
    ensures AtDepth(g, y, depth)
  {
    if g[x].None? {
      DepthOfChild(g, x, 1);
      DepthOfChild(g, y, 1);
      DepthIsUnique(g, x, 1, depth);
    } else {
      UpStep(g, x, 0);
      DepthOfChild(g, x, depth - 1);
      DepthOfChild(g, y, depth - 1);
    }
  }

  /** Events with one parent, one of them below p, are all below p. */
  lemma SiblingBelow(g: Parents, x: Id, y: Id, p: Id)
    requires Closed(g) && SameParent(g, x, y) && p in g && Descends(g, x, p)
    ensures Descends(g, y, p)
  {
    var n: nat :| n > 0 && Up(g, x, n) == Some(p);
    assert Up(g, x, n) == Up(g, g[x].value, n - 1);
    assert Up(g, y, n) == Up(g, g[y].value, n - 1);
  }

  lemma UnderSameLevel(g: Parents, x: Id, y: Id, depth: nat)
    requires Closed(g) && x in g && y in g && AtDepth(g, x, depth) && AtDepth(g, y, depth) && Under(g, x, y)
    ensures x == y
  {
    UnderExactly(g, x, x);
    UnderOneSibling(g, x, x, y, depth);
  }

  /** A sibling of the first event visited, outside its subtree, was in the same list. */
  lemma SiblingAfterHead(events: seq<Event>, g: Parents, depth: nat, xs: seq<Event>, x: Event, f: Event)
    requires Log(events, g) && Siblings(events, g, depth, xs) && x in events && AtDepth(g, x.id, depth)
    requires f in events && UnderSome(g, f.id, xs) && SameParent(g, x.id, f.id)
    ensures f in xs
  {
    var i :| 0 <= i < |xs| && Under(g, f.id, xs[i].id);
    var y := xs[i];
    assert y in xs;
    SameParentSameDepth(g, x.id, f.id, depth);
    UnderSameLevel(g, f.id, y.id, depth);
    IdNamesEvent(events, f, y);
  }

  lemma NoSiblingBelow(g: Parents, x: Id, y: Id, depth: nat)
    requires Closed(g) && x in g && y in g && AtDepth(g, x, depth) && Descends(g, y, x)
    ensures !SameParent(g, y, x)
  {
    if SameParent(g, y, x) {
      SiblingBelow(g, y, x, x);
      NotUnderItself(g, x, depth);
    }
  }

  /** Siblings of an event below x are below x, so not under any of the others. */
  lemma SiblingsStayBelow(g: Parents, xs: seq<Event>, x: Id, e: Id, f: Id, depth: nat)
    requires Closed(g) && x in g && e in g && f in g && AtDepth(g, x, depth)
    requires forall y :: y in xs ==> y.id in g && AtDepth(g, y.id, depth) && y.id != x
    requires Descends(g, e, x) && UnderSome(g, f, xs)
    ensures !SameParent(g, e, f)
  {
    if SameParent(g, e, f) {
      SiblingBelow(g, e, f, x);
      UnderExactly(g, f, x);
      var i :| 0 <= i < |xs| && Under(g, f, xs[i].id);
      assert xs[i] in xs;
      UnderOneSibling(g, f, x, xs[i].id, depth);
    }
  }

  /** Of two events with one parent, the one visited first is not the later one. */
  ghost predicate SiblingsOrdered(g: Parents, walk: seq<Event>, i: nat, j: nat) {
    i < j < |walk| && (SameParent(g, walk[i].id, walk[j].id) ==> walk[i].at <= walk[j].at)
  }

  lemma {:induction false} BelowSiblings(events: seq<Event>, g: Parents, kids: Family, depth: nat, x: Event, i: nat,
      j: nat)
    requires FamilyOf(events, g, kids) && x in events && AtDepth(g, x.id, depth)
    requires i < j < |Below(events, g, kids, depth, x)|
    ensures SiblingsOrdered(g, Below(events, g, kids, depth, x), i, j)
    decreases |g| + 1 - depth, 0
  {
    DepthBounded(g, x.id, depth);
    KidsAreSiblings(events, g, kids, Some(x.id), depth);
    assert AreKids(events, g, Some(x.id), kids(Some(x.id)));
    PreorderSiblings(events, g, kids, depth + 1, kids(Some(x.id)), i, j);
  }

  lemma SiblingsOfHead(events: seq<Event>, g: Parents, kids: Family, depth: nat, xs: seq<Event>, f: Event)
    requires FamilyOf(events, g, kids) && Siblings(events, g, depth, xs) && ByTime(xs) && xs != []
    requires f in Below(events, g, kids, depth, xs[0]) || f in Preorder(events, g, kids, depth, xs[1..])
    ensures SameParent(g, xs[0].id, f.id) ==> xs[0].at <= f.at
  {
    if SameParent(g, xs[0].id, f.id) {
      BelowMembers(events, g, kids, depth, xs[0], f);
      PreorderMembers(events, g, kids, depth, xs[1..], f);
      if f in Below(events, g, kids, depth, xs[0]) {
        NoSiblingBelow(g, xs[0].id, f.id, depth);
      } else {
        SiblingAfterHead(events, g, depth, xs[1..], xs[0], f);
      }
    }
  }

  lemma AcrossSiblings(events: seq<Event>, g: Parents, kids: Family, depth: nat, xs: seq<Event>, e: Event, f: Event)
    requires FamilyOf(events, g, kids) && Siblings(events, g, depth, xs) && xs != []
    requires e in Below(events, g, kids, depth, xs[0]) && f in Preorder(events, g, kids, depth, xs[1..])
    ensures !SameParent(g, e.id, f.id)
  {
    BelowMembers(events, g, kids, depth, xs[0], e);
    PreorderMembers(events, g, kids, depth, xs[1..], f);
    forall y | y in xs[1..]
      ensures y.id != xs[0].id
    {
    }
    SiblingsStayBelow(g, xs[1..], xs[0].id, e.id, f.id, depth);
  }

  lemma {:induction false} SubtreeSiblings(events: seq<Event>, g: Parents, kids: Family, depth: nat, xs: seq<Event>,
                                           i: nat, j: nat)
    requires FamilyOf(events, g, kids) && Siblings(events, g, depth, xs) && xs != []
    requires 0 < i < j <= |Below(events, g, kids, depth, xs[0])|
    ensures SiblingsOrdered(g, Preorder(events, g, kids, depth, xs), i, j)
    decreases |g| + 1 - depth, 1
  {
    BelowSiblings(events, g, kids, depth, xs[0], i - 1, j - 1);
    PreorderUnfolds(events, g, kids, depth, xs);
    OrderedWithin(g, xs[0], Below(events, g, kids, depth, xs[0]), Preorder(events, g, kids, depth, xs[1..]),
                  Preorder(events, g, kids, depth, xs), i, j);
  }

  lemma PreorderLength(events: seq<Event>, g: Parents, kids: Family, depth: nat, xs: seq<Event>)
    requires FamilyOf(events, g, kids) && Siblings(events, g, depth, xs) && xs != []
    ensures |Preorder(events, g, kids, depth, xs)|
         == 1 + |Below(events, g, kids, depth, xs[0])| + |Preorder(events, g, kids, depth, xs[1..])|
  {
    PreorderUnfolds(events, g, kids, depth, xs);
  }

  lemma {:induction false} PreorderSiblings(events: seq<Event>, g: Parents, kids: Family, depth: nat, xs: seq<Event>,
                                            i: nat, j: nat)
    requires FamilyOf(events, g, kids) && Siblings(events, g, depth, xs) && ByTime(xs)
    requires i < j < |Preorder(events, g, kids, depth, xs)|
    ensures SiblingsOrdered(g, Preorder(events, g, kids, depth, xs), i, j)
    decreases |g| + 1 - depth, 1 + |xs|
  {
    var n := |Below(events, g, kids, depth, xs[0])|;
    if i == 0 || i <= n < j {
      HeadSiblings(events, g, kids, depth, xs, i, j);
    } else if i <= n {
      SubtreeSiblings(events, g, kids, depth, xs, i, j);
    } else {
      PreorderLength(events, g, kids, depth, xs);
      PreorderSiblings(events, g, kids, depth, xs[1..], i - n - 1, j - n - 1);
      PreorderUnfolds(events, g, kids, depth, xs);
      OrderedAfter(g, xs[0], Below(events, g, kids, depth, xs[0]), Preorder(events, g, kids, depth, xs[1..]),
                   Preorder(events, g, kids, depth, xs), i - n - 1, j - n - 1, i, j);
    }
  }

  lemma HeadSiblings(events: seq<Event>, g: Parents, kids: Family, depth: nat, xs: seq<Event>, i: nat, j: nat)
    requires FamilyOf(events, g, kids) && Siblings(events, g, depth, xs) && ByTime(xs)
    requires i < j < |Preorder(events, g, kids, depth, xs)|
    requires i == 0 || i <= |Below(events, g, kids, depth, xs[0])| < j
    ensures SiblingsOrdered(g, Preorder(events, g, kids, depth, xs), i, j)
  {
    var below, after := Below(events, g, kids, depth, xs[0]), Preorder(events, g, kids, depth, xs[1..]);
    var all := Preorder(events, g, kids, depth, xs);
    PreorderUnfolds(events, g, kids, depth, xs);
    ConcatAt(xs[0], below, after, all, i);
    ConcatAt(xs[0], below, after, all, j);
    if i == 0 {
      SiblingsOfHead(events, g, kids, depth, xs, all[j]);
    } else {
      AcrossSiblings(events, g, kids, depth, xs, all[i], all[j]);
    }
  }

  lemma OrderedWithin(g: Parents, x: Event, below: seq<Event>, after: seq<Event>, all: seq<Event>, i: nat, j: nat)
    requires all == [x] + below + after && 0 < i < j <= |below| && SiblingsOrdered(g, below, i - 1, j - 1)
    ensures SiblingsOrdered(g, all, i, j)
  {
    assert all[i] == below[i - 1] && all[j] == below[j - 1];
  }

  lemma OrderedAfter(g: Parents, x: Event, below: seq<Event>, after: seq<Event>, all: seq<Event>,
                     k: nat, l: nat, i: nat, j: nat)
    requires all == [x] + below + after && SiblingsOrdered(g, after, k, l)
    requires i == k + |below| + 1 && j == l + |below| + 1
    ensures SiblingsOrdered(g, all, i, j)
  {
    assert all[i] == after[k] && all[j] == after[l];
  }

  lemma ConcatAt(x: Event, below: seq<Event>, after: seq<Event>, all: seq<Event>, i: nat)
    requires all == [x] + below + after && i < |all|
    ensures i == 0 ==> all[i] == x
    ensures 0 < i <= |below| ==> all[i] in below
    ensures |below| < i ==> all[i] in after
  {
    if 0 < i <= |below| {
      assert all[i] == below[i - 1];
    } else if |below| < i {
      assert all[i] == after[i - 1 - |below|];
    }
  }

  // ---------------------------------------------------------------- the whole timeline

  lemma UnderTopIsRooted(g: Parents, x: Id, top: Id)
    requires Closed(g) && x in g && top in g && Under(g, x, top) && g[top].None?
    ensures Rooted(g, x)
  {
    var n: nat :| Up(g, x, n) == Some(top);
    UpStep(g, x, n);
  }

  lemma TopOfRooted(g: Parents, x: Id) returns (top: Id)
    requires Closed(g) && x in g && Rooted(g, x)
    ensures top in g && Under(g, x, top) && g[top].None?
  {
    var n: nat :| Up(g, x, n).None?;
    var d := RootedHasDepth(g, x, n);
    top := Up(g, x, d - 1).value;
    UpStep(g, x, d - 1);
  }

  lemma UnderTopsExactlyRooted(events: seq<Event>, g: Parents, kids: Family, x: Id)
    requires FamilyOf(events, g, kids) && x in g
    ensures UnderSome(g, x, kids(None)) <==> Rooted(g, x)
  {
    var tops := kids(None);
    assert AreKids(events, g, None, tops);
    if UnderSome(g, x, tops) {
      var i :| 0 <= i < |tops| && Under(g, x, tops[i].id);
      assert tops[i] in tops;
      UnderTopIsRooted(g, x, tops[i].id);
    }
    if Rooted(g, x) {
      var top := TopOfRooted(g, x);
      UnderMember(g, x, tops, EventWith(events, top));
    }
  }

  /** The walk visits exactly the events whose causes lead, step by step, to an event without one. */
  lemma WalkedExactly(events: seq<Event>, e: Event)
    requires DistinctIds(events)
    ensures e in Walked(events) <==> e in events && Rooted(CausationParents(events), e.id)
  {
    var g := CausationParents(events);
    var kids := KidsIn(events, g);
    KidsInFamily(events, g);
    KidsAreSiblings(events, g, kids, None, 0);
    PreorderMembers(events, g, kids, 1, kids(None), e);
    if e in events {
      UnderTopsExactlyRooted(events, g, kids, e.id);
    }
  }

  lemma WalkedDistinct(events: seq<Event>)
    requires DistinctIds(events)
    ensures DistinctIds(Walked(events))
  {
    var g := CausationParents(events);
    var kids := KidsIn(events, g);
    KidsInFamily(events, g);
    KidsAreSiblings(events, g, kids, None, 0);
    PreorderDistinct(events, g, kids, 1, kids(None));
  }

  lemma StragglersExactly(events: seq<Event>)
    requires DistinctIds(events)
    ensures forall e :: e in Stragglers(events) <==> e in events && e !in Walked(events)
    ensures ByTime(Stragglers(events)) && DistinctIds(Stragglers(events))
  {
    var rest := Select(events, NotIn(Ids(Walked(events))));
    SortSorts(rest);
    SelectDistinct(events, NotIn(Ids(Walked(events))));
    PermutedDistinct(rest, SortByTime(rest));
    forall e
      ensures e in rest <==> e in events && e !in Walked(events)
    {
      if e in events && e.id in Ids(Walked(events)) {
        var f :| f in Walked(events) && f.id == e.id;
        WalkedExactly(events, f);
        IdNamesEvent(events, e, f);
      }
    }
  }

  /** The timeline holds every event of the log once. */
  lemma CausalSortPermutes(events: seq<Event>)
    requires DistinctIds(events)
    ensures multiset(Walked(events) + Stragglers(events)) == multiset(events)
  {
    WalkedDistinct(events);
    StragglersExactly(events);
    forall e, f | e in Walked(events) && f in Stragglers(events)
      ensures e.id != f.id
    {
      WalkedExactly(events, e);
      if e.id == f.id {
        IdNamesEvent(events, e, f);
      }
    }
    DistinctConcat(Walked(events), Stragglers(events));
    forall e
      ensures e in Walked(events) + Stragglers(events) <==> e in events
    {
      WalkedExactly(events, e);
    }
    SameMembersPermute(Walked(events) + Stragglers(events), events);
  }

  /** Every visited event directly precedes its complete subtree; in particular a cause comes first. */
  lemma SubtreesContiguous(events: seq<Event>, i: nat) returns (k: nat)
    requires DistinctIds(events) && i < |Walked(events)|
    ensures SubtreeFollows(events, CausationParents(events), Walked(events) + Stragglers(events), i, k)
  {
    var g := CausationParents(events);
    var kids := KidsIn(events, g);
    KidsInFamily(events, g);
    KidsAreSiblings(events, g, kids, None, 0);
    k := PreorderSubtree(events, g, kids, 1, kids(None), i);
    SubtreeBefore(events, g, Walked(events), Stragglers(events), i, k);
  }

  /** Effects of one cause, and events without one, are visited earliest first. */
  lemma SiblingsByTime(events: seq<Event>, i: nat, j: nat)
    requires DistinctIds(events) && i < j < |Walked(events)|
    ensures SiblingsOrdered(CausationParents(events), Walked(events), i, j)
  {
    var g := CausationParents(events);
    var kids := KidsIn(events, g);
    KidsInFamily(events, g);
    KidsAreSiblings(events, g, kids, None, 0);
    assert AreKids(events, g, None, kids(None));
    PreorderSiblings(events, g, kids, 1, kids(None), i, j);
  }

  /** Something is left over, to be appended by time, exactly when the causes go round in a circle. */
  lemma StragglersExactlyCyclic(events: seq<Event>)
    requires DistinctIds(events)
    ensures Stragglers(events) != [] <==> Cyclic(CausationParents(events))
  {
    var g := CausationParents(events);
    StragglersExactly(events);
    EndlessExactlyCyclic(g);
    if Stragglers(events) != [] {
      var e := Stragglers(events)[0];
      WalkedExactly(events, e);
      assert e.id in g && !Rooted(g, e.id);
    }
    if x :| x in g && !Rooted(g, x) {
      var e := EventWith(events, x);
      WalkedExactly(events, e);
      assert e in Stragglers(events);
    }
  }
}
