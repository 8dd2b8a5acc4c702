/** The parent relation both timeline builders walk: every event has at most one parent, itself an
    event of the log. Nothing stops the relation from having cycles. */
module CausalForest {
  import opened Common
  import opened EventLog

  type Parents = map<Id, Option<Id>>

  ghost predicate Closed(g: Parents) {
    forall x {:trigger g[x]} :: x in g && g[x].Some? ==> g[x].value in g
  }

  /** The n-th ancestor, if there is one. */
  ghost function Up(g: Parents, x: Id, n: nat): (r: Option<Id>)
    requires Closed(g) && x in g
    ensures r.Some? ==> r.value in g
    decreases n
  {
    if n == 0 then Some(x) else if g[x].None? then None else Up(g, g[x].value, n - 1)
  }

  lemma {:induction false} UpPlus(g: Parents, x: Id, m: nat, n: nat)
    requires Closed(g) && x in g
    ensures Up(g, x, m + n) == (if Up(g, x, m).None? then None else Up(g, Up(g, x, m).value, n))
    decreases m
  {
    if m > 0 && g[x].Some? {
      UpPlus(g, g[x].value, m - 1, n);
    }
  }

  /** The parent of the n-th ancestor is the next ancestor. */
  lemma UpStep(g: Parents, x: Id, n: nat)
    requires Closed(g) && x in g
    ensures Up(g, x, n + 1) == (if Up(g, x, n).None? then None else g[Up(g, x, n).value])
  {
    UpPlus(g, x, n, 1);
    if Up(g, x, n).Some? {
      var y := Up(g, x, n).value;
      assert g[y].Some? ==> Up(g, y, 1) == Up(g, g[y].value, 0);
    }
  }

  ghost predicate Rooted(g: Parents, x: Id)
    requires Closed(g) && x in g
  {
    exists n: nat :: Up(g, x, n).None?
  }

  ghost predicate OnCycle(g: Parents, x: Id)
    requires Closed(g) && x in g
  {
    exists n: nat :: n > 0 && Up(g, x, n) == Some(x)
  }

  ghost predicate Cyclic(g: Parents)
    requires Closed(g)
  {
    exists x :: x in g && OnCycle(g, x)
  }

  /** d steps up from x there is nothing, and d is the first such number. */
  ghost predicate AtDepth(g: Parents, x: Id, d: nat)
    requires Closed(g) && x in g
  {
    d > 0 && Up(g, x, d).None? && Up(g, x, d - 1).Some?
  }

  lemma {:induction false} RootedHasDepth(g: Parents, x: Id, n: nat) returns (d: nat)
    requires Closed(g) && x in g && Up(g, x, n).None?
    ensures AtDepth(g, x, d)
    decreases n
  {
    if Up(g, x, n - 1).None? {
      d := RootedHasDepth(g, x, n - 1);
    } else {
      d := n;
    }
  }

  lemma DepthIsUnique(g: Parents, x: Id, d: nat, e: nat)
    requires Closed(g) && x in g && AtDepth(g, x, d) && AtDepth(g, x, e)
    ensures d == e
  {
    if d < e {
      UpPlus(g, x, d, e - 1 - d);
    } else if e < d {
      UpPlus(g, x, e, d - 1 - e);
    }
  }

  lemma DepthOfChild(g: Parents, x: Id, d: nat)
    requires Closed(g) && x in g && d > 0
    ensures g[x].None? ==> AtDepth(g, x, 1)
    ensures g[x].Some? ==> (AtDepth(g, x, d + 1) <==> AtDepth(g, g[x].value, d))
  {
    assert Up(g, x, 0) == Some(x);
    if g[x].Some? {
      assert Up(g, x, d + 1) == Up(g, g[x].value, d);
      assert Up(g, x, d) == Up(g, g[x].value, d - 1);
    }
  }

  /** An ancestor sits exactly as many levels higher as it is steps away. */
  lemma DepthOfAncestor(g: Parents, x: Id, n: nat, d: nat)
    requires Closed(g) && x in g && Up(g, x, n).Some? && AtDepth(g, Up(g, x, n).value, d)
    ensures AtDepth(g, x, d + n)
  {
    UpPlus(g, x, n, d);
    UpPlus(g, x, n, d - 1);
  }

  // ---------------------------------------------------------------- pigeonhole

  lemma {:induction false} TooManyRepeat(s: seq<Id>, keys: set<Id>) returns (i: nat, j: nat)
    requires forall k :: 0 <= k < |s| ==> s[k] in keys
    requires |s| > |keys|
    ensures i < j < |s| && s[i] == s[j]
    decreases |s|
  {
    var front, last := s[..|s| - 1], s[|s| - 1];
    if k :| 0 <= k < |front| && s[k] == last {
      i, j := k, |s| - 1;
    } else {
      i, j := TooManyRepeat(front, keys - {last});
    }
  }

  ghost function Ancestry(g: Parents, x: Id, n: nat): (r: seq<Id>)
    requires Closed(g) && x in g && (n > 0 ==> Up(g, x, n - 1).Some?)
    ensures |r| == n
    ensures forall k :: 0 <= k < n ==> r[k] in g && Up(g, x, k) == Some(r[k])
    decreases n
  {
    if n == 0 then [] else
      UpPlus(g, x, n - 1, 0);
      assert n > 1 ==> Up(g, x, n - 2).Some? by {
        if n > 1 { UpPlus(g, x, n - 2, 1); }
      }
      Ancestry(g, x, n - 1) + [Up(g, x, n - 1).value]
  }

  lemma LongChainRepeats(g: Parents, x: Id, n: nat) returns (i: nat, j: nat)
    requires Closed(g) && x in g && Up(g, x, n).Some? && n >= |g|
    ensures i < j <= n && Up(g, x, i).Some? && Up(g, x, i) == Up(g, x, j)
  {
    var chain := Ancestry(g, x, n + 1);
    assert |g.Keys| == |g|;
    i, j := TooManyRepeat(chain, g.Keys);
  }

  lemma DepthBounded(g: Parents, x: Id, d: nat)
    requires Closed(g) && x in g && AtDepth(g, x, d)
    ensures d <= |g|
  {
    if d > |g| {
      var i, j := LongChainRepeats(g, x, d - 1);
      UpPlus(g, x, j, d - j);
      UpPlus(g, x, i, d - j);
      UpPlus(g, x, i + (d - j), j - i - 1);
    }
  }

  /** Some event never reaches a root exactly when the relation has a cycle. */
  lemma EndlessExactlyCyclic(g: Parents)
    requires Closed(g)
    ensures (exists x :: x in g && !Rooted(g, x)) <==> Cyclic(g)
  {
    if x :| x in g && !Rooted(g, x) {
      assert Up(g, x, |g|).Some?;
      var i, j := LongChainRepeats(g, x, |g|);
      var y := Up(g, x, i).value;
      UpPlus(g, x, i, j - i);
      assert Up(g, y, j - i) == Some(y);
      assert OnCycle(g, y);
    }
    if x :| x in g && OnCycle(g, x) {
      forall n: nat
        ensures Up(g, x, n).Some?
      {
        CycleIsEndless(g, x, n);
      }
    }
  }

  lemma {:induction false} CycleIsEndless(g: Parents, x: Id, n: nat)
    requires Closed(g) && x in g && OnCycle(g, x)
    ensures Up(g, x, n).Some?
    decreases n
  {
    var c: nat :| c > 0 && Up(g, x, c) == Some(x);
    if n >= c {
      UpPlus(g, x, c, n - c);
      CycleIsEndless(g, x, n - c);
    } else {
      UpPlus(g, x, n, c - n);
    }
  }

  // ---------------------------------------------------------------- the parent relation of a log

  ghost predicate Names(events: seq<Event>, i: Id) { exists e :: e in events && e.id == i }

  ghost predicate Log(events: seq<Event>, g: Parents) {
    && DistinctIds(events) && Closed(g)
    && (forall e :: e in events ==> e.id in g)
    && (forall i {:trigger Names(events, i)} :: i in g ==> Names(events, i))
  }

  ghost function EventWith(events: seq<Event>, i: Id): (e: Event)
    requires Names(events, i)
    ensures e in events && e.id == i
  {
    var e :| e in events && e.id == i;
    e
  }

  lemma IdsAreNames(events: seq<Event>)
    ensures forall i :: i in Ids(events) <==> Names(events, i)
  {
  }

  lemma IdNamesEvent(events: seq<Event>, a: Event, b: Event)
    requires DistinctIds(events) && a in events && b in events && a.id == b.id
    ensures a == b
  {
  }

  ghost predicate Assigns(events: seq<Event>, parent: Event -> Option<Id>, g: Parents) {
    g.Keys == Ids(events) && forall e :: e in events ==> g[e.id] == parent(e)
  }

  ghost function ParentsBy(events: seq<Event>, parent: Event -> Option<Id>): (g: Parents)
    requires DistinctIds(events)
    ensures Assigns(events, parent, g)
  {
    IdsAreNames(events);
    var g := map i | i in Ids(events) :: parent(EventWith(events, i));
    assert Assigns(events, parent, g) by {
      forall e | e in events
        ensures g[e.id] == parent(e)
      {
        IdNamesEvent(events, e, EventWith(events, e.id));
      }
    }
    g
  }

  lemma ParentsUnique(events: seq<Event>, parent: Event -> Option<Id>, g: Parents)
    requires DistinctIds(events) && Assigns(events, parent, g)
    ensures g == ParentsBy(events, parent)
  {
    var h := ParentsBy(events, parent);
    IdsAreNames(events);
    forall i | i in g
      ensures g[i] == h[i]
    {
      assert g[EventWith(events, i).id] == h[EventWith(events, i).id];
    }
  }

  method AssignParents(events: seq<Event>, parent: Event -> Option<Id>) returns (g: Parents)
    requires DistinctIds(events)
    ensures g == ParentsBy(events, parent)
  {
    g := map[];
    for i := 0 to |events|
      invariant Assigns(events[..i], parent, g)
    {
      var e := events[i];
      assert events[..i + 1] == events[..i] + [e];
      assert forall f :: f in events[..i] ==> f.id != e.id;
      g := g[e.id := parent(e)];
    }
    assert events[..|events|] == events;
    ParentsUnique(events, parent, g);
  }

  // ---------------------------------------------------------------- grouping by parent

  ghost function HasParent(g: Parents, parent: Option<Id>): Event -> bool {
    (e: Event) => e.id in g && g[e.id] == parent
  }

  /** The events whose parent is `parent`, earliest first. */
  ghost function Kids(events: seq<Event>, g: Parents, parent: Option<Id>): seq<Event> {
    SortByTime(Select(events, HasParent(g, parent)))
  }

  lemma KidsFacts(events: seq<Event>, g: Parents, parent: Option<Id>)
    requires DistinctIds(events)
    ensures forall e :: e in Kids(events, g, parent) <==> e in events && e.id in g && g[e.id] == parent
    ensures DistinctIds(Kids(events, g, parent))
    ensures ByTime(Kids(events, g, parent))
  {
    var chosen := Select(events, HasParent(g, parent));
    SortSorts(chosen);
    SelectDistinct(events, HasParent(g, parent));
    PermutedDistinct(chosen, SortByTime(chosen));
  }

  /** The sorted sibling lists of a log, by parent. */
  type Family = Option<Id> -> seq<Event>

  ghost predicate AreKids(events: seq<Event>, g: Parents, parent: Option<Id>, xs: seq<Event>) {
    && DistinctIds(xs) && ByTime(xs)
    && forall e :: e in xs <==> e in events && e.id in g && g[e.id] == parent
  }

  ghost predicate FamilyOf(events: seq<Event>, g: Parents, kids: Family) {
    Log(events, g) && forall p :: AreKids(events, g, p, kids(p))
  }

  ghost function KidsIn(events: seq<Event>, g: Parents): Family {
    (p: Option<Id>) => Kids(events, g, p)
  }

  lemma KidsInFamily(events: seq<Event>, g: Parents)
    requires Log(events, g)
    ensures FamilyOf(events, g, KidsIn(events, g))
  {
    forall p
      ensures AreKids(events, g, p, KidsIn(events, g)(p))
    {
      KidsFacts(events, g, p);
    }
  }

  function Lookup(children: map<Option<Id>, seq<Event>>, key: Option<Id>): seq<Event> {
    if key in children then children[key] else []
  }

  /** children.setdefault(parent, []).append(e), for every event in turn. */
  method GroupByParent(events: seq<Event>, g: Parents) returns (children: map<Option<Id>, seq<Event>>)
    requires forall e :: e in events ==> e.id in g
    ensures forall k :: Lookup(children, k) == Select(events, HasParent(g, k))
  {
    children := map[];
    for i := 0 to |events|
      invariant forall k :: Lookup(children, k) == Select(events[..i], HasParent(g, k))
    {
      var e := events[i];
      ghost var before := children;
      children := children[g[e.id] := Lookup(children, g[e.id]) + [e]];
      forall k
        ensures Lookup(children, k) == Select(events[..i + 1], HasParent(g, k))
      {
        SelectStep(events, HasParent(g, k), i);
        assert Lookup(before, k) == Select(events[..i], HasParent(g, k));
      }
    }
    assert events[..|events|] == events;
  }

  /** Sort every sibling list in place. */
  method SortSiblings(events: seq<Event>, g: Parents, groups: map<Option<Id>, seq<Event>>)
    returns (children: map<Option<Id>, seq<Event>>)
    requires forall k :: Lookup(groups, k) == Select(events, HasParent(g, k))
    ensures forall k :: Lookup(children, k) == Kids(events, g, k)
  {
    children := groups;
    var pending := groups.Keys;
    while pending != {}
      invariant pending <= groups.Keys == children.Keys
      invariant forall k :: k in groups ==> children[k] == if k in pending then groups[k] else SortByTime(groups[k])
      decreases |pending|
    {
      var k :| k in pending;
      children := children[k := SortByTime(children[k])];
      pending := pending - {k};
    }
    forall k
      ensures Lookup(children, k) == Kids(events, g, k)
    {
      assert Lookup(groups, k) == Select(events, HasParent(g, k));
      assert k !in groups ==> Select(events, HasParent(g, k)) == [];
    }
  }
}
