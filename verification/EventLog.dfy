/** Event envelopes (src/agent_foundation/envelope.py) as the two timeline builders read them, and the
    stable sort by timestamp both of them use. */
module EventLog {
  import opened Common

  type Id = nat

  datatype Event = Event(
    id: Id, correlation: Id, causation: Option<Id>, at: int,
    eventType: string, actor: string, taskId: Option<Id>, outcome: Option<string>)

  predicate DistinctIds(s: seq<Event>) {
    forall i, j :: 0 <= i < j < |s| ==> s[i].id != s[j].id
  }

  function Ids(s: seq<Event>): set<Id> { set e | e in s :: e.id }

  function NotIn(seen: set<Id>): Event -> bool { (e: Event) => e.id !in seen }

  predicate ByTime(s: seq<Event>) {
    forall i, j :: 0 <= i < j < |s| ==> s[i].at <= s[j].at
  }

  // ---------------------------------------------------------------- selection

  function Select(s: seq<Event>, keep: Event -> bool): (r: seq<Event>)
    ensures forall e :: e in r <==> e in s && keep(e)
    ensures |r| <= |s|
  {
    if s == [] then []
    else Select(s[..|s| - 1], keep) + (if keep(s[|s| - 1]) then [s[|s| - 1]] else [])
  }

  lemma SelectSnoc(s: seq<Event>, e: Event, keep: Event -> bool)
    ensures Select(s + [e], keep) == Select(s, keep) + (if keep(e) then [e] else [])
  {
    assert (s + [e])[..|s|] == s;
  }

  lemma {:induction false} SelectDistinct(s: seq<Event>, keep: Event -> bool)
    requires DistinctIds(s)
    ensures DistinctIds(Select(s, keep))
  {
    if s != [] {
      var front, last := s[..|s| - 1], s[|s| - 1];
      SelectDistinct(front, keep);
      var kept := Select(front, keep);
      forall i | 0 <= i < |kept|
        ensures kept[i].id != last.id
      {
        assert kept[i] in front;
      }
    }
  }

  lemma SelectStep(s: seq<Event>, keep: Event -> bool, n: nat)
    requires n < |s|
    ensures Select(s[..n + 1], keep) == Select(s[..n], keep) + (if keep(s[n]) then [s[n]] else [])
  {
    assert s[..n + 1] == s[..n] + [s[n]];
    SelectSnoc(s[..n], s[n], keep);
  }

  // ---------------------------------------------------------------- list.sort(key=timestamp)

  function Insert(s: seq<Event>, e: Event): seq<Event> {
    if s == [] || s[|s| - 1].at <= e.at then s + [e] else Insert(s[..|s| - 1], e) + [s[|s| - 1]]
  }

  lemma {:induction false} InsertAdds(s: seq<Event>, e: Event)
    ensures multiset(Insert(s, e)) == multiset(s) + multiset{e}
    ensures forall x :: x in Insert(s, e) <==> x in s || x == e
  {
    if s != [] && s[|s| - 1].at > e.at {
      InsertAdds(s[..|s| - 1], e);
      assert s == s[..|s| - 1] + [s[|s| - 1]];
    }
  }

  lemma {:induction false} InsertSorts(s: seq<Event>, e: Event)
    requires ByTime(s)
    ensures ByTime(Insert(s, e))
  {
    if s != [] && s[|s| - 1].at > e.at {
      var front, last := s[..|s| - 1], s[|s| - 1];
      InsertSorts(front, e);
      InsertAdds(front, e);
      var inner := Insert(front, e);
      forall i | 0 <= i < |inner|
        ensures inner[i].at <= last.at
      {
        assert inner[i] in inner;
      }
    }
  }

  /** A stable sort: a permutation, in time order, and ties keep their places (StableSort). */
  function SortByTime(s: seq<Event>): seq<Event> {
    if s == [] then [] else Insert(SortByTime(s[..|s| - 1]), s[|s| - 1])
  }

  lemma {:induction false} SortSorts(s: seq<Event>)
    ensures multiset(SortByTime(s)) == multiset(s)
    ensures forall e :: e in SortByTime(s) <==> e in s
    ensures ByTime(SortByTime(s))
  {
    if s != [] {
      var front, last := s[..|s| - 1], s[|s| - 1];
      SortSorts(front);
      InsertAdds(SortByTime(front), last);
      InsertSorts(SortByTime(front), last);
      assert s == front + [last];
    }
  }

  function StampedAt(t: int): Event -> bool { (e: Event) => e.at == t }

  lemma SwapAtEnd(inner: seq<Event>, front: seq<Event>, e: Event, last: Event, keep: Event -> bool)
    requires Select(inner, keep) == Select(front + [e], keep) && !(keep(e) && keep(last))
    ensures Select(inner + [last], keep) == Select(front + [last] + [e], keep)
  {
    SelectSnoc(inner, last, keep);
    SelectSnoc(front, e, keep);
    SelectSnoc(front, last, keep);
    SelectSnoc(front + [last], e, keep);
  }

  lemma {:induction false} InsertKeepsTies(s: seq<Event>, e: Event, t: int)
    ensures Select(Insert(s, e), StampedAt(t)) == Select(s + [e], StampedAt(t))
  {
    if s == [] || s[|s| - 1].at <= e.at {
    } else {
      var front, last := s[..|s| - 1], s[|s| - 1];
      InsertKeepsTies(front, e, t);
      assert s == front + [last];
      SwapAtEnd(Insert(front, e), front, e, last, StampedAt(t));
    }
  }

  /** Events with the same timestamp come out in the order they went in. */
  lemma {:induction false} StableSort(s: seq<Event>, t: int)
    ensures Select(SortByTime(s), StampedAt(t)) == Select(s, StampedAt(t))
  {
    if s != [] {
      var front, last := s[..|s| - 1], s[|s| - 1];
      StableSort(front, t);
      InsertKeepsTies(SortByTime(front), last, t);
      SelectSnoc(SortByTime(front), last, StampedAt(t));
    }
  }

  // ---------------------------------------------------------------- relative order

  ghost predicate Precedes(s: seq<Event>, p: Event, e: Event) {
    exists i, j :: 0 <= i < j < |s| && s[i] == p && s[j] == e
  }

  lemma PrecedesSnoc(s: seq<Event>, x: Event, p: Event, e: Event)
    ensures Precedes(s + [x], p, e) <==> Precedes(s, p, e) || (p in s && e == x)
  {
    var t := s + [x];
    if i, j :| 0 <= i < j < |t| && t[i] == p && t[j] == e {
      assert s[i] == p;
    }
    if i, j :| 0 <= i < j < |s| && s[i] == p && s[j] == e {
      assert t[i] == p && t[j] == e;
    }
    if p in s && e == x {
      var i :| 0 <= i < |s| && s[i] == p;
      assert t[i] == p && t[|s|] == e;
    }
  }

  /** Selecting keeps the order of what is kept. */
  lemma {:induction false} SelectKeepsOrder(s: seq<Event>, keep: Event -> bool, p: Event, e: Event)
    requires keep(p) && keep(e)
    ensures Precedes(Select(s, keep), p, e) <==> Precedes(s, p, e)
  {
    if s == [] {
    } else {
      var front, last := s[..|s| - 1], s[|s| - 1];
      SelectKeepsOrder(front, keep, p, e);
      assert s == front + [last];
      PrecedesSnoc(front, last, p, e);
      PrecedesSnoc(Select(front, keep), last, p, e);
      if !keep(last) {
        assert Select(s, keep) == Select(front, keep);
      }
    }
  }

  lemma OneWayRound(s: seq<Event>, p: Event, e: Event)
    requires DistinctIds(s) && p in s && e in s && p != e
    ensures Precedes(s, p, e) <==> !Precedes(s, e, p)
  {
    var i :| 0 <= i < |s| && s[i] == p;
    var j :| 0 <= j < |s| && s[j] == e;
    assert i < j ==> Precedes(s, p, e);
    assert j < i ==> Precedes(s, e, p);
  }

  lemma NotBeforeItself(s: seq<Event>, e: Event)
    requires DistinctIds(s)
    ensures !Precedes(s, e, e)
  {
  }

  /** p is the earlier, or comes first among events of one time. */
  ghost predicate StablyBefore(s: seq<Event>, p: Event, e: Event) {
    p.at < e.at || (p.at == e.at && Precedes(s, p, e))
  }

  lemma SortedPutsFirst(s: seq<Event>, p: Event, e: Event)
    requires Precedes(SortByTime(s), p, e)
    ensures StablyBefore(s, p, e)
  {
    SortSorts(s);
    if p.at == e.at {
      SelectKeepsOrder(SortByTime(s), StampedAt(p.at), p, e);
      StableSort(s, p.at);
      SelectKeepsOrder(s, StampedAt(p.at), p, e);
    }
  }

  /** The order of a stable sort, exactly. */
  lemma SortedOrderExactly(s: seq<Event>, p: Event, e: Event)
    requires DistinctIds(s) && p in s && e in s && p != e
    ensures Precedes(SortByTime(s), p, e) <==> StablyBefore(s, p, e)
  {
    SortSorts(s);
    PermutedDistinct(s, SortByTime(s));
    OneWayRound(SortByTime(s), p, e);
    OneWayRound(s, p, e);
    if Precedes(SortByTime(s), p, e) {
      SortedPutsFirst(s, p, e);
    } else {
      SortedPutsFirst(s, e, p);
    }
  }

  lemma SortedSelectionExactly(s: seq<Event>, keep: Event -> bool, p: Event, e: Event)
    requires DistinctIds(s) && p in s && e in s && keep(p) && keep(e)
    ensures Precedes(SortByTime(Select(s, keep)), p, e) <==> StablyBefore(s, p, e)
  {
    var kept := Select(s, keep);
    SelectDistinct(s, keep);
    SelectKeepsOrder(s, keep, p, e);
    if p == e {
      SortSorts(kept);
      PermutedDistinct(kept, SortByTime(kept));
      NotBeforeItself(SortByTime(kept), e);
      NotBeforeItself(s, e);
    } else {
      SortedOrderExactly(kept, p, e);
    }
  }

  // ---------------------------------------------------------------- permutations of distinct events

  lemma {:induction false} DistinctOnce(s: seq<Event>, e: Event)
    requires DistinctIds(s)
    ensures multiset(s)[e] == if e in s then 1 else 0
  {
    if s != [] {
      var front, last := s[..|s| - 1], s[|s| - 1];
      assert s == front + [last];
      DistinctOnce(front, e);
      if e == last {
        assert e !in front;
      }
    }
  }

  /** Two lists of distinct events with the same members are permutations of each other. */
  lemma SameMembersPermute(s: seq<Event>, t: seq<Event>)
    requires DistinctIds(s) && DistinctIds(t)
    requires forall e :: e in s <==> e in t
    ensures multiset(s) == multiset(t)
  {
    forall e
      ensures multiset(s)[e] == multiset(t)[e]
    {
      DistinctOnce(s, e);
      DistinctOnce(t, e);
    }
  }

  lemma TwoPlaces(t: seq<Event>, i: nat, j: nat)
    requires i < j < |t| && t[i] == t[j]
    ensures multiset(t)[t[i]] >= 2
  {
    assert t == t[..j] + t[j..];
    assert t[i] == t[..j][i] && t[j] == t[j..][0];
    assert t[i] in multiset(t[..j]) && t[j] in multiset(t[j..]);
  }

  lemma PermutedDistinct(s: seq<Event>, t: seq<Event>)
    requires DistinctIds(s) && multiset(s) == multiset(t)
    ensures DistinctIds(t)
  {
    forall i, j | 0 <= i < j < |t|
      ensures t[i].id != t[j].id
    {
      DistinctOnce(s, t[i]);
      if t[i] == t[j] {
        TwoPlaces(t, i, j);
      }
      assert t[i] in multiset(s) && t[j] in multiset(s);
    }
  }

  lemma DistinctConcat(a: seq<Event>, b: seq<Event>)
    requires DistinctIds(a) && DistinctIds(b)
    requires forall x, y :: x in a && y in b ==> x.id != y.id
    ensures DistinctIds(a + b)
  {
  }

  lemma {:induction false} CountIds(s: seq<Event>)
    requires DistinctIds(s)
    ensures |Ids(s)| == |s|
  {
    if s != [] {
      var front, last := s[..|s| - 1], s[|s| - 1];
      CountIds(front);
      assert s == front + [last];
      assert Ids(s) == Ids(front) + {last.id};
      assert last.id !in Ids(front);
    }
  }

  lemma NoMoreThan(s: seq<Event>, all: seq<Event>)
    requires DistinctIds(s) && DistinctIds(all) && forall e :: e in s ==> e in all
    ensures |s| <= |all|
  {
    CountIds(s);
    CountIds(all);
    SubsetCounts(Ids(s), Ids(all));
  }

  lemma {:induction false} SubsetCounts(a: set<Id>, b: set<Id>)
    requires a <= b
    ensures |a| <= |b|
  {
    assert b == a + (b - a) && a !! (b - a);
  }

  lemma {:induction false} SelectSame(s: seq<Event>, p: Event -> bool, q: Event -> bool)
    requires forall e :: e in s ==> p(e) == q(e)
    ensures Select(s, p) == Select(s, q)
  {
    if s != [] {
      SelectSame(s[..|s| - 1], p, q);
    }
  }
}
