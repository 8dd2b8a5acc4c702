/** The in-process LRU of seen ids (src/agent_foundation/idempotency.py, _LRUCache), and what it
    remembers of a history. */
module Lru {
  import opened Common

  predicate Distinct<T(==, !new)>(s: seq<T>) {
    forall i, j :: 0 <= i < j < |s| ==> s[i] != s[j]
  }

  // ---------------------------------------------------------------- the ordered dict

  /** OrderedDict.__delitem__: every other key keeps its place. */
  function Without<T(==, !new)>(s: seq<T>, x: T): (r: seq<T>)
    ensures forall y :: y in r <==> y in s && y != x
    ensures |r| <= |s|
    ensures x !in s ==> r == s
  {
    if s == [] then []
    else if s[|s| - 1] == x then Without(s[..|s| - 1], x)
    else Without(s[..|s| - 1], x) + [s[|s| - 1]]
  }

  /** Assigning a key and moving it to the end. */
  function MoveToEnd<T(==, !new)>(s: seq<T>, x: T): (r: seq<T>)
    ensures forall y :: y in r <==> y in s || y == x
  {
    Without(s, x) + [x]
  }

  /** The n most recent entries. */
  function Last<T>(s: seq<T>, n: nat): (r: seq<T>)
    ensures |r| == if |s| <= n then |s| else n
  {
    if |s| <= n then s else s[|s| - n..]
  }

  lemma {:induction false} WithoutDistinct<T(!new)>(s: seq<T>, x: T)
    requires Distinct(s)
    ensures Distinct(Without(s, x))
    ensures |Without(s, x)| == if x in s then |s| - 1 else |s|
  {
    if s != [] {
      var front, last := s[..|s| - 1], s[|s| - 1];
      WithoutDistinct(front, x);
      assert last !in front;
      assert s == front + [last];
    }
  }

  lemma MoveDistinct<T(!new)>(s: seq<T>, x: T)
    requires Distinct(s)
    ensures Distinct(MoveToEnd(s, x))
    ensures |MoveToEnd(s, x)| == if x in s then |s| else |s| + 1
  {
    WithoutDistinct(s, x);
  }

  class LRUCache<T(==, !new)> {
    const maxsize: nat
    var cache: seq<T>

    ghost predicate Valid()
      reads this
    {
      Distinct(cache) && |cache| <= maxsize
    }

    constructor (maxsize: nat)
      ensures this.maxsize == maxsize && cache == [] && Valid()
    {
      this.maxsize := maxsize;
      cache := [];
    }

    /** A lookup refreshes what it finds. */
    method Contains(key: T) returns (found: bool)
      requires Valid()
      modifies this
      ensures Valid()
      ensures found == (key in old(cache))
      ensures cache == Looked(old(cache), key)
    {
      found := key in cache;
      if found {
        MoveDistinct(cache, key);
        cache := MoveToEnd(cache, key);
      }
    }

    method Add(key: T)
      requires Valid()
      modifies this
      ensures Valid()
      ensures cache == Added(old(cache), key, maxsize)
    {
      MoveDistinct(cache, key);
      cache := MoveToEnd(cache, key);
      if |cache| > maxsize {
        cache := cache[1..];
      }
    }
  }

  // ---------------------------------------------------------------- histories

  datatype Op<T> = Add(key: T) | Lookup(key: T)

  function Looked<T(==, !new)>(cache: seq<T>, key: T): seq<T> {
    if key in cache then MoveToEnd(cache, key) else cache
  }

  function Added<T(==, !new)>(cache: seq<T>, key: T, maxsize: nat): seq<T> {
    var after := MoveToEnd(cache, key);
    if |after| > maxsize then after[1..] else after
  }

  function Apply<T(==, !new)>(cache: seq<T>, op: Op<T>, maxsize: nat): seq<T> {
    match op
    case Add(key) => Added(cache, key, maxsize)
    case Lookup(key) => Looked(cache, key)
  }

  /** The cache after a history that starts empty. */
  function Replay<T(==, !new)>(ops: seq<Op<T>>, maxsize: nat): seq<T> {
    if ops == [] then [] else Apply(Replay(ops[..|ops| - 1], maxsize), ops[|ops| - 1], maxsize)
  }

  /** The keys a history touches, in order: every add, and every lookup that finds its key. */
  function Touched<T(==, !new)>(ops: seq<Op<T>>, maxsize: nat): seq<T> {
    if ops == [] then []
    else
      var before, op := ops[..|ops| - 1], ops[|ops| - 1];
      if op.Add? || op.key in Replay(before, maxsize)
      then Touched(before, maxsize) + [op.key]
      else Touched(before, maxsize)
  }

  /** The distinct keys of a log, each at its last place. */
  function ByLastTouch<T(==, !new)>(log: seq<T>): seq<T> {
    if log == [] then [] else MoveToEnd(ByLastTouch(log[..|log| - 1]), log[|log| - 1])
  }

  /** The distinct other keys touched since x last was. */
  function OthersSince<T(==, !new)>(log: seq<T>, x: T): set<T> {
    if log == [] || log[|log| - 1] == x then {} else OthersSince(log[..|log| - 1], x) + {log[|log| - 1]}
  }

  lemma {:induction false} ByLastTouchFacts<T(!new)>(log: seq<T>)
    ensures Distinct(ByLastTouch(log))
    ensures forall x :: x in ByLastTouch(log) <==> x in log
  {
    if log != [] {
      ByLastTouchFacts(log[..|log| - 1]);
      MoveDistinct(ByLastTouch(log[..|log| - 1]), log[|log| - 1]);
    }
  }

  // ---------------------------------------------------------------- the cache is the recent end of the log

  lemma {:induction false} WithoutConcat<T(!new)>(a: seq<T>, b: seq<T>, x: T)
    ensures Without(a + b, x) == Without(a, x) + Without(b, x)
  {
    if b == [] {
      assert a + b == a;
    } else {
      assert (a + b)[..|a + b| - 1] == a + b[..|b| - 1];
      WithoutConcat(a, b[..|b| - 1], x);
    }
  }

  lemma DistinctParts<T(!new)>(s: seq<T>, n: nat, x: T)
    requires Distinct(s) && n <= |s| && x in s[n..]
    ensures x !in s[..n]
  {
  }

  /** Touching a key that is in the recent end of a list, or whatever key when it is added, gives the
      recent end of the touched list. */
  lemma MoveInLast<T(!new)>(all: seq<T>, x: T, n: nat)
    requires Distinct(all) && x in Last(all, n)
    ensures MoveToEnd(Last(all, n), x) == Last(MoveToEnd(all, x), n)
  {
    LastIsTail(all, n);
    MoveInTail(all, Older(all, n), x);
    LastIsTail(MoveToEnd(all, x), n);
  }

  /** How many entries are not among the n most recent. */
  function Older<T>(s: seq<T>, n: nat): nat { if |s| <= n then 0 else |s| - n }

  lemma LastIsTail<T>(s: seq<T>, n: nat)
    ensures Older(s, n) <= |s| && Last(s, n) == s[Older(s, n)..]
  {
  }

  lemma MoveInTail<T(!new)>(all: seq<T>, k: nat, x: T)
    requires Distinct(all) && k <= |all| && x in all[k..]
    ensures |MoveToEnd(all, x)| == |all| && MoveToEnd(all[k..], x) == MoveToEnd(all, x)[k..]
  {
    var early, recent := all[..k], all[k..];
    assert early + recent == all;
    DistinctParts(all, k, x);
    WithoutConcat(early, recent, x);
    MoveDistinct(all, x);
    assert MoveToEnd(all, x) == early + MoveToEnd(recent, x);
  }

  lemma AddOutsideLast<T(!new)>(all: seq<T>, x: T, n: nat)
    requires Distinct(all) && |all| > n && x !in Last(all, n)
    ensures Added(Last(all, n), x, n) == Last(MoveToEnd(all, x), n)
  {
    var k := |all| - n;
    var early, recent := all[..k], all[k..];
    assert all == early + recent;
    WithoutConcat(early, recent, x);
    LastOfConcat(Without(early, x), recent + [x], n);
    assert Without(early, x) + recent + [x] == Without(early, x) + (recent + [x]);
  }

  lemma LastOfConcat<T>(a: seq<T>, b: seq<T>, n: nat)
    requires |b| == n + 1
    ensures Last(a + b, n) == b[1..]
  {
  }

  lemma AddInLast<T(!new)>(all: seq<T>, x: T, n: nat)
    requires Distinct(all)
    ensures Added(Last(all, n), x, n) == Last(MoveToEnd(all, x), n)
  {
    if x in Last(all, n) {
      MoveDistinct(all, x);
      LastDistinct(all, n);
      MoveDistinct(Last(all, n), x);
      MoveInLast(all, x, n);
    } else if |all| > n {
      AddOutsideLast(all, x, n);
    }
  }

  lemma LastDistinct<T(!new)>(all: seq<T>, n: nat)
    requires Distinct(all)
    ensures Distinct(Last(all, n))
  {
  }

  /** The cache holds the last maxsize keys of the log, in the order of their last touches. */
  lemma {:induction false} CacheIsRecentEnd<T(!new)>(ops: seq<Op<T>>, maxsize: nat)
    ensures Replay(ops, maxsize) == Last(ByLastTouch(Touched(ops, maxsize)), maxsize)
  {
    if ops != [] {
      var before, op := ops[..|ops| - 1], ops[|ops| - 1];
      CacheIsRecentEnd(before, maxsize);
      var log := Touched(before, maxsize);
      ByLastTouchFacts(log);
      assert (log + [op.key])[..|log|] == log;
      match op
      case Add(key) =>
        AddInLast(ByLastTouch(log), key, maxsize);
      case Lookup(key) =>
        if key in Replay(before, maxsize) {
          MoveInLast(ByLastTouch(log), key, maxsize);
        }
    }
  }

  // ---------------------------------------------------------------- what is present

  lemma {:induction false} TouchedExactlyAdded<T(!new)>(ops: seq<Op<T>>, maxsize: nat, x: T)
    ensures x in Touched(ops, maxsize) <==> Add(x) in ops
  {
    if ops != [] {
      var before, op := ops[..|ops| - 1], ops[|ops| - 1];
      TouchedExactlyAdded(before, maxsize, x);
      CacheIsRecentEnd(before, maxsize);
      ByLastTouchFacts(Touched(before, maxsize));
      assert ops == before + [op];
      if op == Lookup(x) && x in Replay(before, maxsize) {
        assert x in ByLastTouch(Touched(before, maxsize));
      }
    }
  }

  function Elements<T(==)>(s: seq<T>): set<T> { set y | y in s }

  lemma MoveAround<T(!new)>(a: seq<T>, x: T, b: seq<T>, last: T)
    requires x != last
    ensures MoveToEnd(a + [x] + b, last) == Without(a, last) + [x] + MoveToEnd(b, last)
  {
    WithoutConcat(a + [x], b, last);
    WithoutConcat(a, [x], last);
    assert Without([x], last) == [x] by {
      assert [x][..0] == [];
    }
  }

  /** Behind x in the ordered list stand exactly the others touched since. */
  lemma {:induction false} BehindExactly<T(!new)>(log: seq<T>, x: T) returns (a: seq<T>, b: seq<T>)
    requires x in log
    ensures ByLastTouch(log) == a + [x] + b
    ensures OthersSince(log, x) == Elements(b)
  {
    var front, last := log[..|log| - 1], log[|log| - 1];
    if last == x {
      a, b := Without(ByLastTouch(front), x), [];
    } else {
      var c, d := BehindExactly(front, x);
      MoveAround(c, x, d, last);
      a, b := Without(c, last), MoveToEnd(d, last);
      assert Elements(b) == Elements(d) + {last};
    }
  }

  lemma {:induction false} CountDistinct<T(!new)>(s: seq<T>)
    requires Distinct(s)
    ensures |Elements(s)| == |s|
  {
    if s != [] {
      var front, last := s[..|s| - 1], s[|s| - 1];
      CountDistinct(front);
      assert s == front + [last];
      assert Elements(s) == Elements(front) + {last};
    }
  }

  lemma InLastExactly<T(!new)>(a: seq<T>, x: T, b: seq<T>, n: nat)
    requires Distinct(a + [x] + b)
    ensures x in Last(a + [x] + b, n) <==> |b| < n
    ensures Distinct(b)
  {
    var d := a + [x] + b;
    assert d[|a|] == x;
    assert b == d[|a| + 1..];
    if |d| > n && |a| >= |d| - n {
      assert Last(d, n)[|a| - (|d| - n)] == x;
    }
  }

  /** An id is present exactly when it was added and fewer than maxsize distinct other ids have been
      touched since it last was. */
  lemma PresentExactly<T(!new)>(ops: seq<Op<T>>, maxsize: nat, x: T)
    ensures |Replay(ops, maxsize)| <= maxsize
    ensures x in Replay(ops, maxsize) <==>
      Add(x) in ops && |OthersSince(Touched(ops, maxsize), x)| < maxsize
  {
    var log := Touched(ops, maxsize);
    CacheIsRecentEnd(ops, maxsize);
    TouchedExactlyAdded(ops, maxsize, x);
    ByLastTouchFacts(log);
    if x in log {
      var a, b := BehindExactly(log, x);
      InLastExactly(a, x, b, maxsize);
      CountDistinct(b);
    }
  }

  // ---------------------------------------------------------------- what a touch is worth

  function Adds<T>(ids: seq<T>): seq<Op<T>> { seq(|ids|, i requires 0 <= i < |ids| => Add(ids[i])) }

  lemma AddsSnoc<T>(ids: seq<T>, x: T)
    ensures Adds(ids + [x]) == Adds(ids) + [Add(x)]
  {
  }

  lemma {:induction false} OthersAreAdded<T(!new)>(ops: seq<Op<T>>, maxsize: nat, x: T, ids: seq<T>)
    requires OthersSince(Touched(ops, maxsize), x) == {} && x !in ids
    ensures OthersSince(Touched(ops + Adds(ids), maxsize), x) == Elements(ids)
    decreases |ids|
  {
    if ids == [] {
      assert ops + Adds(ids) == ops;
    } else {
      var front, last := ids[..|ids| - 1], ids[|ids| - 1];
      assert ids == front + [last] && x !in front;
      OthersAreAdded(ops, maxsize, x, front);
      OneMoreOther(ops + Adds(front), maxsize, x, last);
      AddsSnoc(front, last);
      assert ops + Adds(ids) == ops + Adds(front) + [Add(last)];
      ElementsSnoc(front, last);
    }
  }

  lemma OneMoreOther<T(!new)>(ops: seq<Op<T>>, maxsize: nat, x: T, y: T)
    requires x != y
    ensures OthersSince(Touched(ops + [Add(y)], maxsize), x) == OthersSince(Touched(ops, maxsize), x) + {y}
  {
    assert (ops + [Add(y)])[..|ops|] == ops;
    var log := Touched(ops, maxsize);
    assert (log + [y])[..|log|] == log;
  }

  lemma ElementsSnoc<T(!new)>(s: seq<T>, x: T)
    ensures Elements(s + [x]) == Elements(s) + {x}
  {
  }

  /** An add, and a lookup that hits just as well, protects its key from being evicted by fewer than
      maxsize distinct others added after it, and from no more. */
  lemma TouchProtectsExactly<T(!new)>(ops: seq<Op<T>>, op: Op<T>, ids: seq<T>, maxsize: nat)
    requires op.Add? || op.key in Replay(ops, maxsize)
    requires op.key !in ids
    ensures op.key in Replay(ops + [op] + Adds(ids), maxsize) <==> |Elements(ids)| < maxsize
  {
    var x, log := op.key, Touched(ops, maxsize);
    assert (ops + [op])[..|ops|] == ops;
    assert Touched(ops + [op], maxsize) == log + [x];
    OthersAreAdded(ops + [op], maxsize, x, ids);
    PresentExactly(ops, maxsize, x);
    PresentExactly(ops + [op] + Adds(ids), maxsize, x);
    assert Add(x) in ops + [op];
  }
}
