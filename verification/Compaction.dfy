/** Compacted topics: the broker may drop any record that a later one with the same key supersedes. */
module Compaction {
  import opened Common
  import opened Lru

  datatype Record<K, V> = Record(key: K, value: V)

  /** The records a compaction run keeps. */
  function Masked<R>(log: seq<R>, kept: seq<bool>): seq<R>
    requires |kept| == |log|
  {
    if log == [] then []
    else (if kept[0] then [log[0]] else []) + Masked(log[1..], kept[1..])
  }

  ghost predicate PartialCompaction<K, V>(log: seq<Record<K, V>>, kept: seq<bool>) {
    && |kept| == |log|
    && forall i :: 0 <= i < |log| && !kept[i] ==> Superseded(log, i)
  }

  ghost predicate Superseded<K, V>(log: seq<Record<K, V>>, i: nat)
    requires i < |log|
  {
    exists j :: i < j < |log| && log[j].key == log[i].key
  }

  lemma CompactionOfRest<K, V>(log: seq<Record<K, V>>, kept: seq<bool>)
    requires PartialCompaction(log, kept) && log != []
    ensures PartialCompaction(log[1..], kept[1..])
  {
    forall i | 0 <= i < |log[1..]| && !kept[1..][i]
      ensures Superseded(log[1..], i)
    {
      assert Superseded(log, i + 1);
      var j :| i + 1 < j < |log| && log[j].key == log[i + 1].key;
      assert log[1..][j - 1] == log[j] && log[1..][i] == log[i + 1];
    }
  }

  // ---------------------------------------------------------------- replaying ids

  /** The ids of the records that parse; the others are skipped. */
  function Parsed<K, V>(log: seq<Record<K, Option<V>>>): seq<V> {
    if log == [] then []
    else (if log[0].value.Some? then [log[0].value.value] else []) + Parsed(log[1..])
  }

  /** A record that parses is only superseded by one with the same value. */
  ghost predicate Consistent<K, V>(log: seq<Record<K, Option<V>>>) {
    forall i, j :: 0 <= i < j < |log| && log[i].key == log[j].key && log[i].value.Some? ==> log[j].value == log[i].value
  }

  lemma {:induction false} ParsedMember<K, V>(log: seq<Record<K, Option<V>>>, j: nat)
    requires j < |log| && log[j].value.Some?
    ensures log[j].value.value in Parsed(log)
  {
    if j > 0 {
      ParsedMember(log[1..], j - 1);
    }
  }

  lemma ByLastTouchSnoc<T(!new)>(log: seq<T>, x: T)
    ensures ByLastTouch(log + [x]) == MoveToEnd(ByLastTouch(log), x)
  {
    assert (log + [x])[..|log|] == log;
  }

  /** An id touched again later need not have been touched first. */
  lemma {:induction false} ByLastTouchFront<T(!new)>(x: T, rest: seq<T>)
    ensures ByLastTouch([x] + rest) == if x in rest then ByLastTouch(rest) else [x] + ByLastTouch(rest)
    decreases |rest|
  {
    if rest == [] {
      assert [x] + rest == [] + [x];
      ByLastTouchSnoc([], x);
    } else {
      var front, last := rest[..|rest| - 1], rest[|rest| - 1];
      assert rest == front + [last];
      ByLastTouchFront(x, front);
      TouchOneMore(x, front, last);
    }
  }

  lemma TouchOneMore<T(!new)>(x: T, front: seq<T>, last: T)
    requires ByLastTouch([x] + front) == if x in front then ByLastTouch(front) else [x] + ByLastTouch(front)
    ensures ByLastTouch([x] + (front + [last])) ==
      if x in front + [last] then ByLastTouch(front + [last]) else [x] + ByLastTouch(front + [last])
  {
    assert [x] + (front + [last]) == ([x] + front) + [last];
    ByLastTouchSnoc([x] + front, last);
    ByLastTouchSnoc(front, last);
    ByLastTouchFacts(front);
    if x !in front {
      MoveBehind(x, ByLastTouch(front), last);
    }
  }

  lemma MoveBehind<T(!new)>(x: T, d: seq<T>, last: T)
    requires x !in d
    ensures MoveToEnd([x] + d, last) == if last == x then MoveToEnd(d, x) else [x] + MoveToEnd(d, last)
  {
    WithoutConcat([x], d, last);
    assert Without([x], last) == if last == x then [] else [x] by {
      assert [x][..0] == [];
    }
  }

  lemma DroppedIsTouchedLater<K, V(!new)>(log: seq<Record<K, Option<V>>>)
    requires log != [] && Consistent(log) && Superseded(log, 0)
    ensures ByLastTouch(Parsed(log)) == ByLastTouch(Parsed(log[1..]))
  {
    var j :| 0 < j < |log| && log[j].key == log[0].key;
    if log[0].value.Some? {
      assert log[1..][j - 1] == log[j];
      ParsedMember(log[1..], j - 1);
      ByLastTouchFront(log[0].value.value, Parsed(log[1..]));
    } else {
      assert [] + Parsed(log[1..]) == Parsed(log[1..]);
    }
  }

  /** Logs that leave the same cache do so behind any first record. */
  lemma SameBehind<K, V(!new)>(r: Record<K, Option<V>>, a: seq<Record<K, Option<V>>>, b: seq<Record<K, Option<V>>>)
    requires ByLastTouch(Parsed(a)) == ByLastTouch(Parsed(b))
    ensures ByLastTouch(Parsed([r] + a)) == ByLastTouch(Parsed([r] + b))
  {
    ParsedFront(r, a);
    ParsedFront(r, b);
    ByLastTouchFacts(Parsed(a));
    ByLastTouchFacts(Parsed(b));
    if r.value.Some? {
      ByLastTouchFront(r.value.value, Parsed(a));
      ByLastTouchFront(r.value.value, Parsed(b));
      assert r.value.value in Parsed(a) <==> r.value.value in ByLastTouch(Parsed(a));
    } else {
      assert [] + Parsed(a) == Parsed(a) && [] + Parsed(b) == Parsed(b);
    }
  }

  /** Compaction changes neither which ids a log holds nor the order they were last recorded in. */
  lemma {:induction false} CompactedReplay<K, V(!new)>(log: seq<Record<K, Option<V>>>, kept: seq<bool>)
    requires PartialCompaction(log, kept) && Consistent(log)
    ensures ByLastTouch(Parsed(Masked(log, kept))) == ByLastTouch(Parsed(log))
    decreases |log|
  {
    if log != [] {
      var rest, left := log[1..], Masked(log[1..], kept[1..]);
      CompactionOfRest(log, kept);
      CompactedReplay(rest, kept[1..]);
      if kept[0] {
        assert log == [log[0]] + rest;
        SameBehind(log[0], left, rest);
      } else {
        assert Masked(log, kept) == left;
        DroppedIsTouchedLater(log);
      }
    }
  }

  lemma ParsedFront<K, V>(r: Record<K, Option<V>>, left: seq<Record<K, Option<V>>>)
    ensures Parsed([r] + left) == (if r.value.Some? then [r.value.value] else []) + Parsed(left)
  {
    assert ([r] + left)[1..] == left;
  }
}
