/** The idempotency tracker: an LRU rebuilt at start-up from a compacted topic of processed ids
    (src/agent_foundation/idempotency.py, IdempotencyTracker). */
module Idempotency {
  import opened Common
  import opened Lru
  import opened Compaction

  type Id = nat

  /** What _persist writes: the id as key and as value. A record another writer left may not parse. */
  type ProcessedRecord = Record<Id, Option<Id>>

  lemma {:induction false} ParsedSnoc(log: seq<ProcessedRecord>, r: ProcessedRecord)
    ensures Parsed(log + [r]) == Parsed(log) + (if r.value.Some? then [r.value.value] else [])
    decreases |log|
  {
    if log == [] {
      assert log + [r] == [r];
      assert Parsed([r][1..]) == [];
    } else {
      var first := if log[0].value.Some? then [log[0].value.value] else [];
      var last := if r.value.Some? then [r.value.value] else [];
      ParsedSnoc(log[1..], r);
      assert (log + [r])[1..] == log[1..] + [r];
      assert first + (Parsed(log[1..]) + last) == (first + Parsed(log[1..])) + last;
    }
  }

  lemma ReplaySnoc(ops: seq<Op<Id>>, op: Op<Id>, maxsize: nat)
    ensures Replay(ops + [op], maxsize) == Apply(Replay(ops, maxsize), op, maxsize)
  {
    assert (ops + [op])[..|ops|] == ops;
  }

  /** A tracker that has not been initialised replays what it can read first. */
  ghost function BeforeLookup(ops: seq<Op<Id>>, initialized: bool, readable: seq<ProcessedRecord>): seq<Op<Id>> {
    if initialized then ops else ops + Adds(Parsed(readable))
  }

  lemma ReadNext(before: seq<Op<Id>>, topic: seq<ProcessedRecord>, i: nat)
    requires i < |topic|
    ensures before + Adds(Parsed(topic[..i + 1]))
         == before + Adds(Parsed(topic[..i])) + Adds(if topic[i].value.Some? then [topic[i].value.value] else [])
  {
    assert topic[..i + 1] == topic[..i] + [topic[i]];
    ParsedSnoc(topic[..i], topic[i]);
    if topic[i].value.Some? {
      AddsSnoc(Parsed(topic[..i]), topic[i].value.value);
    } else {
      assert Parsed(topic[..i]) + [] == Parsed(topic[..i]);
    }
  }

  class IdempotencyTracker {
    const lru: LRUCache<Id>
    var initialized: bool
    var topic: seq<ProcessedRecord>
    /** Everything the cache has been through. */
    ghost var ops: seq<Op<Id>>

    ghost predicate Valid()
      reads this, lru
    {
      lru.Valid() && lru.cache == Replay(ops, lru.maxsize)
    }

    constructor (topic: seq<ProcessedRecord>, maxsize: nat)
      ensures Valid() && fresh(lru) && lru.maxsize == maxsize
      ensures !initialized && this.topic == topic && ops == []
    {
      this.topic := topic;
      lru := new LRUCache<Id>(maxsize);
      initialized := false;
      ops := [];
    }

    /** Remember the id of one record, if it has one. */
    method Absorb(record: ProcessedRecord)
      requires Valid()
      modifies this`ops, lru
      ensures Valid()
      ensures ops == old(ops) + Adds(if record.value.Some? then [record.value.value] else [])
    {
      if record.value.Some? {
        ReplaySnoc(ops, Add(record.value.value), lru.maxsize);
        lru.Add(record.value.value);
        ops := ops + [Add(record.value.value)];
      }
    }

    /** Replay the topic. Reading can fail after any number of records, zero included; the failure is
        swallowed and the tracker counts as initialised. */
    method Initialize(readable: nat)
      requires Valid() && readable <= |topic|
      modifies this`initialized, this`ops, lru
      ensures Valid() && initialized
      ensures ops == old(ops) + Adds(Parsed(topic[..readable]))
    {
      for i := 0 to readable
        invariant Valid()
        invariant ops == old(ops) + Adds(Parsed(topic[..i]))
      {
        ReadNext(old(ops), topic, i);
        Absorb(topic[i]);
      }
      initialized := true;
    }

    method IsDuplicate(id: Id, readable: nat) returns (duplicate: bool)
      requires Valid() && readable <= |topic|
      modifies this`initialized, this`ops, lru
      ensures Valid() && initialized
      ensures var before := BeforeLookup(old(ops), old(initialized), topic[..readable]);
        duplicate == (id in Replay(before, lru.maxsize)) && ops == before + [Lookup(id)]
    {
      if !initialized {
        Initialize(readable);
      }
      ReplaySnoc(ops, Lookup(id), lru.maxsize);
      duplicate := lru.Contains(id);
      ops := ops + [Lookup(id)];
    }

    /** The cache remembers at once; the topic only if the write goes through. */
    method MarkProcessed(id: Id, persisted: bool)
      requires Valid()
      modifies this`topic, this`ops, lru
      ensures Valid()
      ensures ops == old(ops) + [Add(id)]
      ensures topic == if persisted then old(topic) + [Record(id, Some(id))] else old(topic)
    {
      ReplaySnoc(ops, Add(id), lru.maxsize);
      lru.Add(id);
      ops := ops + [Add(id)];
      if persisted {
        topic := topic + [Record(id, Some(id))];
      }
    }
  }

  // ---------------------------------------------------------------- restarts

  /** The cache of a tracker rebuilt from a topic. */
  ghost function Rebuilt(topic: seq<ProcessedRecord>, maxsize: nat): seq<Id> {
    Replay(Adds(Parsed(topic)), maxsize)
  }

  lemma {:induction false} AddsTouchAll(ids: seq<Id>, maxsize: nat)
    ensures Touched(Adds(ids), maxsize) == ids
  {
    if ids != [] {
      AddsTouchAll(ids[..|ids| - 1], maxsize);
      AddsSnoc(ids[..|ids| - 1], ids[|ids| - 1]);
      assert ids == ids[..|ids| - 1] + [ids[|ids| - 1]];
      assert Adds(ids)[..|ids| - 1] == Adds(ids[..|ids| - 1]);
    }
  }

  /** Rebuilding from any partial compaction of the topic gives the same ids in the same order. */
  lemma RebuildSurvivesCompaction(topic: seq<ProcessedRecord>, kept: seq<bool>, maxsize: nat)
    requires PartialCompaction(topic, kept) && Consistent(topic)
    ensures Rebuilt(Masked(topic, kept), maxsize) == Rebuilt(topic, maxsize)
  {
    CompactedReplay(topic, kept);
    AddsTouchAll(Parsed(topic), maxsize);
    AddsTouchAll(Parsed(Masked(topic, kept)), maxsize);
    CacheIsRecentEnd(Adds(Parsed(topic)), maxsize);
    CacheIsRecentEnd(Adds(Parsed(Masked(topic, kept))), maxsize);
  }

  /** What trackers alone have written. */
  ghost predicate WrittenByTrackers(topic: seq<ProcessedRecord>) {
    forall i :: 0 <= i < |topic| ==> topic[i].value == Some(topic[i].key)
  }

  /** After a restart an id counts as processed exactly when it was persisted and fewer than maxsize
      distinct other ids have been since, compacted or not. */
  lemma RememberedAfterRestart(topic: seq<ProcessedRecord>, kept: seq<bool>, maxsize: nat, id: Id)
    requires WrittenByTrackers(topic) && PartialCompaction(topic, kept)
    ensures id in Rebuilt(Masked(topic, kept), maxsize) <==>
      id in Parsed(topic) && |OthersSince(Parsed(topic), id)| < maxsize
  {
    RebuildSurvivesCompaction(topic, kept, maxsize);
    AddsTouchAll(Parsed(topic), maxsize);
    PresentExactly(Adds(Parsed(topic)), maxsize, id);
    TouchedExactlyAdded(Adds(Parsed(topic)), maxsize, id);
  }

  function Keys(topic: seq<ProcessedRecord>): seq<Id> {
    seq(|topic|, i requires 0 <= i < |topic| => topic[i].key)
  }

  lemma {:induction false} ParsedAreKeys(topic: seq<ProcessedRecord>)
    requires WrittenByTrackers(topic)
    ensures Parsed(topic) == Keys(topic)
  {
    if topic != [] {
      ParsedAreKeys(topic[1..]);
      assert Keys(topic) == [topic[0].key] + Keys(topic[1..]);
    }
  }

  /** The first question asked of a restarted tracker is answered from the topic, compacted or not: the id
      is a duplicate exactly when a record of it is there and fewer than maxsize distinct others follow.
      A tracker that has been initialised never reads the topic again. */
  lemma DuplicateExactly(topic: seq<ProcessedRecord>, kept: seq<bool>, ops: seq<Op<Id>>, maxsize: nat, id: Id)
    requires WrittenByTrackers(topic) && PartialCompaction(topic, kept)
    ensures id in Replay(BeforeLookup([], false, Masked(topic, kept)), maxsize) <==>
      id in Keys(topic) && |OthersSince(Keys(topic), id)| < maxsize
    ensures id in Replay(BeforeLookup(ops, true, Masked(topic, kept)), maxsize) <==>
      Add(id) in ops && |OthersSince(Touched(ops, maxsize), id)| < maxsize
  {
    RememberedAfterRestart(topic, kept, maxsize, id);
    ParsedAreKeys(topic);
    PresentExactly(ops, maxsize, id);
    assert [] + Adds(Parsed(Masked(topic, kept))) == Adds(Parsed(Masked(topic, kept)));
  }
}
