/** Agent discovery: the latest card per agent on a compacted topic
    (src/agent_foundation/runtime/discovery.py). */
module Discovery {
  import opened Common
  import opened Compaction

  datatype AgentCard = AgentCard(agentId: string, capabilities: set<string>)

  /** A record is keyed by agent id; its value may fail to parse as a card. */
  type CardRecord = Record<string, Option<AgentCard>>

  function Latest(log: seq<CardRecord>): map<string, AgentCard> {
    if log == [] then map[]
    else
      var before, last := Latest(log[..|log| - 1]), log[|log| - 1].value;
      if last.Some? then before[last.value.agentId := last.value] else before
  }

  method DiscoverAgents(log: seq<CardRecord>) returns (latest: map<string, AgentCard>)
    ensures latest == Latest(log)
  {
    latest := map[];
    for i := 0 to |log|
      invariant latest == Latest(log[..i])
    {
      assert log[..i + 1][..i] == log[..i];
      if log[i].value.Some? {
        latest := latest[log[i].value.value.agentId := log[i].value.value];
      }
    }
    assert log[..|log|] == log;
  }

  /** Position i holds the last card of this agent. */
  ghost predicate LastCard(log: seq<CardRecord>, i: nat, agent: string) {
    && i < |log| && log[i].value.Some? && log[i].value.value.agentId == agent
    && forall j :: i < j < |log| && log[j].value.Some? ==> log[j].value.value.agentId != agent
  }

  /** An agent is discovered exactly when some record holds its card, and with the last one. */
  lemma {:induction false} LatestExactly(log: seq<CardRecord>, agent: string) returns (i: nat)
    ensures agent in Latest(log)
        <==> exists j :: 0 <= j < |log| && log[j].value.Some? && log[j].value.value.agentId == agent
    ensures agent in Latest(log) ==> LastCard(log, i, agent) && Latest(log)[agent] == log[i].value.value
  {
    i := 0;
    if log != [] {
      var front, last := log[..|log| - 1], log[|log| - 1];
      i := LatestExactly(front, agent);
      assert log == front + [last];
      if last.value.Some? && last.value.value.agentId == agent {
        i := |log| - 1;
      }
    }
  }

  lemma {:induction false} LatestFront(r: CardRecord, rest: seq<CardRecord>)
    ensures Latest([r] + rest) ==
      (if r.value.Some? then map[r.value.value.agentId := r.value.value] else map[]) + Latest(rest)
    decreases |rest|
  {
    if rest == [] {
      assert ([r] + rest)[..0] == [] && [r] + rest == [r];
    } else {
      var front, last := rest[..|rest| - 1], rest[|rest| - 1];
      LatestFront(r, front);
      assert ([r] + rest)[..|rest|] == [r] + front;
    }
  }

  /** Cards are keyed by their agent, and nothing but a card supersedes a card. */
  ghost predicate KeyedByAgent(log: seq<CardRecord>) {
    && (forall i :: 0 <= i < |log| && log[i].value.Some? ==> log[i].value.value.agentId == log[i].key)
    && (forall i, j :: 0 <= i < j < |log| && log[i].key == log[j].key && log[i].value.Some? ==> log[j].value.Some?)
  }

  lemma Shadowed(card: AgentCard, latest: map<string, AgentCard>)
    requires card.agentId in latest
    ensures map[card.agentId := card] + latest == latest
  {
  }

  /** Discovery sees through compaction. */
  lemma {:induction false} DiscoverySurvivesCompaction(log: seq<CardRecord>, kept: seq<bool>)
    requires PartialCompaction(log, kept) && KeyedByAgent(log)
    ensures Latest(Masked(log, kept)) == Latest(log)
    decreases |log|
  {
    if log != [] {
      var rest, left := log[1..], Masked(log[1..], kept[1..]);
      CompactionOfRest(log, kept);
      DiscoverySurvivesCompaction(rest, kept[1..]);
      assert log == [log[0]] + rest;
      LatestFront(log[0], rest);
      if kept[0] {
        LatestFront(log[0], left);
      } else {
        assert Masked(log, kept) == left && Superseded(log, 0);
        SupersededIsShadowed(log);
      }
    }
  }

  lemma SupersededIsShadowed(log: seq<CardRecord>)
    requires log != [] && KeyedByAgent(log) && Superseded(log, 0)
    ensures (if log[0].value.Some? then map[log[0].value.value.agentId := log[0].value.value] else map[])
              + Latest(log[1..]) == Latest(log[1..])
  {
    var j :| 0 < j < |log| && log[j].key == log[0].key;
    assert log[1..][j - 1] == log[j];
    if log[0].value.Some? {
      var i := LatestExactly(log[1..], log[0].key);
      Shadowed(log[0].value.value, Latest(log[1..]));
    }
  }
}
