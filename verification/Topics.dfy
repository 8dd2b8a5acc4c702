/** Topic names (packages/contracts/topics.py) and the parser that reads an agent back out of one
    (packages/testing/audit_timeline.py, _extract_target_agent). */
module Topics {
  import opened Common

  type Segments = seq<string>

  predicate Plain(s: string) { forall i :: 0 <= i < |s| ==> s[i] != '.' }

  // ---------------------------------------------------------------- str.split and str.join on dots

  function Split(s: string): (parts: Segments)
    ensures |parts| >= 1
  {
    if s == "" then [""]
    else
      var rest := Split(s[1..]);
      if s[0] == '.' then [""] + rest else [[s[0]] + rest[0]] + rest[1..]
  }

  function Join(parts: Segments): string
    requires |parts| >= 1
  {
    if |parts| == 1 then parts[0] else parts[0] + "." + Join(parts[1..])
  }

  lemma {:induction false} JoinOfSplit(s: string)
    ensures Join(Split(s)) == s
  {
    if s != "" {
      var rest := Split(s[1..]);
      JoinOfSplit(s[1..]);
      if s[0] == '.' {
        assert Split(s)[1..] == rest;
      } else {
        assert Split(s)[1..] == rest[1..];
      }
    }
  }

  lemma {:induction false} SplitIsPlain(s: string)
    ensures forall i :: 0 <= i < |Split(s)| ==> Plain(Split(s)[i])
  {
    if s != "" {
      SplitIsPlain(s[1..]);
    }
  }

  lemma {:induction false} SplitPlain(s: string)
    requires Plain(s)
    ensures Split(s) == [s]
  {
    if s != "" {
      SplitPlain(s[1..]);
      assert [s[0]] + s[1..] == s;
      assert Split(s) == [s] + Split(s[1..])[1..];
    }
  }

  /** A dot between two strings separates their segments. */
  lemma {:induction false} SplitAtDot(a: string, b: string)
    ensures Split(a + "." + b) == Split(a) + Split(b)
  {
    if a == "" {
      assert ("" + "." + b)[1..] == b;
    } else {
      SplitAtDot(a[1..], b);
      SplitBehind(a[0], a[1..], a[1..] + "." + b, Split(b));
      assert [a[0]] + a[1..] == a && [a[0]] + (a[1..] + "." + b) == a + "." + b;
    }
  }

  lemma SplitBehind(c: char, rest: string, joined: string, tail: Segments)
    requires Split(joined) == Split(rest) + tail
    ensures Split([c] + joined) == Split([c] + rest) + tail
  {
    var first := Split(rest);
    SplitFront(c, joined);
    SplitFront(c, rest);
    if c == '.' {
      Associate([""], first, tail);
    } else {
      HeadAndRest(first, tail);
      Associate([[c] + first[0]], first[1..], tail);
    }
  }

  lemma HeadAndRest(a: Segments, b: Segments)
    requires |a| >= 1
    ensures (a + b)[0] == a[0] && (a + b)[1..] == a[1..] + b
  {
  }

  lemma Associate(a: Segments, b: Segments, c: Segments)
    ensures a + (b + c) == a + b + c
  {
  }

  lemma SplitFront(c: char, rest: string)
    ensures Split([c] + rest) ==
      if c == '.' then [""] + Split(rest) else [[c] + Split(rest)[0]] + Split(rest)[1..]
  {
    assert ([c] + rest)[1..] == rest;
  }

  lemma {:induction false} SplitOfJoin(parts: Segments)
    requires |parts| >= 1 && forall i :: 0 <= i < |parts| ==> Plain(parts[i])
    ensures Split(Join(parts)) == parts
  {
    SplitPlain(parts[0]);
    if |parts| > 1 {
      SplitOfJoin(parts[1..]);
      SplitAtDot(parts[0], Join(parts[1..]));
    }
  }

  lemma JoinIsInjective(a: Segments, b: Segments)
    requires |a| >= 1 && |b| >= 1 && Join(a) == Join(b)
    requires forall i :: 0 <= i < |a| ==> Plain(a[i])
    requires forall i :: 0 <= i < |b| ==> Plain(b[i])
    ensures a == b
  {
    SplitOfJoin(a);
    SplitOfJoin(b);
  }

  // ---------------------------------------------------------------- the printer

  function ResolveTopic(environment: string, domain: string, entity: string, action: string, version: string): string {
    environment + "." + (domain + "." + (entity + "." + (action + "." + ("v" + version))))
  }

  function EndpointTopic(environment: string, agentId: string): string {
    ResolveTopic(environment, "agent", agentId, "task.requested", "1")
  }

  lemma EndpointTopicIs(environment: string, agentId: string)
    ensures EndpointTopic(environment, agentId) == environment + ".agent." + agentId + ".task.requested.v1"
  {
    var tail := ".task.requested.v1";
    assert "." + ("task.requested" + "." + ("v" + "1")) == tail;
    assert "." + ("agent" + "." + (agentId + tail)) == ".agent." + (agentId + tail);
  }

  lemma SplitThree(a: string, b: string, c: string)
    requires Plain(a) && Plain(b) && Plain(c)
    ensures Split(a + "." + b + "." + c) == [a, b, c]
  {
    SplitPlain(a);
    SplitPlain(b);
    SplitPlain(c);
    SplitAtDot(a, b);
    SplitAtDot(a + "." + b, c);
  }

  lemma TopicSegments(environment: string, agentId: string)
    ensures Split(EndpointTopic(environment, agentId))
         == Split(environment) + (["agent"] + (Split(agentId) + ["task", "requested", "v1"]))
  {
    var suffix := "task.requested" + "." + ("v" + "1");
    SplitThree("task", "requested", "v1");
    assert "task" + "." + "requested" + "." + "v1" == suffix;
    SplitPlain("agent");
    SplitAtDot(agentId, suffix);
    SplitAtDot("agent", agentId + "." + suffix);
    SplitAtDot(environment, "agent" + "." + (agentId + "." + suffix));
  }

  // ---------------------------------------------------------------- the parser

  /** list.index, with the length of the list for an absent word. */
  function IndexOf(parts: Segments, word: string): (i: nat)
    ensures i <= |parts|
    ensures i < |parts| ==> parts[i] == word
    ensures word !in parts[..i]
  {
    if parts == [] then 0
    else if parts[0] == word then 0
    else
      var i := 1 + IndexOf(parts[1..], word);
      assert parts[..i] == [parts[0]] + parts[1..][..i - 1];
      i
  }

  lemma {:induction false} IndexIsFirst(parts: Segments, word: string, i: nat)
    requires i < |parts| && parts[i] == word && word !in parts[..i]
    ensures IndexOf(parts, word) == i
  {
    if i > 0 {
      assert parts[..i] == [parts[0]] + parts[1..][..i - 1];
      IndexIsFirst(parts[1..], word, i - 1);
    }
  }

  datatype Payload = Payload(targetAgentId: Option<string>, agentId: Option<string>, target: Option<string>)

  const NO_TARGET := Payload(None, None, None)

  function ExtractTargetAgent(payload: Payload, eventType: string): Option<string> {
    if payload.targetAgentId.Some? then payload.targetAgentId
    else if payload.agentId.Some? then payload.agentId
    else if payload.target.Some? then payload.target
    else
      var parts := Split(eventType);
      if "agent" !in parts then None
      else
        var between := AfterAgent(parts);
        var task := IndexOf(between, "task");
        if task == |between| || task == 0 then None else Some(Join(between[..task]))
  }

  /** What follows the first agent segment. */
  function AfterAgent(parts: Segments): Segments
    requires "agent" in parts
  {
    var i := IndexOf(parts, "agent");
    assert i < |parts| by {
      assert parts[..|parts|] == parts;
    }
    parts[i + 1..]
  }

  // ---------------------------------------------------------------- print, then parse

  lemma AfterAgentOfTopic(env: Segments, tail: Segments)
    ensures "agent" in env + (["agent"] + tail)
    ensures AfterAgent(env + (["agent"] + tail))
         == if "agent" in env then AfterAgent(env) + (["agent"] + tail) else tail
  {
    var parts := env + (["agent"] + tail);
    assert parts[|env|] == "agent";
    if "agent" in env {
      var i := IndexOf(env, "agent");
      assert i < |env| by {
        assert env[..|env|] == env;
      }
      assert parts[..i] == env[..i];
      IndexIsFirst(parts, "agent", i);
      assert parts[i + 1..] == env[i + 1..] + (["agent"] + tail);
    } else {
      assert parts[..|env|] == env;
      IndexIsFirst(parts, "agent", |env|);
      assert parts[|env| + 1..] == tail;
    }
  }

  lemma {:induction false} IndexInConcat(a: Segments, b: Segments, word: string)
    ensures IndexOf(a + b, word) == if word in a then IndexOf(a, word) else |a| + IndexOf(b, word)
  {
    if a == [] {
      assert a + b == b;
    } else {
      IndexInConcat(a[1..], b, word);
      assert (a + b)[1..] == a[1..] + b;
    }
  }

  /** The segments up to the first task segment are these. */
  ghost predicate ReadsAs(between: Segments, id: Segments) {
    var task := IndexOf(between, "task");
    task < |between| && between[..task] == id
  }

  /** Parsing compares segments. */
  lemma ParsesAs(eventType: string, agentId: string)
    ensures ExtractTargetAgent(NO_TARGET, eventType) == Some(agentId) <==>
      "agent" in Split(eventType) && ReadsAs(AfterAgent(Split(eventType)), Split(agentId))
  {
    JoinOfSplit(agentId);
    SplitIsPlain(agentId);
    SplitIsPlain(eventType);
    if "agent" in Split(eventType) {
      var between := AfterAgent(Split(eventType));
      var task := IndexOf(between, "task");
      if 0 < task < |between| && Join(between[..task]) == agentId {
        JoinIsInjective(between[..task], Split(agentId));
      }
    }
  }

  lemma ReadsPlainId(id: Segments, suffix: Segments)
    requires |suffix| >= 1 && suffix[0] == "task"
    ensures ReadsAs(id + suffix, id) <==> "task" !in id
  {
    IndexInConcat(id, suffix, "task");
    if "task" !in id {
      assert (id + suffix)[..|id|] == id;
    } else {
      assert id[..|id|] == id;
      assert IndexOf(id, "task") < |id|;
    }
  }

  /** With an agent segment in the environment, only the environment's own words can match. */
  lemma ReadsEnvironment(rest: Segments, id: Segments, suffix: Segments)
    requires |suffix| >= 1 && suffix[0] == "task"
    ensures ReadsAs(rest + (["agent"] + (id + suffix)), id) <==> ReadsAs(rest, id)
  {
    var between := rest + (["agent"] + (id + suffix));
    var task := IndexOf(between, "task");
    IndexInConcat(rest, ["agent"] + (id + suffix), "task");
    if "task" in rest {
      assert rest[..|rest|] == rest;
      assert between[..task] == rest[..task];
    } else {
      assert !ReadsAs(rest, id);
      assert (["agent"] + (id + suffix))[1..] == id + suffix;
      IndexInConcat(id, suffix, "task");
      if "task" in id {
        var t := IndexOf(id, "task");
        assert id[..|id|] == id;
        assert task == |rest| + 1 + t && "task" !in between[..task];
      }
    }
  }

  /** Parsing an endpoint topic gives back the agent id exactly when the environment has no agent
      segment and the id no task segment; or, by coincidence, when the environment spells the id out
      itself, between an agent and a task segment of its own. */
  lemma TopicRoundTripExactly(environment: string, agentId: string)
    ensures ExtractTargetAgent(NO_TARGET, EndpointTopic(environment, agentId)) == Some(agentId) <==>
      if "agent" in Split(environment) then ReadsAs(AfterAgent(Split(environment)), Split(agentId))
      else "task" !in Split(agentId)
  {
    var env, id, suffix := Split(environment), Split(agentId), ["task", "requested", "v1"];
    TopicSegments(environment, agentId);
    ParsesAs(EndpointTopic(environment, agentId), agentId);
    AfterAgentOfTopic(env, id + suffix);
    if "agent" in env {
      ReadsEnvironment(AfterAgent(env), id, suffix);
    } else {
      ReadsPlainId(id, suffix);
    }
  }

  lemma SameMiddle(env: seq<string>, x: seq<string>, y: seq<string>, suffix: seq<string>)
    requires env + (["agent"] + (x + suffix)) == env + (["agent"] + (y + suffix))
    ensures x == y
  {
    assert (env + (["agent"] + (x + suffix)))[|env| + 1..] == x + suffix;
    assert (env + (["agent"] + (y + suffix)))[|env| + 1..] == y + suffix;
    assert x == (x + suffix)[..|x|] && y == (y + suffix)[..|y|];
  }

  /** So endpoint topics of agents without a task segment never collide. */
  lemma EndpointsDistinct(environment: string, a: string, b: string)
    requires EndpointTopic(environment, a) == EndpointTopic(environment, b)
    ensures a == b
  {
    var suffix := ["task", "requested", "v1"];
    TopicSegments(environment, a);
    TopicSegments(environment, b);
    SameMiddle(Split(environment), Split(a), Split(b), suffix);
    JoinOfSplit(a);
    JoinOfSplit(b);
  }

  /** A target named in the payload wins over the topic: target_agent_id over agent_id over target. */
  lemma PayloadWins(payload: Payload, eventType: string, agent: string)
    ensures payload.targetAgentId == Some(agent) ==> ExtractTargetAgent(payload, eventType) == Some(agent)
    ensures payload.targetAgentId == None && payload.agentId == Some(agent) ==>
      ExtractTargetAgent(payload, eventType) == Some(agent)
    ensures payload.targetAgentId == None && payload.agentId == None && payload.target == Some(agent) ==>
      ExtractTargetAgent(payload, eventType) == Some(agent)
    ensures payload.targetAgentId == None && payload.agentId == None && payload.target == None ==>
      ExtractTargetAgent(payload, eventType) == ExtractTargetAgent(NO_TARGET, eventType)
  {
  }
}
