/** The audit timeline in terms of the envelopes' own causation fields. */
module AuditChains {
  import opened Common
  import opened EventLog
  import opened CausalForest
  import opened AuditTimeline

  // ---------------------------------------------------------------- chains of causation

  /** Each event of a chain names the next as its causation, and all are in the log. */
  ghost predicate Chain(events: seq<Event>, chain: seq<Event>) {
    && |chain| > 0
    && (forall k :: 0 <= k < |chain| ==> chain[k] in events)
    && (forall k :: 0 <= k < |chain| - 1 ==> Linked(chain, k))
  }

  predicate Linked(chain: seq<Event>, k: nat)
    requires k + 1 < |chain|
  {
    chain[k].causation == Some(chain[k + 1].id)
  }

  ghost predicate ChainFrom(events: seq<Event>, chain: seq<Event>, e: Event, p: Event) {
    Chain(events, chain) && |chain| > 1 && chain[0] == e && chain[|chain| - 1] == p
  }

  /** Causation leads from e, in one step or more, back to p. */
  ghost predicate LeadsBack(events: seq<Event>, e: Event, p: Event) {
    exists chain :: ChainFrom(events, chain, e, p)
  }

  /** Some event of the log leads back to itself. */
  ghost predicate Circular(events: seq<Event>) {
    exists e :: e in events && LeadsBack(events, e, e)
  }

  /** The parents the timeline works with are the causations that stay inside the log. */
  lemma ParentIsCausation(events: seq<Event>, e: Event, p: Event)
    requires DistinctIds(events) && e in events && p in events
    ensures CausationParents(events)[e.id] == Some(p.id) <==> e.causation == Some(p.id)
  {
    assert CausationParents(events)[e.id] == CauseWithin(Ids(events))(e);
    assert p.id in Ids(events);
  }

  lemma ChainShrinks(events: seq<Event>, chain: seq<Event>)
    requires Chain(events, chain) && |chain| > 1
    ensures Chain(events, chain[1..])
  {
    forall k | 0 <= k < |chain[1..]| - 1
      ensures Linked(chain[1..], k)
    {
      assert Linked(chain, k + 1);
    }
  }

  lemma {:induction false} ChainGoesUp(events: seq<Event>, chain: seq<Event>)
    requires DistinctIds(events) && Chain(events, chain)
    ensures chain[0].id in CausationParents(events)
    ensures Up(CausationParents(events), chain[0].id, |chain| - 1) == Some(chain[|chain| - 1].id)
    decreases |chain|
  {
    var g := CausationParents(events);
    if |chain| > 1 {
      var rest := chain[1..];
      assert Linked(chain, 0);
      ParentIsCausation(events, chain[0], chain[1]);
      ChainShrinks(events, chain);
      ChainGoesUp(events, rest);
      assert rest[0] == chain[1] && rest[|rest| - 1] == chain[|chain| - 1];
    }
  }

  /** A parent is an event of the log, and the causation. */
  ghost predicate Known(events: seq<Event>, g: Parents, e: Event) {
    && e.id in g
    && (g[e.id].Some? ==> exists p :: p in events && g[e.id] == Some(p.id) && e.causation == Some(p.id))
  }

  lemma AllKnown(events: seq<Event>, e: Event)
    requires DistinctIds(events) && e in events
    ensures Known(events, CausationParents(events), e)
  {
    var g := CausationParents(events);
    if g[e.id].Some? {
      ParentIsCausation(events, e, EventWith(events, g[e.id].value));
    }
  }

  /** The chain of causations up to the n-th ancestor. */
  lemma {:induction false} UpIsChain(events: seq<Event>, g: Parents, e: Event, n: nat) returns (chain: seq<Event>)
    requires Closed(g) && e in events && e.id in g && Up(g, e.id, n).Some?
    requires forall x: Event {:trigger Known(events, g, x)} :: x in events ==> Known(events, g, x)
    ensures Chain(events, chain) && |chain| == n + 1 && chain[0] == e && Some(chain[n].id) == Up(g, e.id, n)
    decreases n
  {
    if n == 0 {
      chain := [e];
    } else {
      assert Known(events, g, e);
      var cause :| cause in events && g[e.id] == Some(cause.id) && e.causation == Some(cause.id);
      var rest := UpIsChain(events, g, cause, n - 1);
      chain := ChainGrows(events, e, rest);
    }
  }

  lemma ChainGrows(events: seq<Event>, e: Event, rest: seq<Event>) returns (chain: seq<Event>)
    requires Chain(events, rest) && e in events && e.causation == Some(rest[0].id)
    ensures Chain(events, chain) && |chain| == |rest| + 1
    ensures chain[0] == e && chain[|rest|] == rest[|rest| - 1]
  {
    chain := [e] + rest;
    forall k | 0 <= k < |chain|
      ensures chain[k] in events
    {
      if k > 0 {
        assert chain[k] == rest[k - 1];
      }
    }
    forall k | 0 <= k < |chain| - 1
      ensures Linked(chain, k)
    {
      if k > 0 {
        assert Linked(rest, k - 1);
      }
    }
  }

  lemma LeadsBackExactly(events: seq<Event>, e: Event, p: Event)
    requires DistinctIds(events) && e in events && p in events
    ensures LeadsBack(events, e, p) <==> Descends(CausationParents(events), e.id, p.id)
  {
    var g := CausationParents(events);
    if chain :| ChainFrom(events, chain, e, p) {
      ChainGoesUp(events, chain);
    }
    if Descends(g, e.id, p.id) {
      var n: nat :| n > 0 && Up(g, e.id, n) == Some(p.id);
      forall x | x in events ensures Known(events, g, x) { AllKnown(events, x); }
      var chain := UpIsChain(events, g, e, n);
      IdNamesEvent(events, chain[n], p);
      assert ChainFrom(events, chain, e, p);
    }
  }

  // ---------------------------------------------------------------- the timeline

  ghost function Timeline(events: seq<Event>): seq<Event>
    requires DistinctIds(events)
  {
    Walked(events) + Stragglers(events)
  }

  /** What is walked has all its causes walked. */
  lemma CauseIsWalked(events: seq<Event>, e: Event, p: Event)
    requires DistinctIds(events) && e in Walked(events) && p in events && e.causation == Some(p.id)
    ensures p in Walked(events)
  {
    var g := CausationParents(events);
    WalkedExactly(events, e);
    WalkedExactly(events, p);
    ParentIsCausation(events, e, p);
    var n: nat :| Up(g, e.id, n).None?;
    assert Up(g, e.id, n) == Up(g, p.id, n - 1);
  }

  /** The k events behind position i are all that leads back to the event there. */
  ghost predicate Followed(events: seq<Event>, s: seq<Event>, i: nat, k: nat) {
    && i + 1 + k <= |s|
    && forall e {:trigger LeadsBack(events, e, s[i])} {:trigger e in s[i + 1..i + 1 + k]} ::
         e in s[i + 1..i + 1 + k] <==> e in events && LeadsBack(events, e, s[i])
  }

  /** Every walked event is directly followed by everything that leads back to it, and by nothing else
      before that. */
  lemma SubtreeDirectlyFollows(events: seq<Event>, i: nat) returns (k: nat)
    requires DistinctIds(events) && i < |Walked(events)|
    ensures Followed(events, Timeline(events), i, k)
  {
    var p := Timeline(events)[i];
    k := SubtreesContiguous(events, i);
    assert p == Walked(events)[i];
    WalkedExactly(events, p);
    forall e | e in events
      ensures LeadsBack(events, e, p) <==> Descends(CausationParents(events), e.id, p.id)
    {
      LeadsBackExactly(events, e, p);
    }
  }

  lemma StandsBehind(events: seq<Event>, s: seq<Event>, i: nat, k: nat, e: Event, p: Event) returns (j: nat)
    requires Followed(events, s, i, k) && s[i] == p && e in events && LeadsBack(events, e, p)
    ensures i < j < |s| && s[j] == e
    ensures forall m :: i < m <= j ==> LeadsBack(events, s[m], p)
  {
    j := PositionIn(s, i + 1, k, e);
    forall m | i < m <= j
      ensures LeadsBack(events, s[m], p)
    {
      InStretch(s, i + 1, k, m);
    }
  }

  /** A walked event stands behind the event it names as its cause, and everything between the two leads
      back to that cause. */
  lemma CauseThenItsOwn(events: seq<Event>, e: Event, p: Event) returns (i: nat, j: nat)
    requires DistinctIds(events) && p in events && e.causation == Some(p.id) && e in Walked(events)
    ensures i < j < |Walked(events)| && Timeline(events)[i] == p && Timeline(events)[j] == e
    ensures forall m :: i < m <= j ==> LeadsBack(events, Timeline(events)[m], p)
  {
    CauseIsWalked(events, e, p);
    WalkedExactly(events, e);
    i := PositionOf(Walked(events), p);
    var k := SubtreeDirectlyFollows(events, i);
    OneStepBack(events, e, p);
    j := StandsBehind(events, Timeline(events), i, k, e, p);
    StandsInWalk(events, e, j);
  }

  lemma PositionOf(s: seq<Event>, e: Event) returns (i: nat)
    requires e in s
    ensures i < |s| && s[i] == e
  {
    i :| 0 <= i < |s| && s[i] == e;
  }

  lemma InStretch(s: seq<Event>, from: nat, k: nat, m: nat)
    requires from <= m < from + k <= |s|
    ensures s[m] in s[from..from + k]
  {
    assert s[from..from + k][m - from] == s[m];
  }

  lemma OneStepBack(events: seq<Event>, e: Event, p: Event)
    requires e in events && p in events && e.causation == Some(p.id)
    ensures LeadsBack(events, e, p)
  {
    assert ChainFrom(events, [e, p], e, p);
  }

  lemma PositionIn(s: seq<Event>, from: nat, k: nat, e: Event) returns (j: nat)
    requires from + k <= |s| && e in s[from..from + k]
    ensures from <= j < from + k && s[j] == e
  {
    var m :| 0 <= m < k && s[from..from + k][m] == e;
    j := from + m;
  }

  lemma StandsInWalk(events: seq<Event>, e: Event, j: nat)
    requires DistinctIds(events) && e in Walked(events) && j < |Timeline(events)| && Timeline(events)[j] == e
    ensures j < |Walked(events)|
  {
    StragglersExactly(events);
    InOneOf(Walked(events), Stragglers(events), j);
  }

  lemma InOneOf(a: seq<Event>, b: seq<Event>, j: nat)
    requires j < |a + b|
    ensures j < |a| || (a + b)[j] in b
  {
    if j >= |a| {
      assert (a + b)[j] == b[j - |a|];
    }
  }

  /** No event of the log is this one's cause. */
  ghost predicate FromOutside(events: seq<Event>, e: Event) {
    forall p :: p in events ==> e.causation != Some(p.id)
  }

  /** Two events name the same event of the log, or neither names one. */
  ghost predicate SameCause(events: seq<Event>, e: Event, f: Event) {
    (FromOutside(events, e) && FromOutside(events, f)) || (!FromOutside(events, e) && e.causation == f.causation)
  }

  lemma OutsideHasNoParent(events: seq<Event>, e: Event)
    requires DistinctIds(events) && e in events
    ensures FromOutside(events, e) <==> CausationParents(events)[e.id] == None
  {
    var g := CausationParents(events);
    assert g[e.id] == CauseWithin(Ids(events))(e);
    if g[e.id].Some? {
      ParentIsCausation(events, e, EventWith(events, g[e.id].value));
    }
  }

  /** Effects of one cause, and events whose cause is outside the log, are walked earliest first. */
  lemma EffectsEarliestFirst(events: seq<Event>, i: nat, j: nat)
    requires DistinctIds(events) && i < j < |Walked(events)|
    requires Walked(events)[i] in events && Walked(events)[j] in events
    requires SameCause(events, Walked(events)[i], Walked(events)[j])
    ensures Walked(events)[i].at <= Walked(events)[j].at
  {
    var e, f := Walked(events)[i], Walked(events)[j];
    OutsideHasNoParent(events, e);
    OutsideHasNoParent(events, f);
    assert CausationParents(events)[e.id] == CauseWithin(Ids(events))(e);
    assert CausationParents(events)[f.id] == CauseWithin(Ids(events))(f);
    SiblingsByTime(events, i, j);
  }

  /** An event whose cause is outside the log is walked. */
  lemma OutsideIsWalked(events: seq<Event>, e: Event)
    requires DistinctIds(events) && e in events && FromOutside(events, e)
    ensures e in Walked(events)
  {
    OutsideHasNoParent(events, e);
    WalkedExactly(events, e);
    assert Up(CausationParents(events), e.id, 1).None?;
  }

  /** Something is left over for the end exactly when causations go round in a circle inside the log. */
  lemma StragglersExactlyCircular(events: seq<Event>)
    requires DistinctIds(events)
    ensures Stragglers(events) != [] <==> Circular(events)
  {
    var g := CausationParents(events);
    StragglersExactlyCyclic(events);
    if x :| x in g && OnCycle(g, x) {
      var e := EventWith(events, x);
      LeadsBackExactly(events, e, e);
    }
    if e :| e in events && LeadsBack(events, e, e) {
      LeadsBackExactly(events, e, e);
      assert OnCycle(g, e.id);
    }
  }
}
