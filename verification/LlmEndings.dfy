/** How assisted reasoning ends, read off the replies, and that a model answer is remembered. */
module LlmEndings {
  import opened Common
  import opened Lru
  import opened LlmCache

  // ---------------------------------------------------------------- how a miss ends

  /** A text that fits the schema; a good one is grounded, too. */
  predicate Fits(r: Request, reply: Reply) { reply.Text? && r.schema(reply.text).Some? }

  predicate Good(r: Request, reply: Reply) { Fits(r, reply) && r.grounded(r.schema(reply.text).value) }

  /** The first reply calls for repair. */
  predicate Unfit(r: Request, reply: Reply) { reply.Text? && r.schema(reply.text).None? }

  /** Repair reply n is asked for: there may be that many, and all before it are texts that are not good. */
  ghost predicate Asks(r: Request, p: Provider, n: nat) {
    1 <= n <= 1 + r.maxRepairs && forall m: nat :: 1 <= m < n ==> p(m).Text? && !Good(r, p(m))
  }

  /** No repair reply is good, and none raises. */
  ghost predicate AllRejected(r: Request, p: Provider) {
    forall m: nat :: 1 <= m <= 1 + r.maxRepairs ==> p(m).Text? && !Good(r, p(m))
  }

  function ModelAnswer(r: Request, text: string, calls: nat): Reasoned {
    Reasoned(Done(AssistiveResult(r.schema(text).GetOr(r.fallback), FromModel, None)), calls, Some(text))
  }

  function FallbackAnswer(r: Request, f: Failure, calls: nat): Reasoned {
    Reasoned(Done(AssistiveResult(r.fallback, FromFallback, Some(f))), calls, None)
  }

  lemma {:induction false} RepairStopsAt(r: Request, p: Provider, from: nat, attempts: nat, n: nat)
    requires from <= n < from + attempts
    requires forall m: nat :: from <= m < n ==> p(m).Text? && !Good(r, p(m))
    ensures Good(r, p(n)) ==>
      Repair(r, p, from, attempts) == Accepted(p(n).text, r.schema(p(n).text).value, n + 1)
    ensures p(n).Raised? ==> Repair(r, p, from, attempts) == Broken(p(n).failure, n + 1)
    decreases attempts
  {
    if from < n {
      RepairStopsAt(r, p, from + 1, attempts - 1, n);
    }
  }

  lemma {:induction false} RepairGivesUp(r: Request, p: Provider, from: nat, attempts: nat)
    requires forall m: nat :: from <= m < from + attempts ==> p(m).Text? && !Good(r, p(m))
    ensures Repair(r, p, from, attempts) == Exhausted(from + attempts)
    decreases attempts
  {
    if attempts > 0 {
      RepairGivesUp(r, p, from + 1, attempts - 1);
    }
  }

  /** After an unfit first reply: the first good repair reply is the answer, the first exception before one
      propagates, and with neither the fallback answers for invalid output. */
  lemma RepairEndsAt(past: Past, maxsize: nat, r: Request, p: Provider, n: nat)
    requires !Hit(past, maxsize, r.key) && Unfit(r, p(0)) && Asks(r, p, n)
    ensures Good(r, p(n)) ==> Reason(past, maxsize, r, p) == ModelAnswer(r, p(n).text, n + 1)
    ensures p(n).Raised? ==> Reason(past, maxsize, r, p) == Reasoned(Propagated(p(n).failure), n + 1, None)
  {
    RepairStopsAt(r, p, 1, 1 + r.maxRepairs, n);
  }

  lemma EndsWithoutRepair(past: Past, maxsize: nat, r: Request, p: Provider)
    requires !Hit(past, maxsize, r.key)
    ensures p(0).Raised? ==> Reason(past, maxsize, r, p) == FallbackAnswer(r, p(0).failure, 1)
    ensures Fits(r, p(0)) ==> Reason(past, maxsize, r, p) == ModelAnswer(r, p(0).text, 1)
    ensures Unfit(r, p(0)) && AllRejected(r, p) ==>
      Reason(past, maxsize, r, p) == FallbackAnswer(r, InvalidOutput, 2 + r.maxRepairs)
  {
    if Unfit(r, p(0)) && AllRejected(r, p) {
      RepairGivesUp(r, p, 1, 1 + r.maxRepairs);
    }
  }

  /** The first repair reply that ends the repair, if one does. */
  lemma {:induction false} FirstEnding(r: Request, p: Provider, upto: nat) returns (n: nat)
    requires upto <= 1 + r.maxRepairs
    ensures n <= upto
    ensures n == 0 ==> forall m: nat :: 1 <= m <= upto ==> p(m).Text? && !Good(r, p(m))
    ensures n > 0 ==> Asks(r, p, n) && (Good(r, p(n)) || p(n).Raised?)
  {
    n := 0;
    if upto > 0 {
      n := FirstEnding(r, p, upto - 1);
      if n == 0 && (Good(r, p(upto)) || p(upto).Raised?) {
        n := upto;
      }
    }
  }

  /** Each ending of a miss, both ways. A model answer comes exactly of a first reply that fits the schema,
      or of a good repair reply before any exception; the fallback exactly of an exception of the first
      call or of nothing but rejected texts; an exception propagates exactly from a repair call. */
  lemma EndingsExactly(past: Past, maxsize: nat, r: Request, p: Provider)
    requires !Hit(past, maxsize, r.key)
    ensures var o := Reason(past, maxsize, r, p).outcome;
      && (o.Done? && o.result.path == FromModel <==>
            Fits(r, p(0)) || (Unfit(r, p(0)) && exists n: nat :: Asks(r, p, n) && Good(r, p(n))))
      && (o.Done? && o.result.path == FromFallback <==>
            p(0).Raised? || (Unfit(r, p(0)) && AllRejected(r, p)))
      && (o.Propagated? <==> Unfit(r, p(0)) && exists n: nat :: Asks(r, p, n) && p(n).Raised?)
  {
    EndsWithoutRepair(past, maxsize, r, p);
    if Unfit(r, p(0)) {
      forall n: nat | Asks(r, p, n)
        ensures Good(r, p(n)) ==> Reason(past, maxsize, r, p) == ModelAnswer(r, p(n).text, n + 1)
        ensures p(n).Raised? ==> Reason(past, maxsize, r, p) == Reasoned(Propagated(p(n).failure), n + 1, None)
      {
        RepairEndsAt(past, maxsize, r, p, n);
      }
      var n := FirstEnding(r, p, 1 + r.maxRepairs);
      assert n == 0 ==> AllRejected(r, p);
    }
  }

  // ---------------------------------------------------------------- a model answer is remembered

  /** The other keys some requests ask for. */
  function OtherKeys(asked: seq<Asked>, key: Key): set<Key> {
    if asked == [] then {} else OtherKey(asked[0], key) + OtherKeys(asked[1..], key)
  }

  function OtherKey(a: Asked, key: Key): set<Key> { if a.request.key == key then {} else {a.request.key} }

  /** The value is put under the key, and at most these other keys have been touched since the key was. */
  ghost predicate Keeps(past: Past, maxsize: nat, key: Key, value: Value, others: set<Key>) {
    && Add(key) in past.ops && LastPut(past.puts, key) == Some(value)
    && OthersSince(Touched(past.ops, maxsize), key) <= others
  }

  lemma TouchedSnoc(ops: seq<Op<Key>>, maxsize: nat, op: Op<Key>, key: Key)
    ensures OthersSince(Touched(ops + [op], maxsize), key)
         <= OthersSince(Touched(ops, maxsize), key) + (if op.key == key then {} else {op.key})
    ensures op == Add(key) ==> OthersSince(Touched(ops + [op], maxsize), key) == {}
  {
    assert (ops + [op])[..|ops|] == ops;
    var log := Touched(ops, maxsize);
    assert (log + [op.key])[..|log|] == log;
  }

  lemma SubsetIsSmaller(a: set<Key>, b: set<Key>)
    requires a <= b
    ensures |a| <= |b|
  {
    assert b == a + (b - a);
  }

  lemma KeepsHits(past: Past, maxsize: nat, key: Key, value: Value, others: set<Key>)
    requires Keeps(past, maxsize, key, value, others) && |others| < maxsize
    ensures Hit(past, maxsize, key)
  {
    PresentExactly(past.ops, maxsize, key);
    SubsetIsSmaller(OthersSince(Touched(past.ops, maxsize), key), others);
  }

  lemma KeepsOn(past: Past, maxsize: nat, key: Key, value: Value, others: set<Key>, a: Asked)
    requires Keeps(past, maxsize, key, value, others) && |others| < maxsize
    ensures Keeps(After(past, maxsize, a.request, a.provider), maxsize, key, value, others + OtherKey(a, key))
  {
    var r := a.request;
    var looked := past.ops + [Lookup(r.key)];
    KeepsHits(past, maxsize, key, value, others);
    TouchedSnoc(past.ops, maxsize, Lookup(r.key), key);
    if !Hit(past, maxsize, r.key) && Think(r, a.provider).accepted.Some? {
      var text := Think(r, a.provider).accepted.value;
      TouchedSnoc(looked, maxsize, Add(r.key), key);
      LastPutSnoc(past.puts, Put(r, text, r.schema(text).GetOr(0)));
    }
  }

  lemma AnswerIsKept(past: Past, maxsize: nat, a: Asked)
    requires !Hit(past, maxsize, a.request.key)
    requires Think(a.request, a.provider).outcome.Done?
    requires Think(a.request, a.provider).outcome.result.path == FromModel
    ensures Keeps(After(past, maxsize, a.request, a.provider), maxsize, a.request.key,
                  Think(a.request, a.provider).outcome.result.value, {})
  {
    var r, p := a.request, a.provider;
    MissExactly(r, p);
    var text := Think(r, p).accepted.value;
    TouchedSnoc(past.ops + [Lookup(r.key)], maxsize, Add(r.key), r.key);
    LastPutSnoc(past.puts, Put(r, text, r.schema(text).GetOr(0)));
  }

  /** The past after some more requests. */
  ghost function Onward(past: Past, asked: seq<Asked>, maxsize: nat): Past
    decreases |asked|
  {
    if asked == [] then past
    else Onward(After(past, maxsize, asked[0].request, asked[0].provider), asked[1..], maxsize)
  }

  lemma {:induction false} PastGoesOnward(asked: seq<Asked>, n: nat, maxsize: nat)
    requires n <= |asked|
    ensures PastOf(asked, maxsize) == Onward(PastOf(asked[..n], maxsize), asked[n..], maxsize)
    decreases |asked| - n
  {
    if n == |asked| {
      assert asked[..n] == asked;
    } else {
      assert asked[..n + 1][..n] == asked[..n] && asked[n..][1..] == asked[n + 1..];
      PastGoesOnward(asked, n + 1, maxsize);
    }
  }

  lemma {:induction false} KeptThroughout(past: Past, asked: seq<Asked>, maxsize: nat, key: Key, value: Value,
                                          others: set<Key>)
    requires Keeps(past, maxsize, key, value, others) && |others + OtherKeys(asked, key)| < maxsize
    ensures Keeps(Onward(past, asked, maxsize), maxsize, key, value, others + OtherKeys(asked, key))
    decreases |asked|
  {
    if asked == [] {
      assert others + {} == others;
    } else {
      var a, more := asked[0], others + OtherKey(asked[0], key);
      SubsetIsSmaller(others, others + OtherKeys(asked, key));
      KeepsOn(past, maxsize, key, value, others, a);
      assert more + OtherKeys(asked[1..], key) == others + OtherKeys(asked, key);
      KeptThroughout(After(past, maxsize, a.request, a.provider), asked[1..], maxsize, key, value, more);
    }
  }

  /** What the model has answered once is served from the cache, at no call, to every later request with the
      same key, while fewer than maxsize other keys have been asked for in between. */
  lemma AnsweredThenServed(before: seq<Asked>, a: Asked, between: seq<Asked>, maxsize: nat, r: Request, p: Provider)
    requires var t := Reason(PastOf(before, maxsize), maxsize, a.request, a.provider);
      t.outcome.Done? && t.outcome.result.path == FromModel
    requires r.key == a.request.key && |OtherKeys(between, r.key)| < maxsize
    ensures var answer := Reason(PastOf(before, maxsize), maxsize, a.request, a.provider).outcome.result.value;
      Reason(PastOf(before + [a] + between, maxsize), maxsize, r, p)
        == Reasoned(Done(AssistiveResult(answer, FromCache, None)), 0, None)
  {
    var answer := Think(a.request, a.provider).outcome.result.value;
    AnswerIsKept(PastOf(before, maxsize), maxsize, a);
    assert (before + [a])[..|before|] == before;
    var all := before + [a] + between;
    PastGoesOnward(all, |before| + 1, maxsize);
    assert all[..|before| + 1] == before + [a] && all[|before| + 1..] == between;
    assert {} + OtherKeys(between, r.key) == OtherKeys(between, r.key);
    KeptThroughout(PastOf(before + [a], maxsize), between, maxsize, r.key, answer, {});
    KeepsHits(PastOf(before + [a] + between, maxsize), maxsize, r.key, answer, OtherKeys(between, r.key));
  }
}
