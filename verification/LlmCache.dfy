/** Assisted reasoning with a cache of results: one model call, a bounded repair loop, a deterministic
    fallback, and an LRU of accepted results (src/agent_foundation/llm/runtime.py, store.py and
    structured.py). The provider is an oracle: its n-th reply to a request may be anything. */
module LlmCache {
  import opened Common
  import opened Lru

  type Key = string
  type Value = int

  /** The schema is a partial function from reply texts to values; the grounding check a predicate. */
  datatype Request = Request(key: Key, schema: string -> Option<Value>, grounded: Value -> bool,
                             fallback: Value, maxRepairs: nat)

  datatype Failure = Timeout | ModelUnavailable | InvalidOutput | Other(reason: string)
  datatype Reply = Text(text: string) | Raised(failure: Failure)
  type Provider = nat -> Reply

  datatype Path = FromModel | FromCache | FromFallback
  datatype AssistiveResult = AssistiveResult(value: Value, path: Path, failure: Option<Failure>)

  /** An exception out of the repair loop is not caught. */
  datatype Outcome = Done(result: AssistiveResult) | Propagated(failure: Failure)

  // ---------------------------------------------------------------- validate and repair

  datatype Repaired =
    | Accepted(text: string, value: Value, calls: nat)
    | Exhausted(calls: nat)
    | Broken(failure: Failure, calls: nat)

  predicate Accepts(r: Request, text: string) {
    r.schema(text).Some? && r.grounded(r.schema(text).value)
  }

  /** At most `attempts` more calls, from call number `from` on, until a reply is accepted. */
  function Repair(r: Request, p: Provider, from: nat, attempts: nat): Repaired
    decreases attempts
  {
    if attempts == 0 then Exhausted(from)
    else
      match p(from)
      case Raised(f) => Broken(f, from + 1)
      case Text(t) =>
        if Accepts(r, t) then Accepted(t, r.schema(t).value, from + 1) else Repair(r, p, from + 1, attempts - 1)
  }

  method InvokeStructured(r: Request, p: Provider, from: nat) returns (outcome: Repaired)
    ensures outcome == Repair(r, p, from, 1 + r.maxRepairs)
  {
    var attempt := 0;
    while attempt < 1 + r.maxRepairs
      invariant attempt <= 1 + r.maxRepairs
      invariant Repair(r, p, from + attempt, 1 + r.maxRepairs - attempt) == Repair(r, p, from, 1 + r.maxRepairs)
    {
      var raw := p(from + attempt);
      attempt := attempt + 1;
      if raw.Raised? {
        return Broken(raw.failure, from + attempt);
      }
      var value := r.schema(raw.text);
      if value.Some? && r.grounded(value.value) {
        return Accepted(raw.text, value.value, from + attempt);
      }
    }
    return Exhausted(from + attempt);
  }

  /** The loop stops at the first acceptable reply. */
  lemma {:induction false} RepairExactly(r: Request, p: Provider, from: nat, attempts: nat)
    ensures var o := Repair(r, p, from, attempts);
      && from <= o.calls <= from + attempts
      && (forall n: nat ::
            from <= n < o.calls - (if o.Exhausted? then 0 else 1) ==> p(n).Text? && !Accepts(r, p(n).text))
      && (o.Accepted? ==>
            && o.calls > from && p(o.calls - 1) == Text(o.text)
            && Accepts(r, o.text) && r.schema(o.text) == Some(o.value))
      && (o.Broken? ==> o.calls > from && p(o.calls - 1) == Raised(o.failure))
      && (o.Exhausted? ==> o.calls == from + attempts)
    decreases attempts
  {
    if attempts > 0 && p(from).Text? && !Accepts(r, p(from).text) {
      RepairExactly(r, p, from + 1, attempts - 1);
    }
  }

  // ---------------------------------------------------------------- reasoning without the cache

  /** The outcome of a miss, the calls it took, and the text that was accepted, if one was. */
  datatype Reasoned = Reasoned(outcome: Outcome, calls: nat, accepted: Option<string>)

  function FallBack(r: Request, f: Failure): Outcome { Done(AssistiveResult(r.fallback, FromFallback, Some(f))) }

  function FromText(r: Request, text: string, calls: nat): Reasoned
    requires r.schema(text).Some?
  {
    Reasoned(Done(AssistiveResult(r.schema(text).value, FromModel, None)), calls, Some(text))
  }

  /** The first reply has to fit the schema only; a repaired one also has to be grounded. */
  function Think(r: Request, p: Provider): (t: Reasoned)
    ensures t.calls >= 1 && (t.accepted.Some? ==> r.schema(t.accepted.value).Some?)
  {
    match p(0)
    case Raised(f) => Reasoned(FallBack(r, f), 1, None)
    case Text(t) =>
      if r.schema(t).Some? then FromText(r, t, 1)
      else
        var o := Repair(r, p, 1, 1 + r.maxRepairs);
        RepairExactly(r, p, 1, 1 + r.maxRepairs);
        match o
        case Accepted(text, value, calls) => FromText(r, text, calls)
        case Exhausted(calls) => Reasoned(FallBack(r, InvalidOutput), calls, None)
        case Broken(f, calls) => Reasoned(Propagated(f), calls, None)
  }

  // ---------------------------------------------------------------- the result store

  /** One accepted result, as it was put. */
  datatype Put = Put(request: Request, text: string, value: Value)

  /** The value is what the request's own schema made of a reply. */
  ghost predicate Genuine(p: Put) { p.request.schema(p.text) == Some(p.value) }

  ghost function LastPut(puts: seq<Put>, key: Key): Option<Value> {
    if puts == [] then None
    else if puts[|puts| - 1].request.key == key then Some(puts[|puts| - 1].value)
    else LastPut(puts[..|puts| - 1], key)
  }

  class ResultStore {
    const maxsize: nat
    var keys: seq<Key>
    var data: map<Key, Value>
    ghost var ops: seq<Op<Key>>
    ghost var puts: seq<Put>

    ghost predicate Valid()
      reads this
    {
      && Distinct(keys) && |keys| <= maxsize && keys == Replay(ops, maxsize)
      && (forall k :: k in data <==> k in keys)
      && (forall k :: k in keys ==> LastPut(puts, k) == Some(data[k]))
    }

    constructor (maxsize: nat)
      ensures Valid() && this.maxsize == maxsize && ops == [] && puts == []
    {
      this.maxsize := maxsize;
      keys, data, ops, puts := [], map[], [], [];
    }

    method Get(key: Key) returns (found: Option<Value>)
      requires Valid()
      modifies this`keys, this`ops
      ensures Valid() && ops == old(ops) + [Lookup(key)]
      ensures found == if key in old(keys) then LastPut(puts, key) else None
    {
      ReplaySnoc(ops, Lookup(key), maxsize);
      found := None;
      if key in keys {
        MoveDistinct(keys, key);
        keys := MoveToEnd(keys, key);
        found := Some(data[key]);
      }
      ops := ops + [Lookup(key)];
    }

    method Store(request: Request, text: string, value: Value)
      requires Valid()
      modifies this
      ensures Valid() && ops == old(ops) + [Add(request.key)] && puts == old(puts) + [Put(request, text, value)]
    {
      ReplaySnoc(ops, Add(request.key), maxsize);
      MoveDistinct(keys, request.key);
      LastPutSnoc(puts, Put(request, text, value));
      ops := ops + [Add(request.key)];
      puts := puts + [Put(request, text, value)];
      data := data[request.key := value];
      keys := MoveToEnd(keys, request.key);
      if |keys| > maxsize {
        PopFirst(keys, data);
        data := data - {keys[0]};
        keys := keys[1..];
      }
    }
  }

  lemma LastPutSnoc(puts: seq<Put>, put: Put)
    ensures forall k :: LastPut(puts + [put], k) == if k == put.request.key then Some(put.value) else LastPut(puts, k)
  {
    assert (puts + [put])[..|puts|] == puts;
  }

  lemma PopFirst(keys: seq<Key>, data: map<Key, Value>)
    requires Distinct(keys) && keys != [] && forall k :: k in data <==> k in keys
    ensures Distinct(keys[1..])
    ensures forall k :: k in data - {keys[0]} <==> k in keys[1..]
    ensures forall k :: k in keys[1..] ==> k in keys
  {
    assert keys == [keys[0]] + keys[1..];
  }

  lemma ReplaySnoc(ops: seq<Op<Key>>, op: Op<Key>, maxsize: nat)
    ensures Replay(ops + [op], maxsize) == Apply(Replay(ops, maxsize), op, maxsize)
  {
    assert (ops + [op])[..|ops|] == ops;
  }

  // ---------------------------------------------------------------- reasoning with the cache

  /** A runtime's past: what its cache went through and what was put into it. */
  datatype Past = Past(ops: seq<Op<Key>>, puts: seq<Put>)

  /** Whether a request is a hit, what comes of it, and the past it leaves. */
  ghost predicate Hit(past: Past, maxsize: nat, key: Key) { key in Replay(past.ops, maxsize) }

  ghost function Reason(past: Past, maxsize: nat, r: Request, p: Provider): Reasoned
  {
    if Hit(past, maxsize, r.key) then
      Reasoned(Done(AssistiveResult(LastPut(past.puts, r.key).GetOr(0), FromCache, None)), 0, None)
    else Think(r, p)
  }

  ghost function After(past: Past, maxsize: nat, r: Request, p: Provider): Past {
    var looked := past.ops + [Lookup(r.key)];
    if Hit(past, maxsize, r.key) || Think(r, p).accepted.None? then Past(looked, past.puts)
    else
      var text := Think(r, p).accepted.value;
      Past(looked + [Add(r.key)], past.puts + [Put(r, text, r.schema(text).GetOr(0))])
  }

  class LLMRuntime {
    const store: ResultStore

    constructor (maxsize: nat)
      ensures fresh(store) && store.Valid() && store.maxsize == maxsize
      ensures Past(store.ops, store.puts) == Past([], [])
    {
      store := new ResultStore(maxsize);
    }

    /** A miss: call, validate, repair or fall back. Nothing is put but an accepted reply. */
    method CallModel(r: Request, p: Provider) returns (outcome: Outcome, calls: nat)
      requires store.Valid()
      modifies store
      ensures store.Valid()
      ensures outcome == Think(r, p).outcome && calls == Think(r, p).calls
      ensures var accepted := Think(r, p).accepted;
        if accepted.None? then store.ops == old(store.ops) && store.puts == old(store.puts)
        else
          && store.ops == old(store.ops) + [Add(r.key)]
          && store.puts == old(store.puts) + [Put(r, accepted.value, r.schema(accepted.value).GetOr(0))]
    {
      var raw := p(0);
      calls := 1;
      if raw.Raised? {
        return FallBack(r, raw.failure), calls;
      }
      var text, value := raw.text, r.schema(raw.text);
      if value.None? {
        var repaired := InvokeStructured(r, p, 1);
        RepairExactly(r, p, 1, 1 + r.maxRepairs);
        calls := repaired.calls;
        if repaired.Exhausted? {
          return FallBack(r, InvalidOutput), calls;
        } else if repaired.Broken? {
          return Propagated(repaired.failure), calls;
        }
        text, value := repaired.text, Some(repaired.value);
      }
      store.Store(r, text, value.value);
      return Done(AssistiveResult(value.value, FromModel, None)), calls;
    }

    method Respond(r: Request, p: Provider) returns (outcome: Outcome, calls: nat)
      requires store.Valid()
      modifies store
      ensures store.Valid()
      ensures var past := old(Past(store.ops, store.puts));
        && outcome == Reason(past, store.maxsize, r, p).outcome
        && calls == Reason(past, store.maxsize, r, p).calls
        && Past(store.ops, store.puts) == After(past, store.maxsize, r, p)
    {
      var cached := store.Get(r.key);
      if cached.Some? {
        return Done(AssistiveResult(cached.value, FromCache, None)), 0;
      }
      outcome, calls := CallModel(r, p);
    }
  }

  // ---------------------------------------------------------------- whole runs

  datatype Asked = Asked(request: Request, provider: Provider)

  ghost function PastOf(asked: seq<Asked>, maxsize: nat): Past {
    if asked == [] then Past([], [])
    else
      var last := asked[|asked| - 1];
      After(PastOf(asked[..|asked| - 1], maxsize), maxsize, last.request, last.provider)
  }

  lemma {:induction false} PutsAreGenuine(asked: seq<Asked>, maxsize: nat)
    ensures forall i :: 0 <= i < |PastOf(asked, maxsize).puts| ==> Genuine(PastOf(asked, maxsize).puts[i])
  {
    if asked != [] {
      PutsAreGenuine(asked[..|asked| - 1], maxsize);
    }
  }

  lemma {:induction false} AddedMeansPut(asked: seq<Asked>, maxsize: nat, key: Key)
    ensures Add(key) in PastOf(asked, maxsize).ops <==> LastPut(PastOf(asked, maxsize).puts, key).Some?
  {
    if asked != [] {
      var front, last := asked[..|asked| - 1], asked[|asked| - 1];
      AddedMeansPut(front, maxsize, key);
      AfterAdds(PastOf(front, maxsize), maxsize, last.request, last.provider, key);
    }
  }

  lemma AfterAdds(past: Past, maxsize: nat, r: Request, p: Provider, key: Key)
    requires Add(key) in past.ops <==> LastPut(past.puts, key).Some?
    ensures Add(key) in After(past, maxsize, r, p).ops <==> LastPut(After(past, maxsize, r, p).puts, key).Some?
  {
    if !Hit(past, maxsize, r.key) && Think(r, p).accepted.Some? {
      var text := Think(r, p).accepted.value;
      LastPutSnoc(past.puts, Put(r, text, r.schema(text).GetOr(0)));
    }
  }

  /** Position i holds the last put under this key. */
  ghost predicate IsLastPut(puts: seq<Put>, key: Key, i: nat) {
    i < |puts| && puts[i].request.key == key && forall j :: i < j < |puts| ==> puts[j].request.key != key
  }

  lemma {:induction false} LastPutExactly(puts: seq<Put>, key: Key) returns (i: nat)
    requires LastPut(puts, key).Some?
    ensures IsLastPut(puts, key, i) && LastPut(puts, key) == Some(puts[i].value)
  {
    if puts[|puts| - 1].request.key == key {
      i := |puts| - 1;
    } else {
      i := LastPutExactly(puts[..|puts| - 1], key);
    }
  }

  /** After any run, whatever the cache serves is the value that the schema of an earlier request with
      the same key made of a model reply, the last such; serving it takes no provider call. */
  lemma ServedIsGenuine(asked: seq<Asked>, maxsize: nat, r: Request, p: Provider) returns (i: nat)
    requires Hit(PastOf(asked, maxsize), maxsize, r.key)
    ensures var puts := PastOf(asked, maxsize).puts;
      && IsLastPut(puts, r.key, i) && Genuine(puts[i])
      && Reason(PastOf(asked, maxsize), maxsize, r, p)
           == Reasoned(Done(AssistiveResult(puts[i].value, FromCache, None)), 0, None)
  {
    var past := PastOf(asked, maxsize);
    PresentExactly(past.ops, maxsize, r.key);
    AddedMeansPut(asked, maxsize, r.key);
    PutsAreGenuine(asked, maxsize);
    i := LastPutExactly(past.puts, r.key);
  }

  /** The provider is called for a key exactly when no result was put under it yet, or at least maxsize
      distinct other keys have been touched since it last was. */
  lemma CalledExactly(asked: seq<Asked>, maxsize: nat, r: Request, p: Provider)
    ensures var past := PastOf(asked, maxsize);
      Reason(past, maxsize, r, p).calls > 0 <==>
        LastPut(past.puts, r.key).None? || |OthersSince(Touched(past.ops, maxsize), r.key)| >= maxsize
  {
    PresentExactly(PastOf(asked, maxsize).ops, maxsize, r.key);
    AddedMeansPut(asked, maxsize, r.key);
  }

  /** A miss costs at most two calls more than the repairs allowed. It yields a model value that fits the
      schema, the fallback, or an exception. An ungrounded value gets through exactly as a first reply. */
  lemma MissExactly(r: Request, p: Provider)
    ensures var t := Think(r, p);
      && 1 <= t.calls <= 2 + r.maxRepairs
      && (t.accepted.Some? <==> t.outcome.Done? && t.outcome.result.path == FromModel)
      && (t.accepted.Some? ==> p(t.calls - 1) == Text(t.accepted.value)
                               && r.schema(t.accepted.value) == Some(t.outcome.result.value))
      && (t.accepted.Some? && !r.grounded(t.outcome.result.value) <==>
            p(0).Text? && r.schema(p(0).text).Some? && !r.grounded(r.schema(p(0).text).value))
      && (t.accepted.None? && t.outcome.Done?
          ==> t.outcome.result.value == r.fallback && t.outcome.result.path == FromFallback)
      && (t.outcome.Propagated? <==>
            p(0).Text? && r.schema(p(0).text).None? && Repair(r, p, 1, 1 + r.maxRepairs).Broken?)
  {
    RepairExactly(r, p, 1, 1 + r.maxRepairs);
  }
}
