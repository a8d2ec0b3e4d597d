/**
  The pure parts of `findManyCached`: reading the caching options out of the
  call's arguments, composing the tag list, computing how stale a record is,
  and shaping the value handed back to the caller.
 */
module CacheStrategy {
  import opened JsValue

  /** Freshness window, in seconds, when the caller gives no `ttl`. */
  const DefaultTtl: int := 10
  /** `swr` defaults to `ttl` plus this many seconds. */
  const SwrMargin: int := 10
  const MillisPerSecond: int := 1000
  /** The tag every cached query carries; a forced refresh invalidates it. */
  const BaseTag: string := "findManyCached"
  /** The caching options, which are never forwarded to `findMany`. */
  const OptionKeys: set<string> := {"ttl", "expandedOutput", "swr", "key"}

  type Row = Object

  predicate NumberOrUndefined(v: Value)
  {
    v.Num? || v.Undefined?
  }

  /** What the declared argument type promises about the caching options. */
  predicate OptionsTyped(args: Object)
  {
    && NumberOrUndefined(Get(args, "ttl"))
    && NumberOrUndefined(Get(args, "swr"))
    && (Get(args, "key").Str? || Get(args, "key").Undefined?)
  }

  /** The caching options after defaulting. */
  datatype Strategy = Strategy(ttl: int, swr: int, key: Value, expandedOutput: bool)

  /** Destructures the caching options and applies their defaults. */
  function ReadStrategy(args: Object): (st: Strategy)
    requires OptionsTyped(args)
    ensures Get(args, "ttl").Undefined? ==> st.ttl == DefaultTtl
    ensures Get(args, "ttl").Num? ==> st.ttl == Get(args, "ttl").n
    ensures Get(args, "swr").Undefined? ==> st.swr == st.ttl + SwrMargin
    ensures Get(args, "swr").Num? ==> st.swr == Get(args, "swr").n
    ensures st.key == Get(args, "key")
    ensures st.expandedOutput <==> Truthy(Get(args, "expandedOutput"))
  {
    var ttl := OrDefault(Get(args, "ttl"), Num(DefaultTtl)).n;
    var swr := OrDefault(Get(args, "swr"), Num(ttl + SwrMargin)).n;
    Strategy(ttl, swr, Get(args, "key"), Truthy(Get(args, "expandedOutput")))
  }

  /** A supplied `swr` changes nothing but the `swr` the caller reads back. */
  lemma SwrOnlySurfaced(args: Object, swr: int)
    requires OptionsTyped(args)
    ensures OptionsTyped(args["swr" := Num(swr)])
    ensures var st, st' := ReadStrategy(args), ReadStrategy(args["swr" := Num(swr)]);
      st' == st.(swr := swr)
  {
    assert Get(args["swr" := Num(swr)], "ttl") == Get(args, "ttl");
  }

  function ModelTag(model: string): string
  {
    BaseTag + "-" + model
  }

  /** The tag list: the base tag, the model tag, then `key` when it is truthy. */
  function Tags(model: string, key: Value): (tags: seq<string>)
    requires key.Str? || key.Undefined?
    ensures |tags| == if Truthy(key) then 3 else 2
    ensures tags[0] == BaseTag && tags[1] == ModelTag(model)
    ensures Truthy(key) ==> tags[2] == key.s
  {
    var tags := [BaseTag, ModelTag(model)];
    if Truthy(key) then tags + [key.s] else tags
  }

  /** A caller key that is neither the base tag, a model tag nor another caller's
      key does not tag that other caller's queries, so invalidating it leaves them be. */
  lemma KeyTagScoped(key: string, model: string, other: Value)
    requires other.Str? || other.Undefined?
    requires key != BaseTag && key != ModelTag(model)
    requires other != Str(key)
    ensures key !in Tags(model, other)
  {
  }

  /** The arguments `findMany` receives: the caller's, without the caching options. */
  function Forwarded(args: Object): (fwd: Object)
    ensures fwd.Keys == args.Keys - OptionKeys
    ensures forall k :: k in fwd ==> fwd[k] == args[k]
  {
    args - OptionKeys
  }

  /** Adding caching options to a query leaves the forwarded query unchanged. */
  lemma ForwardedDropsOnlyOptions(query: Object, options: Object)
    requires query.Keys !! OptionKeys && options.Keys <= OptionKeys
    ensures Forwarded(query + options) == query
  {
    assert Forwarded(query + options).Keys == query.Keys;
  }

  /** `Math.ceil((now - cachedAt) / 1000)`: the age of a record in whole seconds, rounded up. */
  function StaleTime(now: int, cachedAt: int): (s: int)
    ensures (s - 1) * MillisPerSecond < now - cachedAt <= s * MillisPerSecond
    ensures cachedAt <= now ==> 0 <= s
  {
    -((cachedAt - now) / MillisPerSecond)
  }

  /** `staleTime < ttl`: with a window of 0 or less no record of non-negative
      age is fresh, and a record zero seconds old is fresh exactly when the
      window is positive. */
  predicate IsFresh(staleTime: int, ttl: int): (current: bool)
    ensures ttl <= 0 && 0 <= staleTime ==> !current
    ensures staleTime == 0 ==> (current <==> 0 < ttl)
  {
    staleTime < ttl
  }

  /** Because the age is rounded up, a record is fresh exactly while it is at
      most `ttl - 1` whole seconds old. */
  lemma FreshWindow(now: int, cachedAt: int, ttl: int)
    ensures IsFresh(StaleTime(now, cachedAt), ttl) <==> now - cachedAt <= (ttl - 1) * MillisPerSecond
  {
    var s := StaleTime(now, cachedAt);
    if s < ttl {
      assert s * MillisPerSecond <= (ttl - 1) * MillisPerSecond;
    } else {
      assert (ttl - 1) * MillisPerSecond <= (s - 1) * MillisPerSecond;
    }
  }

  /** What `findManyCached` returns: the rows, or the rows with cache metadata. */
  datatype Output =
    | Plain(result: seq<Row>)
    | Expanded(result: seq<Row>, staleTime: int, ttl: int, swr: int, cachedAt: int, timestamp: int)

  function Envelope(result: seq<Row>, staleTime: int, st: Strategy, cachedAt: int, now: int): (out: Output)
    ensures out.result == result
    ensures out.Expanded? <==> st.expandedOutput
    ensures out.Expanded? ==> out.ttl == st.ttl && out.swr == st.swr
    ensures out.Expanded? ==> out.staleTime == staleTime && out.cachedAt == cachedAt && out.timestamp == now
  {
    if st.expandedOutput then Expanded(result, staleTime, st.ttl, st.swr, cachedAt, now)
    else Plain(result)
  }
}
