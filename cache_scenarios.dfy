/**
  Clients of the store: short call sequences on a new store, whose outcomes
  follow from the contracts of `FindManyCached`, `Distinct` and `Invalidate`
  alone.
 */
module CacheScenarios {
  import opened JsValue
  import opened CacheStrategy
  import opened CachingExtension
  import opened PrismaExtensions

  /** With the default `ttl` of 10 s, a read 5 s after the first is answered
      from the store: the fetch function runs once in all. */
  method ReadWithinTtl(model: string, where: Value, findMany: FindMany)
    returns (fetches: nat, first: Output, second: Output)
    ensures fetches == 1
    ensures first == Plain(findMany(map["where" := where]))
    ensures second == first
  {
    var store := new Store(0);
    var args := map["where" := where];
    assert Forwarded(args) == args;
    first := store.FindManyCached(model, args, findMany);
    store.Advance(5000);
    second := store.FindManyCached(model, args, findMany);
    fetches := store.fetches;
  }

  /** A read 11 s after the first finds the record stale: it invalidates the
      base tag once, fetches once more, and reports the new record, zero
      seconds old, with the defaulted `ttl` and `swr`. */
  method ReadAfterTtl(model: string, where: Value, findMany: FindMany)
    returns (fetches: nat, revalidated: seq<string>, second: Output)
    ensures fetches == 2
    ensures revalidated == [BaseTag]
    ensures second == Expanded(findMany(map["where" := where]), 0, DefaultTtl, DefaultTtl + SwrMargin, 11000, 11000)
  {
    var store := new Store(0);
    var args := map["where" := where, "expandedOutput" := Bool(true)];
    assert Forwarded(args) == map["where" := where];
    var first := store.FindManyCached(model, args, findMany);
    store.Advance(11000);
    assert StaleTime(11000, 0) == 11;
    second := store.FindManyCached(model, args, findMany);
    fetches, revalidated := store.fetches, store.revalidated;
  }

  /** With `ttl` 0 the first call already fetches twice: once to populate the
      slot, once after the forced invalidation. */
  method ZeroTtlFetchesTwice(model: string, where: Value, findMany: FindMany)
    returns (fetches: nat, revalidated: seq<string>, out: Output)
    ensures fetches == 2
    ensures revalidated == [BaseTag]
    ensures out == Plain(findMany(map["where" := where]))
  {
    var store := new Store(0);
    var args := map["where" := where, "ttl" := Num(0)];
    assert Forwarded(args) == map["where" := where];
    out := store.FindManyCached(model, args, findMany);
    fetches, revalidated := store.fetches, store.revalidated;
  }

  function Keyed(where: Value, key: string): Object
  {
    map["where" := where, "key" := Str(key)]
  }

  /** Reads the same filter under caller keys "a" and "b" on an empty store. */
  method ReadUnderTwoKeys(store: Store, model: string, where: Value, findMany: FindMany)
    requires store.Valid() && store.entries == map[] && store.now == 0 && store.fetches == 0
    modifies store
    ensures store.Valid() && store.now == 0 && store.fetches == 2
    ensures var record := CacheRecord(findMany(map["where" := where]), 0);
      store.entries == map[SlotOf(model, Keyed(where, "a")) := record, SlotOf(model, Keyed(where, "b")) := record]
  {
    var argsA, argsB := Keyed(where, "a"), Keyed(where, "b");
    var query := map["where" := where];
    assert Forwarded(argsA) == Forwarded(argsB) == query;
    var slotA, slotB := SlotOf(model, argsA), SlotOf(model, argsB);
    assert slotA != slotB by { assert slotA.tags[2] != slotB.tags[2]; }
    var record := CacheRecord(findMany(query), 0);
    FreshHit(store.entries, 0, model, argsA, findMany);
    var out := store.FindManyCached(model, argsA, findMany);
    assert store.entries == map[slotA := record];
    FreshHit(store.entries, 0, model, argsB, findMany);
    out := store.FindManyCached(model, argsB, findMany);
  }

  /** Invalidating one caller key leaves the query cached under another key
      alone: re-reading that query fetches nothing, re-reading the
      invalidated one fetches again. */
  method KeyInvalidationIsScoped(model: string, where: Value, findMany: FindMany)
    returns (fetchesBefore: nat, fetchesKept: nat, fetchesDropped: nat)
    ensures fetchesBefore == 2
    ensures fetchesKept == 2
    ensures fetchesDropped == 3
  {
    var store := new Store(0);
    ReadUnderTwoKeys(store, model, where, findMany);
    fetchesBefore := store.fetches;
    var argsA, argsB := Keyed(where, "a"), Keyed(where, "b");
    var slotA, slotB := SlotOf(model, argsA), SlotOf(model, argsB);
    assert slotA.tags == [BaseTag, ModelTag(model), "a"];
    assert slotB.tags == [BaseTag, ModelTag(model), "b"];
    store.Invalidate("a");
    assert slotB in store.entries && slotA !in store.entries;
    assert StaleTime(0, 0) == 0;
    FreshHit(store.entries, 0, model, argsB, findMany);
    var out := store.FindManyCached(model, argsB, findMany);
    fetchesKept := store.fetches;
    FreshHit(store.entries, 0, model, argsA, findMany);
    out := store.FindManyCached(model, argsA, findMany);
    fetchesDropped := store.fetches;
  }

  /** A second `distinct` on the same field and filter within the day is
      answered from the store, and a single field answers its truthy values. */
  method DistinctIsCachedForADay(model: string, field: string, where: Value, findMany: FindMany)
    returns (fetches: nat, first: DistinctResult, second: DistinctResult)
    ensures fetches == 1
    ensures first == second
    ensures first.Values? && forall i :: 0 <= i < |first.values| ==> Truthy(first.values[i])
  {
    var store := new Store(0);
    first := Distinct(store, model, One(field), where, map[], findMany);
    store.Advance(3600 * 1000);
    ghost var args := DistinctArgs(model, One(field), where, map[]);
    assert StaleTime(3600 * 1000, 0) == 3600;
    second := Distinct(store, model, One(field), where, map[], findMany);
    fetches := store.fetches;
  }
}
