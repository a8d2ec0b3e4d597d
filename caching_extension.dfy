/**
  The caching extension: `findManyCached` as a method on a tag-indexed store.

  The store stands in for the framework's cache. It maps a slot (the tag list
  and the forwarded arguments) to the record `{result, cachedAt}` computed on
  the first miss, and an invalidation by tag removes every slot carrying that
  tag. The store also keeps a millisecond clock, the number of times it called
  the fetch function, and the tags invalidated so far.
 */
module CachingExtension {
  import opened JsValue
  import opened CacheStrategy

  /** Where the store keeps one query's record. */
  datatype Slot = Slot(tags: seq<string>, args: Object)
  datatype CacheRecord = CacheRecord(result: seq<Row>, cachedAt: int)
  type Entries = map<Slot, CacheRecord>
  /** The model's `findMany`, from forwarded arguments to rows. */
  type FindMany = Object -> seq<Row>

  /** One lookup in the store: the record answered, the store afterwards, and
      how many times the fetch function ran for it. */
  datatype Lookup = Lookup(record: CacheRecord, entries: Entries, fetched: nat)

  /** Get-or-populate: a stored record is answered as it is; a missing one is
      fetched now and stored. */
  function Populated(entries: Entries, slot: Slot, findMany: FindMany, now: int): (l: Lookup)
    ensures slot in l.entries && l.entries[slot] == l.record
    ensures slot in entries ==> l.record == entries[slot] && l.entries == entries && l.fetched == 0
    ensures slot !in entries ==> l.record == CacheRecord(findMany(slot.args), now) && l.fetched == 1
    ensures forall s :: s in l.entries && s != slot <==> s in entries && s != slot
    ensures forall s :: s in entries && s != slot ==> l.entries[s] == entries[s]
  {
    if slot in entries then Lookup(entries[slot], entries, 0)
    else
      var record := CacheRecord(findMany(slot.args), now);
      Lookup(record, entries[slot := record], 1)
  }

  /** Invalidation by tag: exactly the slots carrying `tag` are removed. */
  function Invalidated(entries: Entries, tag: string): (rest: Entries)
    ensures forall s :: s in rest <==> s in entries && tag !in s.tags
    ensures forall s :: s in rest ==> rest[s] == entries[s]
  {
    map s | s in entries && tag !in s.tags :: entries[s]
  }

  /** What one call of `findManyCached` does to the store and returns. */
  datatype Effect = Effect(entries: Entries, fetched: nat, revalidated: seq<string>, output: Output)

  /** Specification of `findManyCached`: look the query up; if the record is not
      fresh, invalidate the first tag and look it up once more. */
  function CachedQuery(entries: Entries, now: int, model: string, args: Object, findMany: FindMany): (e: Effect)
    requires OptionsTyped(args)
    ensures e.revalidated == [] || e.revalidated == [BaseTag]
    ensures e.fetched <= 2
    ensures var slot := Slot(Tags(model, ReadStrategy(args).key), Forwarded(args));
      slot in e.entries && e.output.result == e.entries[slot].result
    ensures e.output.Expanded? <==> ReadStrategy(args).expandedOutput
  {
    var st := ReadStrategy(args);
    var tags := Tags(model, st.key);
    var slot := Slot(tags, Forwarded(args));
    var first := Populated(entries, slot, findMany, now);
    var staleTime := StaleTime(now, first.record.cachedAt);
    if IsFresh(staleTime, st.ttl) then
      Effect(first.entries, first.fetched, [],
             Envelope(first.record.result, staleTime, st, first.record.cachedAt, now))
    else
      var second := Populated(Invalidated(first.entries, tags[0]), slot, findMany, now);
      var staleTime' := StaleTime(now, second.record.cachedAt);
      Effect(second.entries, first.fetched + second.fetched, [tags[0]],
             Envelope(second.record.result, staleTime', st, second.record.cachedAt, now))
  }

  /** Every record in the store was written no later than `now`. */
  ghost predicate NotAhead(entries: Entries, now: int)
  {
    forall s :: s in entries ==> entries[s].cachedAt <= now
  }

  /** The slot a call of `findManyCached` reads and fills. */
  function SlotOf(model: string, args: Object): (slot: Slot)
    requires OptionsTyped(args)
    ensures slot.args == Forwarded(args) && BaseTag in slot.tags
  {
    Slot(Tags(model, ReadStrategy(args).key), Forwarded(args))
  }

  /** Whether the first lookup answers a record that is not fresh: a stored
      record by its age, a missing one (fetched at this instant, so zero
      seconds old) only when `ttl` is 0 or below. */
  predicate NeedsRefresh(entries: Entries, now: int, model: string, args: Object)
    requires OptionsTyped(args)
  {
    var slot := SlotOf(model, args);
    if slot in entries then !IsFresh(StaleTime(now, entries[slot].cachedAt), ReadStrategy(args).ttl)
    else ReadStrategy(args).ttl <= 0
  }

  /** The base tag is invalidated, once, exactly when a refresh is needed. */
  lemma RefreshIffNotFresh(entries: Entries, now: int, model: string, args: Object, findMany: FindMany)
    requires OptionsTyped(args)
    ensures var e := CachedQuery(entries, now, model, args, findMany);
      && (NeedsRefresh(entries, now, model, args) ==> e.revalidated == [BaseTag])
      && (!NeedsRefresh(entries, now, model, args) ==> e.revalidated == [])
  {
    var slot := SlotOf(model, args);
    if slot !in entries {
      assert StaleTime(now, now) == 0;
    }
  }

  /** A fresh record is answered from the store: nothing is invalidated, and
      the fetch function runs only to fill a missing slot. */
  lemma FreshHit(entries: Entries, now: int, model: string, args: Object, findMany: FindMany)
    requires OptionsTyped(args) && !NeedsRefresh(entries, now, model, args)
    ensures var slot := SlotOf(model, args);
      var e := CachedQuery(entries, now, model, args, findMany);
      && e.revalidated == []
      && (slot in entries ==> e.entries == entries && e.fetched == 0 && e.output.result == entries[slot].result)
      && (slot !in entries ==> e.fetched == 1 && e.output.result == findMany(Forwarded(args))
                               && e.entries == entries[slot := CacheRecord(findMany(Forwarded(args)), now)])
  {
    RefreshIffNotFresh(entries, now, model, args, findMany);
  }

  /** A record that is not fresh costs exactly one invalidation, of the base tag,
      and one fetch, made now with the forwarded arguments; the record is then
      zero seconds old. */
  lemma StaleRefetches(entries: Entries, now: int, model: string, args: Object, findMany: FindMany)
    requires OptionsTyped(args) && NeedsRefresh(entries, now, model, args)
    ensures var slot := SlotOf(model, args);
      var e := CachedQuery(entries, now, model, args, findMany);
      && e.revalidated == [BaseTag]
      && e.fetched == (if slot in entries then 1 else 2)
      && e.output.result == findMany(Forwarded(args))
      && (e.output.Expanded? ==> e.output.cachedAt == now && e.output.staleTime == 0)
      && e.entries == Invalidated(entries, BaseTag)[slot := CacheRecord(findMany(Forwarded(args)), now)]
  {
    RefreshIffNotFresh(entries, now, model, args, findMany);
    var slot := SlotOf(model, args);
    var first := Populated(entries, slot, findMany, now);
    var cleared := Invalidated(first.entries, BaseTag);
    assert slot !in cleared;
    assert cleared == Invalidated(entries, BaseTag);
    assert StaleTime(now, now) == 0;
  }

  /** With `ttl` 0 or below no record is ever fresh: every call invalidates the
      base tag and refetches, and a call on an absent slot fetches twice. */
  lemma NonPositiveTtlAlwaysRefetches(entries: Entries, now: int, model: string, args: Object, findMany: FindMany)
    requires OptionsTyped(args) && ReadStrategy(args).ttl <= 0
    requires NotAhead(entries, now)
    ensures var slot := SlotOf(model, args);
      var e := CachedQuery(entries, now, model, args, findMany);
      && e.revalidated == [BaseTag]
      && e.output.result == findMany(Forwarded(args))
      && (slot !in entries ==> e.fetched == 2)
  {
    StaleRefetches(entries, now, model, args, findMany);
  }

  /** The envelope reports the configured or defaulted `ttl` and `swr`, whether
      or not the call refreshed. */
  lemma EnvelopeReportsStrategy(entries: Entries, now: int, model: string, args: Object, findMany: FindMany)
    requires OptionsTyped(args)
    ensures var e := CachedQuery(entries, now, model, args, findMany);
      && (e.output.Expanded? <==> Truthy(Get(args, "expandedOutput")))
      && (e.output.Expanded? ==> e.output.ttl == ReadStrategy(args).ttl && e.output.swr == ReadStrategy(args).swr)
      && (e.output.Expanded? ==> e.output.timestamp == now)
  {
  }

  /** When the clock never runs backwards, the reported age is never negative. */
  lemma StaleTimeNonNegative(entries: Entries, now: int, model: string, args: Object, findMany: FindMany)
    requires OptionsTyped(args) && NotAhead(entries, now)
    ensures var e := CachedQuery(entries, now, model, args, findMany);
      NotAhead(e.entries, now) && (e.output.Expanded? ==> 0 <= e.output.staleTime)
  {
  }

  /** A wall clock set back a second or more behind a record's stamp gives a
      negative age, which counts as fresh even with `ttl` 0: the stored rows
      are answered and no refresh is forced. */
  lemma ClockSetBackSkipsRefresh(entries: Entries, now: int, model: string, args: Object, findMany: FindMany)
    requires OptionsTyped(args) && ReadStrategy(args).ttl == 0
    requires SlotOf(model, args) in entries && now + MillisPerSecond <= entries[SlotOf(model, args)].cachedAt
    ensures var e := CachedQuery(entries, now, model, args, findMany);
      && e.revalidated == [] && e.fetched == 0 && e.entries == entries
      && e.output.result == entries[SlotOf(model, args)].result
      && (e.output.Expanded? ==> e.output.staleTime < 0)
  {
    var slot := SlotOf(model, args);
    assert StaleTime(now, entries[slot].cachedAt) < 0;
    FreshHit(entries, now, model, args, findMany);
  }

  /** Every slot this extension fills carries the base tag. */
  ghost predicate AllBaseTagged(entries: Entries)
  {
    forall s :: s in entries ==> BaseTag in s.tags
  }

  /** The store's operations keep every slot carrying the base tag: a call of
      `findManyCached` (and so of `distinct`) only adds a slot that carries
      it, and an invalidation only removes slots. */
  lemma BaseTaggedPreserved(entries: Entries, now: int, model: string, args: Object, findMany: FindMany, tag: string)
    requires OptionsTyped(args) && AllBaseTagged(entries)
    ensures AllBaseTagged(CachedQuery(entries, now, model, args, findMany).entries)
    ensures AllBaseTagged(Invalidated(entries, tag))
  {
  }

  /** A forced refresh empties the whole store, other models and keys included,
      and leaves only the refreshed record. */
  lemma RefreshClearsStore(entries: Entries, now: int, model: string, args: Object, findMany: FindMany)
    requires OptionsTyped(args) && AllBaseTagged(entries) && NeedsRefresh(entries, now, model, args)
    ensures var slot := SlotOf(model, args);
      CachedQuery(entries, now, model, args, findMany).entries
        == map[slot := CacheRecord(findMany(Forwarded(args)), now)]
  {
    StaleRefetches(entries, now, model, args, findMany);
    assert Invalidated(entries, BaseTag) == map[];
  }

  /** Calls that differ only in `swr` behave the same except for the reported `swr`. */
  lemma SwrNeverDecides(entries: Entries, now: int, model: string, args: Object, findMany: FindMany, swr: int)
    requires OptionsTyped(args)
    ensures OptionsTyped(args["swr" := Num(swr)])
    ensures var e, e' := CachedQuery(entries, now, model, args, findMany),
                         CachedQuery(entries, now, model, args["swr" := Num(swr)], findMany);
      && e'.entries == e.entries && e'.fetched == e.fetched && e'.revalidated == e.revalidated
      && e'.output.result == e.output.result
      && (e.output.Expanded? ==> e'.output == e.output.(swr := swr))
      && (e.output.Plain? ==> e'.output == e.output)
  {
    SwrOnlySurfaced(args, swr);
    assert Forwarded(args["swr" := Num(swr)]) == Forwarded(args);
  }

  /**
    The framework cache seen by one process: the stored records, a millisecond
    clock, how often the fetch function ran, and the tags invalidated so far.
   */
  class Store {
    var entries: Entries
    var now: int
    var fetches: nat
    var revalidated: seq<string>

    ghost predicate Valid()
      reads this
    {
      NotAhead(entries, now)
    }

    constructor (start: int)
      ensures Valid()
      ensures entries == map[] && now == start && fetches == 0 && revalidated == []
    {
      entries := map[];
      now := start;
      fetches := 0;
      revalidated := [];
    }

    /** Time passes. The model's clock is monotone: it never runs backwards. */
    method Advance(ms: nat)
      requires Valid()
      modifies this
      ensures Valid()
      ensures now == old(now) + ms
      ensures entries == old(entries) && fetches == old(fetches) && revalidated == old(revalidated)
    {
      now := now + ms;
    }

    /** Answers the record stored at `(tags, args)`, or fetches it now and stores it. */
    method GetOrPopulate(tags: seq<string>, args: Object, findMany: FindMany) returns (record: CacheRecord)
      requires Valid()
      modifies this
      ensures Valid()
      ensures var l := Populated(old(entries), Slot(tags, args), findMany, old(now));
        && record == l.record && entries == l.entries && fetches == old(fetches) + l.fetched
      ensures now == old(now) && revalidated == old(revalidated)
    {
      var slot := Slot(tags, args);
      if slot in entries {
        record := entries[slot];
      } else {
        record := CacheRecord(findMany(args), now);
        entries := entries[slot := record];
        fetches := fetches + 1;
      }
    }

    /** `revalidateTag`: drops every record carrying `tag`. */
    method Invalidate(tag: string)
      requires Valid()
      modifies this
      ensures Valid()
      ensures entries == Invalidated(old(entries), tag)
      ensures revalidated == old(revalidated) + [tag]
      ensures now == old(now) && fetches == old(fetches)
    {
      entries := Invalidated(entries, tag);
      revalidated := revalidated + [tag];
    }

    /** `findManyCached`: answers from the store, forcing one refresh when the
        record it finds is not fresh. */
    method FindManyCached(model: string, args: Object, findMany: FindMany) returns (out: Output)
      requires Valid() && OptionsTyped(args)
      modifies this
      ensures Valid()
      ensures var e := CachedQuery(old(entries), old(now), model, args, findMany);
        && out == e.output && entries == e.entries
        && fetches == old(fetches) + e.fetched && revalidated == old(revalidated) + e.revalidated
      ensures now == old(now)
    {
      var st := ReadStrategy(args);
      var tags := Tags(model, st.key);
      var forwarded := Forwarded(args);
      var record := GetOrPopulate(tags, forwarded, findMany);
      var result, cachedAt := record.result, record.cachedAt;
      var staleTime := StaleTime(now, cachedAt);
      if !IsFresh(staleTime, st.ttl) {
        Invalidate(tags[0]);
        record := GetOrPopulate(tags, forwarded, findMany);
        result, cachedAt := record.result, record.cachedAt;
        staleTime := StaleTime(now, cachedAt);
      }
      out := Envelope(result, staleTime, st, cachedAt, now);
    }
  }
}
