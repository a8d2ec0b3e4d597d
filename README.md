# A verified model of the Prisma query cache

This project models the read-through query cache of `prisma/prisma.ts` in
Dafny. It covers three pieces:

- `findManyCached`, the caching extension available on every model.
- The `distinct` helper, which goes through that cache.
- The `exists` helper, which bypasses the cache.

A call of `findManyCached` does the following:

1. It takes the caching options out of its arguments and applies their defaults: `ttl` 10 s, `swr` `ttl + 10`, an optional `key`, and `expandedOutput`.
2. It tags the query with `findManyCached` and `findManyCached-<model>`, and adds `key` when `key` is truthy.
3. It asks the tag-indexed framework cache for `{result, cachedAt}`.
4. If the record is `ttl` or more seconds old (rounded up), it invalidates the base tag and asks the cache exactly once more.
5. It returns the rows, or, when `expandedOutput` is set, an envelope with `staleTime`, `ttl`, `swr`, `cachedAt` and `timestamp`.

Files:

- `js_value.dfy` (module `JsValue`): the JavaScript values the code handles. It also defines truthiness, property access that reads a missing key as `undefined`, and destructuring defaults.
- `cache_strategy.dfy` (module `CacheStrategy`): the pure parts of `findManyCached`. These are option defaulting, the tag list, the arguments forwarded to `findMany`, the rounded-up age in seconds, the freshness test and the result envelope.
- `caching_extension.dfy` (module `CachingExtension`): the framework cache as a `Store` class. The class holds a map from slot (tag list plus forwarded arguments) to record, a millisecond clock, a count of fetches and a log of invalidated tags.
  - Its methods are `GetOrPopulate`, `Invalidate` and `FindManyCached`.
  - `FindManyCached` is proved against the specification function `CachedQuery`, and the properties of the cache are proved as lemmas about that function.
- `prisma_extensions.dfy` (module `PrismaExtensions`): `distinct` (a module-level method that takes the store), the `select` fold, and the `map`/`flat`/`filter(Boolean)` pipeline. It also holds `exists`, a function that takes no store at all.
- `cache_scenarios.dfy` (module `CacheScenarios`): short clients that run calls against a new store and prove the observable behaviour, such as how many fetches happen and which tags are invalidated.

The fetch functions `findMany` and `findFirst` are parameters, from an argument object to rows (or to a row or `null`).

## Model

| member | source | states |
|---|---|---|
| `JsValue.Truthy` | prisma/prisma.ts:160 | the test behind `if (key)` (line 75), `if (expandedOutput)` (line 107), `filter(Boolean)` (line 160) and `!!` (line 164): a value is falsy exactly when it is null, undefined, false, 0 or "" |
| `CacheStrategy.ReadStrategy` | prisma/prisma.ts:65-72 | `ttl` is 10 when absent or undefined, otherwise the given number. `swr` is `ttl + 10` when absent, otherwise passed through unchanged. `key` is kept as given. The envelope is chosen by the truthiness of `expandedOutput` |
| `CacheStrategy.SwrOnlySurfaced` | prisma/prisma.ts:65-72 | supplying `swr` changes the strategy in its `swr` field only |
| `CacheStrategy.Tags` | prisma/prisma.ts:74-75 | the tags are `findManyCached` then `findManyCached-<model>`, then `key` exactly when `key` is truthy (so an empty key adds no tag). `tags[0]` is always the base tag |
| `CacheStrategy.KeyTagScoped` | prisma/prisma.ts:74-75 | a caller key that differs from the base tag, the model tag and the other query's key is not among that query's tags |
| `CacheStrategy.Forwarded` | prisma/prisma.ts:65-71 | `findMany` receives the caller's arguments without `ttl`, `expandedOutput`, `swr` and `key`. Every other property is kept with its value |
| `CacheStrategy.ForwardedDropsOnlyOptions` | prisma/prisma.ts:65-71 | adding caching options to a query leaves the forwarded query equal to the query |
| `CacheStrategy.StaleTime` | prisma/prisma.ts:95 | the age is the elapsed milliseconds divided by 1000 and rounded up (`(s-1)*1000 < elapsed <= s*1000`). It is never negative when the record is not from the future |
| `CacheStrategy.IsFresh` | prisma/prisma.ts:97 | with `ttl <= 0` no record of non-negative age is fresh; a record zero seconds old is fresh exactly when `ttl` is positive |
| `CacheStrategy.FreshWindow` | prisma/prisma.ts:95-97 | `staleTime < ttl` holds exactly when the record is at most `(ttl-1)*1000` ms old |
| `CacheStrategy.Envelope` | prisma/prisma.ts:107-118 | the result is always the rows. An envelope is produced exactly when `expandedOutput` is truthy, and it carries the strategy's `ttl` and `swr`, the age, `cachedAt` and the current time |
| `CachingExtension.Populated` | prisma/prisma.ts:77-93 | get-or-populate: a stored record is answered without fetching. A missing one is fetched with the forwarded arguments, stamped now and stored. Other slots are untouched |
| `CachingExtension.Invalidated` | prisma/prisma.ts:100 | invalidating a tag removes exactly the slots whose tag list contains it and keeps the others' records |
| `CachingExtension.CachedQuery` | prisma/prisma.ts:45-119 | one call invalidates nothing or exactly the base tag, fetches at most twice, leaves its slot in the store holding the rows it returns, and envelopes exactly when `expandedOutput` is truthy |
| `CachingExtension.SlotOf` | prisma/prisma.ts:74-91 | every slot the extension reads or fills is keyed by the forwarded arguments and carries the base tag |
| `CachingExtension.RefreshIffNotFresh` | prisma/prisma.ts:93-105 | the base tag is invalidated exactly once when the first record answered is not fresh, and never otherwise |
| `CachingExtension.FreshHit` | prisma/prisma.ts:93-97 | when the record is fresh, nothing is invalidated. A stored record comes back as stored, with no fetch and an unchanged store. A missing slot costs one fetch and is stored |
| `CachingExtension.StaleRefetches` | prisma/prisma.ts:97-105 | when the record is not fresh, there is one invalidation of the base tag and exactly one more lookup, with no loop. That lookup misses and fetches, so the result is the current `findMany` answer stamped now, with age 0. The store afterwards is the base-tag invalidation of the old store plus the refreshed slot |
| `CachingExtension.NonPositiveTtlAlwaysRefetches` | prisma/prisma.ts:95-105 | with `ttl <= 0` every call invalidates the base tag and answers a fresh fetch. A call on an absent slot fetches twice |
| `CachingExtension.EnvelopeReportsStrategy` | prisma/prisma.ts:107-118 | the envelope appears exactly when `expandedOutput` is truthy. Its `ttl`/`swr` are the configured or defaulted values whether or not a refresh happened |
| `CachingExtension.StaleTimeNonNegative` | prisma/prisma.ts:95-104 | with a monotone clock the reported age is never negative, and no stored record is from the future |
| `CachingExtension.ClockSetBackSkipsRefresh` | prisma/prisma.ts:95-99 | a record stamped a second or more after the current time has a negative age, which counts as fresh even with `ttl` 0: the stored rows are answered with no fetch and no invalidation |
| `CachingExtension.BaseTaggedPreserved` | prisma/prisma.ts:74-100 | every slot in the store carries the base tag, and this is kept by every `findManyCached` call (so by `distinct` too) and by every invalidation. This is what `RefreshClearsStore` assumes |
| `CachingExtension.RefreshClearsStore` | prisma/prisma.ts:99-101 | a forced refresh empties the entire store, other models and keys included, leaving only the refreshed record |
| `CachingExtension.SwrNeverDecides` | prisma/prisma.ts:65-97 | two calls that differ only in `swr` fetch, invalidate and store the same. Plain outputs are equal; envelopes differ only in the reported `swr` |
| `CachingExtension.Store.Advance` | prisma/prisma.ts:83 | the model's clock, standing for `new Date()`, only moves forward (an assumption, see below), and nothing else in the store changes |
| `CachingExtension.Store.GetOrPopulate` | prisma/prisma.ts:77-91 | the store's new contents, the answered record and the fetch count are those of `Populated` |
| `CachingExtension.Store.Invalidate` | prisma/prisma.ts:100 | `revalidateTag`: the new contents are `Invalidated` of the old contents, and the tag is logged |
| `CachingExtension.Store.FindManyCached` | prisma/prisma.ts:45-119 | the imperative call (lookup, age, one conditional invalidate-and-lookup, envelope) leaves exactly the store, fetch count and invalidation log that `CachedQuery` specifies, and returns its output |
| `PrismaExtensions.SelectFields` | prisma/prisma.ts:147 | the `reduce` yields an object whose keys are exactly the listed fields, each mapped to `true` |
| `PrismaExtensions.Selection` | prisma/prisma.ts:144-155 | `select` maps exactly the requested field, or each of the listed fields, to `true` |
| `PrismaExtensions.DistinctArgs` | prisma/prisma.ts:132-142 | the resulting `ttl` is 86400 unless given. `take` defaults to undefined. The key is `<model>-distinct`, with no envelope. `findMany` receives exactly `where`, `distinct: field`, `take` and `select` |
| `PrismaExtensions.DistinctSlotIsOwn` | prisma/prisma.ts:136-142 | a `distinct` query never shares a cache slot with a query on the same model whose key is absent or empty |
| `PrismaExtensions.Pluck` | prisma/prisma.ts:158 | `.map(p => p[field])` gives one value per row, in row order, with a missing field read as undefined |
| `PrismaExtensions.Flat` | prisma/prisma.ts:159 | `.flat()` leaves a sequence without arrays unchanged. Every element it yields is a non-array input or an item of an input array, and conversely every non-array input and every item of an input array appears |
| `PrismaExtensions.FlatSingle` | prisma/prisma.ts:159 | one element flattens to its items if it is an array, else to itself; with `FlatAppend` this fixes `.flat()` on every input |
| `PrismaExtensions.FlatAppend` | prisma/prisma.ts:159 | flattening distributes over concatenation (order is kept) |
| `PrismaExtensions.Compact` | prisma/prisma.ts:160 | `filter(Boolean)` keeps only truthy values, and each truthy value exactly as often as it occurs, so nothing is deduplicated |
| `PrismaExtensions.CompactAppend` | prisma/prisma.ts:160 | filtering distributes over concatenation (order is kept) |
| `PrismaExtensions.DistinctValues` | prisma/prisma.ts:157-160 | the single-field result holds only truthy values |
| `PrismaExtensions.DistinctValuesInRowOrder` | prisma/prisma.ts:157-160 | values of earlier rows come before those of later rows |
| `PrismaExtensions.DistinctValuesKeepDuplicates` | prisma/prisma.ts:157-160 | for any field, list-valued or not, each truthy value occurs as often as in the one-level flattening of the field's values, and falsy values not at all |
| `PrismaExtensions.DistinctValuesOfScalarField` | prisma/prisma.ts:157-160 | for a field holding no arrays, each truthy value occurs as often as the rows hold it |
| `PrismaExtensions.Distinct` | prisma/prisma.ts:128-161 | `distinct` is one cached query with `DistinctArgs`, never enveloped. A field list answers the rows unchanged; a single field answers `DistinctValues` of them |
| `PrismaExtensions.Exists` | prisma/prisma.ts:163-167 | `!!findFirst({where})`: a found row means true and null means false. The function takes no store, so it neither reads nor changes the cache |
| `PrismaExtensions.ExistsIffSomeRowMatches` | prisma/prisma.ts:163-167 | `exists(where)` holds exactly when some row matches, given a `findFirst` that answers `findMany`'s first row or null. `Exists` takes no store, so the cache cannot affect it |
| `CacheScenarios.ReadWithinTtl` | prisma/prisma.ts:93-97 | with the default `ttl`, a read 5 s after the first returns the same rows and the fetch runs once in all |
| `CacheScenarios.ReadAfterTtl` | prisma/prisma.ts:97-118 | a read 11 s later invalidates the base tag once and fetches once more. It reports the new record with `cachedAt` at 11000 ms, age 0, `ttl` 10 and `swr` 20 |
| `CacheScenarios.ZeroTtlFetchesTwice` | prisma/prisma.ts:95-105 | with `ttl: 0` a first call fetches twice and invalidates the base tag once |
| `CacheScenarios.KeyInvalidationIsScoped` | prisma/prisma.ts:74-75 | invalidating key "a" leaves the record under key "b" in place (no fetch on re-read), while re-reading under "a" fetches again |
| `CacheScenarios.DistinctIsCachedForADay` | prisma/prisma.ts:132-142 | a second identical single-field `distinct` an hour later is answered from the store (one fetch in all) and equals the first, whose values are all truthy |

## Left out

- Building the Prisma client, the development-mode global singleton and the `omit` configuration (prisma/prisma.ts:4-29) are left out. They configure a foreign library.
- The extension plumbing (`Prisma.defineExtension`, `getExtensionContext`, `$extends`) is left out. The model's name is a parameter, and `findMany`/`findFirst` are function parameters.
- What Prisma does with `select`, `distinct` and `take` is not modelled, since the query engine is outside the model. For example, a field list does not make the rows contain only those fields here. The model proves what is handed to `findMany` and that rows come back unchanged.
- The framework cache's own `revalidate: ttl` period is not modelled. The model assumes a store that answers a stored record until a tag invalidation removes it, and that the explicit staleness check (prisma/prisma.ts:97-105) is what forces a refresh. How the framework treats an entry past its `revalidate` period is not visible in the source.
- The serialisation of the whole stored record `{result, cachedAt}` inside the framework cache is not modelled. Rows come back from the store exactly as stored, and `cachedAt` is a number, not a `Date` that becomes a string. Time is an integer millisecond clock.
- CachingExtension.Store.Advance: the store's clock is assumed monotone (`Advance` takes a `nat`, and `Store.Valid` requires that no record is stamped after the current time). `new Date()` reads the wall clock, which can be set back. A record stamped after the current time then has a negative `staleTime`, which counts as fresh even with `ttl` 0, so the source skips the refresh. The pure function `CachedQuery` does cover this case (`ClockSetBackSkipsRefresh`), but no `Store` can reach it.
- Time passing inside one call is not modelled. Every `new Date()` reading within one call, including the one inside the fetch, is the same instant. The clock moves only between calls. Two consequences follow. In the source, the stamp at prisma/prisma.ts:83 and the reading at :95 can be a millisecond apart, which gives an age of 1 s; with `ttl: 1` the source then refreshes on a miss and fetches twice, where the model fetches once (`NeedsRefresh` is `ttl <= 0` for an absent slot). For the same reason, a refreshed record can report `staleTime` 1 in the source, where the model reports 0.
- Failures of the fetch function (a rejected promise) are not modelled. `findMany` is total, so the path where a refresh fails after the invalidation is absent.
- Concurrency is not modelled: awaits, and duplicate refreshes by simultaneous callers (a cache stampede). The model is sequential.
- `swr` is surfaced only. It is never used for a background refresh, in the source or here.
- Numbers are integers. A fractional or NaN `ttl`, and NaN as a falsy value, are not modelled.
- The result type in the source names its field `stateTime` (prisma/prisma.ts:52), but the runtime object uses `staleTime`. The model follows the runtime object.
- The age is rounded up with `Math.ceil` (prisma/prisma.ts:95). One consequence: a record is fresh only while it is at most `ttl - 1` whole seconds old (`FreshWindow`).
- CachingExtension.NonPositiveTtlAlwaysRefetches: with `ttl` 0, the claim that every call fetches twice holds here only for a slot that is absent. On a slot already stored, the first lookup is a hit and only the forced refresh fetches. Whether the framework cache stores anything at all under `revalidate: 0` is not part of this model.
- The UI providers, components and page (`providers/*.tsx`, `components/ActionTooltip.tsx`, `app/page.tsx`) and the authentication code (`lib/server/*`, `lib/errors.ts`) are not part of this model. They are presentation, cookie, token and validation code around the cache.
