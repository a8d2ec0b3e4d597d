/**
  The query helpers built on the cache: `distinct`, which goes through
  `findManyCached` under its own key, and `exists`, which goes straight to
  `findFirst` and never touches the store.
 */
module PrismaExtensions {
  import opened JsValue
  import opened CacheStrategy
  import opened CachingExtension

  /** Cache window, in seconds, of a `distinct` query when the caller gives no `ttl`. */
  const DistinctTtl: int := 86400

  /** The `field` argument of `distinct`: one field name or a list of them. */
  datatype Field = One(name: string) | Many(names: seq<string>)

  /** What `distinct` returns: whole rows for a field list, values for one field. */
  datatype DistinctResult = Rows(rows: seq<Row>) | Values(values: seq<Value>)

  /** The field as it is passed on under `distinct:`. */
  function FieldArg(field: Field): Value
  {
    match field
    case One(f) => Str(f)
    case Many(fs) => Arr(seq(|fs|, i requires 0 <= i < |fs| => Str(fs[i])))
  }

  /** The `reduce` that turns a field list into a `select` object. */
  function SelectFields(fields: seq<string>): (select: Object)
    ensures select.Keys == set f | f in fields
    ensures forall f :: f in select ==> select[f] == Bool(true)
  {
    if fields == [] then map[]
    else SelectFields(fields[..|fields| - 1])[fields[|fields| - 1] := Bool(true)]
  }

  /** The `select` object: every requested field mapped to `true`, and nothing else. */
  function Selection(field: Field): (select: Object)
    ensures select.Keys == match field case One(f) => {f} case Many(fs) => set f | f in fs
    ensures forall f :: f in select ==> select[f] == Bool(true)
  {
    match field
    case One(f) => map[f := Bool(true)]
    case Many(fs) => SelectFields(fs)
  }

  /** The arguments `distinct` hands to `findManyCached`. */
  function DistinctArgs(model: string, field: Field, where: Value, options: Object): (args: Object)
    requires NumberOrUndefined(Get(options, "ttl"))
    ensures OptionsTyped(args)
    ensures Get(options, "ttl").Undefined? ==> ReadStrategy(args).ttl == DistinctTtl
    ensures Get(options, "ttl").Num? ==> ReadStrategy(args).ttl == Get(options, "ttl").n
    ensures ReadStrategy(args).key == Str(model + "-distinct") && !ReadStrategy(args).expandedOutput
    ensures Forwarded(args).Keys == {"where", "distinct", "take", "select"}
    ensures Forwarded(args)["where"] == where && Forwarded(args)["distinct"] == FieldArg(field)
    ensures Forwarded(args)["take"] == Get(options, "take")
    ensures Forwarded(args)["select"] == Obj(Selection(field))
  {
    map[
      "where" := where,
      "distinct" := FieldArg(field),
      "take" := OrDefault(Get(options, "take"), Undefined),
      "ttl" := OrDefault(Get(options, "ttl"), Num(DistinctTtl)),
      "key" := Str(model + "-distinct"),
      "select" := Obj(Selection(field))
    ]
  }

  /** A `distinct` query never shares a slot with a plain query of the same
      model that has no key or an empty one: the two are cached independently. */
  lemma DistinctSlotIsOwn(model: string, field: Field, where: Value, options: Object, args: Object)
    requires NumberOrUndefined(Get(options, "ttl"))
    requires OptionsTyped(args) && !Truthy(Get(args, "key"))
    ensures SlotOf(model, DistinctArgs(model, field, where, options)) != SlotOf(model, args)
  {
    var key := Str(model + "-distinct");
    assert Truthy(key) by { assert |model + "-distinct"| > 0; }
  }

  /** `.map(p => p[field])`. */
  function Pluck(rows: seq<Row>, field: string): (vs: seq<Value>)
    ensures |vs| == |rows|
    ensures forall i :: 0 <= i < |rows| ==> vs[i] == Get(rows[i], field)
  {
    seq(|rows|, i requires 0 <= i < |rows| => Get(rows[i], field))
  }

  /** One element's contribution to `.flat()`: an array's items, or the element itself. */
  function Spread(v: Value): seq<Value>
  {
    if v.Arr? then v.items else [v]
  }

  /** `.flat()`: arrays are flattened one level, in order. */
  function Flat(vs: seq<Value>): (flat: seq<Value>)
    ensures (forall i :: 0 <= i < |vs| ==> !vs[i].Arr?) ==> flat == vs
    ensures forall x :: x in flat ==> (x in vs && !x.Arr?) || exists v :: v in vs && v.Arr? && x in v.items
    ensures forall v, x :: v in vs && v.Arr? && x in v.items ==> x in flat
    ensures forall v :: v in vs && !v.Arr? ==> v in flat
  {
    if vs == [] then [] else Spread(vs[0]) + Flat(vs[1..])
  }

  lemma {:induction false} FlatAppend(a: seq<Value>, b: seq<Value>)
    ensures Flat(a + b) == Flat(a) + Flat(b)
  {
    if a == [] {
      assert a + b == b;
    } else {
      assert (a + b)[1..] == a[1..] + b;
      FlatAppend(a[1..], b);
    }
  }

  /** Flattening one element yields its spread; with `FlatAppend` this fixes
      `Flat` on every input. */
  lemma FlatSingle(v: Value)
    ensures Flat([v]) == Spread(v)
  {
    assert [v][1..] == [];
  }

  /** `.filter(Boolean)`: falsy values are dropped; every truthy value is kept
      as often as it occurs, so nothing is deduplicated. */
  function Compact(vs: seq<Value>): (kept: seq<Value>)
    ensures forall i :: 0 <= i < |kept| ==> Truthy(kept[i])
    ensures forall x :: multiset(kept)[x] == if Truthy(x) then multiset(vs)[x] else 0
  {
    if vs == [] then []
    else
      assert vs == [vs[0]] + vs[1..];
      (if Truthy(vs[0]) then [vs[0]] else []) + Compact(vs[1..])
  }

  lemma {:induction false} CompactAppend(a: seq<Value>, b: seq<Value>)
    ensures Compact(a + b) == Compact(a) + Compact(b)
  {
    if a == [] {
      assert a + b == b;
    } else {
      assert (a + b)[1..] == a[1..] + b;
      CompactAppend(a[1..], b);
    }
  }

  /** The single-field result of `distinct`: `.map(...).flat().filter(Boolean)`. */
  function DistinctValues(rows: seq<Row>, field: string): (vs: seq<Value>)
    ensures forall i :: 0 <= i < |vs| ==> Truthy(vs[i])
  {
    Compact(Flat(Pluck(rows, field)))
  }

  /** The values come in row order: those of earlier rows before those of later ones. */
  lemma {:induction false} DistinctValuesInRowOrder(a: seq<Row>, b: seq<Row>, field: string)
    ensures DistinctValues(a + b, field) == DistinctValues(a, field) + DistinctValues(b, field)
  {
    var pa, pb := Pluck(a, field), Pluck(b, field);
    assert Pluck(a + b, field) == pa + pb;
    FlatAppend(pa, pb);
    CompactAppend(Flat(pa), Flat(pb));
  }

  /** Whatever the field holds, every truthy value of the flattened field
      occurs in the result as often as in the flattened rows (so nothing is
      deduplicated), and the falsy ones not at all. */
  lemma {:induction false} DistinctValuesKeepDuplicates(rows: seq<Row>, field: string, x: Value)
    ensures multiset(DistinctValues(rows, field))[x] == if Truthy(x) then multiset(Flat(Pluck(rows, field)))[x] else 0
  {
    var flat := Flat(Pluck(rows, field));
    assert DistinctValues(rows, field) == Compact(flat);
  }

  /** For a field holding no arrays the flattening is the identity, so the
      counts are those of the field's values in the rows. */
  lemma {:induction false} DistinctValuesOfScalarField(rows: seq<Row>, field: string, x: Value)
    requires forall i :: 0 <= i < |rows| ==> !Get(rows[i], field).Arr?
    ensures multiset(DistinctValues(rows, field))[x] == if Truthy(x) then multiset(Pluck(rows, field))[x] else 0
  {
    DistinctValuesKeepDuplicates(rows, field, x);
    assert Flat(Pluck(rows, field)) == Pluck(rows, field);
  }

  /** `distinct`: a cached query under the model's `-distinct` key; a field list
      answers the rows as they came, a single field its truthy values. */
  method Distinct(store: Store, model: string, field: Field, where: Value, options: Object, findMany: FindMany)
    returns (out: DistinctResult)
    requires store.Valid() && NumberOrUndefined(Get(options, "ttl"))
    modifies store
    ensures store.Valid() && store.now == old(store.now)
    ensures var e := CachedQuery(old(store.entries), old(store.now), model, DistinctArgs(model, field, where, options), findMany);
      && store.entries == e.entries && store.fetches == old(store.fetches) + e.fetched
      && store.revalidated == old(store.revalidated) + e.revalidated
      && e.output.Plain?
      && out == match field
                case Many(_) => Rows(e.output.result)
                case One(f) => Values(DistinctValues(e.output.result, f))
  {
    var args := DistinctArgs(model, field, where, options);
    var result := store.FindManyCached(model, args, findMany);
    match field
    case Many(_) =>
      out := Rows(result.result);
    case One(f) =>
      out := Values(DistinctValues(result.result, f));
  }

  /** The model's `findFirst`: the first matching row as an object, or null. */
  type FindFirst = Object -> Value

  /** `exists`: whether `findFirst({where})` found a row. It takes no store, so
      it neither reads nor changes the cache. */
  function Exists(where: Value, findFirst: FindFirst): (found: bool)
    ensures findFirst(map["where" := where]).Obj? ==> found
    ensures findFirst(map["where" := where]) == Null ==> !found
  {
    Truthy(findFirst(map["where" := where]))
  }

  function FirstRow(rows: seq<Row>): Value
  {
    if rows == [] then Null else Obj(rows[0])
  }

  /** When `findFirst` answers the first row `findMany` would, `exists` holds
      exactly when some row matches. */
  lemma ExistsIffSomeRowMatches(where: Value, findFirst: FindFirst, findMany: FindMany)
    requires forall q :: findFirst(q) == FirstRow(findMany(q))
    ensures Exists(where, findFirst) <==> |findMany(map["where" := where])| > 0
  {
  }
}
