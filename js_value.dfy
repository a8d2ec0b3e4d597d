/**
  The JavaScript values that the query cache and its helpers look at:
  argument objects, option objects and the rows a query returns.
  Numbers are integers in this model.
 */
module JsValue {

  datatype Value =
    | Undefined
    | Null
    | Bool(b: bool)
    | Num(n: int)
    | Str(s: string)
    | Arr(items: seq<Value>)
    | Obj(fields: map<string, Value>)

  /** A plain object: query arguments, an options bag or a returned row. */
  type Object = map<string, Value>

  /** Property access `o[k]`: a missing property reads as `undefined`. */
  function Get(o: Object, k: string): Value
  {
    if k in o then o[k] else Undefined
  }

  /** The default of a destructuring pattern `{ x = d }`, which replaces `undefined` only. */
  function OrDefault(v: Value, d: Value): Value
  {
    if v.Undefined? then d else v
  }

  /** `Boolean(v)`: the test behind `if (v)`, `!!v` and `filter(Boolean)`.
      The falsy values are exactly undefined, null, false, 0 and the empty string. */
  predicate Truthy(v: Value)
    ensures !Truthy(v) <==> v == Undefined || v == Null || v == Bool(false) || v == Num(0) || v == Str("")
  {
    match v
    case Undefined => false
    case Null => false
    case Bool(b) => b
    case Num(n) => n != 0
    case Str(s) => s != ""
    case Arr(_) => true
    case Obj(_) => true
  }
}
