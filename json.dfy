/**
 * A decoded JSON document, as `json.loads` hands it to the intent connectors and
 * as the event and task dictionaries are passed around, with Python's truthiness
 * and `dict.get`.
 */
module Json {

  datatype Value =
    | Null
    | Bool(b: bool)
    | Num(n: real)
    | Str(s: string)
    | Arr(items: seq<Value>)
    | Obj(fields: map<string, Value>)

  /** `bool(v)` in Python. */
  predicate Truthy(v: Value)
  {
    match v
    case Null => false
    case Bool(b) => b
    case Num(n) => n != 0.0
    case Str(s) => s != ""
    case Arr(a) => a != []
    case Obj(m) => m != map[]
  }

  /** `m.get(key, default)` */
  function Get(m: map<string, Value>, key: string, default: Value): (r: Value)
    ensures key in m ==> r == m[key]
    ensures key !in m ==> r == default
  {
    if key in m then m[key] else default
  }
}
