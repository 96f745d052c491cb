/**
 * JSON-shaped values: what the tool runtime passes as arguments, what the
 * clients put into request payloads and what the SDK returns after `to_dict()`.
 * `Null` is Python's `None`.
 */
module Json {
  datatype Value =
    | Null
    | Bool(b: bool)
    | Int(i: int)
    | Str(s: string)
    | List(items: seq<Value>)
    | Object(fields: map<string, Value>)

  /** Python's truth value of a JSON value (`if v:`). */
  predicate Truthy(v: Value)
  {
    match v
    case Null => false
    case Bool(b) => b
    case Int(i) => i != 0
    case Str(s) => s != ""
    case List(items) => items != []
    case Object(fields) => fields != map[]
  }

  /** `d.get(key)`: the entry for `key`, or `None` when the key is absent. */
  function Get(d: map<string, Value>, key: string): Value
  {
    if key in d then d[key] else Null
  }
}
