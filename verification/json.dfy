/** Parsed JSON documents as the Python code sees them after `response.json()`. */
module JsonValues {

  /** A JSON value. Integers and floats both become `Num`; objects are
      dictionaries keyed by string. */
  datatype Json =
    | Null
    | Bool(b: bool)
    | Num(n: real)
    | Str(s: string)
    | Arr(items: seq<Json>)
    | Obj(fields: map<string, Json>)

  /** Python truthiness of the value (`if value:`). */
  predicate Truthy(j: Json) {
    match j
    case Null => false
    case Bool(b) => b
    case Num(n) => n != 0.0
    case Str(s) => |s| > 0
    case Arr(items) => |items| > 0
    case Obj(fields) => |fields| > 0
  }

  /** `d.get(key, default)` on a dictionary. */
  function Get(d: map<string, Json>, key: string, default: Json): (r: Json)
    ensures key in d ==> r == d[key]
    ensures key !in d ==> r == default
  {
    if key in d then d[key] else default
  }

  /** An empty dictionary, `{}`. */
  const EmptyObj: Json := Obj(map[])

  /** An empty list, `[]`. */
  const EmptyArr: Json := Arr([])
}
