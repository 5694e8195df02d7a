/**
 * Decoded JSON values as the Python side of the service sees them after
 * `json.load` or `request.get_json()`, with Python's truth value on them.
 */
module Json {

  /** A decoded JSON document. Numbers are exact reals; an object is a
      dictionary from its keys to its members. */
  datatype Json =
    | JNull
    | JBool(b: bool)
    | JNum(n: real)
    | JStr(s: string)
    | JArr(items: seq<Json>)
    | JObj(fields: map<string, Json>)

  /** Python's `bool(v)` on a decoded value: `None`, `False`, zero, the
      empty string, the empty list and the empty dictionary are false,
      and these six are the only values `not v` accepts. */
  predicate Truthy(v: Json)
    ensures !Truthy(v) <==>
      v == JNull || v == JBool(false) || v == JNum(0.0) ||
      v == JStr("") || v == JArr([]) || v == JObj(map[])
  {
    match v
    case JNull => false
    case JBool(b) => b
    case JNum(n) => n != 0.0
    case JStr(s) => |s| > 0
    case JArr(items) => |items| > 0
    case JObj(fields) => |fields| > 0
  }

  /** `dict.get(k)`: a missing key reads as Python's `None`, i.e. `null`. */
  function Get(fields: map<string, Json>, k: string): (v: Json)
    ensures k in fields ==> v == fields[k]
    ensures k !in fields ==> !Truthy(v)
  {
    if k in fields then fields[k] else JNull
  }
}
