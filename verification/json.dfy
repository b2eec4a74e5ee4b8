/**
 * JSON values as the websocket handlers receive them (`websocket.receive_json()`),
 * with Python's truthiness and `dict.get`.
 */
module JsonValues {

  /** A decoded JSON value; numbers are integers, objects are unordered. */
  datatype Json =
    | JNull
    | JBool(b: bool)
    | JNum(n: int)
    | JStr(s: string)
    | JList(items: seq<Json>)
    | JObj(fields: map<string, Json>)

  /** A JSON object as a Python dict. */
  type Dict = map<string, Json>

  /** Python's `bool(v)`: null, false, zero and empty containers are false. */
  predicate Truthy(v: Json) {
    match v
    case JNull => false
    case JBool(b) => b
    case JNum(n) => n != 0
    case JStr(s) => |s| > 0
    case JList(items) => |items| > 0
    case JObj(fields) => |fields| > 0
  }

  /** The falsy JSON values: null, false, zero and the empty string, list and object. */
  const Falsy: set<Json> := {JNull, JBool(false), JNum(0), JStr(""), JList([]), JObj(map[])}

  /** A value is truthy exactly when it is none of the six falsy values. */
  lemma TruthyIffNotFalsy(v: Json)
    ensures Truthy(v) <==> v !in Falsy
  {
  }

  /** `d.get(key, default)` */
  function Get(d: Dict, key: string, default: Json): (v: Json)
    ensures key in d ==> v == d[key]
    ensures key !in d ==> v == default
  {
    if key in d then d[key] else default
  }
}
