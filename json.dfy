/** JSON-shaped values: request and token payloads, response bodies and
    exception details are dictionaries of these. */
module Json {
  import opened Wrappers

  datatype Json =
    | JNull
    | JBool(b: bool)
    | JInt(i: int)
    | JReal(r: real)
    | JStr(s: string)
    | JList(items: seq<Json>)
    | JObject(fields: map<string, Json>)

  type Object = map<string, Json>

  /** Python's `dict.get(key)`: the stored value, or `None` when the key is absent. */
  function Get(o: Object, key: string): (r: Option<Json>)
    ensures r.Some? <==> key in o
    ensures r.Some? ==> r.value == o[key]
  {
    if key in o then Some(o[key]) else None
  }

  /** `dict.get(key)` read by a caller that tests it with `is None`: an
      explicit JSON null reads the same as a missing key. */
  predicate IsNone(o: Object, key: string) {
    key !in o || o[key] == JNull
  }

  /** `dict.get(key)` serialised back to JSON: a missing key becomes null. */
  function GetOrNull(o: Object, key: string): (r: Json)
    ensures key in o ==> r == o[key]
    ensures key !in o ==> r == JNull
  {
    if key in o then o[key] else JNull
  }

  /** JavaScript truthiness of a parsed JSON value. */
  predicate Truthy(v: Json) {
    match v
    case JNull => false
    case JBool(b) => b
    case JInt(i) => i != 0
    case JReal(r) => r != 0.0
    case JStr(s) => s != ""
    case JList(_) => true
    case JObject(_) => true
  }
}
