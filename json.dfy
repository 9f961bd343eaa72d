/** JSON values as the page sends and receives them, and the JavaScript
    truthiness test the page applies to a parsed response body. */
module Json {

  datatype Option<+T> = None | Some(value: T)

  /** A parsed JSON document. Numbers are kept as mathematical reals. */
  datatype Json =
    | JNull
    | JBool(b: bool)
    | JNumber(r: real)
    | JString(s: string)
    | JArray(items: seq<Json>)
    | JObject(fields: map<string, Json>)

  /** JavaScript's `!!v` for a value produced by `response.json()`:
      null, false, 0 and the empty string are falsy, everything else
      (every array and every object, empty or not) is truthy. */
  predicate Truthy(v: Json) {
    match v
    case JNull => false
    case JBool(b) => b
    case JNumber(r) => r != 0.0
    case JString(s) => s != ""
    case JArray(_) => true
    case JObject(_) => true
  }

  /** Property access `v.key` on a parsed body: a present member of an
      object, otherwise `undefined` (None). */
  function Member(v: Json, key: string): Option<Json> {
    if v.JObject? && key in v.fields then Some(v.fields[key]) else None
  }
}
