/**
 * Parsed JSON values as a route handler sees them after `await request.json()`,
 * and the JavaScript operations the handlers apply to them.
 */
module Json {
  import opened Wrappers

  /** A JSON number is modelled by an integer; NaN and fractions play no role here. */
  datatype JsonValue =
    | JNull
    | JBool(b: bool)
    | JNumber(n: int)
    | JString(s: string)
    | JArray(items: seq<JsonValue>)
    | JObject(fields: map<string, JsonValue>)

  /** JavaScript truthiness: `!v` is false exactly for these values. */
  predicate Truthy(v: JsonValue) {
    match v
    case JNull => false
    case JBool(b) => b
    case JNumber(n) => n != 0
    case JString(s) => s != ""
    case JArray(_) => true
    case JObject(_) => true
  }

  /** Own property `key` of an object; `None` stands for `undefined`. */
  function Property(fields: map<string, JsonValue>, key: string): (r: Option<JsonValue>)
    ensures r.Some? <==> key in fields
    ensures r.Some? ==> r.value == fields[key]
  {
    if key in fields then Some(fields[key]) else None
  }
}
