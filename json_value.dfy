/** The JSON values that travel between the upstream model, the cache and the client. */
module JsonValue {
  import opened Options

  datatype Json =
    | JNull
    | JBool(b: bool)
    | JNum(n: real)
    | JStr(s: string)
    | JArr(items: seq<Json>)
    | JObj(fields: map<string, Json>)

  /** JavaScript truthiness of a parsed JSON value (`if (v)`). */
  predicate Truthy(j: Json) {
    match j
    case JNull => false
    case JBool(b) => b
    case JNum(n) => n != 0.0
    case JStr(s) => s != []
    case JArr(_) => true
    case JObj(_) => true
  }

  /** Property access `j.name`; `None` stands for `undefined` (or a throw on `null`). */
  function Member(j: Json, name: string): (r: Option<Json>)
    ensures r.Some? <==> j.JObj? && name in j.fields
    ensures r.Some? ==> r.value == j.fields[name]
  {
    if j.JObj? && name in j.fields then Some(j.fields[name]) else None
  }
}
