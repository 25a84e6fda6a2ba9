/** The values a JSON request body decodes to, and the two Python notions the
    generate handler applies to them: truthiness (`not v`) and hashability
    (`v in dict` raises `TypeError` for a list or a dict). */
module Json {

  datatype JsonValue =
    | JNull
    | JBool(b: bool)
    | JNumber(n: real)
    | JString(s: string)
    | JArray(items: seq<JsonValue>)
    | JObject(fields: map<string, JsonValue>)

  /** Python's `bool(v)`: None, False, zero and empty containers are false. */
  predicate Truthy(v: JsonValue) {
    match v
    case JNull => false
    case JBool(b) => b
    case JNumber(n) => n != 0.0
    case JString(s) => s != ""
    case JArray(items) => items != []
    case JObject(fields) => fields != map[]
  }

  /** Lists and dicts cannot be looked up in a dict. */
  predicate Hashable(v: JsonValue) {
    !v.JArray? && !v.JObject?
  }

  /** What `request.json` yields: a decoded value, or an exception when the
      body is not JSON or is not sent as JSON. */
  datatype Body = Unreadable | Parsed(value: JsonValue)
}
