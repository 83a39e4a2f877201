/** JSON documents as `json.loads` hands them to the handlers: request bodies,
    repository result dicts and the upstream model's replies. */
module Json {

  datatype JsonValue =
    | JNull
    | JBool(b: bool)
    | JNum(n: real)
    | JStr(s: string)
    | JArray(items: seq<JsonValue>)
    | JObject(fields: map<string, JsonValue>)

  /** A decoded JSON object (a Python dict with string keys). */
  type JsonObject = map<string, JsonValue>
}
