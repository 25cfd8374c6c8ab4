/**
 * JSON-shaped values: event metadata, audit-record details and webhook
 * payloads are Python dictionaries of this shape.
 */
module Json {

  datatype Json =
    | JNull
    | JBool(b: bool)
    | JInt(i: int)
    | JString(s: string)
    | JArray(items: seq<Json>)
    | JObject(fields: map<string, Json>)
}
