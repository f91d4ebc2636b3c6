/** Decoded JSON values: what `response.json()` hands back and what a request
    body is serialised from. Floating-point numbers are not modelled. */
module JsonValues {

  datatype Json =
    | JNull
    | JBool(b: bool)
    | JInt(i: int)
    | JStr(s: string)
    | JArray(items: seq<Json>)
    | JObject(fields: map<string, Json>)
}
