/** The values the JSON parser hands back for a response body. Parsing itself is not modelled. */
module JsonValues {

  datatype Json =
    | JNull
    | JBool(b: bool)
    | JNumber(literal: string)
    | JString(s: string)
    | JArray(elements: seq<Json>)
    | JObject(members: map<string, Json>)
}
