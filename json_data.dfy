/** The JSON values that JSON.parse produces and res.json() sends. */
module JsonData {

  /** Numbers keep their literal text: the model never computes with floating point. */
  datatype Json =
    | JNull
    | JBool(b: bool)
    | JNumber(literal: string)
    | JString(s: string)
    | JArray(items: seq<Json>)
    | JObject(fields: map<string, Json>)
}
