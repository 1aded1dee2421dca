/** A JSON document as `json.loads` hands it to the code: the decoded value,
    with objects as maps from member name to value. Numbers are integers
    only (see README, "Left out"). */
module JsonValues {

  datatype Json =
    | JNull
    | JBool(b: bool)
    | JInt(i: int)
    | JString(s: string)
    | JArray(items: seq<Json>)
    | JObject(fields: map<string, Json>)
}
