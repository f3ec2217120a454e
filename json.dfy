/** Decoded JSON documents, as `json.loads` returns them (a number with a point or exponent decodes as a float). */
module JsonValue {
  import opened Wrappers

  datatype Json =
    | JNull
    | JBool(b: bool)
    | JInt(i: int)
    | JFloat(x: real)
    | JStr(s: string)
    | JArr(items: seq<Json>)
    | JObj(fields: map<string, Json>)

  /** Python truthiness of the decoded value (`if value:`). */
  predicate Truthy(j: Json) {
    match j
    case JNull => false
    case JBool(b) => b
    case JInt(i) => i != 0
    case JFloat(x) => x != 0.0
    case JStr(s) => |s| > 0
    case JArr(items) => |items| > 0
    case JObj(fields) => |fields| > 0
  }

  /** `j[k]`: None when `j` is not an object or has no such member (the KeyError/TypeError). */
  function Member(j: Json, k: string): (r: Option<Json>)
    ensures r.Some? <==> j.JObj? && k in j.fields
    ensures r.Some? ==> r.value == j.fields[k]
  {
    if j.JObj? && k in j.fields then Some(j.fields[k]) else None
  }
}
