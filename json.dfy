/** Parsed JSON, as `response.json()` hands it to the fetchers. */
module JsonValue {

  /** A JSON value. Integer literals and other numbers are kept apart, as Python's
      `json` module does (`int` versus `float`). */
  datatype Json =
    | JNull
    | JBool(b: bool)
    | JInt(i: int)
    | JNum(r: real)
    | JStr(s: string)
    | JArr(items: seq<Json>)
    | JObj(fields: map<string, Json>)

  /** Python truthiness of a parsed value: `not value` holds exactly for these. */
  predicate Falsy(j: Json) {
    match j
    case JNull => true
    case JBool(b) => !b
    case JInt(i) => i == 0
    case JNum(r) => r == 0.0
    case JStr(s) => s == ""
    case JArr(items) => items == []
    case JObj(fields) => fields == map[]
  }
}
