/** Decoded JSON values as the handler sees them (what json.load returns),
    and the two Python dict/truth-value operations the handler applies to them. */
module JsonValues {

  /** A decoded JSON value. Floats are not modelled. */
  datatype Json =
    | JNull
    | JBool(b: bool)
    | JInt(n: int)
    | JStr(s: string)
    | JArr(items: seq<Json>)
    | JObj(fields: map<string, Json>)

  /** dict.get(key): a missing key reads as None, exactly like a JSON null. */
  function Get(o: map<string, Json>, key: string): Json {
    if key in o then o[key] else JNull
  }

  /** dict.get(key, default): the default only when the key is missing. */
  function GetOr(o: map<string, Json>, key: string, default: Json): Json {
    if key in o then o[key] else default
  }

  /** Python's truth value of a decoded JSON value, as used by `if not x`. */
  predicate TruthValue(x: Json) {
    match x
    case JNull => false
    case JBool(b) => b
    case JInt(n) => n != 0
    case JStr(s) => s != ""
    case JArr(items) => items != []
    case JObj(fields) => fields != map[]
  }
}
