/** JSON-like values, as the library's dicts and lists hold them. */
module Json {

  /** Python's `None` where a value may be absent. */
  datatype Option<+T> = None | Some(value: T)

  /** A JSON value: the appliance's responses and the caller's payloads are built from these. */
  datatype Json =
    | JNull                            // None
    | JBool(b: bool)
    | JInt(n: int)
    | JStr(s: string)
    | JArr(items: seq<Json>)           // list
    | JObj(fields: map<string, Json>)  // dict

  /** A dict with string keys, such as a task resource returned by the appliance. */
  type Object = map<string, Json>

  /** Python truthiness: None, False, 0 and empty strings, lists and dicts are false. */
  predicate Truthy(j: Json)
  {
    match j
    case JNull => false
    case JBool(b) => b
    case JInt(n) => n != 0
    case JStr(s) => s != ""
    case JArr(items) => items != []
    case JObj(fields) => fields != map[]
  }
}
