/** The values `json.loads` produces, as far as the bot reads them. Numbers are
    integers here. */
module JsonValues {
  import opened Strings

  datatype Json =
    | JNull
    | JBool(b: bool)
    | JNum(n: int)
    | JStr(s: string)
    | JArr(items: seq<Json>)
    | JObj(fields: map<string, Json>)

  /** Python truthiness: null, false, 0, "" and empty containers are false. */
  predicate Truthy(j: Json) {
    match j
    case JNull => false
    case JBool(b) => b
    case JNum(n) => n != 0
    case JStr(s) => s != ""
    case JArr(items) => items != []
    case JObj(fields) => fields != map[]
  }

  /** `o.get(key)`: the value at `key`, or null when it is absent. */
  function Get(o: map<string, Json>, key: string): Json {
    if key in o then o[key] else JNull
  }

  /** `o.get(key, default)` */
  function GetOr(o: map<string, Json>, key: string, default: Json): Json {
    if key in o then o[key] else default
  }

  /** str() of a value: strings as they are, integers in decimal, and Python's names
      for the constants. A list or an object is shown by a fixed placeholder. */
  function PyStr(j: Json): string {
    match j
    case JNull => "None"
    case JBool(b) => if b then "True" else "False"
    case JNum(n) => IntToString(n)
    case JStr(s) => s
    case JArr(_) => "[...]"
    case JObj(_) => "{...}"
  }
}
