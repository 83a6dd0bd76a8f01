/** Already-parsed JSON values: what `json.loads` returns and what the core's dict builders
    produce. Serialisation and parsing themselves are library calls and enter the model as
    functions supplied by the caller (see `A2ATypes.Runtime`). */
module JsonValues {

  datatype Json =
    | JNull
    | JBool(b: bool)
    | JNum(n: real)
    | JStr(s: string)
    | JArr(items: seq<Json>)
    | JObj(fields: map<string, Json>)

  /** A Python `dict` with string keys. */
  type Dict = map<string, Json>

  /** A JSON file on disk, as `json.load` finds it: absent, not valid JSON (with the decoder's
      message), or holding a value. */
  datatype JsonFile = Missing | Garbled(error: string) | Holding(data: Json)

  /** Python's `type(v).__name__` for a decoded value; `json.load` gives an `int` for a whole
      number. */
  function TypeName(j: Json): string {
    match j
    case JNull => "NoneType"
    case JBool(_) => "bool"
    case JNum(n) => if n == n.Floor as real then "int" else "float"
    case JStr(_) => "str"
    case JArr(_) => "list"
    case JObj(_) => "dict"
  }

  /** Python truthiness of a decoded value. */
  predicate TruthyValue(j: Json) {
    match j
    case JNull => false
    case JBool(b) => b
    case JNum(n) => n != 0.0
    case JStr(s) => s != ""
    case JArr(xs) => xs != []
    case JObj(m) => m != map[]
  }
}
