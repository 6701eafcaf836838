/** The dynamically typed values that flow between the database driver, the
    repositories, the response models and the cache: Python's JSON-like data. */
module Values {

  datatype Json =
    | JNull
    | JBool(b: bool)
    | JInt(i: int)
    | JStr(s: string)
    | JList(elems: seq<Json>)
    | JObject(fields: map<string, Json>)

  /** A row of a query result, or any `Dict[str, Any]`. */
  type Record = map<string, Json>

  /** Python truthiness: `None`, `False`, `0`, and empty strings, lists and dicts are false. */
  predicate Truthy(j: Json) {
    match j
    case JNull => false
    case JBool(b) => b
    case JInt(i) => i != 0
    case JStr(s) => s != ""
    case JList(es) => es != []
    case JObject(fs) => fs != map[]
  }

  /** `d.get(k, default)` */
  function GetOr(d: Record, k: string, default: Json): (r: Json)
    ensures k in d ==> r == d[k]
    ensures k !in d ==> r == default
  {
    if k in d then d[k] else default
  }

  /** `d.get(k)` */
  function Get(d: Record, k: string): Json {
    GetOr(d, k, JNull)
  }
}
