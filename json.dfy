/**
 * Already-parsed JSON values, the exceptions that abort a script, and the
 * file system seen as a map from path to parsed JSON document.
 */
module Json {
  import opened Wrappers

  /** A parsed JSON value. Numbers are kept exact (`real`). */
  datatype Json =
    | JNull
    | JBool(b: bool)
    | JNum(r: real)
    | JStr(s: string)
    | JArr(items: seq<Json>)
    | JObj(fields: map<string, Json>)

  /** A JSON object, the shape of every record (offer, catalog entry). */
  type Dict = map<string, Json>

  /** Files that exist, with their parsed contents; a missing path is FileNotFoundError. */
  type Files = map<string, Json>

  /** The Python exceptions that end a run of the modelled scripts. */
  datatype Error =
    | FileNotFound(path: string)
    | KeyError(key: string)
    | TypeError
    | AttributeError
    | ValueError
    | ZeroDivision

  /** `d.get(k, default)` on a dict. */
  function Get(d: Dict, k: string, default: Json): Json
  {
    if k in d then d[k] else default
  }

  /** The string stored under `k`, if any. */
  function StrField(d: Dict, k: string): Option<string>
  {
    if k in d && d[k].JStr? then Some(d[k].s) else None
  }

  /** Python truthiness of a JSON value. */
  predicate Truthy(j: Json)
  {
    match j
    case JNull => false
    case JBool(b) => b
    case JNum(r) => r != 0.0
    case JStr(s) => s != ""
    case JArr(items) => items != []
    case JObj(fields) => fields != map[]
  }

  /** `part / total * 100` as the float division computes it, on reals. */
  function Porcentual(part: int, total: int): real
    requires total != 0
  {
    part as real / total as real * 100.0
  }
}
