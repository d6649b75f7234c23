/**
 * The JSON values exchanged with Prometheus and Grafana, and the two
 * Python idioms the library applies to them: truthiness (`if x:`) and
 * `dict.get(key, default)`.
 */
module Json {
  import opened Wrappers

  /**
   * A decoded JSON document. Objects are maps (key order is not kept);
   * integers and floats stay apart as Python's `json` module keeps them.
   */
  datatype Json =
    | JNull
    | JBool(b: bool)
    | JInt(i: int)
    | JFloat(r: real)
    | JStr(s: string)
    | JArr(items: seq<Json>)
    | JObj(fields: map<string, Json>)

  /** Python truthiness of a decoded JSON value. */
  predicate Truthy(j: Json) {
    match j
    case JNull => false
    case JBool(b) => b
    case JInt(i) => i != 0
    case JFloat(r) => r != 0.0
    case JStr(s) => s != ""
    case JArr(a) => a != []
    case JObj(m) => m != map[]
  }

  /** `len(j)`: defined for strings, arrays and objects; `None` is the `TypeError` of any other value. */
  function PyLen(j: Json): (n: Option<nat>)
    ensures n.Some? <==> j.JStr? || j.JArr? || j.JObj?
    ensures j.JArr? ==> n == Some(|j.items|)
  {
    match j
    case JStr(s) => Some(|s|)
    case JArr(a) => Some(|a|)
    case JObj(m) => Some(|m|)
    case _ => None
  }

  /** `d.get(key, default)` on a decoded object. */
  function Get(m: map<string, Json>, key: string, default: Json): Json {
    if key in m then m[key] else default
  }

  /** A Python `Dict[str, str]` as a JSON object of strings. */
  function StrMap(m: map<string, string>): (r: map<string, Json>)
    ensures r.Keys == m.Keys
    ensures forall k :: k in m ==> r[k] == JStr(m[k])
  {
    map k | k in m :: JStr(m[k])
  }

  /** An `Optional[str]` as JSON: `None` becomes `null`. */
  function OptStr(o: Option<string>): Json {
    match o
    case None => JNull
    case Some(s) => JStr(s)
  }

  /** An `Optional[int]` as JSON: `None` becomes `null`. */
  function OptInt(o: Option<int>): Json {
    match o
    case None => JNull
    case Some(i) => JInt(i)
  }

  /** Python truthiness of an `Optional[str]`: present and non-empty. */
  predicate StrTruthy(o: Option<string>) {
    o.Some? && o.value != ""
  }

  /** Python truthiness of an `Optional[int]`: present and non-zero. */
  predicate IntTruthy(o: Option<int>) {
    o.Some? && o.value != 0
  }
}
