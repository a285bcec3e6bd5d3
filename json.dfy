/** JSON values as the server and the browser client both see them, and the two
    languages' notions of truthiness, which the source relies on in `if not data`,
    `if not url` (Python) and `data.status || "..."`, `data.success` (JavaScript). */
module Json {

  /** A field that may be absent (Python `None` from `dict.get`, JavaScript `undefined`). */
  datatype Option<T> = None | Some(value: T)

  /** A decoded JSON document. Numbers are kept as reals; NaN and the infinities
      are not JSON and are not represented. */
  datatype Value =
    | JNull
    | JBool(b: bool)
    | JNum(n: real)
    | JStr(s: string)
    | JArr(items: seq<Value>)
    | JObj(fields: map<string, Value>)

  /** Python's `bool(v)` for the value `json.loads` produces: `None`, `False`,
      zero, and empty strings, lists and dicts are false. */
  predicate PyTruthy(v: Value)
  {
    match v
    case JNull => false
    case JBool(b) => b
    case JNum(n) => n != 0.0
    case JStr(s) => s != ""
    case JArr(items) => |items| > 0
    case JObj(fields) => |fields| > 0
  }

  /** JavaScript's `Boolean(v)` for the value `response.json()` produces:
      arrays and objects are truthy even when empty. */
  predicate JsTruthy(v: Value)
  {
    match v
    case JNull => false
    case JBool(b) => b
    case JNum(n) => n != 0.0
    case JStr(s) => s != ""
    case JArr(_) => true
    case JObj(_) => true
  }

  /** `dict.get(key)`: the stored value, or `None` (which is JSON null) when missing. */
  function Get(fields: map<string, Value>, key: string): Value
  {
    if key in fields then fields[key] else JNull
  }

  /** `s.startswith(p)` */
  predicate StartsWith(s: string, p: string)
  {
    |p| <= |s| && s[..|p|] == p
  }

  lemma StartsWithConcat(p: string, q: string)
    ensures StartsWith(p + q, p)
  {
  }

  /** Python `bool` and JavaScript `Boolean` disagree exactly on empty arrays and objects. */
  lemma TruthinessDiffers(v: Value)
    ensures PyTruthy(v) != JsTruthy(v) <==> v == JArr([]) || v == JObj(map[])
  {
  }
}
