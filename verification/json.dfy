/** JSON values as `json.loads` returns them (RFC 8259 section 3), seen
    through Python: objects become dicts, and dicts are read with `.get`,
    `in` and the `or` operator's truthiness. */
module JsonValues {
  import opened Options

  /** A JSON value. Numbers are integers; objects map keys to values. */
  datatype Json =
    | JNull
    | JBool(b: bool)
    | JNum(n: int)
    | JStr(s: string)
    | JArr(items: seq<Json>)
    | JObj(fields: map<string, Json>)

  /** A Python dict with string keys, as built from a JSON object. */
  type PyDict = map<string, Json>

  /** Python truthiness: null, false, 0, "", [] and {} are falsy. */
  predicate Truthy(j: Json) {
    match j
    case JNull => false
    case JBool(b) => b
    case JNum(n) => n != 0
    case JStr(s) => |s| > 0
    case JArr(a) => |a| > 0
    case JObj(m) => |m| > 0
  }

  /** Python `a or b`. */
  function Or(a: Json, b: Json): Json {
    if Truthy(a) then a else b
  }

  /** Python `d.get(k)`: the value, or None when the key is absent. */
  function Get(d: PyDict, k: string): Json {
    if k in d then d[k] else JNull
  }

  /** Python `d.get(k, default)`. */
  function GetOr(d: PyDict, k: string, default: Json): Json {
    if k in d then d[k] else default
  }

  /** `a or b` is falsy only when both are, and is one of the two. */
  lemma OrTruthy(a: Json, b: Json)
    ensures Truthy(Or(a, b)) <==> Truthy(a) || Truthy(b)
    ensures Or(a, b) == a || Or(a, b) == b
  {
  }

  /** A hashable Python value used as a dict key. `True == 1` and
      `False == 0` in Python, so booleans share the integer keys. */
  datatype PyKey = KNone | KInt(i: int) | KStr(s: string)

  /** The dict key a JSON value stands for; arrays and objects are
      unhashable (`TypeError`), shown as `None`. */
  function KeyOf(j: Json): (r: Option<PyKey>)
    ensures r.None? <==> j.JArr? || j.JObj?
  {
    match j
    case JNull => Some(KNone)
    case JBool(b) => Some(KInt(if b then 1 else 0))
    case JNum(n) => Some(KInt(n))
    case JStr(s) => Some(KStr(s))
    case JArr(_) => None
    case JObj(_) => None
  }

  /** Two hashable values give the same dict key exactly when Python's
      `==` identifies them: equal values, or a boolean and its integer. */
  lemma KeyOfEquality(a: Json, b: Json)
    requires KeyOf(a).Some? && KeyOf(b).Some?
    ensures KeyOf(a) == KeyOf(b) <==>
      (|| a == b
       || (a.JBool? && b.JNum? && b.n == (if a.b then 1 else 0))
       || (b.JBool? && a.JNum? && a.n == (if b.b then 1 else 0)))
  {
  }

  /** Python `isinstance(v, dict)`. */
  predicate IsObject(j: Json) {
    j.JObj?
  }
}
