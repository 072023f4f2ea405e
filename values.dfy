/** Python values as the client sees them: JSON bodies after `response.json()`,
    `None`, exceptions, and the few built-in operations the client applies to
    them (truthiness, `dict.get`, `len`, indexing). */
module Values {

  datatype Option<+T> = None | Some(value: T)

  /** The outcome of a Python expression that may raise. The client never
      distinguishes one exception class from another in what it computes
      (only in what it logs), so one failure value is enough. */
  datatype Eval<+T> = Ok(value: T) | Raised

  /** A decoded JSON document. Object keys are strings, as `json.loads` makes
      them; numbers are kept as reals. */
  datatype Json =
    | JNull
    | JBool(b: bool)
    | JNum(n: real)
    | JStr(s: string)
    | JArr(elems: seq<Json>)
    | JObj(fields: map<string, Json>)

  /** Python truthiness of a decoded JSON value. */
  predicate Truthy(j: Json) {
    match j
    case JNull => false
    case JBool(b) => b
    case JNum(n) => n != 0.0
    case JStr(s) => s != []
    case JArr(e) => e != []
    case JObj(m) => m != map[]
  }

  /** `d.get(key, default)` */
  function GetOr(d: map<string, Json>, key: string, default: Json): (v: Json)
    ensures key in d ==> v == d[key]
    ensures key !in d ==> v == default
  {
    if key in d then d[key] else default
  }

  /** `d.get(key)`: a missing key reads as `None`. */
  function Get(d: map<string, Json>, key: string): (v: Json)
    ensures key in d ==> v == d[key]
    ensures key !in d ==> v == JNull
  {
    GetOr(d, key, JNull)
  }

  /** `x[0]` on a truthy value that passed `len(x) > 0`: a list gives its first
      element, a string its first character; `len` of a number or a boolean
      and `[0]` on a dict with string keys raise. */
  function First(x: Json): (r: Eval<Json>)
    requires Truthy(x)
    ensures r.Ok? <==> x.JArr? || x.JStr?
    ensures x.JArr? ==> r == Ok(x.elems[0])
    ensures x.JStr? ==> r == Ok(JStr([x.s[0]]))
  {
    match x
    case JArr(e) => Ok(e[0])
    case JStr(s) => Ok(JStr([s[0]]))
    case _ => Raised
  }

  /** `x == 0` in Python, where `0 == 0.0 == False`. */
  predicate EqualsZero(x: Json) {
    x == JNum(0.0) || x == JBool(false)
  }
}
