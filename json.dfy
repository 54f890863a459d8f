/**
 * Decoded JSON values, as they travel between the upload endpoint, the worker,
 * the JSONB columns of the status store and the browser client, together with
 * the two truthiness rules the code applies to them (Python's and JavaScript's).
 */
module Json {
  import opened Wrappers

  datatype Json =
    | JNull
    | JBool(b: bool)
    | JNum(n: real)
    | JStr(s: string)
    | JArr(items: seq<Json>)
    | JObj(fields: map<string, Json>)

  /** JavaScript truthiness: `null`, `false`, `0` and `""` are falsy, every array and object is truthy. */
  predicate JsTruthy(j: Json) {
    match j
    case JNull => false
    case JBool(b) => b
    case JNum(n) => n != 0.0
    case JStr(s) => s != ""
    case JArr(_) => true
    case JObj(_) => true
  }

  /** JavaScript truthiness of a value that may be `undefined` (`None`). */
  predicate JsTruthyOpt(j: Option<Json>) {
    j.Some? && JsTruthy(j.value)
  }

  /** Python truthiness of the decoded value: empty lists and dicts are falsy as well. */
  predicate PyTruthy(j: Json) {
    match j
    case JNull => false
    case JBool(b) => b
    case JNum(n) => n != 0.0
    case JStr(s) => s != ""
    case JArr(items) => items != []
    case JObj(fields) => fields != map[]
  }

  /**
   * Optional member access `v?.k`: the member of an object, `undefined` (None)
   * when `v` is undefined, `null`, not an object, or has no such member.
   */
  function Member(v: Option<Json>, k: string): (r: Option<Json>)
    ensures r.Some? <==> v.Some? && v.value.JObj? && k in v.value.fields
    ensures r.Some? ==> r.value == v.value.fields[k]
  {
    match v
    case Some(JObj(fields)) => if k in fields then Some(fields[k]) else None
    case _ => None
  }

  /** JavaScript's `a || b`: `a` when it is truthy, otherwise `b`. */
  function JsOr(a: Option<Json>, b: Option<Json>): (r: Option<Json>)
    ensures JsTruthyOpt(a) ==> r == a
    ensures !JsTruthyOpt(a) ==> r == b
  {
    if JsTruthyOpt(a) then a else b
  }
}
