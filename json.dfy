/** JavaScript values as the frontend mappers, the insights serialiser and the cache see
    them: JSON data plus `undefined`, BigInt and the non-finite numbers. */
module JsonValue {
  import opened Base

  /** A JavaScript number: finite, NaN or an infinity. */
  datatype Num = Finite(r: real) | NaN | Infinity(negative: bool)

  datatype Json =
    | JUndefined
    | JNull
    | JBool(b: bool)
    | JNum(n: Num)
    | JStr(s: string)
    | JBigInt(i: int)
    | JArr(items: seq<Json>)
    | JObj(fields: seq<(string, Json)>)

  predicate IsNullish(j: Json) {
    j.JUndefined? || j.JNull?
  }

  /** JavaScript truthiness. */
  predicate Truthy(j: Json) {
    match j
    case JUndefined => false
    case JNull => false
    case JBool(b) => b
    case JNum(n) => n.Infinity? || (n.Finite? && n.r != 0.0)
    case JStr(s) => s != ""
    case JBigInt(i) => i != 0
    case JArr(_) => true
    case JObj(_) => true
  }

  /** The value of the first field named `k`, or undefined. */
  function Field(fields: seq<(string, Json)>, k: string): (r: Json)
    ensures r != JUndefined ==> exists i :: 0 <= i < |fields| && fields[i] == (k, r)
    decreases |fields|
  {
    if fields == [] then JUndefined
    else if fields[0].0 == k then fields[0].1
    else
      var r := Field(fields[1..], k);
      assert r != JUndefined ==> exists i :: 0 <= i < |fields| - 1 && fields[1..][i] == (k, r);
      r
  }

  /** `j?.k`: the property of an object, undefined for anything else. */
  function Get(j: Json, k: string): Json {
    if j.JObj? then Field(j.fields, k) else JUndefined
  }

  /** `j.k`: reading a property of `undefined` or `null` throws a TypeError; any other
      value answers as `Get` does. */
  function Prop(j: Json, k: string): (r: Result<Json>)
    ensures r.Err? <==> IsNullish(j)
    ensures r.Ok? ==> r.value == Get(j, k)
  {
    if IsNullish(j) then
      Err("Cannot read properties of " + (if j.JNull? then "null" else "undefined") + " (reading '" + k + "')")
    else Ok(Get(j, k))
  }

  /** `a ?? b` */
  function Coalesce(a: Json, b: Json): (r: Json)
    ensures !IsNullish(a) ==> r == a
    ensures IsNullish(a) ==> r == b
  {
    if IsNullish(a) then b else a
  }
}
