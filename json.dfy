/**
  The JavaScript values the core reads from parsed JSON bodies, request
  bodies and query strings. Numbers are modelled as integers.
*/
module Json {
  import opened Wrappers

  datatype Json =
    | JUndefined
    | JNull
    | JBool(b: bool)
    | JNum(n: int)
    | JStr(s: string)
    | JArr(items: seq<Json>)
    | JObj(fields: map<string, Json>)

  /** JavaScript truthiness: `undefined`, `null`, `false`, `0` and `""` are falsy. */
  predicate Truthy(j: Json)
  {
    match j
    case JUndefined => false
    case JNull => false
    case JBool(b) => b
    case JNum(n) => n != 0
    case JStr(s) => s != ""
    case JArr(_) => true
    case JObj(_) => true
  }

  /**
    Reading property `k` of `j` (`j.k`). Reading a property of `null` or
    `undefined` throws a TypeError, modelled as None; a missing property,
    or a property of a primitive or array, reads as `undefined`.
  */
  function Prop(j: Json, k: string): (r: Option<Json>)
    ensures r.None? <==> j == JNull || j == JUndefined
    ensures j.JObj? && k in j.fields ==> r == Some(j.fields[k])
    ensures j.JObj? && k !in j.fields ==> r == Some(JUndefined)
    ensures !j.JObj? && r.Some? ==> r == Some(JUndefined)
  {
    match j
    case JUndefined => None
    case JNull => None
    case JObj(m) => Some(if k in m then m[k] else JUndefined)
    case _ => Some(JUndefined)
  }

  /**
    `a || b` on JSON values: always one of the two operands, truthy exactly
    when either operand is, and the left one whenever that one is truthy.
    A falsy left operand is replaced, so `x || d` with a truthy default `d`
    is never falsy.
  */
  function Or(a: Json, b: Json): (r: Json)
    ensures r == a || r == b
    ensures Truthy(r) <==> Truthy(a) || Truthy(b)
    ensures Truthy(a) ==> r == a
    ensures !Truthy(a) ==> r == b
  {
    if Truthy(a) then a else b
  }

  /**
    Strict equality (`===`) between two values, for primitive values. Values
    carry no object identity here, so an array or object is never strictly
    equal to anything, even to the very reference it was read from.
  */
  predicate StrictEq(a: Json, b: Json)
  {
    !a.JArr? && !a.JObj? && a == b
  }
}
