/** JavaScript values as they reach the sly-app component: JSON documents,
    JavaScript truthiness, and reading a named property of a value. */
module JsValue {

  datatype Option<+T> = None | Some(value: T)

  /** A JSON value. Numbers are reals: JSON cannot carry NaN or infinities. */
  datatype Json =
    | JNull
    | JBool(b: bool)
    | JNum(n: real)
    | JStr(s: string)
    | JArr(elems: seq<Json>)
    | JObj(fields: map<string, Json>)

  /** The result of `v[key]` for a value that is not null or undefined.
      `None` stands for `undefined`. Only an object has own enumerable
      properties here: strings, numbers, booleans and arrays have no property
      called `state`, `data` or any other non-index name the component reads. */
  function Get(v: Json, key: string): (r: Option<Json>)
    requires !v.JNull?
    ensures r.Some? <==> v.JObj? && key in v.fields
    ensures r.Some? ==> r.value == v.fields[key]
  {
    if v.JObj? && key in v.fields then Some(v.fields[key]) else None
  }

  /** JavaScript truthiness of a property read (`if (x)`): undefined, null,
      false, 0 and "" are falsy; every array and object, even an empty one,
      is truthy. */
  predicate Truthy(v: Option<Json>)
    ensures Truthy(v) ==> v.Some? && !v.value.JNull?
    ensures v.Some? && (v.value.JArr? || v.value.JObj?) ==> Truthy(v)
  {
    match v
    case None => false
    case Some(JNull) => false
    case Some(JBool(b)) => b
    case Some(JNum(n)) => n != 0.0
    case Some(JStr(s)) => s != ""
    case Some(JArr(_)) => true
    case Some(JObj(_)) => true
  }
}
