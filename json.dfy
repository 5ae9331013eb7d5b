/** Parsed JSON values, as the map file decodes to before validation. */
module Json {
  import opened Wrappers

  /**
   * A decoded JSON value. Numbers are the finite reals JSON can denote;
   * an object maps each key to its (last) value.
   */
  datatype Json =
    | JNull
    | JBool(b: bool)
    | JNum(n: real)
    | JStr(s: string)
    | JArr(items: seq<Json>)
    | JObj(members: map<string, Json>)

  /** The member `key` of an object, or `undefined`. */
  function Member(members: map<string, Json>, key: string): (r: Option<Json>)
    ensures r.Some? <==> key in members
    ensures r.Some? ==> r.value == members[key]
  {
    if key in members then Some(members[key]) else None
  }

  /**
   * JavaScript truthiness of an optional JSON value (`None` is `undefined`):
   * `undefined`, `null`, `false`, `0` and `""` are falsy, every array and
   * object is truthy.
   */
  function Truthy(v: Option<Json>): (r: bool)
    ensures r <==> v.Some? && v.value != JNull && v.value != JBool(false) && v.value != JNum(0.0) && v.value != JStr("")
  {
    match v
    case None => false
    case Some(JNull) => false
    case Some(JBool(b)) => b
    case Some(JNum(n)) => n != 0.0
    case Some(JStr(s)) => s != ""
    case Some(JArr(_)) => true
    case Some(JObj(_)) => true
  }
}
