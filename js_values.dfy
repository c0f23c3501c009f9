/**
 * JavaScript values as the code sees them after `JSON.parse`: tool-call
 * arguments, error bodies and skill parameter schemas.  Numbers are
 * modelled as integers.
 */
module JsValues {
  import opened Wrappers
  import opened Text

  datatype Json =
    | JNull
    | JBool(b: bool)
    | JNum(n: int)
    | JStr(s: string)
    | JArr(items: seq<Json>)
    | JObj(fields: map<string, Json>)

  /** JavaScript truthiness (`!!v`); `None` stands for `undefined`. */
  predicate Truthy(v: Option<Json>)
  {
    match v
    case None => false
    case Some(JNull) => false
    case Some(JBool(b)) => b
    case Some(JNum(n)) => n != 0
    case Some(JStr(s)) => s != ""
    case Some(JArr(_)) => true
    case Some(JObj(_)) => true
  }

  /**
   * Property read `v.key` on a value that is not `null`: only objects have
   * the keys the code reads (`path`, `error`, `message`); anything else
   * yields `undefined`.
   */
  function Get(v: Json, key: string): (r: Option<Json>)
    ensures r.Some? <==> v.JObj? && key in v.fields
    ensures r.Some? ==> r.value == v.fields[key]
  {
    if v.JObj? && key in v.fields then Some(v.fields[key]) else None
  }

  /** `String(v)`, as a template literal renders a value. */
  function Display(v: Json): (r: string)
    ensures v.JStr? ==> r == v.s
  {
    match v
    case JNull => "null"
    case JBool(b) => if b then "true" else "false"
    case JNum(n) => if n < 0 then "-" + NatToString(-n) else NatToString(n)
    case JStr(s) => s
    case JArr(items) =>
      // Array.prototype.toString: elements joined by ",", null rendered as ""
      Join(seq(|items|, i requires 0 <= i < |items| =>
        if items[i].JNull? then "" else Display(items[i])), ",")
    case JObj(_) => "[object Object]"
  }
}
