/**
 * JSON values as the plugin's configuration, session record and request
 * bodies hold them, with the two JavaScript coercions the code applies to
 * them: truthiness (`if (x)`, `x || y`) and `String(x)` inside template literals.
 */
module Json {
  import opened Base
  import opened Text

  /** A JSON value. Numbers are integers in this model. */
  datatype Value =
    | JNull
    | JBool(b: bool)
    | JNum(n: int)
    | JStr(s: string)
    | JArr(elems: seq<Value>)
    | JObj(fields: map<string, Value>)

  /** A plain JavaScript object with JSON values: a configuration, a session record, a body. */
  type Object = map<string, Value>

  /** Truthiness of a present value. */
  predicate Truthy(v: Value) {
    match v
    case JNull => false
    case JBool(b) => b
    case JNum(n) => n != 0
    case JStr(s) => s != ""
    case _ => true
  }

  /** Property read `o.key`: `None` stands for `undefined`. */
  function Get(o: Object, key: string): Option<Value> {
    if key in o then Some(o[key]) else None
  }

  /** Truthiness of a property read that may be `undefined`. */
  predicate TruthyOpt(v: Option<Value>) {
    v.Some? && Truthy(v.value)
  }

  /** `String(v)`: arrays join their elements with commas, `null` elements rendering as empty. */
  function Render(v: Value): string
    decreases v
  {
    match v
    case JNull => "null"
    case JBool(b) => if b then "true" else "false"
    case JNum(n) => IntToString(n)
    case JStr(s) => s
    case JArr(a) => Join(seq(|a|, i requires 0 <= i < |a| => if a[i].JNull? then "" else Render(a[i])), ",")
    case JObj(_) => "[object Object]"
  }

  /** `o.key || fallback` rendered as text: the fallback when the property is falsy or absent. */
  function TextOr(v: Option<Value>, fallback: string): (r: string)
    ensures !TruthyOpt(v) ==> r == fallback
    ensures v.Some? && v.value.JStr? && v.value.s != "" ==> r == v.value.s
  {
    if TruthyOpt(v) then Render(v.value) else fallback
  }
}
