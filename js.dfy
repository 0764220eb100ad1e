/** The slice of JavaScript value semantics the routes rely on: JSON values, truthiness,
    `||`, property access (which throws on `null`/`undefined`), optional chaining,
    template-literal stringification, and the upstream API's success marker. */
module Js {

  datatype Option<+T> = None | Some(value: T)

  /** A JSON value as parsed by `response.json()`, plus `undefined`.
      Numbers are integers: fractions, NaN and the infinities are not modelled. */
  datatype Value =
    | Undefined
    | Null
    | Bool(b: bool)
    | Num(n: int)
    | Str(s: string)
    | Arr(items: seq<Value>)
    | Obj(fields: map<string, Value>)

  predicate Truthy(v: Value) {
    match v
    case Undefined => false
    case Null => false
    case Bool(b) => b
    case Num(n) => n != 0
    case Str(s) => s != []
    case Arr(_) => true
    case Obj(_) => true
  }

  /** `a || b`. */
  function Or(a: Value, b: Value): Value {
    if Truthy(a) then a else b
  }

  /** A missing key reads as `undefined`. */
  function Field(m: map<string, Value>, key: string): Value {
    if key in m then m[key] else Undefined
  }

  /** `v.key`, or `None` when the access throws a TypeError (`v` is `null` or
      `undefined`). Only object keys are looked up: the keys the routes read are none of
      the built-in properties of strings or arrays. */
  function Get(v: Value, key: string): Option<Value> {
    match v
    case Undefined => None
    case Null => None
    case Obj(m) => Some(Field(m, key))
    case _ => Some(Undefined)
  }

  /** `v?.key`. */
  function OptGet(v: Value, key: string): Value {
    match Get(v, key)
    case None => Undefined
    case Some(x) => x
  }

  /** `2 <= status / 100 < 3`, i.e. `response.ok`. */
  predicate OkStatus(status: int) {
    200 <= status <= 299
  }

  /** The upstream API's "no error" marker: `error === 0 || error === "0"`. */
  predicate ErrorIsZero(e: Value) {
    e == Num(0) || e == Str("0")
  }

  /** `error === 0 || error === "0" || error === undefined`. */
  predicate ErrorAbsentOrZero(e: Value) {
    ErrorIsZero(e) || e == Undefined
  }

  /** Decimal digits of a natural number. */
  function NatText(n: nat): (r: string)
    ensures r != []
    decreases n
  {
    var d := ['0' + (n % 10) as char];
    if n < 10 then d else NatText(n / 10) + d
  }

  /** `${v}` inside a template literal. */
  function ToText(v: Value): string {
    match v
    case Undefined => "undefined"
    case Null => "null"
    case Bool(b) => if b then "true" else "false"
    case Num(n) => if n < 0 then "-" + NatText(-n) else NatText(n)
    case Str(s) => s
    case Arr(items) => JoinTexts(items)
    case Obj(_) => "[object Object]"
  }

  /** `Array.prototype.toString`: elements joined by commas, `null`/`undefined` as "". */
  function JoinTexts(items: seq<Value>): string
    decreases items
  {
    if items == [] then []
    else
      var head := if items[0].Undefined? || items[0].Null? then [] else ToText(items[0]);
      if |items| == 1 then head else head + "," + JoinTexts(items[1..])
  }
}
