/** JavaScript values as the monitor's code sees them: the JSON values it
    parses and stores, plus `undefined`. Numbers are integers here; fractional
    numbers and NaN are not modelled. */
module Js {
  import opened Text

  datatype Option<+T> = None | Some(value: T)

  datatype Result<+T, +E> = Ok(value: T) | Err(error: E)

  datatype JsValue =
    | Undefined
    | Null
    | Bool(b: bool)
    | Num(n: int)
    | Str(s: string)
    | Arr(items: seq<JsValue>)
    | Obj(fields: map<string, JsValue>)

  /** JavaScript truthiness. */
  predicate Truthy(v: JsValue) {
    match v
    case Undefined => false
    case Null => false
    case Bool(b) => b
    case Num(n) => n != 0
    case Str(s) => s != ""
    case Arr(_) => true
    case Obj(_) => true
  }

  /** The `typeof` operator (no value here is a function). */
  function TypeOf(v: JsValue): string {
    match v
    case Undefined => "undefined"
    case Null => "object"
    case Bool(_) => "boolean"
    case Num(_) => "number"
    case Str(_) => "string"
    case Arr(_) => "object"
    case Obj(_) => "object"
  }

  /** Property read `v[key]` for the application's own property names, which
      no built-in prototype supplies: an own field of an object, otherwise
      `undefined`. */
  function Get(v: JsValue, key: string): JsValue {
    if v.Obj? && key in v.fields then v.fields[key] else Undefined
  }

  /** Object destructuring `const {...} = v` throws a TypeError exactly when
      `v` is `null` or `undefined`. */
  predicate CanDestructure(v: JsValue) {
    !v.Null? && !v.Undefined?
  }

  /** The string an array element contributes to `Array.prototype.join`. */
  function JoinElement(v: JsValue): string
    decreases v, 2
  {
    if v.Null? || v.Undefined? then "" else ToJsString(v)
  }

  /** Comma-separated concatenation, as `Array.prototype.join(",")`. */
  function JoinWithCommas(parts: seq<string>): string {
    if parts == [] then ""
    else if |parts| == 1 then parts[0]
    else parts[0] + "," + JoinWithCommas(parts[1..])
  }

  /** `String(v)`, which template literals and property keys apply. */
  function ToJsString(v: JsValue): string
    decreases v, 1
  {
    match v
    case Undefined => "undefined"
    case Null => "null"
    case Bool(b) => if b then "true" else "false"
    case Num(n) => IntToString(n)
    case Str(s) => s
    case Arr(items) =>
      JoinWithCommas(seq(|items|, i requires 0 <= i < |items| => JoinElement(items[i])))
    case Obj(_) => "[object Object]"
  }

  /** `Array.prototype.includes`, comparing by value. */
  predicate Includes(items: seq<JsValue>, x: JsValue) {
    x in items
  }
}
