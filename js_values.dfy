/**
 * The JavaScript values the front end handles: parsed response bodies,
 * request payloads, thrown errors and logged arguments, with the three
 * language rules the code relies on: truthiness (`if (x)`, `x || y`),
 * property access (`x.k`, `x?.k`) and string conversion (`String(x)`).
 */
module JsValues {
  import Strings

  datatype JsValue =
    | Undefined
    | Null
    | Bool(b: bool)
    | Num(n: int)      // a finite, integral number
    | NaN
    | Str(s: string)
    | Arr(items: seq<JsValue>)
    | Obj(fields: map<string, JsValue>)
    | Error(name: string, message: string)   // an Error instance (`new Error(m)` has name "Error")

  /** `Boolean(v)`: false exactly for undefined, null, false, 0, NaN and "". */
  predicate Truthy(v: JsValue)
  {
    match v
    case Undefined => false
    case Null => false
    case Bool(b) => b
    case Num(n) => n != 0
    case NaN => false
    case Str(s) => s != ""
    case _ => true
  }

  /**
   * `v?.[key]` for the keys this code reads (`token`, `accessToken`, `data`,
   * `message`): own fields of a plain object, the `message` and `name` of an
   * Error, and undefined everywhere else (arrays and primitives have no such
   * property; optional chaining on null or undefined yields undefined).
   */
  function Get(v: JsValue, key: string): (r: JsValue)
    ensures v.Obj? && key in v.fields ==> r == v.fields[key]
    ensures !v.Obj? && !v.Error? ==> r == Undefined
  {
    match v
    case Obj(fields) => if key in fields then fields[key] else Undefined
    case Error(name, message) =>
      if key == "message" then Str(message)
      else if key == "name" then Str(name)
      else Undefined
    case _ => Undefined
  }

  /** `String(v)`, with the default `toString` of objects, arrays and errors. */
  function ToJsString(v: JsValue): (r: string)
    decreases v
  {
    match v
    case Undefined => "undefined"
    case Null => "null"
    case Bool(b) => if b then "true" else "false"
    case Num(n) => Strings.IntToString(n)
    case NaN => "NaN"
    case Str(s) => s
    case Arr(items) =>
      // Array.prototype.join: null and undefined elements become ""
      Strings.Join(seq(|items|, i requires 0 <= i < |items| =>
        if items[i].Null? || items[i].Undefined? then "" else ToJsString(items[i])), ",")
    case Obj(_) => "[object Object]"
    case Error(name, message) =>
      if name == "" then message
      else if message == "" then name
      else name + ": " + message
  }

  /**
   * A truthy value other than an array or an Error converts to a non-empty
   * string; `String([])` and `String(new Error(""))` with an empty name are
   * the exceptions.
   */
  lemma TruthyHasNonEmptyString(v: JsValue)
    requires Truthy(v) && !v.Arr? && !v.Error?
    ensures ToJsString(v) != ""
  {
  }
}
