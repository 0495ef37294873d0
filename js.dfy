/** JavaScript value semantics the two handlers rely on: optional values,
    truthiness, the `||` operator, template-literal interpolation, and
    property lookup on an object literal (which also sees the members that
    every object inherits from Object.prototype). */
module Js {

  datatype Option<+T> = None | Some(value: T)

  /** A string-valued property or variable is truthy when it is present
      and not the empty string. */
  predicate Truthy(v: Option<string>) {
    v.Some? && v.value != ""
  }

  /** `v || fallback` where `fallback` is a string: the result is one of the
      two, and it is never empty when the fallback is not. */
  function Or(v: Option<string>, fallback: string): (r: string)
    ensures r == fallback || Some(r) == v
    ensures fallback != "" ==> r != ""
  {
    if Truthy(v) then v.value else fallback
  }

  /** `${v}` in a template literal: an absent property prints "undefined". */
  function Show(v: Option<string>): string {
    match v
    case Some(s) => s
    case None => "undefined"
  }

  /** The names every object literal inherits from Object.prototype. */
  const ObjectPrototypeNames: set<string> := {
    "constructor", "hasOwnProperty", "isPrototypeOf", "propertyIsEnumerable",
    "toLocaleString", "toString", "valueOf", "__proto__",
    "__defineGetter__", "__defineSetter__", "__lookupGetter__", "__lookupSetter__"
  }

  /** What `obj[key]` yields on an object literal of string entries: an own
      string, an inherited member (a function, or Object.prototype itself for
      "__proto__"; truthy and not a string), or undefined. */
  datatype JsValue = Str(s: string) | Inherited(name: string) | Undefined

  predicate JsTruthy(v: JsValue) {
    match v
    case Str(s) => s != ""
    case Inherited(_) => true
    case Undefined => false
  }

  /** The lookup yields a string exactly for an own key, and it is truthy
      exactly for a non-empty own entry or an inherited name. */
  function PropertyOf(table: map<string, string>, key: string): (v: JsValue)
    ensures v.Str? <==> key in table
    ensures JsTruthy(v) <==> (key in table && table[key] != "") || (key !in table && key in ObjectPrototypeNames)
  {
    if key in table then Str(table[key])
    else if key in ObjectPrototypeNames then Inherited(key)
    else Undefined
  }

  /** `v || w` on JavaScript values. */
  function JsOr(v: JsValue, w: JsValue): JsValue {
    if JsTruthy(v) then v else w
  }

  /** An environment variable as a JavaScript value. */
  function FromOption(v: Option<string>): JsValue {
    match v
    case Some(s) => Str(s)
    case None => Undefined
  }
}
