/**
 * The handful of JavaScript semantics the scheduler's rules depend on:
 * truthiness, `typeof` tests, `Number.isInteger`, numeric coercion with NaN,
 * the comparison operators (false whenever NaN is involved), and lower-casing.
 */
module Js {

  import opened Base

  /**
   * A JSON-like JavaScript value. Objects and arrays (`Obj`) and functions
   * (`Fn`) are opaque: the rules modelled here look only at their `typeof` and
   * truthiness. Numbers are finite reals: JSON input cannot carry NaN or an
   * infinity.
   */
  datatype JsValue = Undefined | Null | Bool(b: bool) | Num(n: real) | Str(s: string) | Obj | Fn

  /** JavaScript truthiness: `undefined`, `null`, `false`, `0` and `""` are falsy. */
  predicate Truthy(v: JsValue) {
    match v
    case Undefined => false
    case Null => false
    case Bool(b) => b
    case Num(n) => n != 0.0
    case Str(s) => s != ""
    case Obj => true
    case Fn => true
  }

  /** `typeof v === 'object'` (true of `null` as well). */
  predicate IsObjectType(v: JsValue) {
    v.Null? || v.Obj?
  }

  /** The methods every object inherits from `Object.prototype`. */
  const ObjectPrototypeMethods: set<string> := {"constructor", "hasOwnProperty", "isPrototypeOf",
    "propertyIsEnumerable", "toLocaleString", "toString", "valueOf",
    "__defineGetter__", "__defineSetter__", "__lookupGetter__", "__lookupSetter__"}

  /** The methods every function inherits from `Function.prototype`, in addition to those of `Object.prototype`. */
  const FunctionPrototypeMethods: set<string> := {"apply", "bind", "call"}

  /** `Number.isInteger(v)`: a number with no fractional part. */
  predicate IsInteger(v: JsValue) {
    v.Num? && v.n == v.n.Floor as real
  }

  /** A JavaScript number after coercion: finite, or NaN. */
  datatype Number = Finite(value: real) | NaN

  /**
   * The numeric coercion the arithmetic operators apply. Strings are left out:
   * no operand in the model is a string.
   */
  function ToNumber(v: JsValue): (r: Number)
    requires !v.Str?
    ensures r.Finite? <==> v.Null? || v.Bool? || v.Num?
    ensures v.Num? ==> r == Finite(v.n)
  {
    match v
    case Undefined => NaN
    case Null => Finite(0.0)
    case Bool(b) => Finite(if b then 1.0 else 0.0)
    case Num(n) => Finite(n)
    case Obj => NaN
    case Fn => NaN
  }

  /** An optional number as a property read sees it: an absent one is `undefined`, so NaN. */
  function OfOption(x: Option<real>): (r: Number)
    ensures r.Finite? <==> x.Some?
  {
    match x
    case None => NaN
    case Some(v) => Finite(v)
  }

  function Add(a: Number, b: Number): (r: Number)
    ensures r.Finite? <==> a.Finite? && b.Finite?
  {
    if a.Finite? && b.Finite? then Finite(a.value + b.value) else NaN
  }

  function Sub(a: Number, b: Number): (r: Number)
    ensures r.Finite? <==> a.Finite? && b.Finite?
  {
    if a.Finite? && b.Finite? then Finite(a.value - b.value) else NaN
  }

  function Mul(a: Number, b: Number): (r: Number)
    ensures r.Finite? <==> a.Finite? && b.Finite?
  {
    if a.Finite? && b.Finite? then Finite(a.value * b.value) else NaN
  }

  /** `a > b`: false when either side is NaN. */
  predicate Greater(a: Number, b: Number) {
    a.Finite? && b.Finite? && a.value > b.value
  }

  /** `a <= b`: false when either side is NaN. */
  predicate AtMost(a: Number, b: Number) {
    a.Finite? && b.Finite? && a.value <= b.value
  }

  /** Lower-casing of one character, for the ASCII letters. */
  function LowerChar(c: char): (r: char)
    ensures 'A' <= c <= 'Z' ==> r as int == c as int + 32
    ensures !('A' <= c <= 'Z') ==> r == c
    ensures !('A' <= r <= 'Z')
  {
    if 'A' <= c <= 'Z' then (c as int + 32) as char else c
  }

  /** `s.toLocaleLowerCase()`, for the ASCII letters. */
  function Lower(s: string): (r: string)
    ensures |r| == |s|
    ensures forall i :: 0 <= i < |s| ==> r[i] == LowerChar(s[i])
  {
    if s == [] then [] else [LowerChar(s[0])] + Lower(s[1..])
  }

  /** A string without upper-case ASCII letters is its own lower-case form. */
  lemma LowerOfLower(s: string)
    requires forall i :: 0 <= i < |s| ==> !('A' <= s[i] <= 'Z')
    ensures Lower(s) == s
  {
  }
}
