/**
 * The JavaScript values that reach the exchange layer from untyped inputs (gateway request
 * params, tool arguments, parsed frames, plugin configuration), and the few number
 * operations the layer applies to them.
 */
module Js {
  import opened Options
  import opened Text

  /** A JavaScript number; the model does not follow IEEE rounding, only the special values. */
  datatype Num = Finite(r: real) | NaN | PosInf | NegInf

  /** An already-parsed JavaScript value. An object is its own enumerable properties in
      enumeration order (`Object.entries`); its keys are distinct. */
  datatype Value =
    | Undefined
    | Null
    | Bool(b: bool)
    | Number(n: Num)
    | Str(s: string)
    | Arr(items: seq<Value>)
    | Obj(props: seq<(string, Value)>)

  /** The value stored under `key` in a property list, `undefined` when there is none. */
  function Lookup(props: seq<(string, Value)>, key: string): Value
  {
    if props == [] then Undefined
    else if props[0].0 == key then props[0].1
    else Lookup(props[1..], key)
  }

  /** `v?.[key]` for an own property: `undefined` unless `v` is an object holding `key`. */
  function Get(v: Value, key: string): Value
  {
    if v.Obj? then Lookup(v.props, key) else Undefined
  }

  /** `Boolean(v)`. */
  predicate Truthy(v: Value)
  {
    match v
    case Undefined => false
    case Null => false
    case Bool(b) => b
    case Number(n) => !(n.NaN? || (n.Finite? && n.r == 0.0))
    case Str(s) => s != ""
    case Arr(_) => true
    case Obj(_) => true
  }

  /** `v && typeof v === 'object' && !Array.isArray(v)`: a plain object. */
  predicate IsRecord(v: Value)
  {
    v.Obj?
  }

  /** `v && typeof v === 'object'`: an object or an array. */
  predicate IsObjectLike(v: Value)
  {
    v.Obj? || v.Arr?
  }

  /** `typeof v === 'number' && Number.isFinite(v)`. */
  predicate IsFiniteNumber(v: Value)
  {
    v.Number? && v.n.Finite?
  }

  /** The string in `v` when `typeof v === 'string'`. */
  function AsString(v: Value): Option<string>
  {
    if v.Str? then Some(v.s) else None
  }

  /** A string `typeof x === 'string' && x.trim()` holds: a string that is not blank. */
  predicate IsNonBlank(v: Value)
  {
    v.Str? && Trim(v.s) != ""
  }

  /** `Math.trunc` on a finite value: the integer part, rounded toward zero. */
  function Trunc(r: real): (n: int)
    ensures 0.0 <= r ==> n as real <= r < n as real + 1.0
    ensures r < 0.0 ==> n as real - 1.0 < r <= n as real
  {
    if r >= 0.0 then r.Floor else -((-r).Floor)
  }

  /** `Math.trunc`. */
  function TruncNum(n: Num): Num
  {
    if n.Finite? then Finite(Trunc(n.r) as real) else n
  }

  /** `Math.max(lo, Math.min(hi, r))` on a finite value. */
  function ClampReal(r: real, lo: real, hi: real): real
  {
    if r < lo then lo else if r > hi then hi else r
  }

  /** The registry's `clamp(value, min, max)`: NaN gives `min`, the infinities the nearer bound. */
  function ClampNum(n: Num, lo: real, hi: real): (r: real)
    requires lo <= hi
    ensures lo <= r <= hi
    ensures n.Finite? && lo <= n.r <= hi ==> r == n.r
    ensures n.Finite? && n.r < lo ==> r == lo
    ensures n.Finite? && n.r > hi ==> r == hi
    ensures n.NaN? || n.NegInf? ==> r == lo
    ensures n.PosInf? ==> r == hi
  {
    match n
    case Finite(x) => ClampReal(x, lo, hi)
    case NaN => lo
    case PosInf => hi
    case NegInf => lo
  }

}
