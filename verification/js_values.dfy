/**
 * The few JavaScript runtime notions the modelled code relies on: optional
 * and failing results, the values that form fields and result objects hold,
 * and the truthiness tests (`if (!x)`, `x || d`) the code uses for validation.
 */
module JsValues {

  datatype Option<+T> = None | Some(value: T) {
    predicate IsFailure() { None? }

    function PropagateFailure<U>(): Option<U>
      requires None?
    {
      None
    }

    function Extract(): T
      requires Some?
    {
      value
    }
  }

  datatype Result<+T, +E> = Ok(value: T) | Err(error: E)

  /** A JavaScript value as read from a form field or stored in a plain object. */
  datatype Value = Undefined | NaN | Num(n: real) | Str(s: string)

  /** What `parseFloat` yields: a finite number or NaN (infinities are not modelled). */
  type Number = v: Value | v.NaN? || v.Num? witness NaN

  /** What `parseInt` yields: an integral number or NaN. */
  type Integer = v: Value | v.NaN? || (v.Num? && v.n == v.n.Floor as real) witness NaN

  /** JavaScript truthiness: `undefined`, `NaN`, `0` and `''` are the falsy values here. */
  predicate Truthy(v: Value) {
    match v
    case Undefined => false
    case NaN => false
    case Num(n) => n != 0.0
    case Str(s) => s != ""
  }

  /** `v || d`: the left operand when it is truthy, otherwise the right one. */
  function Or(v: Value, d: Value): (r: Value)
    ensures Truthy(v) ==> r == v
    ensures !Truthy(v) ==> r == d
  {
    if Truthy(v) then v else d
  }

  /** `parseFloat(x) || 0`: a price field that is empty, unparsable or zero counts as 0. */
  function OrZero(x: Number): (r: real)
    ensures x.Num? ==> r == x.n
    ensures x.NaN? ==> r == 0.0
  {
    if x.Num? then x.n else 0.0
  }

  /** Property access on a plain object: a missing key reads as `undefined`. */
  function Get(obj: map<string, Value>, key: string): (r: Value)
    ensures key in obj ==> r == obj[key]
    ensures key !in obj ==> r == Undefined
  {
    if key in obj then obj[key] else Undefined
  }

  /** `Math.ceil` on an exact real: the least integer not below `x`. */
  function Ceil(x: real): (r: int)
    ensures r as real >= x
    ensures (r - 1) as real < x
  {
    if x.Floor as real == x then x.Floor else x.Floor + 1
  }

  /** `Math.min` on integers. */
  function Min(a: int, b: int): (r: int)
    ensures r <= a && r <= b
    ensures r == a || r == b
  {
    if a <= b then a else b
  }

  /** `Math.ceil(x / d)` units of size `d` cover `x`, and one unit fewer does not. */
  lemma CeilDivCovers(x: real, d: real)
    requires d > 0.0
    ensures Ceil(x / d) as real * d >= x
    ensures (Ceil(x / d) - 1) as real * d < x
  {
    CeilDivAbove(x, d);
    CeilDivBelow(x, d);
  }

  lemma CeilDivAbove(x: real, d: real)
    requires d > 0.0
    ensures Ceil(x / d) as real * d >= x
  {
    var k := Ceil(x / d);
    assert (x / d) * d == x;
    ScaleLe(x / d, k as real, d);
  }

  lemma CeilDivBelow(x: real, d: real)
    requires d > 0.0
    ensures (Ceil(x / d) - 1) as real * d < x
  {
    var j := Ceil(x / d) - 1;
    assert (x / d) * d == x;
    ScaleLt(j as real, x / d, d);
    assert j as real * d < x;
  }

  lemma ScaleLe(a: real, b: real, d: real)
    requires a <= b && d > 0.0
    ensures a * d <= b * d
  {
  }

  lemma ScaleLt(a: real, b: real, d: real)
    requires a < b && d > 0.0
    ensures a * d < b * d
  {
  }

  /** `Math.ceil` never decreases. */
  lemma CeilMonotone(a: real, b: real)
    requires a <= b
    ensures Ceil(a) <= Ceil(b)
  {
  }
}
