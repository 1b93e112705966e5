/**
 * The handful of JavaScript value semantics the calculator leans on: the
 * number-or-NaN results of `parseInt`/`parseFloat`, truthiness, the
 * operand-returning `||`, `isNaN`, loose equality `==`, and `toFixed(2)`.
 * Numbers are modelled as exact reals; binary floating point is not.
 */
module Js {

  /** The result of `parseInt` or `parseFloat`: a number, or NaN. */
  datatype Parsed<T> = NaN | Num(value: T)

  /** The JavaScript values that the validator's expressions produce. */
  datatype Value = Number(n: Parsed<real>) | Boolean(b: bool) | Undefined

  /** An integer read by `parseInt`, as a JavaScript number. */
  function AsReal(p: Parsed<int>): (r: Parsed<real>)
    ensures r.NaN? <==> p.NaN?
    ensures p.Num? ==> r.value.Floor == p.value && r.value == r.value.Floor as real
  {
    match p
    case NaN => NaN
    case Num(i) => Num(i as real)
  }

  /** The abstract operation ToNumber, restricted to the values above. */
  function ToNumber(v: Value): Parsed<real> {
    match v
    case Number(n) => n
    case Boolean(b) => Num(if b then 1.0 else 0.0)
    case Undefined => NaN
  }

  /** The global `isNaN`, which coerces its argument to a number first. */
  predicate IsNaN(v: Value) {
    ToNumber(v).NaN?
  }

  /** NaN, 0, false and undefined are falsy; every other value here is truthy. */
  predicate Truthy(v: Value) {
    match v
    case Number(n) => n.Num? && n.value != 0.0
    case Boolean(b) => b
    case Undefined => false
  }

  /** `a || b`: the first operand when it is truthy, otherwise the second. */
  function Or(a: Value, b: Value): (r: Value)
    ensures r == a || r == b
    ensures Truthy(r) <==> Truthy(a) || Truthy(b)
  {
    if Truthy(a) then a else b
  }

  /** `x < c` on a number, false when `x` is NaN. */
  predicate Less(x: Parsed<real>, c: real) {
    x.Num? && x.value < c
  }

  /** `x > c` on a number, false when `x` is NaN. */
  predicate Greater(x: Parsed<real>, c: real) {
    x.Num? && x.value > c
  }

  /**
   * Loose equality `a == b`: undefined equals only undefined; numbers and
   * booleans compare as numbers, and NaN equals nothing.
   */
  predicate LooseEquals(a: Value, b: Value)
    ensures LooseEquals(a, b) ==> (a.Undefined? <==> b.Undefined?)
    ensures a == Number(NaN) || b == Number(NaN) ==> !LooseEquals(a, b)
    ensures a.Boolean? && b.Boolean? ==> (LooseEquals(a, b) <==> a.b == b.b)
    ensures a.Number? && b.Boolean? ==> (LooseEquals(a, b) <==> a.n == Num(if b.b then 1.0 else 0.0))
  {
    match (a, b)
    case (Undefined, Undefined) => true
    case (Undefined, _) => false
    case (_, Undefined) => false
    case _ =>
      var x := ToNumber(a);
      var y := ToNumber(b);
      x.Num? && y.Num? && x.value == y.value
  }

  /** `x` is a whole number of hundredths. */
  predicate IsHundredths(x: real) {
    (x * 100.0).Floor as real == x * 100.0
  }

  /** Rounding to the nearest hundredth, ties upwards. */
  function HalfUp(x: real): (r: real)
    ensures IsHundredths(r)
    ensures x - 0.005 < r <= x + 0.005
  {
    var k := (x * 100.0 + 0.5).Floor;
    assert k as real / 100.0 * 100.0 == k as real;
    k as real / 100.0
  }

  /**
   * `x.toFixed(2)` read back as a number: the nearest multiple of 0.01,
   * with ties rounded away from zero (toFixed rounds the magnitude and
   * then restores the sign).
   */
  function ToFixed2(x: real): (r: real)
    ensures IsHundredths(r)
    ensures 0.0 <= x ==> x - 0.005 < r <= x + 0.005
    ensures x < 0.0 ==> x - 0.005 <= r < x + 0.005
  {
    if x < 0.0 then
      var h := HalfUp(-x);
      HundredthsNegate(h);
      -h
    else
      HalfUp(x)
  }

  lemma HundredthsNegate(h: real)
    requires IsHundredths(h)
    ensures IsHundredths(-h)
  {
    var k := (h * 100.0).Floor;
    assert -h * 100.0 == (-k) as real;
  }

  /** A value that is already a whole number of hundredths is left alone. */
  lemma ToFixed2Keeps(x: real)
    requires IsHundredths(x)
    ensures ToFixed2(x) == x
  {
    var k := (x * 100.0).Floor;
    if x < 0.0 {
      assert (-x * 100.0 + 0.5).Floor == -k;
    } else {
      assert (x * 100.0 + 0.5).Floor == k;
    }
  }
}
