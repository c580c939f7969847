/** Column values as pandas holds them.

    A pandas float cell is either a number or NaN. Here a number is `Some(x)`
    over `real` and NaN ("no value") is `None`. Arithmetic propagates `None`,
    and every comparison that involves `None` is false, as an IEEE comparison
    with NaN is. A zero denominator is `None` as well: pandas produces +inf,
    -inf or NaN there, and this model does not distinguish the three. */
module Num {

  datatype Option<+T> = None | Some(value: T)

  function Abs(x: real): real {
    if x < 0.0 then -x else x
  }

  function Max(x: real, y: real): real {
    if x < y then y else x
  }

  /** `a + b` on float cells. */
  function Add(a: Option<real>, b: Option<real>): Option<real> {
    if a.Some? && b.Some? then Some(a.value + b.value) else None
  }

  /** `a - b` on float cells. */
  function Sub(a: Option<real>, b: Option<real>): Option<real> {
    if a.Some? && b.Some? then Some(a.value - b.value) else None
  }

  /** `a * b` on float cells. */
  function Mul(a: Option<real>, b: Option<real>): Option<real> {
    if a.Some? && b.Some? then Some(a.value * b.value) else None
  }

  /** `a / b` on float cells; a zero denominator gives no value. */
  function Div(a: Option<real>, b: Option<real>): Option<real> {
    if a.Some? && b.Some? && b.value != 0.0 then Some(a.value / b.value) else None
  }

  /** `abs(a)` on a float cell. */
  function AbsOpt(a: Option<real>): Option<real> {
    if a.Some? then Some(Abs(a.value)) else None
  }

  /** `a < b`; false when either side is NaN. */
  predicate Lt(a: Option<real>, b: Option<real>) {
    a.Some? && b.Some? && a.value < b.value
  }

  /** `a <= b`; false when either side is NaN. */
  predicate Le(a: Option<real>, b: Option<real>) {
    a.Some? && b.Some? && a.value <= b.value
  }

  /** `a > b`; false when either side is NaN. */
  predicate Gt(a: Option<real>, b: Option<real>) {
    a.Some? && b.Some? && a.value > b.value
  }

  /** `a >= b`; false when either side is NaN. */
  predicate Ge(a: Option<real>, b: Option<real>) {
    a.Some? && b.Some? && a.value >= b.value
  }

  /** For a positive denominator, bounds on the numerator carry over to the quotient. */
  lemma QuotientBounds(x: real, y: real, lo: real, hi: real)
    requires y > 0.0
    requires lo * y <= x <= hi * y
    ensures lo <= x / y <= hi
  {
  }

  /** A quotient times its non-zero denominator gives back the numerator. */
  lemma QuotientTimesDenominator(x: real, y: real)
    requires y != 0.0
    ensures x / y * y == x
  {
  }

  /** `a + b <= c` survives division by the same positive `n`. */
  lemma QuotientSumLe(a: real, b: real, c: real, n: real)
    requires n > 0.0 && a + b <= c
    ensures a / n + b / n <= c / n
  {
    assert a / n + b / n == (a + b) / n;
    QuotientBounds(a + b, n, (a + b) / n, c / n);
  }

  /** Multiplying both sides by a positive factor keeps the order. */
  lemma ScaleByPositive(x: real, y: real, d: real)
    requires d > 0.0
    ensures x >= y <==> x * d >= y * d
  {
    if x >= y {
      assert x * d - y * d == (x - y) * d;
    } else {
      assert y * d - x * d == (y - x) * d;
    }
  }
}
