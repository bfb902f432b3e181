/**
 * JavaScript values and arithmetic that the web front ends rely on:
 * numbers with their non-finite members, `Math.random()` draws and the
 * truncating `%` operator.
 */
module JsValues {

  /** A JavaScript number: a finite value, NaN or an infinity (float rounding is not modelled). */
  datatype Number = Finite(v: real) | NaN | PosInf | NegInf {
    predicate IsFinite() { Finite? }
  }

  /** The JavaScript values the modelled code inspects with `typeof`. */
  datatype JsValue = JsString(s: string) | JsNumber(n: Number) | JsBool(b: bool) | JsNull | JsUndefined | JsObject

  /** A value returned by `Math.random()`: in [0, 1). */
  predicate IsDraw(r: real) { 0.0 <= r < 1.0 }

  /** `Math.floor(Math.random() * n)`: an index chosen by the draw `r`. */
  function RandomIndex(r: real, n: nat): (i: nat)
    requires IsDraw(r) && n > 0
    ensures i < n
    ensures (i as real) <= r * (n as real) < (i as real) + 1.0
  {
    ScaledDrawBelow(r, n as real);
    (r * (n as real)).Floor
  }

  /** A draw scaled by a positive length stays below that length. */
  lemma ScaledDrawBelow(r: real, n: real)
    requires IsDraw(r) && n > 0.0
    ensures r * n < n
  {
    assert n - r * n == (1.0 - r) * n;
  }

  /**
   * JavaScript `a % b` on integers: `a - b * q` with the quotient `q` rounded
   * toward zero, so the remainder takes the sign of the dividend. For a
   * negative dividend that quotient is `-((-a) / b)`.
   */
  function JsRem(a: int, b: int): (r: int)
    requires b > 0
    ensures a >= 0 ==> 0 <= r < b
    ensures a < 0 ==> -b < r <= 0
    ensures a >= 0 ==> r == a % b
    ensures a < 0 ==> r == a - b * -((-a) / b)
  {
    if a >= 0 then a % b else -((-a) % b)
  }
}
