/** The value-or-nothing type used wherever the JavaScript source returns `null`
    or reads an `undefined` property. */
module Wrappers {

  datatype Option<+T> = None | Some(value: T)

  /** `Math.max` and `Math.min` on integers. */
  function MaxInt(a: int, b: int): (r: int)
    ensures r >= a && r >= b
    ensures r == a || r == b
  {
    if a >= b then a else b
  }

  function MinInt(a: int, b: int): (r: int)
    ensures r <= a && r <= b
    ensures r == a || r == b
  {
    if a <= b then a else b
  }

  /** `Math.min` on two real numbers (no NaN in this model), for the
      capped probabilities and community level; `MinInt` is the integer one
      used for the clamped character position. */
  function MinReal(a: real, b: real): (r: real)
    ensures r <= a && r <= b
    ensures r == a || r == b
  {
    if a <= b then a else b
  }
}
