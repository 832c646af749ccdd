/** Unity's `Mathf` helpers on reals (standing in for `float`) and the
  * integer `Mathf.Clamp` overload. */
module Mathf {
  /** `Mathf.Clamp(value, min, max)` for `min <= max`. */
  function Clamp(value: real, lo: real, hi: real): (r: real)
    requires lo <= hi
    ensures lo <= r <= hi
    ensures lo <= value <= hi ==> r == value
    ensures value < lo ==> r == lo
    ensures value > hi ==> r == hi
  {
    if value < lo then lo else if value > hi then hi else value
  }

  /** `Mathf.Clamp01`. */
  function Clamp01(value: real): (r: real)
    ensures 0.0 <= r <= 1.0
    ensures 0.0 <= value <= 1.0 ==> r == value
  {
    Clamp(value, 0.0, 1.0)
  }

  /** `Mathf.Clamp(int, int, int)` for `min <= max`: the float clamp of
    * whole numbers is a whole number. */
  function ClampInt(value: int, lo: int, hi: int): (r: int)
    requires lo <= hi
    ensures r as real == Clamp(value as real, lo as real, hi as real)
  {
    Clamp(value as real, lo as real, hi as real).Floor
  }

  function Max(a: real, b: real): (r: real)
    ensures r >= a && r >= b && (r == a || r == b)
  {
    if a >= b then a else b
  }

  function Min(a: real, b: real): (r: real)
    ensures r <= a && r <= b && (r == a || r == b)
  {
    if a <= b then a else b
  }

  /** `Mathf.Max(int, int)`: the float maximum of whole numbers. */
  function MaxInt(a: int, b: int): (r: int)
    ensures r as real == Max(a as real, b as real)
  {
    Max(a as real, b as real).Floor
  }

  /** `Mathf.Min(int, int)`: the float minimum of whole numbers. */
  function MinInt(a: int, b: int): (r: int)
    ensures r as real == Min(a as real, b as real)
  {
    Min(a as real, b as real).Floor
  }
}
