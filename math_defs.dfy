/**
 * The engine's float `Max` and `Clamp` helpers, shared by the light cascade
 * parameters and the UI elements.
 */
module MathDefs {
  /** `Max(a, b)` on floats: `a` when it is the greater, else `b` (the right one on ties). */
  function MaxReal(a: real, b: real): (r: real)
    ensures r >= a && r >= b && (r == a || r == b)
  {
    if a > b then a else b
  }

  /** `Clamp(value, min, max)` on floats: first tests `< min`, then `> max`. */
  function ClampReal(v: real, lo: real, hi: real): (r: real)
    ensures lo <= hi ==> lo <= r <= hi
    ensures lo <= v <= hi ==> r == v
    ensures v < lo ==> r == lo
    ensures lo <= v && hi < v ==> r == hi
  {
    if v < lo then lo else if v > hi then hi else v
  }
}
