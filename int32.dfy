/**
 * Fixed-width integer helpers shared by the engine's value types: the range of
 * a C++ `i32`, division that truncates toward zero as C++ `/` does, and the
 * wrap-around of the unsigned 32-bit `hash32` type.
 */
module Int32 {
  const I32_MIN: int := -0x8000_0000
  const I32_MAX: int := 0x7fff_ffff
  const U32_MODULUS: int := 0x1_0000_0000

  /** A value representable as a C++ `i32`. */
  predicate IsI32(v: int) { I32_MIN <= v <= I32_MAX }

  /** The C++ `int`/`i32` values. Signed overflow is undefined behaviour in C++,
   *  so operations producing these carry the absence of overflow as a precondition. */
  type i32 = v: int | I32_MIN <= v <= I32_MAX

  /** The `hash32` (unsigned 32-bit) value of an integer: reduction modulo 2^32. */
  function ToU32(v: int): (r: nat)
    ensures r < U32_MODULUS
    ensures (r - v) % U32_MODULUS == 0
  {
    v % U32_MODULUS
  }

  /** Adding a multiple of the modulus does not change the `hash32` value. */
  lemma {:induction false} ToU32AddMultiple(a: int, k: int)
    ensures ToU32(a + k * U32_MODULUS) == ToU32(a)
  {
    var m := U32_MODULUS;
    var q, r := a / m, a % m;
    assert a == q * m + r;
    assert a + k * m == (q + k) * m + r;
  }

  /** `hash32` multiplication: wrapping the operand first gives the same wrapped product. */
  lemma {:induction false} ToU32MulWrap(a: int, c: int)
    ensures ToU32(ToU32(a) * c) == ToU32(a * c)
  {
    var m := U32_MODULUS;
    var k := a / m;
    assert a == k * m + ToU32(a);
    assert a * c == ToU32(a) * c + (k * c) * m;
    ToU32AddMultiple(ToU32(a) * c, k * c);
  }

  /** `hash32` addition: wrapping the operands first gives the same wrapped sum. */
  lemma {:induction false} ToU32AddWrap(a: int, b: int)
    ensures ToU32(ToU32(a) + ToU32(b)) == ToU32(a + b)
  {
    var m := U32_MODULUS;
    var ka, kb := a / m, b / m;
    assert a == ka * m + ToU32(a);
    assert b == kb * m + ToU32(b);
    assert a + b == ToU32(a) + ToU32(b) + (ka + kb) * m;
    ToU32AddMultiple(ToU32(a) + ToU32(b), ka + kb);
  }

  /** The magnitude of an integer (a mathematical helper, not the engine's `Abs`). */
  function Abs(v: int): nat { if v < 0 then -v else v }

  /**
   * A C++ cast from `float` to `int`: truncation toward zero. The cast is
   * undefined when the truncated value does not fit an `int`; the callers require that it fits.
   */
  function TruncToInt(f: real): (r: int)
    ensures Abs(r) as real <= (if f < 0.0 then -f else f) < Abs(r) as real + 1.0
    ensures r == 0 || (r < 0 <==> f < 0.0)
  {
    if f >= 0.0 then f.Floor else -((-f).Floor)
  }

  /**
   * C++ integer division: the quotient is truncated toward zero, so the
   * remainder `a - q * b` takes the sign of the dividend and is smaller than
   * the divisor in magnitude.
   */
  function TruncDiv(a: int, b: int): (q: int)
    requires b != 0
    ensures var rem := a - q * b; Abs(rem) < Abs(b) && (rem == 0 || (rem < 0) == (a < 0))
  {
    var q0 := Abs(a) / Abs(b);
    var r0 := Abs(a) % Abs(b);
    assert Abs(a) == q0 * Abs(b) + r0;
    var q := if (a < 0) == (b < 0) then q0 else -q0;
    assert q * b == if a < 0 then -(q0 * Abs(b)) else q0 * Abs(b);
    q
  }

  /** The quotient of two `i32` values fits an `i32`, except for `I32_MIN / -1`. */
  lemma TruncDivInRange(a: int, b: int)
    requires IsI32(a) && IsI32(b) && b != 0 && !(b == -1 && a == I32_MIN)
    ensures IsI32(TruncDiv(a, b))
  {
    var q0 := Abs(a) / Abs(b);
    assert TruncDiv(a, b) == q0 || TruncDiv(a, b) == -q0;
    if Abs(b) == 1 {
      assert q0 == Abs(a);
      assert b == 1 ==> TruncDiv(a, b) == a;
    } else {
      DivShrinks(Abs(a), Abs(b));
    }
  }

  /** Dividing by at least two at least halves. */
  lemma {:induction false} DivShrinks(n: nat, d: nat)
    requires d >= 2
    ensures 2 * (n / d) <= n
  {
    var q := n / d;
    assert q * d + n % d == n;
    assert q * d == 2 * q + q * (d - 2);
    assert q * (d - 2) >= 0;
  }

  function Min(a: int, b: int): (r: int)
    ensures r <= a && r <= b && (r == a || r == b)
  {
    if a < b then a else b
  }

  function Max(a: int, b: int): (r: int)
    ensures r >= a && r >= b && (r == a || r == b)
  {
    if a > b then a else b
  }

  /** Urho-style `Clamp(value, min, max)`: first tests `< min`, then `> max`. */
  function Clamp(v: int, lo: int, hi: int): (r: int)
    ensures lo <= hi ==> lo <= r <= hi
    ensures lo <= v <= hi ==> r == v
    ensures v < lo ==> r == lo
    ensures lo <= v && hi < v ==> r == hi
  {
    if v < lo then lo else if v > hi then hi else v
  }
}
