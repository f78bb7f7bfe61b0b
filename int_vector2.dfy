/**
 * The two-dimensional integer vector: component-wise operators over C++ `int`,
 * in-place compound assignments, and the 32-bit hash used by hash maps.
 */
module IntVectors2 {
  import opened Int32

  datatype IntVector2 = IntVector2(x: i32, y: i32)
  {
    /** The default constructor: the zero vector. */
    static function Zero(): (v: IntVector2)
      ensures v.x == 0 && v.y == 0
    {
      IntVector2(0, 0)
    }

    /** Construction from an `int` array reads its first two elements. */
    static function FromInts(data: seq<i32>): (v: IntVector2)
      requires |data| >= 2
      ensures v.x == data[0] && v.y == data[1]
    {
      IntVector2(data[0], data[1])
    }

    /** Construction from a `float` array truncates each element toward zero. */
    static function FromFloats(data: seq<real>): (v: IntVector2)
      requires |data| >= 2 && IsI32(TruncToInt(data[0])) && IsI32(TruncToInt(data[1]))
      ensures Abs(v.x) as real <= (if data[0] < 0.0 then -data[0] else data[0]) < Abs(v.x) as real + 1.0
      ensures Abs(v.y) as real <= (if data[1] < 0.0 then -data[1] else data[1]) < Abs(v.y) as real + 1.0
      ensures v.x == 0 || (v.x < 0 <==> data[0] < 0.0)
      ensures v.y == 0 || (v.y < 0 <==> data[1] < 0.0)
      ensures v.x == TruncToInt(data[0]) && v.y == TruncToInt(data[1])
    {
      IntVector2(TruncToInt(data[0]), TruncToInt(data[1]))
    }

    predicate Equals(rhs: IntVector2) { x == rhs.x && y == rhs.y }

    predicate NotEquals(rhs: IntVector2) { x != rhs.x || y != rhs.y }

    function Plus(rhs: IntVector2): IntVector2
      requires IsI32(x + rhs.x) && IsI32(y + rhs.y)
    {
      IntVector2(x + rhs.x, y + rhs.y)
    }

    function Negate(): IntVector2
      requires x != I32_MIN && y != I32_MIN
    {
      IntVector2(-x, -y)
    }

    function Minus(rhs: IntVector2): IntVector2
      requires IsI32(x - rhs.x) && IsI32(y - rhs.y)
    {
      IntVector2(x - rhs.x, y - rhs.y)
    }

    function Scale(rhs: i32): IntVector2
      requires IsI32(x * rhs) && IsI32(y * rhs)
    {
      IntVector2(x * rhs, y * rhs)
    }

    function Times(rhs: IntVector2): IntVector2
      requires IsI32(x * rhs.x) && IsI32(y * rhs.y)
    {
      IntVector2(x * rhs.x, y * rhs.y)
    }

    /** Division by a scalar, truncating toward zero; `INT_MIN / -1` overflows. */
    function DivScalar(rhs: i32): (r: IntVector2)
      requires rhs != 0 && !(rhs == -1 && (x == I32_MIN || y == I32_MIN))
      ensures Abs(x - r.x * rhs) < Abs(rhs) && (x - r.x * rhs == 0 || (x - r.x * rhs < 0) == (x < 0))
      ensures Abs(y - r.y * rhs) < Abs(rhs) && (y - r.y * rhs == 0 || (y - r.y * rhs < 0) == (y < 0))
    {
      TruncDivInRange(x, rhs);
      TruncDivInRange(y, rhs);
      IntVector2(TruncDiv(x, rhs), TruncDiv(y, rhs))
    }

    /** Component-wise division, truncating toward zero. */
    function DivVector(rhs: IntVector2): (r: IntVector2)
      requires rhs.x != 0 && rhs.y != 0
      requires !(rhs.x == -1 && x == I32_MIN) && !(rhs.y == -1 && y == I32_MIN)
      ensures Abs(x - r.x * rhs.x) < Abs(rhs.x) && (x - r.x * rhs.x == 0 || (x - r.x * rhs.x < 0) == (x < 0))
      ensures Abs(y - r.y * rhs.y) < Abs(rhs.y) && (y - r.y * rhs.y == 0 || (y - r.y * rhs.y < 0) == (y < 0))
    {
      TruncDivInRange(x, rhs.x);
      TruncDivInRange(y, rhs.y);
      IntVector2(TruncDiv(x, rhs.x), TruncDiv(y, rhs.y))
    }

    /**
     * The hash `(hash32)x * 31 + (hash32)y`, each unsigned operation wrapping
     * modulo 2^32; it equals the exact `x * 31 + y` reduced modulo 2^32.
     */
    function ToHash(): (h: nat)
      ensures h < U32_MODULUS
      ensures h == (x * 31 + y) % U32_MODULUS
    {
      ToU32MulWrap(x, 31);
      ToU32AddWrap(ToU32(x) * 31, y);
      ToU32AddWrap(x * 31, y);
      ToU32(ToU32(ToU32(x) * 31) + ToU32(y))
    }
  }

  /** Scalar-left multiplication, defined by the engine as `rhs * lhs`. */
  function ScaleLeft(lhs: i32, rhs: IntVector2): IntVector2
    requires IsI32(rhs.x * lhs) && IsI32(rhs.y * lhs)
  {
    rhs.Scale(lhs)
  }

  /** Per-component minimum. */
  function VectorMin(lhs: IntVector2, rhs: IntVector2): (r: IntVector2)
    ensures r.x <= lhs.x && r.x <= rhs.x && (r.x == lhs.x || r.x == rhs.x)
    ensures r.y <= lhs.y && r.y <= rhs.y && (r.y == lhs.y || r.y == rhs.y)
  {
    IntVector2(Min(lhs.x, rhs.x), Min(lhs.y, rhs.y))
  }

  /** Per-component maximum. */
  function VectorMax(lhs: IntVector2, rhs: IntVector2): (r: IntVector2)
    ensures r.x >= lhs.x && r.x >= rhs.x && (r.x == lhs.x || r.x == rhs.x)
    ensures r.y >= lhs.y && r.y >= rhs.y && (r.y == lhs.y || r.y == rhs.y)
  {
    IntVector2(Max(lhs.x, rhs.x), Max(lhs.y, rhs.y))
  }

  /** Per-component absolute value; the absolute value of `INT_MIN` overflows. */
  function VectorAbs(v: IntVector2): (r: IntVector2)
    requires v.x != I32_MIN && v.y != I32_MIN
    ensures r.x >= 0 && (r.x == v.x || r.x == -v.x)
    ensures r.y >= 0 && (r.y == v.y || r.y == -v.y)
  {
    IntVector2(if v.x >= 0 then v.x else -v.x, if v.y >= 0 then v.y else -v.y)
  }

  /** `==` is component-wise equality, i.e. value equality, and `!=` is its negation. */
  lemma EqualityOperators(a: IntVector2, b: IntVector2)
    ensures a.Equals(b) <==> a == b
    ensures a.NotEquals(b) <==> !a.Equals(b)
  {
  }

  /** Subtraction undoes addition. */
  lemma PlusMinusInverse(a: IntVector2, b: IntVector2)
    requires IsI32(a.x + b.x) && IsI32(a.y + b.y)
    ensures IsI32(a.Plus(b).x - b.x) && IsI32(a.Plus(b).y - b.y)
    ensures a.Plus(b).Minus(b) == a
  {
  }

  /** Subtraction is addition of the negation, and negation is an involution. */
  lemma MinusIsPlusNegate(a: IntVector2, b: IntVector2)
    requires b.x != I32_MIN && b.y != I32_MIN
    requires IsI32(a.x - b.x) && IsI32(a.y - b.y)
    ensures a.Minus(b) == a.Plus(b.Negate())
    ensures b.Negate().Negate() == b
  {
  }

  /** Scalar multiplication is multiplication by the splat vector, on either side. */
  lemma ScaleCommutes(s: i32, v: IntVector2)
    requires IsI32(v.x * s) && IsI32(v.y * s)
    ensures ScaleLeft(s, v) == v.Scale(s) == v.Times(IntVector2(s, s))
  {
  }

  /**
   * An `IntVector2` variable updated in place by the compound assignments.
   * Each one leaves the variable equal to the matching binary operator's result.
   */
  class IntVector2Var {
    var x: i32
    var y: i32

    function Value(): IntVector2
      reads this
    {
      IntVector2(x, y)
    }

    constructor (v: IntVector2)
      ensures Value() == v
    {
      x, y := v.x, v.y;
    }

    method PlusAssign(rhs: IntVector2)
      requires IsI32(x + rhs.x) && IsI32(y + rhs.y)
      modifies this
      ensures Value() == old(Value()).Plus(rhs)
    {
      x := x + rhs.x;
      y := y + rhs.y;
    }

    method MinusAssign(rhs: IntVector2)
      requires IsI32(x - rhs.x) && IsI32(y - rhs.y)
      modifies this
      ensures Value() == old(Value()).Minus(rhs)
    {
      x := x - rhs.x;
      y := y - rhs.y;
    }

    method ScaleAssign(rhs: i32)
      requires IsI32(x * rhs) && IsI32(y * rhs)
      modifies this
      ensures Value() == old(Value()).Scale(rhs)
    {
      x := x * rhs;
      y := y * rhs;
    }

    method TimesAssign(rhs: IntVector2)
      requires IsI32(x * rhs.x) && IsI32(y * rhs.y)
      modifies this
      ensures Value() == old(Value()).Times(rhs)
    {
      x := x * rhs.x;
      y := y * rhs.y;
    }

    method DivScalarAssign(rhs: i32)
      requires rhs != 0 && !(rhs == -1 && (x == I32_MIN || y == I32_MIN))
      modifies this
      ensures Value() == old(Value()).DivScalar(rhs)
    {
      TruncDivInRange(x, rhs);
      x := TruncDiv(x, rhs);
      TruncDivInRange(y, rhs);
      y := TruncDiv(y, rhs);
    }

    method DivVectorAssign(rhs: IntVector2)
      requires rhs.x != 0 && rhs.y != 0
      requires !(rhs.x == -1 && x == I32_MIN) && !(rhs.y == -1 && y == I32_MIN)
      modifies this
      ensures Value() == old(Value()).DivVector(rhs)
    {
      TruncDivInRange(x, rhs.x);
      x := TruncDiv(x, rhs.x);
      TruncDivInRange(y, rhs.y);
      y := TruncDiv(y, rhs.y);
    }
  }
}
