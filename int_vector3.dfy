/**
 * The three-dimensional integer vector: component-wise operators over C++
 * `int`, in-place compound assignments, and the 32-bit hash used by hash maps.
 */
module IntVectors3 {
  import opened Int32

  datatype IntVector3 = IntVector3(x: i32, y: i32, z: i32)
  {
    /** The default constructor: the zero vector. */
    static function Zero(): (v: IntVector3)
      ensures v.x == 0 && v.y == 0 && v.z == 0
    {
      IntVector3(0, 0, 0)
    }

    /** Construction from an `int` array reads its first three elements. */
    static function FromInts(data: seq<i32>): (v: IntVector3)
      requires |data| >= 3
      ensures v.x == data[0] && v.y == data[1] && v.z == data[2]
    {
      IntVector3(data[0], data[1], data[2])
    }

    predicate Equals(rhs: IntVector3) { x == rhs.x && y == rhs.y && z == rhs.z }

    predicate NotEquals(rhs: IntVector3) { x != rhs.x || y != rhs.y || z != rhs.z }

    function Plus(rhs: IntVector3): IntVector3
      requires IsI32(x + rhs.x) && IsI32(y + rhs.y) && IsI32(z + rhs.z)
    {
      IntVector3(x + rhs.x, y + rhs.y, z + rhs.z)
    }

    function Negate(): IntVector3
      requires x != I32_MIN && y != I32_MIN && z != I32_MIN
    {
      IntVector3(-x, -y, -z)
    }

    function Minus(rhs: IntVector3): IntVector3
      requires IsI32(x - rhs.x) && IsI32(y - rhs.y) && IsI32(z - rhs.z)
    {
      IntVector3(x - rhs.x, y - rhs.y, z - rhs.z)
    }

    function Scale(rhs: i32): IntVector3
      requires IsI32(x * rhs) && IsI32(y * rhs) && IsI32(z * rhs)
    {
      IntVector3(x * rhs, y * rhs, z * rhs)
    }

    function Times(rhs: IntVector3): IntVector3
      requires IsI32(x * rhs.x) && IsI32(y * rhs.y) && IsI32(z * rhs.z)
    {
      IntVector3(x * rhs.x, y * rhs.y, z * rhs.z)
    }

    /** Division by a scalar, truncating toward zero; `INT_MIN / -1` overflows. */
    function DivScalar(rhs: i32): (r: IntVector3)
      requires rhs != 0 && !(rhs == -1 && (x == I32_MIN || y == I32_MIN || z == I32_MIN))
      ensures Abs(x - r.x * rhs) < Abs(rhs) && (x - r.x * rhs == 0 || (x - r.x * rhs < 0) == (x < 0))
      ensures Abs(y - r.y * rhs) < Abs(rhs) && (y - r.y * rhs == 0 || (y - r.y * rhs < 0) == (y < 0))
      ensures Abs(z - r.z * rhs) < Abs(rhs) && (z - r.z * rhs == 0 || (z - r.z * rhs < 0) == (z < 0))
    {
      TruncDivInRange(x, rhs);
      TruncDivInRange(y, rhs);
      TruncDivInRange(z, rhs);
      IntVector3(TruncDiv(x, rhs), TruncDiv(y, rhs), TruncDiv(z, rhs))
    }

    /** Component-wise division, truncating toward zero. */
    function DivVector(rhs: IntVector3): (r: IntVector3)
      requires rhs.x != 0 && rhs.y != 0 && rhs.z != 0
      requires !(rhs.x == -1 && x == I32_MIN) && !(rhs.y == -1 && y == I32_MIN) && !(rhs.z == -1 && z == I32_MIN)
      ensures Abs(x - r.x * rhs.x) < Abs(rhs.x) && (x - r.x * rhs.x == 0 || (x - r.x * rhs.x < 0) == (x < 0))
      ensures Abs(y - r.y * rhs.y) < Abs(rhs.y) && (y - r.y * rhs.y == 0 || (y - r.y * rhs.y < 0) == (y < 0))
      ensures Abs(z - r.z * rhs.z) < Abs(rhs.z) && (z - r.z * rhs.z == 0 || (z - r.z * rhs.z < 0) == (z < 0))
    {
      TruncDivInRange(x, rhs.x);
      TruncDivInRange(y, rhs.y);
      TruncDivInRange(z, rhs.z);
      IntVector3(TruncDiv(x, rhs.x), TruncDiv(y, rhs.y), TruncDiv(z, rhs.z))
    }

    /**
     * The hash `(hash32)x * 31 * 31 + (hash32)y * 31 + (hash32)z`, each unsigned
     * operation wrapping modulo 2^32; it equals the exact `x * 961 + y * 31 + z`
     * reduced modulo 2^32.
     */
    function ToHash(): (h: nat)
      ensures h < U32_MODULUS
      ensures h == (x * 961 + y * 31 + z) % U32_MODULUS
    {
      var xx := ToU32(ToU32(ToU32(x) * 31) * 31);
      var yy := ToU32(ToU32(y) * 31);
      ToU32MulWrap(x, 31);
      ToU32MulWrap(ToU32(x) * 31, 31);
      ToU32MulWrap(x * 31, 31);
      assert xx == ToU32(x * 961);
      ToU32MulWrap(y, 31);
      ToU32AddWrap(x * 961, y * 31);
      assert ToU32(xx + yy) == ToU32(x * 961 + y * 31);
      ToU32AddWrap(xx + yy, z);
      ToU32AddWrap(x * 961 + y * 31, z);
      ToU32(ToU32(xx + yy) + ToU32(z))
    }
  }

  /** Scalar-left multiplication, defined by the engine as `rhs * lhs`. */
  function ScaleLeft(lhs: i32, rhs: IntVector3): IntVector3
    requires IsI32(rhs.x * lhs) && IsI32(rhs.y * lhs) && IsI32(rhs.z * lhs)
  {
    rhs.Scale(lhs)
  }

  /** Per-component minimum. */
  function VectorMin(lhs: IntVector3, rhs: IntVector3): (r: IntVector3)
    ensures r.x <= lhs.x && r.x <= rhs.x && (r.x == lhs.x || r.x == rhs.x)
    ensures r.y <= lhs.y && r.y <= rhs.y && (r.y == lhs.y || r.y == rhs.y)
    ensures r.z <= lhs.z && r.z <= rhs.z && (r.z == lhs.z || r.z == rhs.z)
  {
    IntVector3(Min(lhs.x, rhs.x), Min(lhs.y, rhs.y), Min(lhs.z, rhs.z))
  }

  /** Per-component maximum. */
  function VectorMax(lhs: IntVector3, rhs: IntVector3): (r: IntVector3)
    ensures r.x >= lhs.x && r.x >= rhs.x && (r.x == lhs.x || r.x == rhs.x)
    ensures r.y >= lhs.y && r.y >= rhs.y && (r.y == lhs.y || r.y == rhs.y)
    ensures r.z >= lhs.z && r.z >= rhs.z && (r.z == lhs.z || r.z == rhs.z)
  {
    IntVector3(Max(lhs.x, rhs.x), Max(lhs.y, rhs.y), Max(lhs.z, rhs.z))
  }

  /** Per-component absolute value; the absolute value of `INT_MIN` overflows. */
  function VectorAbs(v: IntVector3): (r: IntVector3)
    requires v.x != I32_MIN && v.y != I32_MIN && v.z != I32_MIN
    ensures r.x >= 0 && (r.x == v.x || r.x == -v.x)
    ensures r.y >= 0 && (r.y == v.y || r.y == -v.y)
    ensures r.z >= 0 && (r.z == v.z || r.z == -v.z)
  {
    IntVector3(if v.x >= 0 then v.x else -v.x, if v.y >= 0 then v.y else -v.y, if v.z >= 0 then v.z else -v.z)
  }

  /** `==` is component-wise equality, i.e. value equality, and `!=` is its negation. */
  lemma EqualityOperators(a: IntVector3, b: IntVector3)
    ensures a.Equals(b) <==> a == b
    ensures a.NotEquals(b) <==> !a.Equals(b)
  {
  }

  /** Subtraction undoes addition. */
  lemma PlusMinusInverse(a: IntVector3, b: IntVector3)
    requires IsI32(a.x + b.x) && IsI32(a.y + b.y) && IsI32(a.z + b.z)
    ensures IsI32(a.Plus(b).x - b.x) && IsI32(a.Plus(b).y - b.y) && IsI32(a.Plus(b).z - b.z)
    ensures a.Plus(b).Minus(b) == a
  {
  }

  /** Subtraction is addition of the negation, and negation is an involution. */
  lemma MinusIsPlusNegate(a: IntVector3, b: IntVector3)
    requires b.x != I32_MIN && b.y != I32_MIN && b.z != I32_MIN
    requires IsI32(a.x - b.x) && IsI32(a.y - b.y) && IsI32(a.z - b.z)
    ensures a.Minus(b) == a.Plus(b.Negate())
    ensures b.Negate().Negate() == b
  {
  }

  /** Scalar multiplication is multiplication by the splat vector, on either side. */
  lemma ScaleCommutes(s: i32, v: IntVector3)
    requires IsI32(v.x * s) && IsI32(v.y * s) && IsI32(v.z * s)
    ensures ScaleLeft(s, v) == v.Scale(s) == v.Times(IntVector3(s, s, s))
  {
  }

  /**
   * An `IntVector3` variable updated in place by the compound assignments.
   * Each one leaves the variable equal to the matching binary operator's result.
   */
  class IntVector3Var {
    var x: i32
    var y: i32
    var z: i32

    function Value(): IntVector3
      reads this
    {
      IntVector3(x, y, z)
    }

    constructor (v: IntVector3)
      ensures Value() == v
    {
      x, y, z := v.x, v.y, v.z;
    }

    method PlusAssign(rhs: IntVector3)
      requires IsI32(x + rhs.x) && IsI32(y + rhs.y) && IsI32(z + rhs.z)
      modifies this
      ensures Value() == old(Value()).Plus(rhs)
    {
      x := x + rhs.x;
      y := y + rhs.y;
      z := z + rhs.z;
    }

    method MinusAssign(rhs: IntVector3)
      requires IsI32(x - rhs.x) && IsI32(y - rhs.y) && IsI32(z - rhs.z)
      modifies this
      ensures Value() == old(Value()).Minus(rhs)
    {
      x := x - rhs.x;
      y := y - rhs.y;
      z := z - rhs.z;
    }

    method ScaleAssign(rhs: i32)
      requires IsI32(x * rhs) && IsI32(y * rhs) && IsI32(z * rhs)
      modifies this
      ensures Value() == old(Value()).Scale(rhs)
    {
      x := x * rhs;
      y := y * rhs;
      z := z * rhs;
    }

    method TimesAssign(rhs: IntVector3)
      requires IsI32(x * rhs.x) && IsI32(y * rhs.y) && IsI32(z * rhs.z)
      modifies this
      ensures Value() == old(Value()).Times(rhs)
    {
      x := x * rhs.x;
      y := y * rhs.y;
      z := z * rhs.z;
    }

    method DivScalarAssign(rhs: i32)
      requires rhs != 0 && !(rhs == -1 && (x == I32_MIN || y == I32_MIN || z == I32_MIN))
      modifies this
      ensures Value() == old(Value()).DivScalar(rhs)
    {
      TruncDivInRange(x, rhs);
      x := TruncDiv(x, rhs);
      TruncDivInRange(y, rhs);
      y := TruncDiv(y, rhs);
      TruncDivInRange(z, rhs);
      z := TruncDiv(z, rhs);
    }

    method DivVectorAssign(rhs: IntVector3)
      requires rhs.x != 0 && rhs.y != 0 && rhs.z != 0
      requires !(rhs.x == -1 && x == I32_MIN) && !(rhs.y == -1 && y == I32_MIN) && !(rhs.z == -1 && z == I32_MIN)
      modifies this
      ensures Value() == old(Value()).DivVector(rhs)
    {
      TruncDivInRange(x, rhs.x);
      x := TruncDiv(x, rhs.x);
      TruncDivInRange(y, rhs.y);
      y := TruncDiv(y, rhs.y);
      TruncDivInRange(z, rhs.z);
      z := TruncDiv(z, rhs.z);
    }
  }
}
