/**
 * Light helpers: the directional-light cascade parameters with their shadow
 * range, and the ordering in which lights are sorted for rendering.
 */
module Lights {
  import opened MathDefs

  const MAX_LIGHT_SPLITS: int := 6
  const MAX_CASCADE_SPLITS: int := 4

  /** A four-component vector of real numbers, indexed 0..3 as x, y, z, w. */
  datatype Vector4 = Vector4(x: real, y: real, z: real, w: real)
  {
    function At(i: nat): real
      requires i < 4
    {
      match i
      case 0 => x
      case 1 => y
      case 2 => z
      case 3 => w
    }
  }

  /** Cascaded shadow parameters: the far clip of each split, fade start and bias adjustment. */
  datatype CascadeParameters = CascadeParameters(splits: Vector4, fadeStart: real, biasAutoAdjust: real)
  {
    /** The constructor with initial values; the bias adjustment defaults to 1. */
    static function Make(split1: real, split2: real, split3: real, split4: real, fadeStart: real,
                         biasAutoAdjust: real := 1.0): (p: CascadeParameters)
      ensures p.splits.At(0) == split1 && p.splits.At(1) == split2
      ensures p.splits.At(2) == split3 && p.splits.At(3) == split4
      ensures p.fadeStart == fadeStart && p.biasAutoAdjust == biasAutoAdjust
    {
      CascadeParameters(Vector4(split1, split2, split3, split4), fadeStart, biasAutoAdjust)
    }

    /** The shadow's maximum range: the largest split far clip, and never below 0. */
    method GetShadowRange() returns (ret: real)
      ensures ret >= 0.0
      ensures forall i :: 0 <= i < MAX_CASCADE_SPLITS ==> ret >= splits.At(i)
      ensures ret == 0.0 || exists i :: 0 <= i < MAX_CASCADE_SPLITS && ret == splits.At(i)
    {
      ret := 0.0;
      var i := 0;
      while i < MAX_CASCADE_SPLITS
        invariant 0 <= i <= MAX_CASCADE_SPLITS
        invariant ret >= 0.0
        invariant forall k :: 0 <= k < i ==> ret >= splits.At(k)
        invariant ret == 0.0 || exists k :: 0 <= k < i && ret == splits.At(k)
      {
        ret := MaxReal(ret, splits.At(i));
        i := i + 1;
      }
    }
  }

  /** The two properties of a light that decide its rendering order. */
  datatype LightInfo = LightInfo(perVertex: bool, sortValue: real)

  /**
   * The sort predicate for lights: per-vertex lights come first so that the
   * vertex-lit base pass can be evaluated first; otherwise by sort value.
   */
  predicate CompareLights(lhs: LightInfo, rhs: LightInfo)
  {
    if lhs.perVertex != rhs.perVertex then lhs.perVertex else lhs.sortValue < rhs.sortValue
  }

  /** An independent statement of the order: by (not per-vertex, sort value), lexicographically. */
  predicate KeyLess(lhs: LightInfo, rhs: LightInfo)
  {
    var a := if lhs.perVertex then 0 else 1;
    var b := if rhs.perVertex then 0 else 1;
    a < b || (a == b && lhs.sortValue < rhs.sortValue)
  }

  lemma CompareLightsIsKeyOrder(lhs: LightInfo, rhs: LightInfo)
    ensures CompareLights(lhs, rhs) <==> KeyLess(lhs, rhs)
  {
  }

  lemma PerVertexFirst(lhs: LightInfo, rhs: LightInfo)
    requires lhs.perVertex && !rhs.perVertex
    ensures CompareLights(lhs, rhs) && !CompareLights(rhs, lhs)
  {
  }

  lemma EqualFlagsBySortValue(lhs: LightInfo, rhs: LightInfo)
    requires lhs.perVertex == rhs.perVertex
    ensures CompareLights(lhs, rhs) <==> lhs.sortValue < rhs.sortValue
  {
  }

  /** The order is a strict weak order, as a sort predicate must be. */
  lemma CompareLightsStrictWeakOrder(a: LightInfo, b: LightInfo, c: LightInfo)
    ensures !CompareLights(a, a)
    ensures CompareLights(a, b) ==> !CompareLights(b, a)
    ensures CompareLights(a, b) && CompareLights(b, c) ==> CompareLights(a, c)
    ensures !CompareLights(a, b) && !CompareLights(b, a) && !CompareLights(b, c) && !CompareLights(c, b)
      ==> !CompareLights(a, c) && !CompareLights(c, a)
  {
  }
}
