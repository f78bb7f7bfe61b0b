/**
 * Splines over `Variant` knots: the knot list whose entries all share the
 * first knot's type, the clamping of the curve parameter, the padding of the
 * full Catmull-Rom path, and the guards and segment choice of the Bezier,
 * Catmull-Rom and linear interpolations. The interpolation arithmetic itself
 * is a parameter.
 */
module Splines {
  import opened Int32

  /** The `Variant` types the interpolations tell apart; every other type is `VAR_OTHER`. */
  datatype VariantType = VAR_EMPTY | VAR_FLOAT | VAR_VECTOR2 | VAR_VECTOR3 | VAR_VECTOR4 | VAR_COLOR | VAR_DOUBLE | VAR_OTHER

  /** A `Variant`: its type and the value it stores, taken as an opaque number. */
  datatype Variant = Variant(kind: VariantType, payload: int)

  const EMPTY := Variant(VAR_EMPTY, 0)

  datatype InterpolationMode = BEZIER_CURVE | CATMULL_ROM_CURVE | LINEAR_CURVE | CATMULL_ROM_FULL_CURVE

  /** The types with an interpolation: float, vectors, colour and double. */
  predicate Interpolable(k: VariantType)
  {
    k in {VAR_FLOAT, VAR_VECTOR2, VAR_VECTOR3, VAR_VECTOR4, VAR_COLOR, VAR_DOUBLE}
  }

  /** The interpolation arithmetic: a linear blend and a Catmull-Rom blend at a local parameter. */
  datatype Arithmetic = Arithmetic(lerp: (Variant, Variant, real) -> Variant,
                                   catmullRom: (Variant, Variant, Variant, Variant, real) -> Variant)

  /** Every knot has the type of the first one. */
  predicate SameType(knots: seq<Variant>)
  {
    forall i :: 0 <= i < |knots| ==> knots[i].kind == knots[0].kind
  }

  /** The curve parameter clamped into [0, 1]. */
  function Clamp01(f: real): (t: real)
    ensures 0.0 <= t <= 1.0
    ensures 0.0 <= f <= 1.0 ==> t == f
  {
    if f > 1.0 then 1.0 else if f < 0.0 then 0.0 else f
  }

  /** The fractional part `fmodf(x, 1)` of a non-negative number. */
  function Frac(x: real): (r: real)
    requires x >= 0.0
    ensures 0.0 <= r < 1.0
  {
    x - TruncToInt(x) as real
  }

  /** Blend two knots by the type of the first one; other types blend to the empty value. */
  function LerpPair(lhs: Variant, rhs: Variant, t: real, ar: Arithmetic): (r: Variant)
    ensures !Interpolable(lhs.kind) ==> r == EMPTY
  {
    if Interpolable(lhs.kind) then ar.lerp(lhs, rhs, t) else EMPTY
  }

  /** The knot where the linear segment for `t` starts: clamped into [0, n - 2]. */
  function LinearOrigin(t: real, n: nat): (i: int)
    requires n >= 2 && t >= 0.0
    ensures 0 <= i <= n - 2
  {
    Clamp(TruncToInt(t * (n - 1) as real), 0, n - 2)
  }

  /**
   * For a parameter in [0, 1) the clamp never bites: the origin is the
   * segment that contains `t`, the whole part of `t * (n - 1)`.
   */
  lemma LinearOriginIsSegment(t: real, n: nat)
    requires n >= 2 && 0.0 <= t < 1.0
    ensures LinearOrigin(t, n) as real <= t * (n - 1) as real < LinearOrigin(t, n) as real + 1.0
  {
    WholePartBelow(t, n - 1);
  }

  /** For `t` in [0, 1) the whole part of `t * m` lies in [0, m - 1]. */
  lemma WholePartBelow(t: real, m: nat)
    requires m >= 1 && 0.0 <= t < 1.0
    ensures 0 <= TruncToInt(t * m as real) <= m - 1
    ensures TruncToInt(t * m as real) as real <= t * m as real < TruncToInt(t * m as real) as real + 1.0
  {
    var x := t * m as real;
    assert (1.0 - t) * m as real > 0.0;
    assert 0.0 <= x < m as real;
  }

  /** Linear interpolation through the knots. */
  function Linear(knots: seq<Variant>, t: real, ar: Arithmetic): (r: Variant)
    requires t >= 0.0
    ensures |knots| < 2 ==> r == EMPTY
    ensures |knots| >= 2 && t >= 1.0 ==> r == knots[|knots| - 1]
  {
    if |knots| < 2 then EMPTY
    else if t >= 1.0 then knots[|knots| - 1]
    else
      var origin := LinearOrigin(t, |knots|);
      LerpPair(knots[origin], knots[origin + 1], Frac(t * (|knots| - 1) as real), ar)
  }

  /** The knot where the Catmull-Rom segment for `t` starts: the whole part of `t * (n - 3)`. */
  function CatmullRomOrigin(t: real, n: nat): (i: int)
    requires n >= 4 && 0.0 <= t < 1.0
    ensures 0 <= i && i + 3 < n
  {
    WholePartBelow(t, n - 3);
    TruncToInt(t * (n - 3) as real)
  }

  /** Catmull-Rom interpolation through the inner knots; the outer two only steer. */
  function CatmullRom(knots: seq<Variant>, t: real, ar: Arithmetic): (r: Variant)
    requires t >= 0.0
    ensures |knots| < 4 ==> r == EMPTY
    ensures |knots| >= 4 && t >= 1.0 ==> r == knots[|knots| - 2]
  {
    if |knots| < 4 then EMPTY
    else if t >= 1.0 then knots[|knots| - 2]
    else
      var i := CatmullRomOrigin(t, |knots|);
      if Interpolable(knots[i].kind)
      then ar.catmullRom(knots[i], knots[i + 1], knots[i + 2], knots[i + 3], Frac(t * (|knots| - 3) as real))
      else EMPTY
  }

  /**
   * One de Casteljau step: the blends of neighbouring knots, one fewer than
   * the knots; a pair whose left knot has no interpolation blends to the
   * empty value.
   */
  function Blends(knots: seq<Variant>, t: real, ar: Arithmetic): (r: seq<Variant>)
    requires |knots| >= 1
    ensures |r| == |knots| - 1
    ensures forall i :: 0 <= i < |r| && !Interpolable(knots[i].kind) ==> r[i] == EMPTY
  {
    seq(|knots| - 1, i requires 0 <= i < |knots| - 1 => LerpPair(knots[i], knots[i + 1], t, ar))
  }

  /** Bezier interpolation: repeated blending until two knots are left. */
  function Bezier(knots: seq<Variant>, t: real, ar: Arithmetic): (r: Variant)
    requires |knots| >= 2
    ensures !Interpolable(knots[0].kind) ==> r == EMPTY
    decreases |knots|
  {
    if |knots| == 2 then LerpPair(knots[0], knots[1], t, ar)
    else if !Interpolable(knots[0].kind) then EMPTY
    else Bezier(Blends(knots, t, ar), t, ar)
  }

  /**
   * The knots of the full Catmull-Rom path: the ends are duplicated, or,
   * when the first and last knots are equal, the path is closed with the
   * knots next to the ends.
   */
  function FullKnots(knots: seq<Variant>): (r: seq<Variant>)
    requires |knots| >= 2
    ensures |r| == |knots| + 2 && r[1..|knots| + 1] == knots
    ensures knots[0] != knots[|knots| - 1] ==> r[0] == knots[0] && r[|r| - 1] == knots[|knots| - 1]
    ensures knots[0] == knots[|knots| - 1] ==> r[0] == knots[|knots| - 2] && r[|r| - 1] == knots[1]
  {
    if knots[0] != knots[|knots| - 1]
    then [knots[0]] + knots + [knots[|knots| - 1]]
    else [knots[|knots| - 2]] + knots + [knots[1]]
  }

  /** The point at a clamped parameter, by interpolation mode. */
  function PointAt(mode: InterpolationMode, knots: seq<Variant>, t: real, ar: Arithmetic): Variant
    requires |knots| >= 2 && 0.0 <= t <= 1.0
  {
    match mode
    case BEZIER_CURVE => Bezier(knots, t, ar)
    case CATMULL_ROM_CURVE => CatmullRom(knots, t, ar)
    case LINEAR_CURVE => Linear(knots, t, ar)
    case CATMULL_ROM_FULL_CURVE => CatmullRom(FullKnots(knots), t, ar)
  }

  /**
   * The end of the curve: the linear and the full Catmull-Rom paths end at
   * the last knot, the plain Catmull-Rom path at the one before it (the
   * last knot only steers), given at least four knots.
   */
  lemma CurveEnds(knots: seq<Variant>, ar: Arithmetic)
    requires |knots| >= 2
    ensures PointAt(LINEAR_CURVE, knots, 1.0, ar) == knots[|knots| - 1]
    ensures PointAt(CATMULL_ROM_FULL_CURVE, knots, 1.0, ar) == knots[|knots| - 1]
    ensures |knots| >= 4 ==> PointAt(CATMULL_ROM_CURVE, knots, 1.0, ar) == knots[|knots| - 2]
    ensures |knots| < 4 ==> PointAt(CATMULL_ROM_CURVE, knots, 1.0, ar) == EMPTY
  {
    var full := FullKnots(knots);
    assert full[|full| - 2] == full[1..|knots| + 1][|knots| - 1];
  }

  /**
   * A curve through one repeated knot stays on it, whatever the parameter,
   * provided blending a value with itself gives the value.
   */
  lemma {:induction false} BezierOfConstant(v: Variant, n: nat, t: real, ar: Arithmetic)
    requires n >= 2 && Interpolable(v.kind)
    requires forall s: real :: ar.lerp(v, v, s) == v
    ensures Bezier(seq(n, _ => v), t, ar) == v
    decreases n
  {
    var knots := seq(n, _ => v);
    if n > 2 {
      assert Blends(knots, t, ar) == seq(n - 1, _ => v);
      BezierOfConstant(v, n - 1, t, ar);
    }
  }

  /** Linear interpolation through one repeated knot stays on it, under the same condition. */
  lemma LinearOfConstant(v: Variant, n: nat, t: real, ar: Arithmetic)
    requires n >= 2 && Interpolable(v.kind) && t >= 0.0
    requires forall s: real :: ar.lerp(v, v, s) == v
    ensures Linear(seq(n, _ => v), t, ar) == v
  {
  }

  /**
   * The point of a spline at `f`: nothing without knots, the only knot when
   * there is one, else the curve of the mode at `f` clamped into [0, 1].
   */
  function Point(mode: InterpolationMode, knots: seq<Variant>, f: real, ar: Arithmetic): Variant
  {
    if |knots| == 0 then EMPTY
    else if |knots| == 1 then knots[0]
    else PointAt(mode, knots, Clamp01(f), ar)
  }

  /** Bezier interpolation as the source computes it: each level's blends are built in a loop. */
  method BezierInterpolation(knots: seq<Variant>, t: real, ar: Arithmetic) returns (r: Variant)
    requires |knots| >= 2
    ensures r == Bezier(knots, t, ar)
    decreases |knots|
  {
    if |knots| == 2 {
      return LerpPair(knots[0], knots[1], t, ar);
    }
    var interpolatedKnots: seq<Variant> := [];
    var i := 1;
    while i < |knots|
      invariant 1 <= i <= |knots|
      invariant Interpolable(knots[0].kind) || i == 1
      invariant interpolatedKnots == Blends(knots, t, ar)[..i - 1]
    {
      if !Interpolable(knots[0].kind) {
        return EMPTY;
      }
      interpolatedKnots := interpolatedKnots + [LerpPair(knots[i - 1], knots[i], t, ar)];
      i := i + 1;
    }
    assert interpolatedKnots == Blends(knots, t, ar);
    r := BezierInterpolation(interpolatedKnots, t, ar);
  }

  class Spline {
    var interpolationMode: InterpolationMode
    var knots: seq<Variant>

    /** A Bezier spline without knots. */
    constructor ()
      ensures interpolationMode == BEZIER_CURVE && knots == []
    {
      interpolationMode := BEZIER_CURVE;
      knots := [];
    }

    constructor WithMode(mode: InterpolationMode)
      ensures interpolationMode == mode && knots == []
    {
      interpolationMode := mode;
      knots := [];
    }

    constructor WithKnots(knots: seq<Variant>, mode: InterpolationMode)
      ensures interpolationMode == mode && this.knots == knots
    {
      interpolationMode := mode;
      this.knots := knots;
    }

    /** Equal splines have equal knots and equal modes. */
    predicate Equals(rhs: Spline)
      reads this, rhs
      ensures Equals(rhs) <==> knots == rhs.knots && interpolationMode == rhs.interpolationMode
    {
      knots == rhs.knots && interpolationMode == rhs.interpolationMode
    }

    predicate NotEquals(rhs: Spline)
      reads this, rhs
      ensures NotEquals(rhs) <==> !Equals(rhs)
    {
      !Equals(rhs)
    }

    function GetKnot(index: nat): (r: Variant)
      reads this
      requires index < |knots|
      ensures r == knots[index] && r in knots
    {
      knots[index]
    }

    /**
     * The point at `f`: nothing without knots, the only knot when there is
     * one, else the interpolation at `f` clamped into [0, 1].
     */
    method GetPoint(f: real, ar: Arithmetic) returns (r: Variant)
      ensures |knots| == 0 ==> r == EMPTY
      ensures |knots| == 1 ==> r == knots[0]
      ensures |knots| >= 2 ==> r == PointAt(interpolationMode, knots, Clamp01(f), ar)
      ensures r == Point(interpolationMode, knots, f, ar)
    {
      if |knots| < 2 {
        return if |knots| == 1 then knots[0] else EMPTY;
      }
      var t := f;
      if t > 1.0 {
        t := 1.0;
      } else if t < 0.0 {
        t := 0.0;
      }
      assert t == Clamp01(f);
      match interpolationMode
      case BEZIER_CURVE => r := BezierInterpolation(knots, t, ar);
      case CATMULL_ROM_CURVE => r := CatmullRom(knots, t, ar);
      case LINEAR_CURVE => r := Linear(knots, t, ar);
      case CATMULL_ROM_FULL_CURVE =>
        var fullKnots: seq<Variant>;
        if knots[0] != knots[|knots| - 1] {
          fullKnots := [knots[0]] + knots + [knots[|knots| - 1]];
        } else {
          fullKnots := [knots[|knots| - 2]] + knots + [knots[1]];
        }
        assert fullKnots == FullKnots(knots);
        r := CatmullRom(fullKnots, t, ar);
    }

    method SetInterpolationMode(mode: InterpolationMode)
      modifies this`interpolationMode
      ensures interpolationMode == mode
    {
      interpolationMode := mode;
    }

    /** Replace the knots wholesale, without a type check. */
    method SetKnots(newKnots: seq<Variant>)
      modifies this`knots
      ensures knots == newKnots
    {
      knots := newKnots;
    }

    /**
     * Replace the knot at `index` when it exists and the new knot has the
     * knots' type; otherwise nothing changes.
     */
    method SetKnot(knot: Variant, index: nat)
      modifies this`knots
      ensures index < |old(knots)| && old(knots)[0].kind == knot.kind ==> knots == old(knots)[index := knot]
      ensures !(index < |old(knots)| && old(knots)[0].kind == knot.kind) ==> knots == old(knots)
      ensures SameType(old(knots)) ==> SameType(knots)
    {
      if index < |knots| {
        // The list is not empty here, so the source's branch for an empty list is never taken.
        if knots[0].kind == knot.kind {
          knots := knots[index := knot];
        }
      }
    }

    /** Append a knot when there are none yet or it has the knots' type. */
    method AddKnot(knot: Variant)
      modifies this`knots
      ensures |old(knots)| == 0 || old(knots)[0].kind == knot.kind ==> knots == old(knots) + [knot]
      ensures !(|old(knots)| == 0 || old(knots)[0].kind == knot.kind) ==> knots == old(knots)
      ensures SameType(old(knots)) ==> SameType(knots)
    {
      if |knots| > 0 && knots[0].kind == knot.kind {
        knots := knots + [knot];
      } else if |knots| == 0 {
        knots := knots + [knot];
      }
    }

    /**
     * Insert a knot at `index`, clamped to the end, when there are none yet
     * or it has the knots' type.
     */
    method AddKnotAt(knot: Variant, index: nat)
      modifies this`knots
      ensures var at := Min(index, |old(knots)|);
              |old(knots)| == 0 || old(knots)[0].kind == knot.kind ==> knots == old(knots)[..at] + [knot] + old(knots)[at..]
      ensures !(|old(knots)| == 0 || old(knots)[0].kind == knot.kind) ==> knots == old(knots)
      ensures SameType(old(knots)) ==> SameType(knots)
    {
      var at := index;
      if at > |knots| {
        at := |knots|;
      }
      if |knots| > 0 && knots[0].kind == knot.kind {
        knots := knots[..at] + [knot] + knots[at..];
      } else if |knots| == 0 {
        knots := knots + [knot];
      }
    }

    /** Drop the last knot, if any. */
    method RemoveLastKnot()
      modifies this`knots
      ensures |old(knots)| > 0 ==> knots == old(knots)[..|old(knots)| - 1]
      ensures |old(knots)| == 0 ==> knots == []
      ensures SameType(old(knots)) ==> SameType(knots)
    {
      if |knots| > 0 {
        knots := knots[..|knots| - 1];
      }
    }

    /** Erase the knot at `index`; an index past the end changes nothing. */
    method RemoveKnot(index: nat)
      modifies this`knots
      ensures index < |old(knots)| ==> knots == old(knots)[..index] + old(knots)[index + 1..]
      ensures index >= |old(knots)| ==> knots == old(knots)
    {
      if index < |knots| {
        knots := knots[..index] + knots[index + 1..];
      }
    }

    method Clear()
      modifies this`knots
      ensures knots == []
    {
      knots := [];
    }
  }

  /**
   * A usage property, not an engine routine: a caller adding knots one after
   * another keeps every knot of the first knot's type.
   */
  method AddKnots(spline: Spline, newKnots: seq<Variant>)
    requires SameType(spline.knots)
    modifies spline`knots
    ensures SameType(spline.knots)
    ensures old(spline.knots) <= spline.knots
  {
    var i := 0;
    while i < |newKnots|
      invariant 0 <= i <= |newKnots|
      invariant SameType(spline.knots)
      invariant old(spline.knots) <= spline.knots
    {
      spline.AddKnot(newKnots[i]);
      i := i + 1;
    }
  }
}
