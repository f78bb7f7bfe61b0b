/**
 * Level-of-detail selection for one patch of a heightmap terrain: choosing a
 * level from the per-level geometric errors, limiting it by the neighbouring
 * patches, and picking the geometry to draw.
 */
module TerrainPatches {
  import opened Wrappers

  /** Level 0 is the most detailed. `NINDEX` (-1) also asks for the main geometry. */
  const NINDEX: int := -1

  /** The screen-space error threshold (the engine's `1.0f / 150.0f`). */
  const LOD_CONSTANT: real := 1.0 / 150.0

  /**
   * Whether level error `err` seen at `lodDistance` is too coarse, i.e.
   * `err / lodDistance > LOD_CONSTANT` in floating point: dividing by a zero
   * distance gives +infinity for a positive error (which exceeds) and
   * -infinity or NaN otherwise (which does not).
   */
  predicate ExceedsThreshold(err: real, lodDistance: real)
  {
    if lodDistance == 0.0 then err > 0.0 else err / lodDistance > LOD_CONSTANT
  }

  /** The number of leading levels whose error stays within the threshold. */
  function PassingPrefix(lodErrors: seq<real>, lodDistance: real): (k: nat)
    ensures k <= |lodErrors|
    ensures forall j :: 0 <= j < k ==> !ExceedsThreshold(lodErrors[j], lodDistance)
    ensures k < |lodErrors| ==> ExceedsThreshold(lodErrors[k], lodDistance)
  {
    if lodErrors == [] || ExceedsThreshold(lodErrors[0], lodDistance) then 0
    else 1 + PassingPrefix(lodErrors[1..], lodDistance)
  }

  /** The pieces of geometry a patch owns. */
  datatype GeometryRef = MainGeometry | MaxLodGeometry | OcclusionGeometry

  /** A material as far as occlusion goes. */
  datatype Material = Material(occlusion: bool)

  /**
   * The selection loop of the batch update: the last level before the first
   * one whose error exceeds the threshold, and 0 when there is none.
   */
  method SelectLodLevel(lodErrors: seq<real>, lodDistance: real) returns (newLodLevel: nat)
    ensures var k := PassingPrefix(lodErrors, lodDistance); newLodLevel == if k == 0 then 0 else k - 1
    ensures newLodLevel > 0 ==>
              newLodLevel < |lodErrors| && forall j :: 0 <= j <= newLodLevel ==> !ExceedsThreshold(lodErrors[j], lodDistance)
    ensures newLodLevel + 1 < |lodErrors| ==>
              ExceedsThreshold(lodErrors[newLodLevel + 1], lodDistance) || ExceedsThreshold(lodErrors[0], lodDistance)
  {
    newLodLevel := 0;
    var i := 0;
    while i < |lodErrors|
      invariant 0 <= i <= |lodErrors|
      invariant forall j :: 0 <= j < i ==> !ExceedsThreshold(lodErrors[j], lodDistance)
      invariant newLodLevel == if i == 0 then 0 else i - 1
    {
      if ExceedsThreshold(lodErrors[i], lodDistance) {
        break;
      }
      newLodLevel := i;
      i := i + 1;
    }
    PassingPrefixIsFirstFailure(lodErrors, lodDistance, i);
  }

  /** The passing prefix ends exactly at the first level that exceeds the threshold. */
  lemma PassingPrefixIsFirstFailure(lodErrors: seq<real>, lodDistance: real, i: nat)
    requires i <= |lodErrors|
    requires forall j :: 0 <= j < i ==> !ExceedsThreshold(lodErrors[j], lodDistance)
    requires i < |lodErrors| ==> ExceedsThreshold(lodErrors[i], lodDistance)
    ensures PassingPrefix(lodErrors, lodDistance) == i
  {
  }

  /** A level lowered to an optional bound: `Min(level, bound)`, or the level when there is no bound. */
  function LimitBy(level: nat, bound: Option<nat>): nat
  {
    if bound.Some? && bound.value < level then bound.value else level
  }

  /**
   * The corrected level: `level` limited by the north, south, west and east
   * bounds in turn.
   */
  function Corrected(level: nat, n: Option<nat>, s: Option<nat>, w: Option<nat>, e: Option<nat>): nat
  {
    LimitBy(LimitBy(LimitBy(LimitBy(level, n), s), w), e)
  }

  /**
   * The corrected level is the minimum of the level and the present bounds:
   * at most each of them and equal to one of them.
   */
  lemma {:induction false} CorrectedIsMinimum(level: nat, n: Option<nat>, s: Option<nat>, w: Option<nat>, e: Option<nat>)
    ensures var r := Corrected(level, n, s, w, e);
            r <= level
            && (n.Some? ==> r <= n.value) && (s.Some? ==> r <= s.value)
            && (w.Some? ==> r <= w.value) && (e.Some? ==> r <= e.value)
            && (r == level || (n.Some? && r == n.value) || (s.Some? && r == s.value)
                || (w.Some? && r == w.value) || (e.Some? && r == e.value))
  {
    var r1 := LimitBy(level, n);
    var r2 := LimitBy(r1, s);
    var r3 := LimitBy(r2, w);
    assert r1 <= level && (n.Some? ==> r1 <= n.value);
    assert r2 <= r1 && (s.Some? ==> r2 <= s.value);
    assert r3 <= r2 && (w.Some? ==> r3 <= w.value);
  }

  class TerrainPatch {
    var lodLevel: nat
    var north: TerrainPatch?
    var south: TerrainPatch?
    var west: TerrainPatch?
    var east: TerrainPatch?
    var lodErrors: seq<real>
    var lodDistance: real
    /** The material of the patch's only batch, if any. */
    var material: Option<Material>
    /** The index count of the occlusion geometry. */
    var occlusionIndexCount: nat

    constructor ()
      ensures lodLevel == 0 && north == null && south == null && west == null && east == null
      ensures lodErrors == [] && material == None && occlusionIndexCount == 0
    {
      lodLevel := 0;
      north, south, west, east := null, null, null, null;
      lodErrors := [];
      lodDistance := 0.0;
      material := None;
      occlusionIndexCount := 0;
    }

    /** `GetLodLevel() + 1` of a neighbour, or no bound for a missing one. */
    function NeighbourBound(p: TerrainPatch?): (b: Option<nat>)
      reads p
      ensures b.Some? <==> p != null
    {
      if p == null then None else Some(p.lodLevel + 1)
    }

    /**
     * Limits a level so that it is at most one coarser than each existing
     * neighbour (north, south, west, east in turn): the minimum of the level
     * and every neighbour's level plus one.
     */
    method GetCorrectedLodLevel(level: nat) returns (r: nat)
      ensures r <= level
      ensures north != null ==> r <= north.lodLevel + 1
      ensures south != null ==> r <= south.lodLevel + 1
      ensures west != null ==> r <= west.lodLevel + 1
      ensures east != null ==> r <= east.lodLevel + 1
      ensures r == level || (north != null && r == north.lodLevel + 1) || (south != null && r == south.lodLevel + 1)
        || (west != null && r == west.lodLevel + 1) || (east != null && r == east.lodLevel + 1)
      ensures north == null && south == null && west == null && east == null ==> r == level
      ensures r == Corrected(level, NeighbourBound(north), NeighbourBound(south), NeighbourBound(west), NeighbourBound(east))
    {
      r := level;
      if north != null {
        r := if r < north.lodLevel + 1 then r else north.lodLevel + 1;
      }
      if south != null {
        r := if r < south.lodLevel + 1 then r else south.lodLevel + 1;
      }
      if west != null {
        r := if r < west.lodLevel + 1 then r else west.lodLevel + 1;
      }
      if east != null {
        r := if r < east.lodLevel + 1 then r else east.lodLevel + 1;
      }
    }

    /**
     * The LOD part of the batch update: store the view distance, select a
     * level from the errors and store its corrected form.
     */
    method UpdateLod(newLodDistance: real)
      modifies this
      ensures lodDistance == newLodDistance
      ensures north == old(north) && south == old(south) && west == old(west) && east == old(east)
      ensures lodErrors == old(lodErrors) && material == old(material)
      ensures occlusionIndexCount == old(occlusionIndexCount)
      ensures var k := PassingPrefix(lodErrors, newLodDistance); var selected := if k == 0 then 0 else k - 1;
        lodLevel == Corrected(selected, old(NeighbourBound(north)), old(NeighbourBound(south)),
                              old(NeighbourBound(west)), old(NeighbourBound(east)))
      ensures var k := PassingPrefix(lodErrors, newLodDistance); var selected := if k == 0 then 0 else k - 1;
        lodLevel <= selected
        && (north != null && north != this ==> lodLevel <= north.lodLevel + 1)
        && (south != null && south != this ==> lodLevel <= south.lodLevel + 1)
        && (west != null && west != this ==> lodLevel <= west.lodLevel + 1)
        && (east != null && east != this ==> lodLevel <= east.lodLevel + 1)
    {
      ghost var n, s, w, e := NeighbourBound(north), NeighbourBound(south), NeighbourBound(west), NeighbourBound(east);
      var newLodLevel := SelectLodLevel(lodErrors, newLodDistance);
      var corrected := GetCorrectedLodLevel(newLodLevel);
      assert corrected == Corrected(newLodLevel, n, s, w, e);
      lodDistance, lodLevel := newLodDistance, corrected;
    }

    /** The geometry for a level: the max-LOD geometry at level 0, the main geometry otherwise. */
    function GetLodGeometry(batchIndex: int, level: int): (g: GeometryRef)
      requires batchIndex >= 0
      requires level >= 0 || level == NINDEX
      ensures g == MaxLodGeometry <==> level == 0
      ensures g == MainGeometry <==> level != 0
    {
      if level == 0 then MaxLodGeometry else MainGeometry
    }

    /**
     * Triangles offered to the occlusion buffer: none when the material is
     * unsuitable for occlusion, else a third of the occlusion index count.
     */
    function GetNumOccluderTriangles(): (n: nat)
      reads this
      ensures material.Some? && !material.value.occlusion ==> n == 0
      ensures !(material.Some? && !material.value.occlusion) ==> 3 * n <= occlusionIndexCount < 3 * n + 3
    {
      if material.Some? && !material.value.occlusion then 0 else occlusionIndexCount / 3
    }

    method SetNeighbors(newNorth: TerrainPatch?, newSouth: TerrainPatch?, newWest: TerrainPatch?, newEast: TerrainPatch?)
      modifies this
      ensures north == newNorth && south == newSouth && west == newWest && east == newEast
      ensures lodLevel == old(lodLevel) && lodErrors == old(lodErrors) && lodDistance == old(lodDistance)
      ensures material == old(material) && occlusionIndexCount == old(occlusionIndexCount)
    {
      north, south, west, east := newNorth, newSouth, newWest, newEast;
    }

    method ResetLod()
      modifies this`lodLevel
      ensures lodLevel == 0
    {
      lodLevel := 0;
    }
  }
}
