/** The smoothing-type flags of a network transform-smoothing component. */
module SmoothedTransforms {
  type SmoothingTypeFlags = bv32

  const SMOOTH_NONE: SmoothingTypeFlags := 0
  const SMOOTH_POSITION: SmoothingTypeFlags := 1
  const SMOOTH_ROTATION: SmoothingTypeFlags := 2

  lemma FlagBitsDisjoint()
    ensures SMOOTH_POSITION & SMOOTH_ROTATION == SMOOTH_NONE
    ensures SMOOTH_POSITION != SMOOTH_NONE && SMOOTH_ROTATION != SMOOTH_NONE
  {
  }

  /** The component's state as far as the flags go: which smoothing is ongoing. */
  datatype SmoothedTransform = SmoothedTransform(smoothingMask: SmoothingTypeFlags)
  {
    /** Whether smoothing is in progress: some smoothing bit is still set. */
    predicate IsInProgress()
      ensures smoothingMask & SMOOTH_POSITION != 0 ==> IsInProgress()
      ensures smoothingMask & SMOOTH_ROTATION != 0 ==> IsInProgress()
      ensures smoothingMask == SMOOTH_NONE ==> !IsInProgress()
    {
      smoothingMask != SMOOTH_NONE
    }
  }

  /** Over the two defined flags, smoothing is in progress iff one of them is set. */
  lemma InProgressOverDefinedFlags(position: bool, rotation: bool)
    ensures var mask := (if position then SMOOTH_POSITION else SMOOTH_NONE) | (if rotation then SMOOTH_ROTATION else SMOOTH_NONE);
      SmoothedTransform(mask).IsInProgress() <==> position || rotation
  {
  }
}
