/**
 * Pieces the slider, the progress bar and the scroll bar share: the
 * orientation, element positions and sizes, and the knob child (a border
 * image) whose size and position they lay out.
 */
module UiElements {
  import opened IntRects

  datatype Orientation = O_HORIZONTAL | O_VERTICAL

  /** An element position or size in pixels; coordinates are unbounded integers. */
  datatype Point = Point(x: int, y: int)

  const ORIGIN: Point := Point(0, 0)

  /**
   * The knob child. Its size constraints are reduced to one flag: a knob
   * with a fixed size keeps its size when asked for another one.
   */
  class BorderImage {
    var position: Point
    var size: Point
    var border: IntRect
    var hovering: bool
    var selected: bool
    var fixedSize: bool

    constructor ()
      ensures position == ORIGIN && size == ORIGIN && border == ZERO
      ensures !hovering && !selected && !fixedSize
    {
      position := ORIGIN;
      size := ORIGIN;
      border := ZERO;
      hovering := false;
      selected := false;
      fixedSize := false;
    }

    /** Resize the knob, unless its size is fixed. */
    method SetSize(newSize: Point)
      modifies this`size
      ensures size == (if fixedSize then old(size) else newSize)
    {
      if !fixedSize {
        size := newSize;
      }
    }
  }
}
