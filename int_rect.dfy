/** Integer rectangles, as left, top, right and bottom edges. */
module IntRects {
  datatype IntRect = IntRect(left: int, top: int, right: int, bottom: int)
  {
    function Width(): int { right - left }
    function Height(): int { bottom - top }
  }

  const ZERO := IntRect(0, 0, 0, 0)
}
