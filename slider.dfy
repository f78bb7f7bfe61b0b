/**
 * The slider: a range and a clamped value, a draggable knob, paging
 * requests when the bar beside the knob is pressed, and the events it sends
 * (value changed, paged) kept as a log.
 */
module Sliders {
  import opened Int32
  import opened MathDefs
  import opened UiElements
  import opened RangedValues

  datatype SliderEvent =
    | SliderChanged(value: real)
    | SliderPaged(offset: int, pressed: bool)

  datatype MouseButton = MOUSEB_LEFT | MOUSEB_MIDDLE | MOUSEB_RIGHT | MOUSEB_X1 | MOUSEB_X2

  /** A float result that may be "not a number". */
  datatype Float = Finite(value: real) | NaN

  /**
   * The value a drag to knob coordinate `coord` asks for: the coordinate's
   * share of the free `length` of the bar, scaled to the range.
   */
  function DragValue(coord: int, range: real, length: int): (r: real)
    requires length != 0
    ensures coord == 0 ==> r == 0.0
    ensures coord == length ==> r == range
    ensures 0 <= coord <= length && range >= 0.0 ==> 0.0 <= r <= range
  {
    if 0 <= coord <= length && range >= 0.0 then
      ShareOfRange(coord as real, length as real, range);
      coord as real * range / length as real
    else
      coord as real * range / length as real
  }

  /** A share `c / l` (at most one) of a non-negative range stays in [0, range]. */
  lemma {:induction false} ShareOfRange(c: real, l: real, range: real)
    requires 0.0 <= c <= l && l > 0.0 && range >= 0.0
    ensures 0.0 <= c * range / l <= range
  {
    var r := c * range / l;
    assert r * l == c * range;
    assert c * range <= l * range;
  }

  /**
   * The drag value as the float expression computes it: when the knob is as
   * long as the bar, the coordinate is clamped to 0 and the quotient is 0/0.
   */
  function DragValueAsWritten(coord: int, range: real, length: int): (r: Float)
    requires length == 0 ==> coord == 0
    ensures length == 0 ==> r == NaN
    ensures length != 0 ==> r == Finite(DragValue(coord, range, length))
  {
    if length == 0 then NaN else Finite(coord as real * range / length as real)
  }

  /**
   * A horizontal slider 100x20 with a fixed-size 100x10 knob passes the
   * drag guard (the sizes differ), and the drag value is 0/0.
   */
  lemma KnobFillingTheBarDividesByZero()
    ensures Point(100, 20) != Point(100, 10)
    ensures Clamp(37, 0, 100 - 100) == 0
    ensures DragValueAsWritten(Clamp(37, 0, 100 - 100), 1.0, 100 - 100) == NaN
  {
  }

  /**
   * The page offset of a press at `position`: its distance along the
   * orientation from the centre of the knob (half sizes truncate).
   */
  function PageOffset(orientation: Orientation, position: Point, knobPosition: Point, knobSize: Point): (r: int)
    requires knobSize.x >= 0 && knobSize.y >= 0
    ensures orientation == O_HORIZONTAL ==> position.x == knobPosition.x + knobSize.x / 2 + r
    ensures orientation == O_VERTICAL ==> position.y == knobPosition.y + knobSize.y / 2 + r
    ensures orientation == O_HORIZONTAL && position.x < knobPosition.x ==> r < 0
    ensures orientation == O_HORIZONTAL && position.x >= knobPosition.x + knobSize.x ==> r >= 0
    ensures orientation == O_VERTICAL && position.y < knobPosition.y ==> r < 0
    ensures orientation == O_VERTICAL && position.y >= knobPosition.y + knobSize.y ==> r >= 0
  {
    var offset := Point(position.x - knobPosition.x - knobSize.x / 2, position.y - knobPosition.y - knobSize.y / 2);
    if orientation == O_HORIZONTAL then offset.x else offset.y
  }

  class Slider {
    var orientation: Orientation
    var range: real
    var value: real
    var dragSlider: bool
    var repeatRate: real
    var position: Point
    var size: Point
    var enabled: bool
    var editable: bool
    var hovering: bool
    var selected: bool
    const knob: BorderImage
    var dragBeginCursor: Point
    var dragBeginPosition: Point
    /** The events sent, oldest first. */
    var events: seq<SliderEvent>
    /** How many times the knob layout has been refreshed. */
    var layoutPasses: nat

    /** The range is never negative and neither is the value; sizes are not negative. */
    ghost predicate Valid()
      reads this, knob
    {
      range >= 0.0 && value >= 0.0 && repeatRate >= 0.0
      && size.x >= 0 && size.y >= 0 && knob.size.x >= 0 && knob.size.y >= 0
    }

    constructor ()
      ensures Valid()
      ensures orientation == O_HORIZONTAL && range == 1.0 && value == 0.0 && !dragSlider && repeatRate == 0.0
      ensures enabled && editable && !hovering && !selected && size == ORIGIN && position == ORIGIN
      ensures knob.size == ORIGIN && knob.position == ORIGIN && !knob.fixedSize
      ensures events == [] && layoutPasses == 1 && fresh(knob)
    {
      orientation := O_HORIZONTAL;
      range := 1.0;
      value := 0.0;
      dragSlider := false;
      repeatRate := 0.0;
      position := ORIGIN;
      size := ORIGIN;
      enabled := true;
      editable := true;
      hovering := false;
      selected := false;
      knob := new BorderImage();
      dragBeginCursor := ORIGIN;
      dragBeginPosition := ORIGIN;
      events := [];
      layoutPasses := 0;
      new;
      UpdateSlider();
    }

    /**
     * Refresh the knob layout. With an empty range the knob covers the whole
     * slider (unless its size is fixed) at the origin; the sizing for a
     * positive range is not modelled and leaves the knob as it is.
     */
    method UpdateSlider()
      requires Valid()
      modifies this`layoutPasses, knob`size, knob`position
      ensures Valid()
      ensures layoutPasses == old(layoutPasses) + 1
      ensures range > 0.0 ==> knob.size == old(knob.size) && knob.position == old(knob.position)
      ensures range <= 0.0 ==> knob.size == (if knob.fixedSize then old(knob.size) else size)
                               && knob.position == ORIGIN
    {
      layoutPasses := layoutPasses + 1;
      if range <= 0.0 {
        knob.SetSize(size);
        knob.position := ORIGIN;
      }
    }

    /** Propagate hovering to the knob; a dragged slider counts as hovered. */
    method Update()
      modifies this`hovering, knob`hovering, knob`selected
      ensures hovering == (old(hovering) || dragSlider)
      ensures knob.hovering == hovering && knob.selected == hovering
    {
      if dragSlider {
        hovering := true;
      }
      knob.hovering := hovering;
      knob.selected := hovering;
    }

    /**
     * Start a drag with exactly the left button: remember the cursor and the
     * knob position, and drag the knob when the press is on it (`onKnob`).
     */
    method OnDragBegin(cursor: Point, buttons: set<MouseButton>, onKnob: bool)
      modifies this`dragBeginCursor, this`dragBeginPosition, this`dragSlider
      ensures buttons == {MOUSEB_LEFT} ==> dragBeginCursor == cursor && dragBeginPosition == knob.position
                                           && dragSlider == onKnob
      ensures buttons != {MOUSEB_LEFT} ==> dragBeginCursor == old(dragBeginCursor)
                                           && dragBeginPosition == old(dragBeginPosition) && dragSlider == old(dragSlider)
    {
      if buttons == {MOUSEB_LEFT} {
        dragBeginCursor := cursor;
        dragBeginPosition := knob.position;
        dragSlider := onKnob;
      }
    }

    /**
     * Move a dragged knob with the cursor: the knob coordinate along the
     * orientation is clamped into [0, slider length - knob length], the other
     * one is 0, and the value follows the knob's share of the free length.
     * When the knob is as long as the slider nothing is divided and the value
     * stays.
     */
    method OnDragMove(cursor: Point)
      requires Valid()
      modifies this`value, this`events, this`layoutPasses, knob`position, knob`size
      ensures Valid()
      ensures !editable || !dragSlider || size == old(knob.size) ==>
                value == old(value) && events == old(events) && knob.position == old(knob.position)
      ensures editable && dragSlider && size != old(knob.size) ==>
                var length := FreeLength(orientation, size, old(knob.size));
                var begin := if orientation == O_HORIZONTAL then dragBeginPosition.x + (cursor.x - dragBeginCursor.x)
                             else dragBeginPosition.y + (cursor.y - dragBeginCursor.y);
                var coord := Clamp(begin, 0, length);
                var dragged := if orientation == O_HORIZONTAL then Point(coord, 0) else Point(0, coord);
                if length == 0 then
                  value == old(value) && events == old(events) && knob.position == dragged
                else
                  var target := DragValue(coord, range, length);
                  value == StoredValue(target, range)
                  && events == old(events) + (if ValueChanges(old(value), target, range) then [SliderChanged(value)] else [])
                  && knob.position == (if ValueChanges(old(value), target, range) && range == 0.0 then ORIGIN else dragged)
    {
      if !editable || !dragSlider || size == knob.size {
        return;
      }
      var length := FreeLength(orientation, size, knob.size);
      var coord: int;
      if orientation == O_HORIZONTAL {
        coord := Clamp(dragBeginPosition.x + (cursor.x - dragBeginCursor.x), 0, length);
        knob.position := Point(coord, 0);
      } else {
        coord := Clamp(dragBeginPosition.y + (cursor.y - dragBeginCursor.y), 0, length);
        knob.position := Point(0, coord);
      }
      if length != 0 {
        SetValue(DragValue(coord, range, length));
      }
    }

    /** End a drag made with exactly the left button: stop dragging and deselect. */
    method OnDragEnd(dragButtons: set<MouseButton>)
      modifies this`dragSlider, this`selected
      ensures dragButtons == {MOUSEB_LEFT} ==> !dragSlider && !selected
      ensures dragButtons != {MOUSEB_LEFT} ==> dragSlider == old(dragSlider) && selected == old(selected)
    {
      if dragButtons == {MOUSEB_LEFT} {
        dragSlider := false;
        selected := false;
      }
    }

    method SetOrientation(newOrientation: Orientation)
      requires Valid()
      modifies this`orientation, this`layoutPasses, knob`size, knob`position
      ensures Valid()
      ensures orientation == newOrientation && layoutPasses == old(layoutPasses) + 1
    {
      orientation := newOrientation;
      UpdateSlider();
    }

    /** Resize the slider; the knob layout is refreshed when the size changes. */
    method SetSize(newSize: Point)
      requires Valid() && newSize.x >= 0 && newSize.y >= 0
      modifies this`size, this`layoutPasses, knob`size, knob`position
      ensures Valid()
      ensures size == newSize
      ensures layoutPasses == old(layoutPasses) + (if newSize != old(size) then 1 else 0)
    {
      if newSize != size {
        size := newSize;
        UpdateSlider();
      }
    }

    /** Store the range, never negative, refreshing only when it changes; the value is not re-clamped. */
    method SetRange(newRange: real)
      requires Valid()
      modifies this`range, this`layoutPasses, knob`size, knob`position
      ensures Valid()
      ensures range == StoredRange(newRange) && value == old(value)
      ensures layoutPasses == old(layoutPasses) + (if StoredRange(newRange) != old(range) then 1 else 0)
    {
      var r := StoredRange(newRange);
      if r != range {
        range := r;
        UpdateSlider();
      }
    }

    /**
     * Store the value clamped into [0, range]; a change refreshes the layout
     * and sends SliderChanged with the new value, and only a change does.
     */
    method SetValue(newValue: real)
      requires Valid()
      modifies this`value, this`events, this`layoutPasses, knob`size, knob`position
      ensures Valid()
      ensures value == StoredValue(newValue, range) && 0.0 <= value <= range
      ensures events == old(events) + (if ValueChanges(old(value), newValue, range) then [SliderChanged(value)] else [])
      ensures layoutPasses == old(layoutPasses) + (if ValueChanges(old(value), newValue, range) then 1 else 0)
      ensures knob.position == (if ValueChanges(old(value), newValue, range) && range == 0.0 then ORIGIN else old(knob.position))
    {
      var v := StoredValue(newValue, range);
      if v != value {
        value := v;
        UpdateSlider();
        events := events + [SliderChanged(value)];
      }
    }

    /** Exactly a `SetValue` of the current value plus `delta`. */
    method ChangeValue(delta: real)
      requires Valid()
      modifies this`value, this`events, this`layoutPasses, knob`size, knob`position
      ensures Valid()
      ensures value == StoredValue(old(value) + delta, range)
      ensures events == old(events) + (if ValueChanges(old(value), old(value) + delta, range) then [SliderChanged(value)] else [])
    {
      SetValue(value + delta);
    }

    method SetRepeatRate(rate: real)
      modifies this`repeatRate
      ensures repeatRate == MaxReal(rate, 0.0) && repeatRate >= 0.0
    {
      repeatRate := MaxReal(rate, 0.0);
    }

    /**
     * Page toward `cursor` when editable: send SliderPaged with the offset
     * from the knob centre, reporting the press only for a selected slider
     * with a positive repeat rate whose repeat timer is due (`timerDue`).
     */
    method Page(cursor: Point, pressed: bool, timerDue: bool)
      requires Valid()
      modifies this`events
      ensures !editable ==> events == old(events)
      ensures editable ==> events == old(events) + [SliderPaged(PageOffset(orientation, cursor, knob.position, knob.size),
                                                                selected && pressed && repeatRate > 0.0 && timerDue)]
    {
      if !editable {
        return;
      }
      var offset := PageOffset(orientation, cursor, knob.position, knob.size);
      var reported := pressed;
      if !(selected && pressed && repeatRate > 0.0 && timerDue) {
        reported := false;
      }
      events := events + [SliderPaged(offset, reported)];
    }
  }

  /** The free length of the bar along the orientation: slider length minus knob length. */
  function FreeLength(orientation: Orientation, size: Point, knobSize: Point): (r: int)
    ensures orientation == O_HORIZONTAL ==> size.x == knobSize.x + r
    ensures orientation == O_VERTICAL ==> size.y == knobSize.y + r
  {
    if orientation == O_HORIZONTAL then size.x - knobSize.x else size.y - knobSize.y
  }
}
