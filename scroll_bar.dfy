/**
 * The scroll bar: a slider between a back and a forward button, laid out in
 * a row or a column, stepping the slider's value by the effective scroll
 * step when a button is pressed and forwarding the slider's change events.
 */
module ScrollBars {
  import opened Int32
  import opened IntRects
  import opened MathDefs
  import opened UiElements
  import opened RangedValues
  import opened Sliders

  const DEFAULT_SCROLL_STEP: real := 0.1
  const DEFAULT_REPEAT_DELAY: real := 0.4
  const DEFAULT_REPEAT_RATE: real := 20.0
  /** The smallest step factor. */
  const M_EPSILON: real := 0.000001

  datatype ScrollBarEvent = ScrollBarChanged(value: real)

  /** Position and size of the three children. */
  datatype Layout = Layout(backPosition: Point, backSize: Point,
                           sliderPosition: Point, sliderSize: Point,
                           forwardPosition: Point, forwardSize: Point)

  /**
   * The children's layout after a resize to `newSize`; `width` and `height`
   * are the bar's current ones.
   */
  function LayoutFor(orientation: Orientation, width: int, height: int, newSize: Point): Layout
  {
    if orientation == O_HORIZONTAL then
      var h := newSize.y;
      var sliderWidth := Max(width - 2 * h, 0);
      Layout(ORIGIN, Point(h, h), Point(h, 0), Point(sliderWidth, h), Point(h + sliderWidth, 0), Point(h, h))
    else
      var w := newSize.x;
      var sliderHeight := Max(height - 2 * w, 0);
      Layout(ORIGIN, Point(w, w), Point(0, w), Point(w, sliderHeight), Point(0, sliderHeight + w), Point(w, w))
  }

  /**
   * Horizontally: square buttons as high as the bar at both ends of the row
   * and the slider, never negative in width, between them; the row spans the
   * bar's width unless that is under two buttons, when the slider has no
   * width. Vertically the same, transposed.
   */
  lemma {:induction false} LayoutShape(orientation: Orientation, width: int, height: int, newSize: Point)
    ensures orientation == O_HORIZONTAL ==>
              var r := LayoutFor(orientation, width, height, newSize);
              var h := newSize.y;
              r.backPosition == ORIGIN && r.backSize == Point(h, h) && r.forwardSize == Point(h, h)
              && r.sliderPosition == Point(h, 0) && r.sliderSize.y == h && r.sliderSize.x >= 0
              && r.forwardPosition == Point(r.sliderPosition.x + r.sliderSize.x, 0)
              && (width >= 2 * h ==> r.forwardPosition.x + h == width)
              && (width < 2 * h ==> r.sliderSize.x == 0)
    ensures orientation == O_VERTICAL ==>
              var r := LayoutFor(orientation, width, height, newSize);
              var w := newSize.x;
              r.backPosition == ORIGIN && r.backSize == Point(w, w) && r.forwardSize == Point(w, w)
              && r.sliderPosition == Point(0, w) && r.sliderSize.x == w && r.sliderSize.y >= 0
              && r.forwardPosition == Point(0, r.sliderPosition.y + r.sliderSize.y)
              && (height >= 2 * w ==> r.forwardPosition.y + w == height)
              && (height < 2 * w ==> r.sliderSize.y == 0)
  {
  }

  /**
   * When the bar is at least two buttons long, the three children tile it:
   * each starts where the previous one ends and together they span it exactly.
   */
  lemma {:induction false} LayoutTiles(orientation: Orientation, size: Point)
    requires size.x >= 0 && size.y >= 0
    requires orientation == O_HORIZONTAL ==> size.x >= 2 * size.y
    requires orientation == O_VERTICAL ==> size.y >= 2 * size.x
    ensures var r := LayoutFor(orientation, size.x, size.y, size);
            var along := (p: Point) => if orientation == O_HORIZONTAL then p.x else p.y;
            along(r.backPosition) == 0
            && along(r.sliderPosition) == along(r.backPosition) + along(r.backSize)
            && along(r.forwardPosition) == along(r.sliderPosition) + along(r.sliderSize)
            && along(r.forwardPosition) + along(r.forwardSize) == along(size)
  {
  }

  /** The image rects the two buttons show: left/right when horizontal, up/down when vertical. */
  function ButtonRects(orientation: Orientation, left: IntRect, right: IntRect, up: IntRect, down: IntRect): (r: (IntRect, IntRect))
    ensures orientation == O_HORIZONTAL ==> r == (left, right)
    ensures orientation == O_VERTICAL ==> r == (up, down)
  {
    if orientation == O_HORIZONTAL then (left, right) else (up, down)
  }

  /** A back or forward button, reduced to its layout, image rect and repeat settings. */
  class Button {
    var position: Point
    var size: Point
    var imageRect: IntRect
    var repeatDelay: real
    var repeatRate: real

    constructor (delay: real, rate: real)
      ensures position == ORIGIN && size == ORIGIN && imageRect == ZERO
      ensures repeatDelay == delay && repeatRate == rate
    {
      position := ORIGIN;
      size := ORIGIN;
      imageRect := ZERO;
      repeatDelay := delay;
      repeatRate := rate;
    }
  }

  class ScrollBar {
    var scrollStep: real
    var stepFactor: real
    var leftRect: IntRect
    var rightRect: IntRect
    var upRect: IntRect
    var downRect: IntRect
    var size: Point
    var enabled: bool
    var editable: bool
    const backButton: Button
    const slider: Slider
    const forwardButton: Button
    /** The events sent, oldest first. */
    var events: seq<ScrollBarEvent>

    ghost predicate Valid()
      reads this
    {
      backButton != forwardButton
      && scrollStep >= 0.0 && stepFactor > 0.0 && size.x >= 0 && size.y >= 0
    }

    /**
     * A new bar: default step and factor 1, zero image rects, buttons that
     * repeat after 0.4 s at 20 per second, a slider repeating at 20 per
     * second, and the horizontal layout.
     */
    constructor ()
      ensures Valid() && slider.Valid()
      ensures scrollStep == DEFAULT_SCROLL_STEP && stepFactor == 1.0 && enabled && editable
      ensures leftRect == ZERO && rightRect == ZERO && upRect == ZERO && downRect == ZERO
      ensures slider.orientation == O_HORIZONTAL && slider.range == 1.0 && slider.value == 0.0
      ensures slider.repeatRate == DEFAULT_REPEAT_RATE
      ensures backButton.repeatDelay == DEFAULT_REPEAT_DELAY && backButton.repeatRate == DEFAULT_REPEAT_RATE
      ensures forwardButton.repeatDelay == DEFAULT_REPEAT_DELAY && forwardButton.repeatRate == DEFAULT_REPEAT_RATE
      ensures size == ORIGIN && backButton.position == ORIGIN && backButton.size == ORIGIN
              && slider.position == ORIGIN && slider.size == ORIGIN
              && forwardButton.position == ORIGIN && forwardButton.size == ORIGIN
      ensures events == []
    {
      var back := new Button(DEFAULT_REPEAT_DELAY, DEFAULT_REPEAT_RATE);
      var bar := new Slider();
      bar.SetRepeatRate(DEFAULT_REPEAT_RATE);
      var forward := new Button(DEFAULT_REPEAT_DELAY, DEFAULT_REPEAT_RATE);
      bar.SetOrientation(O_HORIZONTAL);
      back.imageRect := ZERO;
      forward.imageRect := ZERO;
      scrollStep := DEFAULT_SCROLL_STEP;
      stepFactor := 1.0;
      leftRect := ZERO;
      rightRect := ZERO;
      upRect := ZERO;
      downRect := ZERO;
      size := ORIGIN;
      enabled := true;
      editable := true;
      backButton := back;
      slider := bar;
      forwardButton := forward;
      events := [];
      // The layout for the initial zero size leaves every child at the origin with zero size.
    }

    /** Lay out the children for the new size along the slider's orientation. */
    method OnResize(newSize: Point)
      requires Valid() && slider.Valid() && newSize.x >= 0 && newSize.y >= 0
      modifies backButton`position, backButton`size, forwardButton`position, forwardButton`size, slider`size, slider`position, slider`layoutPasses, slider.knob`size, slider.knob`position
      ensures Valid() && slider.Valid()
      ensures var l := LayoutFor(slider.orientation, size.x, size.y, newSize);
              backButton.position == l.backPosition && backButton.size == l.backSize
              && slider.position == l.sliderPosition && slider.size == l.sliderSize
              && forwardButton.position == l.forwardPosition && forwardButton.size == l.forwardSize
      ensures slider.value == old(slider.value) && slider.range == old(slider.range) && slider.events == old(slider.events)
    {
      var layout := LayoutFor(slider.orientation, size.x, size.y, newSize);
      backButton.size := layout.backSize;
      slider.SetSize(layout.sliderSize);
      forwardButton.size := layout.forwardSize;
      backButton.position := layout.backPosition;
      slider.position := layout.sliderPosition;
      forwardButton.position := layout.forwardPosition;
    }

    /** Orient the slider, give the buttons the matching image rects and lay out again. */
    method SetOrientation(orientation: Orientation)
      requires Valid() && slider.Valid()
      modifies backButton, forwardButton, slider`orientation, slider`size, slider`position, slider`layoutPasses,
               slider.knob`size, slider.knob`position
      ensures Valid() && slider.Valid()
      ensures slider.orientation == orientation
      ensures (backButton.imageRect, forwardButton.imageRect) == ButtonRects(orientation, leftRect, rightRect, upRect, downRect)
      ensures var l := LayoutFor(orientation, size.x, size.y, size);
              backButton.position == l.backPosition && backButton.size == l.backSize
              && slider.position == l.sliderPosition && slider.size == l.sliderSize
              && forwardButton.position == l.forwardPosition && forwardButton.size == l.forwardSize
      ensures slider.value == old(slider.value) && slider.range == old(slider.range) && slider.events == old(slider.events)
    {
      slider.SetOrientation(orientation);
      var rects := ButtonRects(orientation, leftRect, rightRect, upRect, downRect);
      backButton.imageRect := rects.0;
      forwardButton.imageRect := rects.1;
      OnResize(size);
    }

    method SetRange(range: real)
      requires Valid() && slider.Valid()
      modifies slider`range, slider`layoutPasses, slider.knob`size, slider.knob`position
      ensures Valid() && slider.Valid()
      ensures slider.range == StoredRange(range) && slider.value == old(slider.value)
    {
      slider.SetRange(range);
    }

    /** Set the slider's value; a change is forwarded as ScrollBarChanged with the new value. */
    method SetValue(value: real)
      requires Valid() && slider.Valid()
      modifies this`events, slider`value, slider`events, slider`layoutPasses, slider.knob`size, slider.knob`position
      ensures Valid() && slider.Valid()
      ensures slider.value == StoredValue(value, slider.range)
      ensures events == old(events) + (if ValueChanges(old(slider.value), value, slider.range)
                                       then [ScrollBarChanged(slider.value)] else [])
    {
      var sent := |slider.events|;
      slider.SetValue(value);
      if |slider.events| > sent {
        HandleSliderChanged();
      }
    }

    method ChangeValue(delta: real)
      requires Valid() && slider.Valid()
      modifies this`events, slider`value, slider`events, slider`layoutPasses, slider.knob`size, slider.knob`position
      ensures Valid() && slider.Valid()
      ensures slider.value == StoredValue(old(slider.value) + delta, slider.range)
      ensures events == old(events) + (if ValueChanges(old(slider.value), old(slider.value) + delta, slider.range)
                                       then [ScrollBarChanged(slider.value)] else [])
    {
      SetValue(slider.value + delta);
    }

    /** Forward a change of the slider's value. */
    method HandleSliderChanged()
      modifies this`events
      ensures events == old(events) + [ScrollBarChanged(slider.value)]
    {
      events := events + [ScrollBarChanged(slider.value)];
    }

    method SetScrollStep(step: real)
      requires Valid() && slider.Valid()
      modifies this`scrollStep
      ensures Valid() && slider.Valid()
      ensures scrollStep == MaxReal(step, 0.0)
    {
      scrollStep := MaxReal(step, 0.0);
    }

    method SetStepFactor(factor: real)
      requires Valid() && slider.Valid()
      modifies this`stepFactor
      ensures Valid() && slider.Valid()
      ensures stepFactor == MaxReal(factor, M_EPSILON)
    {
      stepFactor := MaxReal(factor, M_EPSILON);
    }

    /** The step the buttons move the value by: the scroll step scaled by the step factor. */
    function EffectiveScrollStep(): (r: real)
      reads this
      ensures scrollStep >= 0.0 && stepFactor > 0.0 ==> r >= 0.0
      ensures scrollStep > 0.0 && stepFactor > 0.0 ==> r > 0.0
      ensures stepFactor == 1.0 ==> r == scrollStep
    {
      scrollStep * stepFactor
    }

    /** Move the value back by the effective step, within the slider's clamp. */
    method StepBack()
      requires Valid() && slider.Valid()
      modifies this`events, slider`value, slider`events, slider`layoutPasses, slider.knob`size, slider.knob`position
      ensures Valid() && slider.Valid()
      ensures slider.value == StoredValue(old(slider.value) - EffectiveScrollStep(), slider.range)
      ensures slider.value <= old(slider.value) || old(slider.value) > slider.range
      ensures events == old(events) + (if ValueChanges(old(slider.value), old(slider.value) - EffectiveScrollStep(), slider.range)
                                       then [ScrollBarChanged(slider.value)] else [])
    {
      SetValue(slider.value - EffectiveScrollStep());
    }

    /** Move the value forward by the effective step, within the slider's clamp. */
    method StepForward()
      requires Valid() && slider.Valid()
      modifies this`events, slider`value, slider`events, slider`layoutPasses, slider.knob`size, slider.knob`position
      ensures Valid() && slider.Valid()
      ensures slider.value == StoredValue(old(slider.value) + EffectiveScrollStep(), slider.range)
      ensures slider.value >= old(slider.value) || old(slider.value) > slider.range
      ensures events == old(events) + (if ValueChanges(old(slider.value), old(slider.value) + EffectiveScrollStep(), slider.range)
                                       then [ScrollBarChanged(slider.value)] else [])
    {
      SetValue(slider.value + EffectiveScrollStep());
    }

    /** A press of the back button steps back, only when the bar is editable. */
    method HandleBackButtonPressed()
      requires Valid() && slider.Valid()
      modifies this`events, slider`value, slider`events, slider`layoutPasses, slider.knob`size, slider.knob`position
      ensures Valid() && slider.Valid()
      ensures !editable ==> slider.value == old(slider.value) && events == old(events)
      ensures !editable ==> slider.events == old(slider.events) && slider.layoutPasses == old(slider.layoutPasses)
      ensures !editable ==> slider.knob.size == old(slider.knob.size) && slider.knob.position == old(slider.knob.position)
      ensures editable ==> slider.value == StoredValue(old(slider.value) - EffectiveScrollStep(), slider.range)
      ensures editable ==> slider.value <= old(slider.value) || old(slider.value) > slider.range
      ensures editable ==> events == old(events) + (if ValueChanges(old(slider.value), old(slider.value) - EffectiveScrollStep(), slider.range)
                                                    then [ScrollBarChanged(slider.value)] else [])
    {
      if editable {
        StepBack();
      }
    }

    /** A press of the forward button steps forward, only when the bar is editable. */
    method HandleForwardButtonPressed()
      requires Valid() && slider.Valid()
      modifies this`events, slider`value, slider`events, slider`layoutPasses, slider.knob`size, slider.knob`position
      ensures Valid() && slider.Valid()
      ensures !editable ==> slider.value == old(slider.value) && events == old(events)
      ensures !editable ==> slider.events == old(slider.events) && slider.layoutPasses == old(slider.layoutPasses)
      ensures !editable ==> slider.knob.size == old(slider.knob.size) && slider.knob.position == old(slider.knob.position)
      ensures editable ==> slider.value == StoredValue(old(slider.value) + EffectiveScrollStep(), slider.range)
      ensures editable ==> slider.value >= old(slider.value) || old(slider.value) > slider.range
      ensures editable ==> events == old(events) + (if ValueChanges(old(slider.value), old(slider.value) + EffectiveScrollStep(), slider.range)
                                                    then [ScrollBarChanged(slider.value)] else [])
    {
      if editable {
        StepForward();
      }
    }
  }
}
