/**
 * The progress bar: a range and a clamped value like the slider's, a knob
 * that shows the progress, an optional percent text, and the change events
 * it sends kept as a log of values.
 */
module ProgressBars {
  import opened UiElements
  import opened RangedValues

  class ProgressBar {
    var orientation: Orientation
    var range: real
    var value: real
    var showPercentText: bool
    /** Whether the percent text child is visible. */
    var textVisible: bool
    var size: Point
    var enabled: bool
    var editable: bool
    var focus: bool
    const knob: BorderImage
    /** The values of the change events sent, oldest first. */
    var events: seq<real>
    /** How many times the bar has been refreshed. */
    var layoutPasses: nat

    ghost predicate Valid()
      reads this
    {
      range >= 0.0 && value >= 0.0
    }

    /** A new bar: range 1, value 0, percent text shown, neither enabled nor editable nor focused. */
    constructor ()
      ensures Valid()
      ensures orientation == O_HORIZONTAL && range == 1.0 && value == 0.0
      ensures showPercentText && textVisible && !enabled && !editable && !focus
      ensures size == ORIGIN && events == [] && layoutPasses == 1
      ensures knob.size == ORIGIN && knob.position == ORIGIN && !knob.fixedSize
    {
      orientation := O_HORIZONTAL;
      range := 1.0;
      value := 0.0;
      showPercentText := true;
      textVisible := true;
      size := ORIGIN;
      enabled := false;
      editable := false;
      focus := false;
      knob := new BorderImage();
      events := [];
      layoutPasses := 0;
      new;
      UpdateProgressBar();
    }

    /**
     * Refresh the bar. With an empty range the knob takes the whole element
     * size (unless its size is fixed) at the origin; the knob sizing and the
     * percent text for a positive range are not modelled.
     */
    method UpdateProgressBar()
      modifies this`layoutPasses, knob`size, knob`position
      ensures layoutPasses == old(layoutPasses) + 1
      ensures range > 0.0 ==> knob.size == old(knob.size) && knob.position == old(knob.position)
      ensures range <= 0.0 ==> knob.size == (if knob.fixedSize then old(knob.size) else size)
                               && knob.position == ORIGIN
    {
      layoutPasses := layoutPasses + 1;
      if range <= 0.0 {
        knob.SetSize(size);
        knob.position := ORIGIN;
      }
    }

    method SetOrientation(newOrientation: Orientation)
      modifies this`orientation, this`layoutPasses, knob`size, knob`position
      ensures orientation == newOrientation && layoutPasses == old(layoutPasses) + 1
    {
      orientation := newOrientation;
      UpdateProgressBar();
    }

    /** Store the range, never negative, refreshing only when it changes; the value is not re-clamped. */
    method SetRange(newRange: real)
      requires Valid()
      modifies this`range, this`layoutPasses, knob`size, knob`position
      ensures Valid()
      ensures range == StoredRange(newRange) && value == old(value)
      ensures layoutPasses == old(layoutPasses) + (if StoredRange(newRange) != old(range) then 1 else 0)
    {
      var r := StoredRange(newRange);
      if r != range {
        range := r;
        UpdateProgressBar();
      }
    }

    /**
     * Store the value clamped into [0, range]; a change refreshes the bar and
     * sends the change event with the new value, and only a change does.
     */
    method SetValue(newValue: real)
      requires Valid()
      modifies this`value, this`events, this`layoutPasses, knob`size, knob`position
      ensures Valid()
      ensures value == StoredValue(newValue, range) && 0.0 <= value <= range
      ensures events == old(events) + (if ValueChanges(old(value), newValue, range) then [value] else [])
      ensures layoutPasses == old(layoutPasses) + (if ValueChanges(old(value), newValue, range) then 1 else 0)
    {
      var v := StoredValue(newValue, range);
      if v != value {
        value := v;
        UpdateProgressBar();
        events := events + [value];
      }
    }

    /** Exactly a `SetValue` of the current value plus `delta`. */
    method ChangeValue(delta: real)
      requires Valid()
      modifies this`value, this`events, this`layoutPasses, knob`size, knob`position
      ensures Valid()
      ensures value == StoredValue(old(value) + delta, range)
      ensures events == old(events) + (if ValueChanges(old(value), old(value) + delta, range) then [value] else [])
    {
      SetValue(value + delta);
    }

    /** Show or hide the percent text. */
    method SetShowPercentText(enable: bool)
      modifies this`showPercentText, this`textVisible
      ensures showPercentText == enable && textVisible == enable
    {
      showPercentText := enable;
      textVisible := showPercentText;
    }
  }
}
