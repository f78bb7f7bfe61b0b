/**
 * The value state machine the slider and the progress bar share: the range
 * is never negative, a new value is clamped into [0, range], and a value
 * request changes anything (a layout pass and a change event) only when the
 * clamped value differs from the stored one.
 */
module RangedValues {
  import opened MathDefs
  import opened UiElements

  /** The range `SetRange(range)` stores. */
  function StoredRange(range: real): (r: real)
    ensures r >= 0.0
    ensures range >= 0.0 ==> r == range
    ensures range < 0.0 ==> r == 0.0
  {
    MaxReal(range, 0.0)
  }

  /** The value `SetValue(value)` stores under the current range. */
  function StoredValue(value: real, range: real): (r: real)
    ensures range >= 0.0 ==> 0.0 <= r <= range
    ensures 0.0 <= value <= range ==> r == value
    ensures value < 0.0 ==> r == 0.0
    ensures 0.0 <= range < value ==> r == range
  {
    ClampReal(value, 0.0, range)
  }

  /** Whether `SetValue(value)` changes the stored value `current`. */
  predicate ValueChanges(current: real, value: real, range: real) {
    StoredValue(value, range) != current
  }

  /** Requesting the value that was just stored changes nothing. */
  lemma {:induction false} SetValueIdempotent(value: real, range: real)
    requires range >= 0.0
    ensures !ValueChanges(StoredValue(value, range), StoredValue(value, range), range)
  {
  }

  /** A larger request never stores a smaller value. */
  lemma {:induction false} StoredValueMonotone(a: real, b: real, range: real)
    requires range >= 0.0 && a <= b
    ensures StoredValue(a, range) <= StoredValue(b, range)
  {
  }

  /**
   * Changing an in-range value by `delta` and then by `-delta` restores it
   * when the intermediate value stayed in range.
   */
  lemma {:induction false} ChangeValueRoundTrip(value: real, delta: real, range: real)
    requires 0.0 <= value <= range && 0.0 <= value + delta <= range
    ensures StoredValue(StoredValue(value + delta, range) - delta, range) == value
  {
  }
}
