/// The rotary knob's unit conversion: a drag rotation in degrees becomes a
/// normalised position in [0, 1], clamped, and then a value between the knob's
/// bounds; the value converts back to the rotation the knob is drawn at.
/// Rounding through a fixed number of decimals is not modelled.
module KnobMapping {

  /** The drag bounds, in degrees. */
  const MinRotation: real := -150.0
  const MaxRotation: real := 150.0

  /** The distance between the bounds, taken as an absolute value. */
  function Range(minValue: real, maxValue: real): (r: real)
    ensures r >= 0.0
    ensures r == maxValue - minValue || r == minValue - maxValue
    ensures r == 0.0 <==> minValue == maxValue
  {
    if minValue - maxValue < 0.0 then maxValue - minValue else minValue - maxValue
  }

  /** The normalised position for a rotation: rotation/300 + 1/2, clamped into [0, 1]. */
  function Position(rotation: real): (p: real)
    ensures 0.0 <= p <= 1.0
    ensures MinRotation <= rotation <= MaxRotation ==> p == rotation / 300.0 + 0.5
    ensures rotation <= MinRotation ==> p == 0.0
    ensures rotation >= MaxRotation ==> p == 1.0
  {
    var p := rotation / 300.0 + 0.5;
    if p <= 0.0 then 0.0 else if p >= 1.0 then 1.0 else p
  }

  /** The value a rotation selects. */
  function ValueAt(rotation: real, minValue: real, maxValue: real): (v: real)
    ensures rotation <= MinRotation ==> v == minValue
    ensures rotation >= MaxRotation ==> v == minValue + Range(minValue, maxValue)
  {
    Position(rotation) * Range(minValue, maxValue) + minValue
  }

  /** The rotation a value is drawn at; the bounds must differ (otherwise the
      source divides by zero). */
  function RotationAt(value: real, minValue: real, maxValue: real): (r: real)
    requires minValue != maxValue
    ensures value == minValue ==> r == MinRotation
    ensures value == minValue + Range(minValue, maxValue) ==> r == MaxRotation
  {
    var range := Range(minValue, maxValue);
    assert value == minValue + range ==> (value - minValue) / range == 1.0;
    ((value - minValue) / Range(minValue, maxValue) - 0.5) * 300.0
  }

  /** Moving a fraction of the way from lo to hi stays between them. */
  lemma Interpolate(lo: real, hi: real, k: real)
    requires lo <= hi && 0.0 <= k <= 1.0
    ensures lo <= k * (hi - lo) + lo <= hi
  {
    var d := hi - lo;
    assert (1.0 - k) * d == d - k * d;
    ProductNonNegative(k, d);
    ProductNonNegative(1.0 - k, d);
  }

  lemma ProductNonNegative(a: real, b: real)
    requires 0.0 <= a && 0.0 <= b
    ensures 0.0 <= a * b
  {
  }

  /** With ordered bounds every rotation selects a value between them. */
  lemma ValueWithinBounds(rotation: real, minValue: real, maxValue: real)
    requires minValue <= maxValue
    ensures minValue <= ValueAt(rotation, minValue, maxValue) <= maxValue
  {
    assert Range(minValue, maxValue) == maxValue - minValue;
    Interpolate(minValue, maxValue, Position(rotation));
  }

  /** The two drag bounds select exactly the two value bounds. */
  lemma DragBoundsReachBounds(minValue: real, maxValue: real)
    requires minValue <= maxValue
    ensures ValueAt(MinRotation, minValue, maxValue) == minValue
    ensures ValueAt(MaxRotation, minValue, maxValue) == maxValue
  {
  }

  /** A value between the bounds is drawn within the drag bounds. */
  lemma RotationWithinBounds(value: real, minValue: real, maxValue: real)
    requires minValue < maxValue && minValue <= value <= maxValue
    ensures MinRotation <= RotationAt(value, minValue, maxValue) <= MaxRotation
  {
    var range := maxValue - minValue;
    var k := (value - minValue) / range;
    assert k * range == value - minValue;
    assert 0.0 <= k <= 1.0;
  }

  /** Drawing the value a rotation selects gives back that rotation, for every rotation
      within the drag bounds and bounds in either order. */
  lemma RotationRoundTrip(rotation: real, minValue: real, maxValue: real)
    requires MinRotation <= rotation <= MaxRotation && minValue != maxValue
    ensures RotationAt(ValueAt(rotation, minValue, maxValue), minValue, maxValue) == rotation
  {
    var range := Range(minValue, maxValue);
    var p := Position(rotation);
    assert ValueAt(rotation, minValue, maxValue) - minValue == p * range;
    assert (p * range) / range == p;
  }

  /** Selecting the rotation a value is drawn at gives back that value, for every value
      between ordered bounds. */
  lemma ValueRoundTrip(value: real, minValue: real, maxValue: real)
    requires minValue < maxValue && minValue <= value <= maxValue
    ensures ValueAt(RotationAt(value, minValue, maxValue), minValue, maxValue) == value
  {
    RotationWithinBounds(value, minValue, maxValue);
    var range := maxValue - minValue;
    var r := RotationAt(value, minValue, maxValue);
    assert Position(r) == (value - minValue) / range;
    assert ((value - minValue) / range) * range == value - minValue;
  }

  /** A knob: fixed bounds and the value it shows. */
  class Knob {
    const minValue: real
    const maxValue: real
    var value: real

    constructor (initialValue: real, minValue: real, maxValue: real)
      ensures this.minValue == minValue && this.maxValue == maxValue && value == initialValue
    {
      this.minValue := minValue;
      this.maxValue := maxValue;
      value := initialValue;
    }

    /** The drag handler: normalises and clamps the rotation, stores the new value and
        returns it for the change callback. */
    method CalculateValue(rotation: real) returns (emitted: real)
      modifies this
      ensures value == emitted && emitted == ValueAt(rotation, minValue, maxValue)
      ensures minValue <= maxValue ==> minValue <= emitted <= maxValue
    {
      var position := rotation / 300.0 + 0.5;
      if position <= 0.0 {
        position := 0.0;
      }
      if position >= 1.0 {
        position := 1.0;
      }
      var newValue := position * Range(minValue, maxValue) + minValue;
      value := newValue;
      emitted := newValue;
      if minValue <= maxValue {
        ValueWithinBounds(rotation, minValue, maxValue);
      }
    }
  }
}
