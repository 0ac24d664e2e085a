/** The progress bar of the UI kit: the width it draws, as a percentage. */
module ProgressBar {

  /** The default of the `max` property. */
  const DefaultMax: real := 100.0

  /** `x` clamped into the interval [0, 100]. */
  function ClampPercent(x: real): real
  {
    if x < 0.0 then 0.0 else if x > 100.0 then 100.0 else x
  }

  /**
   * `Math.min(Math.max((value / max) * 100, 0), 100)`. A zero `max` makes
   * JavaScript divide by zero (Infinity or NaN); that case is not modelled.
   */
  function Percentage(value: real, max: real): (p: real)
    requires max != 0.0
    ensures 0.0 <= p <= 100.0
    ensures max > 0.0 && 0.0 <= value <= max ==> p == value / max * 100.0
    ensures max > 0.0 && value <= 0.0 ==> p == 0.0
    ensures max > 0.0 && value >= max ==> p == 100.0
  {
    var raw := value / max * 100.0;
    assert max > 0.0 && value >= max ==> raw >= 100.0 by {
      if max > 0.0 && value >= max {
        var q := value / max;
        assert q * max == value;
        assert (q - 1.0) * max == value - max;
      }
    }
    var atLeastZero := if raw > 0.0 then raw else 0.0;
    if atLeastZero < 100.0 then atLeastZero else 100.0
  }

  /** For a fixed positive `max`, a larger value never draws a shorter bar. */
  lemma PercentageMonotone(v1: real, v2: real, max: real)
    requires max > 0.0 && v1 <= v2
    ensures Percentage(v1, max) <= Percentage(v2, max)
  {
    assert v2 / max - v1 / max == (v2 - v1) / max;
    assert (v2 - v1) / max >= 0.0;
  }

  /** With the default `max` of 100 the percentage is the value clamped to [0, 100]. */
  lemma DefaultMaxClamps(value: real)
    ensures Percentage(value, DefaultMax) == ClampPercent(value)
  {
    assert value / DefaultMax * 100.0 == value;
  }
}
