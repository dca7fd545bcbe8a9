/**
 * Normalisation of the raw inputs: share percentages clamped to [0, 100]
 * and the headcount floored at one.
 */
module Inputs {
  import opened Wrappers

  /**
   * clampPercent, on an already parsed number: None stands for the NaN that
   * parsing yields on non-numeric text, which (like 0) becomes 0.
   */
  function ClampPercent(v: Option<real>): (r: real)
    ensures 0.0 <= r <= 100.0
    ensures v.None? ==> r == 0.0
    ensures v.Some? && 0.0 <= v.value <= 100.0 ==> r == v.value
    ensures v.Some? && v.value < 0.0 ==> r == 0.0
    ensures v.Some? && 100.0 < v.value ==> r == 100.0
  {
    var parsed := if v.Some? then v.value else 0.0;
    var floored := if parsed < 0.0 then 0.0 else parsed;
    if floored > 100.0 then 100.0 else floored
  }

  /** Clamping an already clamped share changes nothing. */
  lemma ClampPercentIdempotent(v: Option<real>)
    ensures ClampPercent(Some(ClampPercent(v))) == ClampPercent(v)
  {
  }

  /** The headcount used by the estimate: Math.max(1, headcount || 1). */
  function Head(headcount: int): (h: int)
    ensures 1 <= h
    ensures 1 <= headcount ==> h == headcount
    ensures headcount < 1 ==> h == 1
  {
    var present := if headcount == 0 then 1 else headcount;
    if present < 1 then 1 else present
  }

  lemma HeadMonotone(a: int, b: int)
    requires a <= b
    ensures Head(a) <= Head(b)
  {
  }
}
