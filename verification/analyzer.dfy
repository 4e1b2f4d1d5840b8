// The exposure heuristic of app/services/analyzer.py.

module Analyzer {
  import opened Common

  /** The area, in square kilometres, used when none is given. */
  const DefaultAreaKm2: real := 25.0

  datatype Exposure =
    | Insufficient(notes: string)
    | Estimated(exposed: real, areaKm2: real)

  /**
   * Population density times area times the risk index floored at zero;
   * a missing density or risk index gives no estimate.
   */
  function EstimateExposure(popDensity: Option<real>, riskIndex: Option<real>, areaKm2: real): (e: Exposure)
    ensures e.Insufficient? <==> popDensity.None? || riskIndex.None?
    ensures e.Insufficient? ==> e.notes == "Insufficient inputs"
    ensures e.Estimated? ==> e.areaKm2 == areaKm2
    ensures e.Estimated? && riskIndex.value <= 0.0 ==> e.exposed == 0.0
    ensures e.Estimated? && 0.0 <= riskIndex.value ==> e.exposed == popDensity.value * areaKm2 * riskIndex.value
  {
    if popDensity.None? || riskIndex.None? then Insufficient("Insufficient inputs")
    else Estimated(popDensity.value * areaKm2 * Max(riskIndex.value, 0.0), areaKm2)
  }

  /** A non-negative density over a non-negative area never gives a negative exposure. */
  lemma ExposureNonNegative(popDensity: real, riskIndex: real, areaKm2: real)
    requires 0.0 <= popDensity && 0.0 <= areaKm2
    ensures EstimateExposure(Some(popDensity), Some(riskIndex), areaKm2).exposed >= 0.0
  {
    var m := Max(riskIndex, 0.0);
    assert 0.0 <= popDensity * areaKm2;
    assert 0.0 <= popDensity * areaKm2 * m;
  }

  /** A larger risk index never lowers the estimate for a non-negative density and area. */
  lemma ExposureMonotoneInRisk(popDensity: real, r1: real, r2: real, areaKm2: real)
    requires 0.0 <= popDensity && 0.0 <= areaKm2 && r1 <= r2
    ensures EstimateExposure(Some(popDensity), Some(r1), areaKm2).exposed
         <= EstimateExposure(Some(popDensity), Some(r2), areaKm2).exposed
  {
    var k := popDensity * areaKm2;
    assert 0.0 <= k;
    var m1, m2 := Max(r1, 0.0), Max(r2, 0.0);
    assert EstimateExposure(Some(popDensity), Some(r1), areaKm2).exposed == k * m1;
    assert EstimateExposure(Some(popDensity), Some(r2), areaKm2).exposed == k * m2;
    assert 0.0 <= m2 - m1;
    assert 0.0 <= k * (m2 - m1);
    assert k * m2 - k * m1 == k * (m2 - m1);
  }
}
