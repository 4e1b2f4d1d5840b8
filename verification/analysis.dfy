// The composite scores of app/services/analysis.py. The network lookups
// they call are replaced by their results: the features found near the
// point and the NDVI properties.

module Analysis {
  import opened Common
  import opened Geo

  /** Twenty points per nearby water feature, capped at 100. */
  function WaterRisk(nearby: FeatureCollection): (r: int)
    ensures 0 <= r <= 100
    ensures r == 100 <==> 5 <= |nearby.features|
    ensures r < 100 ==> r == 20 * |nearby.features|
  {
    if 100 <= 20 * |nearby.features| then 100 else 20 * |nearby.features|
  }

  /** More water features never lower the risk. */
  lemma WaterRiskMonotone(a: FeatureCollection, b: FeatureCollection)
    requires |a.features| <= |b.features|
    ensures WaterRisk(a) <= WaterRisk(b)
  {
  }

  /** The NDVI properties the greenspace estimate reads. */
  datatype NdviProps = NdviProps(coveragePercent: Option<real>, value: Option<real>)

  datatype Greenspace = Greenspace(coveragePct: real, bufferM: int, threshold: real)

  /**
   * The raster's vegetation coverage when present (zero included), else the
   * NDVI value as a percentage rounded to one decimal, else 40.
   */
  function GreenspaceCover(ndvi: NdviProps, bufferM: int, threshold: real): (g: Greenspace)
    ensures g.bufferM == bufferM && g.threshold == threshold
    ensures ndvi.coveragePercent.Some? ==> g.coveragePct == ndvi.coveragePercent.value
    ensures ndvi.coveragePercent.None? && ndvi.value.None? ==> g.coveragePct == 40.0
    ensures ndvi.coveragePercent.None? && ndvi.value.Some? ==>
      ndvi.value.value * 100.0 - 0.05 <= g.coveragePct <= ndvi.value.value * 100.0 + 0.05
  {
    var pct :=
      if ndvi.coveragePercent.Some? then ndvi.coveragePercent.value
      else if ndvi.value.Some? then RoundDecimals(ndvi.value.value * 100.0, 1)
      else (RoundDecimalsOfWhole(40.0, 1); RoundDecimals(40.0, 1));
    Greenspace(pct, bufferM, threshold)
  }

  /** The number of health facilities found near the point. */
  function HealthAccess(nearby: FeatureCollection): (count: nat)
    ensures count == |nearby.features|
  {
    |nearby.features|
  }

  /** Points lost for the health facilities nearby: none from five up. */
  function FacilityShortfall(count: nat): (s: real)
    ensures 0.0 <= s <= 100.0
    ensures s == 0.0 <==> 5 <= count
  {
    Max(0.0, 100.0 - 20.0 * count as real)
  }

  /** The weighted sum of water risk, missing greenspace and facility shortfall, before rounding. */
  function RawVulnerability(waterRisk: int, coveragePct: real, facilityCount: nat): real
  {
    0.4 * waterRisk as real + 0.3 * (100.0 - coveragePct) + 0.3 * FacilityShortfall(facilityCount)
  }

  datatype Vulnerability = Vulnerability(water: int, greenspace: Greenspace, facilityCount: nat, score: real)

  /** The composite vulnerability score, rounded to one decimal, with its components. */
  function VulnerabilityIndex(nearbyWater: FeatureCollection, ndvi: NdviProps, nearbyHealth: FeatureCollection): (v: Vulnerability)
    ensures v.water == WaterRisk(nearbyWater)
    ensures v.greenspace == GreenspaceCover(ndvi, 1000, 0.3)
    ensures v.facilityCount == |nearbyHealth.features|
    ensures v.score == RoundDecimals(RawVulnerability(v.water, v.greenspace.coveragePct, v.facilityCount), 1)
  {
    var water := WaterRisk(nearbyWater);
    var green := GreenspaceCover(ndvi, 1000, 0.3);
    var count := HealthAccess(nearbyHealth);
    Vulnerability(water, green, count, RoundDecimals(RawVulnerability(water, green.coveragePct, count), 1))
  }

  /** With coverage in [0, 100] the score stays in [0, 100]. */
  lemma VulnerabilityInRange(waterRisk: int, coveragePct: real, facilityCount: nat)
    requires 0 <= waterRisk <= 100 && 0.0 <= coveragePct <= 100.0
    ensures 0.0 <= RawVulnerability(waterRisk, coveragePct, facilityCount) <= 100.0
    ensures 0.0 <= RoundDecimals(RawVulnerability(waterRisk, coveragePct, facilityCount), 1) <= 100.0
  {
    var raw := RawVulnerability(waterRisk, coveragePct, facilityCount);
    RoundDecimalsMonotone(0.0, raw, 1);
    RoundDecimalsMonotone(raw, 100.0, 1);
    RoundDecimalsOfWhole(0.0, 1);
    RoundDecimalsOfWhole(100.0, 1);
  }

  /** More greenspace never raises the score. */
  lemma VulnerabilityFallsWithCoverage(waterRisk: int, c1: real, c2: real, facilityCount: nat)
    requires c1 <= c2
    ensures RoundDecimals(RawVulnerability(waterRisk, c2, facilityCount), 1)
         <= RoundDecimals(RawVulnerability(waterRisk, c1, facilityCount), 1)
  {
    RoundDecimalsMonotone(RawVulnerability(waterRisk, c2, facilityCount), RawVulnerability(waterRisk, c1, facilityCount), 1);
  }

  /** More health facilities never raise the score. */
  lemma VulnerabilityFallsWithFacilities(waterRisk: int, coveragePct: real, n1: nat, n2: nat)
    requires n1 <= n2
    ensures RoundDecimals(RawVulnerability(waterRisk, coveragePct, n2), 1)
         <= RoundDecimals(RawVulnerability(waterRisk, coveragePct, n1), 1)
  {
    assert FacilityShortfall(n2) <= FacilityShortfall(n1);
    RoundDecimalsMonotone(RawVulnerability(waterRisk, coveragePct, n2), RawVulnerability(waterRisk, coveragePct, n1), 1);
  }
}
