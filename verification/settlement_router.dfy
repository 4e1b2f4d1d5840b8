// The settlement suitability score and the fixture endpoints of
// app/routers/settlement.py. The NDVI coverage and the health-facility
// count the endpoint looks up over the network are parameters.

module SettlementRouter {
  import opened Common
  import opened Geo

  /** The query filters, echoed back in the response. */
  datatype Filters = Filters(landUse: seq<string>, maxPopulationDensity: nat, infrastructure: seq<string>, excludeProtected: bool)

  /** The filters a request without query parameters gets. */
  function DefaultFilters(): (f: Filters)
    ensures f.landUse == ["residential"] && f.maxPopulationDensity == 3000
    ensures f.infrastructure == ["roads", "schools"] && f.excludeProtected
  {
    Filters(["residential"], 3000, ["roads", "schools"], true)
  }

  /**
   * Points taken off for a low density cap: 10 below 1000 (but not for 0,
   * which is falsy), 5 below 2000 (0 included), none otherwise.
   */
  function PopulationPenalty(maxDensity: nat): (p: real)
    ensures p == 10.0 <==> 0 < maxDensity < 1000
    ensures p == 5.0 <==> maxDensity == 0 || 1000 <= maxDensity < 2000
    ensures p == 0.0 <==> 2000 <= maxDensity
  {
    if maxDensity != 0 && maxDensity < 1000 then 10.0
    else if maxDensity < 2000 then 5.0
    else 0.0
  }

  /** The coverage percentage used, 50 when it is missing or zero. */
  function GreenPercent(coverage: Option<real>): (g: real)
    ensures coverage.None? || coverage.value == 0.0 ==> g == 50.0
    ensures coverage.Some? && coverage.value != 0.0 ==> g == coverage.value
  {
    if coverage.Some? && coverage.value != 0.0 then coverage.value else 50.0
  }

  /** Twenty points per facility, saturating at 100 from five facilities on. */
  function FacilityTerm(facilityCount: nat): (t: real)
    ensures 0.0 <= t <= 100.0
    ensures t == 100.0 <==> 5 <= facilityCount
  {
    Min(100.0, 20.0 * facilityCount as real)
  }

  /** Green share and facility access weighed 60/40, less the penalty, clamped to [0, 100]. */
  function Score(greenPct: real, facilityCount: nat, maxDensity: nat): (s: real)
    ensures 0.0 <= s <= 100.0
  {
    Clamp(0.0, 100.0, 0.6 * greenPct + 0.4 * FacilityTerm(facilityCount) - PopulationPenalty(maxDensity))
  }

  /** More greenspace or more facilities never lower the score. */
  lemma ScoreMonotone(g1: real, g2: real, n1: nat, n2: nat, maxDensity: nat)
    requires g1 <= g2 && n1 <= n2
    ensures Score(g1, n1, maxDensity) <= Score(g2, n2, maxDensity)
  {
    assert FacilityTerm(n1) <= FacilityTerm(n2);
  }

  /** Facilities beyond the fifth add nothing. */
  lemma FacilityTermSaturates(greenPct: real, n: nat, maxDensity: nat)
    requires 5 <= n
    ensures Score(greenPct, n, maxDensity) == Score(greenPct, 5, maxDensity)
  {
  }

  datatype Suitability = Suitability(filters: Filters, greenspacePercent: real, facilityCount: nat, score: real)

  const ErrorPrefix := "Settlement suitability error: "

  /**
   * The suitability response: invalid coordinates are an error carrying the
   * validation message; otherwise the filters are echoed, with the score
   * rounded to one decimal.
   */
  function SettlementSuitability(lat: real, lon: real, filters: Filters, coverage: Option<real>, health: FeatureCollection): (r: Result<Suitability>)
    ensures r.Err? <==> ValidateCoordinates(lat, lon).Err?
    ensures r.Err? ==> r.msg == ErrorPrefix + ValidateCoordinates(lat, lon).msg
    ensures r.Ok? ==> r.value.filters == filters
    ensures r.Ok? ==> r.value.facilityCount == |health.features|
    ensures r.Ok? ==> r.value.greenspacePercent == GreenPercent(coverage)
    ensures r.Ok? ==> 0.0 <= r.value.score <= 100.0
    ensures r.Ok? ==> Score(r.value.greenspacePercent, r.value.facilityCount, filters.maxPopulationDensity) - 0.05
                      <= r.value.score
                      <= Score(r.value.greenspacePercent, r.value.facilityCount, filters.maxPopulationDensity) + 0.05
  {
    var valid := ValidateCoordinates(lat, lon);
    if valid.Err? then Err(ErrorPrefix + valid.msg)
    else
      var green := GreenPercent(coverage);
      var count := |health.features|;
      var score := Score(green, count, filters.maxPopulationDensity);
      RoundDecimalsMonotone(0.0, score, 1);
      RoundDecimalsMonotone(score, 100.0, 1);
      RoundDecimalsOfWhole(0.0, 1);
      RoundDecimalsOfWhole(100.0, 1);
      Ok(Suitability(filters, green, count, RoundDecimals(score, 1)))
  }

  datatype Area = Area(name: string, suitability: int, land: int, infra: int)
  datatype WardLand = WardLand(ward: string, land: int)

  /** The candidate areas, best first. */
  function TopAreas(): (areas: seq<Area>)
    ensures |areas| == 3
    ensures forall i, j :: 0 <= i < j < |areas| ==> areas[i].suitability > areas[j].suitability
  {
    [Area("Ruai", 82, 18, 71), Area("Kitengela", 78, 15, 68), Area("Ngong", 71, 12, 65)]
  }

  /** The land available per ward, largest first. */
  function LandAvailability(): (wards: seq<WardLand>)
    ensures |wards| == 5
    ensures forall i, j :: 0 <= i < j < |wards| ==> wards[i].land > wards[j].land
  {
    [WardLand("Ruai", 18), WardLand("Kitengela", 15), WardLand("Ngong", 12),
     WardLand("Embakasi", 8), WardLand("Kasarani", 6)]
  }
}
