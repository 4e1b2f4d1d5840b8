/** The planner assistant's local engine (`LocalEngine` in PlannerChatbot.jsx):
    fixed catalogs of hotspots, sampling sites, comparison areas and follow-up
    questions, and generators that derive environmental figures from a
    coordinate. `Math.sin`/`Math.cos` are passed in as a `Trig` value and each
    `Math.random()` draw as a number, so every generator is a function. */
module LocalEngine {
  import opened Common

  datatype LatLon = LatLon(lat: real, lon: real)

  /** The trigonometric functions the generators call; their values are not modelled. */
  datatype Trig = Trig(sin: real -> real, cos: real -> real)

  datatype Level = Low | Medium | High

  function LevelRank(l: Level): nat
  {
    match l
    case Low => 0
    case Medium => 1
    case High => 2
  }

  /** Nairobi's bounding region, inside which every catalog record lies. */
  predicate InNairobi(p: LatLon)
  {
    -1.5 <= p.lat <= -1.1 && 36.6 <= p.lon <= 37.0
  }

  // ------------------------------------------------------------- catalogs

  datatype Hotspot = Hotspot(
    location: string,
    value: real,
    trend: string,
    advisory: string,
    coordinates: LatLon,
    sources: seq<string>,
    recommendations: seq<string>)

  /** The five air-quality hotspots, most polluted first. */
  function AllHotspots(): (r: seq<Hotspot>)
    ensures |r| == 5
    ensures forall i :: 0 <= i < |r| ==> InNairobi(r[i].coordinates)
    ensures forall i, j :: 0 <= i < j < |r| ==> r[i].value > r[j].value
  {
    [ Hotspot("Industrial Area", 78.0, "rising", "Unhealthy", LatLon(-1.3100, 36.8300),
              ["Industrial emissions", "Vehicle traffic"], ["Emission controls", "Traffic management"]),
      Hotspot("CBD", 65.0, "stable", "Unhealthy for Sensitive", LatLon(-1.2864, 36.8172),
              ["Vehicle congestion", "Construction"], ["Public transport", "Green buildings"]),
      Hotspot("Eastleigh", 58.0, "rising", "Moderate", LatLon(-1.2700, 36.8500),
              ["Dense traffic", "Waste burning"], ["Waste management", "Traffic optimization"]),
      Hotspot("Kibera", 52.0, "stable", "Moderate", LatLon(-1.3100, 36.7800),
              ["Informal settlements", "Biomass burning"], ["Clean energy", "Housing upgrades"]),
      Hotspot("Westlands", 45.0, "falling", "Moderate", LatLon(-1.2600, 36.8000),
              ["Traffic", "Commercial activities"], ["Green spaces", "Emission monitoring"]) ]
  }

  /** `getAirHotspots(city, pollutant, limit = 8)`: the first `limit` hotspots
      (`slice(0, limit)`); the city and pollutant arguments are ignored. */
  function GetAirHotspots(limit: int): (r: seq<Hotspot>)
    ensures r <= AllHotspots()
    ensures limit >= 5 ==> r == AllHotspots()
    ensures 0 <= limit ==> |r| <= limit
  {
    SlicePrefix(AllHotspots(), limit)
  }

  /** The call the assistant makes, with the default limit of 8. */
  function DefaultAirHotspots(): (r: seq<Hotspot>)
    ensures r == AllHotspots()
  {
    GetAirHotspots(8)
  }

  datatype WaterSite = WaterSite(
    location: string,
    nitrates: real,
    lead: real,
    pH: real,
    turbidity: real,
    quality: string,
    risks: seq<string>,
    coordinates: LatLon,
    geometry: seq<real>)   // the GeoJSON Point coordinates, [lon, lat]

  /** `getWaterSamplingSites().features`: three river sampling points. */
  function WaterSamplingSites(): (r: seq<WaterSite>)
    ensures |r| == 3
    ensures forall i :: 0 <= i < |r| ==> InNairobi(r[i].coordinates)
    ensures forall i :: 0 <= i < |r| ==>
              r[i].geometry == [r[i].coordinates.lon, r[i].coordinates.lat]
  {
    [ WaterSite("Nairobi River - Museum Hill", 12.5, 0.08, 7.2, 15.0, "Moderate",
                ["Agricultural runoff", "Urban drainage"], LatLon(-1.2921, 36.8219), [36.8219, -1.2921]),
      WaterSite("Ngong River - Karen", 8.2, 0.05, 6.8, 22.0, "Good",
                ["Sedimentation", "Seasonal variations"], LatLon(-1.3194, 36.7086), [36.7086, -1.3194]),
      WaterSite("Mathare River - Eastleigh", 25.8, 0.15, 6.5, 45.0, "Poor",
                ["Industrial discharge", "Solid waste"], LatLon(-1.2700, 36.8500), [36.8500, -1.2700]) ]
  }

  datatype Area = Area(
    name: string,
    vulnerabilityScore: real,
    greenspace: real,
    populationDensity: real,
    airQuality: real,
    waterQuality: real,
    floodRisk: Level,
    developmentPotential: Level,
    coordinates: LatLon,
    keyIssues: seq<string>,
    priorityActions: seq<string>)

  /** `getAreasComparison().comparison`: three peri-urban areas, most vulnerable first. */
  function AreasComparison(): (r: seq<Area>)
    ensures |r| == 3
    ensures forall i :: 0 <= i < |r| ==> InNairobi(r[i].coordinates)
    ensures forall i :: 0 <= i < |r| ==> 0.0 <= r[i].vulnerabilityScore <= 1.0
    ensures forall i, j :: 0 <= i < j < |r| ==> r[i].vulnerabilityScore > r[j].vulnerabilityScore
  {
    [ Area("Ruai", 0.72, 35.0, 2800.0, 58.0, 65.0, High, Medium, LatLon(-1.3200, 36.9500),
           ["Wastewater management", "Flood plains", "Infrastructure gap"],
           ["Wastewater treatment plant", "Flood control measures", "Road network upgrade"]),
      Area("Kitengela", 0.65, 28.0, 1900.0, 62.0, 58.0, Medium, High, LatLon(-1.4700, 36.9500),
           ["Rapid urbanization", "Water scarcity", "Soil erosion"],
           ["Water harvesting", "Controlled development", "Soil conservation"]),
      Area("Ngong", 0.58, 45.0, 1500.0, 48.0, 72.0, Low, Medium, LatLon(-1.3600, 36.6500),
           ["Deforestation", "Wildlife conflict", "Tourism pressure"],
           ["Reforestation", "Wildlife corridors", "Sustainable tourism"]) ]
  }

  // ------------------------------------------------------------ greenspace

  datatype Assessment = Inadequate | Moderate | Adequate

  /** The coverage classification: above 0.3 is adequate, above 0.15 moderate. */
  function Assess(coverage: real): (a: Assessment)
    ensures a == Adequate <==> coverage > 0.3
    ensures a == Moderate <==> 0.15 < coverage <= 0.3
    ensures a == Inadequate <==> coverage <= 0.15
  {
    if coverage > 0.3 then Adequate
    else if coverage > 0.15 then Moderate
    else Inadequate
  }

  datatype GreenArea = GreenArea(kind: string, share: real, examples: seq<string>)

  datatype Greenspace = Greenspace(
    coveragePct: real,
    areaKm2: real,
    at: LatLon,
    greenAreas: seq<GreenArea>,
    assessment: Assessment)

  function GreenShares(g: Greenspace): seq<real>
  {
    seq(|g.greenAreas|, i requires 0 <= i < |g.greenAreas| => g.greenAreas[i].share)
  }

  /** `getGreenspaceCover(lat, lon, buffer)`: a coverage fraction derived from
      the position, clamped to [0.1, 0.8], split into four categories. */
  function GetGreenspaceCover(lat: real, lon: real, buffer: real, t: Trig): (g: Greenspace)
    ensures 0.1 <= g.coveragePct <= 0.8
    ensures g.assessment == Assess(g.coveragePct)
    ensures g.at == LatLon(lat, lon)
    ensures |g.greenAreas| == 4 && Sum(GreenShares(g)) == g.coveragePct
    ensures 0.0 <= g.areaKm2 <= buffer * buffer * 0.0000008
  {
    var urbanDensity := Frac(Abs(lat * 100.0));
    var baseCoverage := 0.25 + (1.0 - urbanDensity) * 0.4;
    var locationEffect := t.sin(lat * 20.0) * 0.1 + t.cos(lon * 20.0) * 0.1;
    var coverage := Clamp(0.1, 0.8, baseCoverage + locationEffect);
    var g := Greenspace(
      coverage,
      buffer * buffer * 0.000001 * coverage,
      LatLon(lat, lon),
      [ GreenArea("Public Parks", coverage * 0.4, ["Neighborhood parks", "Playgrounds"]),
        GreenArea("Forest Areas", coverage * 0.3, ["Urban forests", "Woodlands"]),
        GreenArea("Agricultural Land", coverage * 0.2, ["Community gardens", "Urban farms"]),
        GreenArea("Water Bodies", coverage * 0.1, ["Rivers", "Lakes", "Ponds"]) ],
      Assess(coverage));
    var shares := GreenShares(g);
    assert shares == [coverage * 0.4, coverage * 0.3, coverage * 0.2, coverage * 0.1];
    assert Sum(shares[3..]) == coverage * 0.1;
    assert Sum(shares[2..]) == coverage * 0.2 + Sum(shares[3..]);
    assert Sum(shares[1..]) == coverage * 0.3 + Sum(shares[2..]);
    assert Sum(shares) == coverage * 0.4 + Sum(shares[1..]);
    var sq := buffer * buffer;
    assert sq >= 0.0 by {
      if buffer < 0.0 { assert sq == (-buffer) * (-buffer); }
    }
    var k := sq * 0.000001;
    assert 0.0 <= k * coverage <= k * 0.8;
    assert k * 0.8 == sq * 0.0000008;
    assert g.areaKm2 == k * coverage;
    g
  }

  // -------------------------------------------------------------- exposure

  /** `Math.abs(lat * 100) % 1`, the urban density index of a latitude. */
  function UrbanIndex(lat: real): (u: real)
    ensures 0.0 <= u < 1.0
  {
    Frac(Abs(lat * 100.0))
  }

  datatype RiskFactors = RiskFactors(
    airPollution: real,
    noisePollution: real,
    heatIsland: real,
    floodRisk: Level,
    greenAccess: real)

  datatype ExposureReport = ExposureReport(
    at: LatLon,
    riskFactors: RiskFactors,
    overallRisk: Level,
    vulnerableGroups: seq<string>,
    recommendations: seq<string>)

  function ExposureRecommendations(): seq<string>
  {
    ["Install real-time air quality monitors",
     "Develop green infrastructure network",
     "Implement traffic management system",
     "Enhance public health outreach programs",
      "Establish emergency response protocols" ]
  }

  /** The overall risk: above 0.6 high, above 0.3 medium. */
  function OverallRisk(u: real): Level
  {
    if u > 0.6 then High else if u > 0.3 then Medium else Low
  }

  /** The flood risk: above 0.7 high, above 0.4 medium. */
  function FloodRisk(u: real): Level
  {
    if u > 0.7 then High else if u > 0.4 then Medium else Low
  }

  /** `getExposure(lat, lon)`: risk figures driven by the urban index of the
      latitude; no random draw is involved. */
  function GetExposure(lat: real, lon: real, t: Trig): (e: ExposureReport)
    ensures e.at == LatLon(lat, lon)
    ensures e.overallRisk == OverallRisk(UrbanIndex(lat))
    ensures e.riskFactors.floodRisk == FloodRisk(UrbanIndex(lat))
    ensures |e.vulnerableGroups| == 3 <==> e.overallRisk == High
    ensures |e.vulnerableGroups| == 2 <==> e.overallRisk != High
    ensures LevelRank(e.riskFactors.floodRisk) <= LevelRank(e.overallRisk)
    ensures 50.0 <= e.riskFactors.noisePollution <= 75.0
    ensures 0.0 <= e.riskFactors.heatIsland <= 40.0
    ensures 0.0 <= e.riskFactors.greenAccess <= 70.0
    ensures -1.0 <= t.sin(lon * 50.0) <= 1.0 ==> 34.0 <= e.riskFactors.airPollution <= 76.0
    ensures e.recommendations == ExposureRecommendations()
  {
    var u := UrbanIndex(lat);
    var trafficEffect := t.sin(lon * 50.0) * 0.3;
    RoundWithin(50.0 + u * 25.0, 50, 75);
    RoundWithin(u * 40.0, 0, 40);
    RoundWithin((1.0 - u) * 70.0, 0, 70);
    RoundWithin(40.0 + u * 30.0 + trafficEffect * 20.0, 34, 76);
    ExposureReport(
      LatLon(lat, lon),
      RiskFactors(
        Round(40.0 + u * 30.0 + trafficEffect * 20.0),
        Round(50.0 + u * 25.0),
        Round(u * 40.0),
        FloodRisk(u),
        Round((1.0 - u) * 70.0)),
      OverallRisk(u),
      if u > 0.6 then ["Children", "Elderly", "Respiratory patients"]
      else ["Outdoor workers", "Sensitive populations"],
      ExposureRecommendations())
  }

  // -------------------------------------------------------- air timeseries

  datatype AirPoint = AirPoint(
    monthsAgo: nat,   // the point is dated `monthsAgo` months before now
    value: real,
    pm25: real,
    no2: real,
    co: real,
    o3: real,
    trend: string)

  datatype AirSummary = AirSummary(average: real, max: real, min: real, trend: string)

  datatype AirSeries = AirSeries(series: seq<AirPoint>, at: LatLon, summary: AirSummary)

  /** The position-dependent baseline of the series. */
  function BaseValue(lat: real, lon: real, t: Trig): real
  {
    40.0 + t.sin(lat * 10.0) * 15.0 + t.cos(lon * 10.0) * 10.0
  }

  /** The point `i` months back, given the `Math.random()` draw made for it;
      the value is clamped to [20, 120] before it is rounded. */
  function PointAt(base: real, i: nat, draw: real, t: Trig): (p: AirPoint)
    ensures p.monthsAgo == i
    ensures 20.0 <= p.value <= 120.0 && p.pm25 == p.value
    ensures p.value.Floor as real == p.value
    ensures 12.0 <= p.no2 <= 72.0 && 8.0 <= p.o3 <= 48.0 && 0.4 <= p.co <= 2.4
  {
    var monthVariation := t.sin(i as real * 0.5) * 8.0;
    var seasonalEffect := t.sin(i as real * 0.5 + 2.0) * 12.0;
    var randomNoise := (draw - 0.5) * 10.0;
    var value := Clamp(20.0, 120.0, base + monthVariation + seasonalEffect + randomNoise);
    RoundWithin(value, 20, 120);
    RoundWithin(value * 0.6, 12, 72);
    RoundWithin(value * 0.4, 8, 48);
    AirPoint(i, Round(value), Round(value), Round(value * 0.6), value * 0.02, Round(value * 0.4),
             if value > base + 5.0 then "rising" else if value < base - 5.0 then "falling" else "stable")
  }

  function Values(series: seq<AirPoint>): (vs: seq<real>)
    ensures |vs| == |series|
    ensures forall k :: 0 <= k < |series| ==> vs[k] == series[k].value
  {
    seq(|series|, k requires 0 <= k < |series| => series[k].value)
  }

  /** The series trend label as the source computes it: "improving" when the
      oldest value is below the newest one, i.e. when the pollutant rose. */
  function SummaryTrendAsWritten(series: seq<AirPoint>): (tag: string)
    requires series != []
    ensures tag == "improving" <==> series[0].value < series[|series| - 1].value
    ensures tag == "deteriorating" <==> series[|series| - 1].value <= series[0].value
  {
    if series[0].value < series[|series| - 1].value then "improving" else "deteriorating"
  }

  /** The series trend label with the evidently intended direction:
      "improving" exactly when the newest value is below the oldest one. */
  function SummaryTrend(series: seq<AirPoint>): (tag: string)
    requires series != []
    ensures tag == "improving" <==> series[|series| - 1].value < series[0].value
    ensures tag == "deteriorating" <==> series[0].value <= series[|series| - 1].value
  {
    if series[|series| - 1].value < series[0].value then "improving" else "deteriorating"
  }

  /** Whenever the oldest and newest values differ, the corrected label is
      the opposite of the one the source reports. */
  lemma TrendLabelsDisagree(series: seq<AirPoint>)
    requires series != [] && series[0].value != series[|series| - 1].value
    ensures SummaryTrend(series) != SummaryTrendAsWritten(series)
    ensures SummaryTrend(series) == "improving" <==> SummaryTrendAsWritten(series) == "deteriorating"
  {
  }

  /** With the source's label, a series whose pollutant concentration rose
      from 40 to 60 is reported as improving. */
  lemma TrendLabelInverted()
    ensures var s := [AirPoint(1, 40.0, 40.0, 24.0, 0.8, 16.0, "stable"),
                      AirPoint(0, 60.0, 60.0, 36.0, 1.2, 24.0, "stable")];
            SummaryTrendAsWritten(s) == "improving" && SummaryTrend(s) == "deteriorating"
  {
  }

  /** The summary over a non-empty series: rounded mean, extrema and trend. */
  function Summarize(series: seq<AirPoint>): (s: AirSummary)
    requires series != []
    requires forall k :: 0 <= k < |series| ==> series[k].value.Floor as real == series[k].value
    ensures s.min <= s.average <= s.max
    ensures forall k :: 0 <= k < |series| ==> s.min <= series[k].value <= s.max
    ensures s.trend == "improving" <==> series[0].value < series[|series| - 1].value
    ensures s.trend == "deteriorating" <==> series[|series| - 1].value <= series[0].value
  {
    var vs := Values(series);
    var lo, hi := MinOf(vs), MaxOf(vs);
    MeanBetweenMinAndMax(vs);
    assert forall k :: 0 <= k < |series| ==> vs[k] in vs;
    AverageRoundsWithin(vs, series);
    AirSummary(Round(Mean(vs)), hi, lo, SummaryTrendAsWritten(series))
  }

  /** Rounding the mean of whole numbers stays between their extrema. */
  lemma AverageRoundsWithin(vs: seq<real>, series: seq<AirPoint>)
    requires vs != [] && vs == Values(series)
    requires forall k :: 0 <= k < |series| ==> series[k].value.Floor as real == series[k].value
    ensures MinOf(vs) <= Round(Mean(vs)) <= MaxOf(vs)
  {
    MeanBetweenMinAndMax(vs);
    var lo, hi := MinOf(vs), MaxOf(vs);
    var i :| 0 <= i < |vs| && vs[i] == lo;
    var j :| 0 <= j < |vs| && vs[j] == hi;
    RoundWithin(Mean(vs), lo.Floor, hi.Floor);
  }

  /** The points of a `months`-long series, oldest first: the point at
      index `k` lies `months - 1 - k` months back and uses the `k`-th draw. */
  function MonthlyPoints(base: real, months: nat, draws: seq<real>, t: Trig): (ps: seq<AirPoint>)
    requires months <= |draws|
    ensures |ps| == months
    ensures forall k :: 0 <= k < months ==> ps[k].monthsAgo == months - 1 - k
    ensures forall k :: 0 <= k < months ==> 20.0 <= ps[k].value <= 120.0
    ensures forall k :: 0 <= k < months ==> ps[k].value.Floor as real == ps[k].value
  {
    seq(months, k requires 0 <= k < months => PointAt(base, months - 1 - k, draws[k], t))
  }

  /** `getAirTimeseries(lat, lon, pollutant, months)`: one point per month,
      oldest first, built by a loop that draws `Math.random()` once per month.
      With no months the source reads `series[0]` of an empty array and throws. */
  method GetAirTimeseries(lat: real, lon: real, months: int, draws: seq<real>, t: Trig)
    returns (r: Result<AirSeries>)
    requires months <= |draws|
    ensures r.Err? <==> months <= 0
    ensures r.Ok? ==> r.value.series == MonthlyPoints(BaseValue(lat, lon, t), months, draws, t)
    ensures r.Ok? ==> r.value.at == LatLon(lat, lon)
    ensures r.Ok? ==> r.value.summary == Summarize(r.value.series)
  {
    if months <= 0 {
      return Err("Cannot read properties of undefined (reading 'value')");
    }
    var series := MonthlySeries(BaseValue(lat, lon, t), months, draws, t);
    r := Ok(AirSeries(series, LatLon(lat, lon), Summarize(series)));
  }

  /** The month loop of `getAirTimeseries`: it walks from the oldest month to
      the current one, drawing once per month. */
  method MonthlySeries(base: real, months: nat, draws: seq<real>, t: Trig) returns (series: seq<AirPoint>)
    requires months <= |draws|
    ensures series == MonthlyPoints(base, months, draws, t)
  {
    series := [];
    var i := months - 1;
    while i >= 0
      invariant -1 <= i <= months - 1
      invariant |series| == months - 1 - i
      invariant forall k :: 0 <= k < |series| ==>
                  series[k] == PointAt(base, months - 1 - k, draws[k], t)
    {
      var k := |series|;
      series := series + [PointAt(base, i, draws[k], t)];
      i := i - 1;
    }
  }

  // -------------------------------------------------------- spatial analysis

  datatype Bounds = Bounds(north: real, south: real, east: real, west: real)

  datatype SpatialReport = SpatialReport(
    bounds: Bounds,
    center: LatLon,
    populationDensity: real,
    greenCoverage: real,
    airQualityIndex: real,
    floodZones: Level,
    developmentPressure: real,
    recommendations: seq<string>)

  /** `getSpatialAnalysis(bounds)`: figures for the centre of the bounds; the
      flood zone uses one or two `Math.random()` draws. */
  function GetSpatialAnalysis(b: Bounds, t: Trig, draw1: real, draw2: real): (r: SpatialReport)
    ensures r.center.lat * 2.0 == b.south + b.north && r.center.lon * 2.0 == b.west + b.east
    ensures b.south <= b.north ==> b.south <= r.center.lat <= b.north
    ensures b.west <= b.east ==> b.west <= r.center.lon <= b.east
    ensures r.floodZones == High <==> draw1 > 0.7
    ensures r.floodZones == Medium <==> draw1 <= 0.7 && draw2 > 0.4
    ensures -1.0 <= t.sin(r.center.lat * 10.0) <= 1.0 ==> 1000.0 <= r.populationDensity <= 3000.0
    ensures -1.0 <= t.cos(r.center.lon * 10.0) <= 1.0 ==> 5.0 <= r.greenCoverage <= 45.0
    ensures -1.0 <= t.sin(r.center.lat * 5.0) <= 1.0 ==> 30.0 <= r.airQualityIndex <= 70.0
    ensures -1.0 <= t.sin(r.center.lat * 8.0) <= 1.0 ==> 30.0 <= r.developmentPressure <= 90.0
    ensures |r.recommendations| == 4
  {
    var centerLat := (b.south + b.north) / 2.0;
    var centerLng := (b.west + b.east) / 2.0;
    RoundWithin(2000.0 + t.sin(centerLat * 10.0) * 1000.0, 1000, 3000);
    RoundWithin(25.0 + t.cos(centerLng * 10.0) * 20.0, 5, 45);
    RoundWithin(50.0 + t.sin(centerLat * 5.0) * 20.0, 30, 70);
    RoundWithin(60.0 + t.sin(centerLat * 8.0) * 30.0, 30, 90);
    SpatialReport(
      b,
      LatLon(centerLat, centerLng),
      Round(2000.0 + t.sin(centerLat * 10.0) * 1000.0),
      Round(25.0 + t.cos(centerLng * 10.0) * 20.0),
      Round(50.0 + t.sin(centerLat * 5.0) * 20.0),
      if draw1 > 0.7 then High else if draw2 > 0.4 then Medium else Low,
      Round(60.0 + t.sin(centerLat * 8.0) * 30.0),
      [ "Assess infrastructure capacity",
        "Plan green space network",
        "Monitor air quality trends",
        "Evaluate flood mitigation needs" ])
  }

  // ---------------------------------------------------- follow-up questions

  /** The conversation topics the assistant offers follow-up questions for. */
  datatype Topic = GeneralTopic | AirHotspotsTopic | WaterSamplingTopic | AreasComparisonTopic | LocationAnalysisTopic

  /** The key a topic has in the follow-up catalog (and in `currentTopic`). */
  function TopicKey(t: Topic): string
  {
    match t
    case GeneralTopic => "general"
    case AirHotspotsTopic => "air_hotspots"
    case WaterSamplingTopic => "water_sampling"
    case AreasComparisonTopic => "areas_comparison"
    case LocationAnalysisTopic => "location_analysis"
  }

  /** The four follow-up questions of each topic. */
  function Questions(t: Topic): (r: seq<string>)
    ensures |r| == 4
  {
    match t
    case AirHotspotsTopic => AirHotspotQuestions()
    case WaterSamplingTopic => WaterQuestions()
    case AreasComparisonTopic => ComparisonQuestions()
    case LocationAnalysisTopic => LocationQuestions()
    case GeneralTopic => GeneralQuestions()
  }

  function AirHotspotQuestions(): (r: seq<string>)
    ensures |r| == 4
  {
    ["What are the main sources of pollution in these areas?",
     "How can we reduce air pollution in these hotspots?",
     "Show me historical trends for these locations",
     "Compare with other cities"]
  }

  function WaterQuestions(): (r: seq<string>)
    ensures |r| == 4
  {
    ["What are the health risks associated with these water quality levels?",
     "How can we improve water quality in these rivers?",
     "Show me treatment recommendations",
     "Compare with national standards"]
  }

  function ComparisonQuestions(): (r: seq<string>)
    ensures |r| == 4
  {
    ["Which area has the highest development potential?",
     "What are the key interventions needed?",
     "Show me detailed analysis for a specific area",
     "Compare environmental risks"]
  }

  function LocationQuestions(): (r: seq<string>)
    ensures |r| == 4
  {
    ["What infrastructure is needed here?",
     "Show me development recommendations",
     "What are the environmental risks?",
     "Compare with surrounding areas"]
  }

  function GeneralQuestions(): (r: seq<string>)
    ensures |r| == 4
  {
    ["Tell me about urban planning best practices",
     "How can I improve environmental quality in my city?",
     "What data sources do you use?",
     "Show me sustainability metrics"]
  }

  /** The follow-up catalog, keyed by topic name. */
  function FollowUpCatalog(): map<string, seq<string>>
  {
    map[
      TopicKey(AirHotspotsTopic) := Questions(AirHotspotsTopic),
      TopicKey(WaterSamplingTopic) := Questions(WaterSamplingTopic),
      TopicKey(AreasComparisonTopic) := Questions(AreasComparisonTopic),
      TopicKey(LocationAnalysisTopic) := Questions(LocationAnalysisTopic),
      TopicKey(GeneralTopic) := Questions(GeneralTopic)
    ]
  }

  /** `getFollowUpQuestions(topic)`: the topic's list, or the general list for
      a topic the catalog does not know. */
  function GetFollowUpQuestions(topic: string): (r: seq<string>)
    ensures |r| == 4
    ensures r in FollowUpCatalog().Values
    ensures topic in FollowUpCatalog() ==> r == FollowUpCatalog()[topic]
    ensures topic !in FollowUpCatalog() ==> r == FollowUpCatalog()["general"]
  {
    var catalog := FollowUpCatalog();
    if topic in catalog then catalog[topic] else catalog["general"]
  }

  /** Looking a topic up by its key gives that topic's questions. */
  lemma TopicQuestions(t: Topic)
    ensures GetFollowUpQuestions(TopicKey(t)) == Questions(t)
  {
    assert TopicKey(t) in FollowUpCatalog();
    match t
    case GeneralTopic =>
    case AirHotspotsTopic =>
      assert FollowUpCatalog()[TopicKey(t)] == Questions(t) by {
        assert TopicKey(t) != TopicKey(GeneralTopic);
      }
    case WaterSamplingTopic =>
      assert FollowUpCatalog()[TopicKey(t)] == Questions(t) by {
        assert TopicKey(t) != TopicKey(GeneralTopic);
      }
    case AreasComparisonTopic =>
      assert FollowUpCatalog()[TopicKey(t)] == Questions(t) by {
        assert TopicKey(t) != TopicKey(GeneralTopic);
      }
    case LocationAnalysisTopic =>
      assert FollowUpCatalog()[TopicKey(t)] == Questions(t) by {
        assert TopicKey(t) != TopicKey(GeneralTopic);
      }
  }
}
