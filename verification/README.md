# Nairobi urban-intelligence dashboard and healthy-cities backend — a Dafny model

This project models the logic of two parts of the DataPathways-NASA
repository.

The first part is the React dashboard `nairobi-dashboard`. Three of its pages are modelled:

- The scripted planner assistant (`PlannerChatbot.jsx`). This covers its local data
  engine (`LocalEngine`), the coordinate parser and the keyword intent
  classifier. It also covers the conversation state that `send`,
  `handleMapClick` and `handleFollowUpQuestion` update through
  `simulateTyping` and `addMessage`.
- The guideline filter of the water-pollution page.
- The filter updates of the settlement-growth page.

The second part is the FastAPI backend `nasa_healthy_cities`, and these pieces of it are modelled:

- the OpenAQ air-quality service: advisories, hotspot ranking, month grouping and the fallback series;
- the Overpass client: element-to-feature extraction, the query box and the radius-filtered fallbacks;
- the settlement suitability score;
- the composite analysis scores;
- the exposure estimate;
- the GeoJSON and coordinate helpers;
- the NASA POWER climate loader.

Modelling conventions:

- JavaScript numbers and Python floats are Dafny `real`s.
- JavaScript's `Math.round` is floor(x + 0.5).
- Python's `round(x, n)` is written out as round-half-to-even at `n` decimals (`Common.RoundDecimals`). Python's `int()` truncates toward zero (`Common.Trunc`).
- Sines, cosines, the haversine distance, `Math.random` draws and every network response are parameters. The model proves its properties for any values of these.

The session handlers are methods of a class `ChatSession.Session` whose fields are
the component's state. Each handler is proved equal to a function on a
snapshot of that state (`SendView`, `MapClickView`, `FollowUpView`), and the
session properties are lemmas about those functions. The `LocalEngine` calls
the handlers make (the hotspot, sampling-site and comparison fixtures and
`getFollowUpQuestions`) are reached through a constant field `engine` of the
session, an `Engine` value that the constructor sets to `PageEngine()`. The
view functions take the engine as a parameter. Their lemmas hold for any
engine that offers four follow-up questions per topic, and the page's own
engine is one of them. The loops of the
Python services become methods with loop invariants. Each loop method is
proved equal to a recursive specification function, and the properties are
lemmas about that function.

Modules:

| file | module | models |
|---|---|---|
| common.dfy | Common | Option/Result, substring search, filters, rounding, sums and means |
| local_engine.dfy | LocalEngine | `LocalEngine` of PlannerChatbot.jsx |
| intent_parser.dfy | IntentParser | `parseLatLon`, `parseIntent` |
| chat_session.dfy | ChatSession | the chatbot's state and handlers |
| water_pollution.dfy | WaterPollution | WaterPollution.jsx |
| settlement_growth.dfy | SettlementGrowth | SettlementGrowth.jsx |
| geo.dfy | Geo | services/utils.py, utils/helpers.py |
| air_service.dfy | AirService | services/air_service.py |
| esri_client.dfy | EsriClient | services/esri_client.py |
| settlement_router.dfy | SettlementRouter | routers/settlement.py |
| analysis.dfy | Analysis | services/analysis.py |
| analyzer.dfy | Analyzer | services/analyzer.py |
| data_loader.dfy | DataLoader | services/data_loader.py |

## Model

| member | source | states |
|---|---|---|
| LocalEngine.AllHotspots | nairobi-dashboard/src/pages/PlannerChatbot.jsx:70-116 | the five hotspot fixtures lie in Nairobi and are listed by strictly decreasing value |
| LocalEngine.GetAirHotspots | nairobi-dashboard/src/pages/PlannerChatbot.jsx:69-118 | `hotspots.slice(0, limit)`: a prefix of the fixtures, at most `limit` long, all five once `limit` ≥ 5 |
| LocalEngine.DefaultAirHotspots | nairobi-dashboard/src/pages/PlannerChatbot.jsx:69 | the default limit 8 returns every fixture |
| LocalEngine.WaterSamplingSites | nairobi-dashboard/src/pages/PlannerChatbot.jsx:156-203 | three sites in Nairobi, each with its point geometry at [lon, lat] of its own coordinates |
| LocalEngine.AreasComparison | nairobi-dashboard/src/pages/PlannerChatbot.jsx:225-269 | three areas in Nairobi with vulnerability in [0, 1], strictly decreasing |
| LocalEngine.Assess | nairobi-dashboard/src/pages/PlannerChatbot.jsx:221 | Adequate iff coverage > 0.3, Moderate iff in (0.15, 0.3], Inadequate iff ≤ 0.15 |
| LocalEngine.GetGreenspaceCover | nairobi-dashboard/src/pages/PlannerChatbot.jsx:205-223 | coverage clamped to [0.1, 0.8], assessed by `Assess`; the four green-area shares sum to the coverage; area within [0, buffer²·8e-7] |
| LocalEngine.UrbanIndex | nairobi-dashboard/src/pages/PlannerChatbot.jsx:272 | `|lat·100| mod 1` lies in [0, 1) |
| LocalEngine.GetExposure | nairobi-dashboard/src/pages/PlannerChatbot.jsx:271-296 | overall risk by the 0.6/0.3 thresholds, flood risk by 0.7/0.4 and never above it; three vulnerable groups iff overall High; factor ranges; always the same five recommendations |
| LocalEngine.PointAt | nairobi-dashboard/src/pages/PlannerChatbot.jsx:126-141 | each month's value is clamped to [20, 120] and then a whole number; the derived pollutant values stay in their ranges |
| LocalEngine.Values | nairobi-dashboard/src/pages/PlannerChatbot.jsx:148-150 | the values read off a series, one per point, in order |
| LocalEngine.SummaryTrend | nairobi-dashboard/src/pages/PlannerChatbot.jsx:151 | the corrected trend: `improving` iff the last value is below the first, `deteriorating` otherwise |
| LocalEngine.TrendLabelInverted | nairobi-dashboard/src/pages/PlannerChatbot.jsx:151 | on a two-month series whose value rises, the label as written says `improving` |
| LocalEngine.SummaryTrendAsWritten | nairobi-dashboard/src/pages/PlannerChatbot.jsx:151 | the label the page computes: `improving` iff the first value is below the last, `deteriorating` otherwise |
| LocalEngine.TrendLabelsDisagree | nairobi-dashboard/src/pages/PlannerChatbot.jsx:151 | whenever the first and last values differ, the label as written is the opposite of the intended one |
| LocalEngine.Summarize | nairobi-dashboard/src/pages/PlannerChatbot.jsx:147-152 | summary min ≤ average ≤ max, every value within [min, max]; trend `improving` iff the first value is below the last, as line 151 computes it |
| LocalEngine.AverageRoundsWithin | nairobi-dashboard/src/pages/PlannerChatbot.jsx:148 | the rounded mean of whole values stays between their minimum and maximum |
| LocalEngine.MonthlyPoints | nairobi-dashboard/src/pages/PlannerChatbot.jsx:125-143 | exactly `months` points, oldest first, each value a whole number in [20, 120] |
| LocalEngine.MonthlySeries | nairobi-dashboard/src/pages/PlannerChatbot.jsx:125-143 | the push loop from the oldest month to the current one builds `MonthlyPoints` |
| LocalEngine.GetAirTimeseries | nairobi-dashboard/src/pages/PlannerChatbot.jsx:120-154 | the series is `MonthlyPoints` with its summary, whose trend is the label as the page computes it; `months` ≤ 0 is an error (the summary would read `series[0]`) |
| LocalEngine.GetSpatialAnalysis | nairobi-dashboard/src/pages/PlannerChatbot.jsx:298-320 | the centre is the midpoint of the bounds; flood zones High iff the first draw > 0.7, Medium iff not and the second > 0.4; indicator ranges; four recommendations |
| LocalEngine.Questions | nairobi-dashboard/src/pages/PlannerChatbot.jsx:324-355 | every topic has four follow-up questions |
| LocalEngine.GetFollowUpQuestions | nairobi-dashboard/src/pages/PlannerChatbot.jsx:323-358 | the topic's own list when the topic is one of the catalogue's own keys, the `general` list for any other topic name; always four |
| LocalEngine.TopicQuestions | nairobi-dashboard/src/pages/PlannerChatbot.jsx:323-358 | looking up a topic's key gives that topic's questions |
| IntentParser.LeadingSpacesSpec | nairobi-dashboard/src/pages/PlannerChatbot.jsx:549 | the leading run counted for `trim` is all white space and stops at a non-space |
| IntentParser.TrailingSpacesSpec | nairobi-dashboard/src/pages/PlannerChatbot.jsx:549 | the same for the trailing run |
| IntentParser.TrimShape | nairobi-dashboard/src/pages/PlannerChatbot.jsx:549 | `trim` gives an infix that neither starts nor ends with white space |
| IntentParser.TrimIdempotent | nairobi-dashboard/src/pages/PlannerChatbot.jsx:549 | trimming twice is trimming once |
| IntentParser.Lower | nairobi-dashboard/src/pages/PlannerChatbot.jsx:405 | `toLowerCase`: same length, each letter lowered, no upper-case letter left |
| IntentParser.Value | nairobi-dashboard/src/pages/PlannerChatbot.jsx:401 | `parseFloat` of a numeral: its sign and its whole part |
| IntentParser.ValueShift | nairobi-dashboard/src/pages/PlannerChatbot.jsx:401 | moving the point one fraction digit to the right multiplies the parsed value by ten |
| IntentParser.ValueScaled | nairobi-dashboard/src/pages/PlannerChatbot.jsx:401 | the parsed value with its point moved past every fraction digit is the signed whole number the digits spell without the point |
| IntentParser.DigitsFromSpec | nairobi-dashboard/src/pages/PlannerChatbot.jsx:400 | the `\d+` run is all digits and maximal |
| IntentParser.ScanNumberNone | nairobi-dashboard/src/pages/PlannerChatbot.jsx:400 | a number is read iff a digit follows the optional minus sign |
| IntentParser.ScanNumberSound | nairobi-dashboard/src/pages/PlannerChatbot.jsx:400 | what is read is a well-formed numeral and a prefix of the text |
| IntentParser.ScanNumberValid | nairobi-dashboard/src/pages/PlannerChatbot.jsx:400 | the numeral read has an all-digit whole part and an all-digit fraction |
| IntentParser.ScanNumberPrefix | nairobi-dashboard/src/pages/PlannerChatbot.jsx:400 | the text of the numeral read starts the input |
| IntentParser.MatchPair | nairobi-dashboard/src/pages/PlannerChatbot.jsx:400 | a pair matched at a position starts with the number the scanner reads there |
| IntentParser.MatchPairOfText | nairobi-dashboard/src/pages/PlannerChatbot.jsx:400 | two numerals around a comma with white space on either side, followed by a non-digit, match as that pair |
| IntentParser.Attempts | nairobi-dashboard/src/pages/PlannerChatbot.jsx:400 | one match attempt per start position of the text, the `q`-th on the suffix from `q` |
| IntentParser.FirstMatch | nairobi-dashboard/src/pages/PlannerChatbot.jsx:400 | the leftmost successful attempt from a position, with no success before it; `None` iff every attempt fails |
| IntentParser.FirstMatchAt | nairobi-dashboard/src/pages/PlannerChatbot.jsx:400 | the first success after failures everywhere before it is what `FirstMatch` returns |
| IntentParser.ParseLatLon | nairobi-dashboard/src/pages/PlannerChatbot.jsx:399-402 | `null` iff no position of the text starts a pair |
| IntentParser.ParseLatLonRoundTrip | nairobi-dashboard/src/pages/PlannerChatbot.jsx:399-402 | a pair written after text without digits or minus signs is parsed back to the two values written |
| IntentParser.ParseLatLonAt | nairobi-dashboard/src/pages/PlannerChatbot.jsx:399-402 | a pair matched at `q` with no match before `q` is the coordinate returned |
| IntentParser.NoPairInPrefix | nairobi-dashboard/src/pages/PlannerChatbot.jsx:400 | no match starts inside leading text without digits or minus signs |
| IntentParser.NoDigitsNoCoordinate | nairobi-dashboard/src/pages/PlannerChatbot.jsx:399-402 | text without digits gives `null` |
| IntentParser.Classify | nairobi-dashboard/src/pages/PlannerChatbot.jsx:408-419 | the chosen intent's rule fires and no earlier rule does |
| IntentParser.ParseIntent | nairobi-dashboard/src/pages/PlannerChatbot.jsx:404-420 | a coordinate is carried only by the intents that carry one |
| IntentParser.ParseIntentFirstMatch | nairobi-dashboard/src/pages/PlannerChatbot.jsx:404-420 | `parseIntent` is the first-firing rule on the lower-cased text, with the parsed coordinate for the air, greenspace and exposure intents |
| IntentParser.FirstMatchUnique | nairobi-dashboard/src/pages/PlannerChatbot.jsx:404-420 | the first-match intent is unique |
| IntentParser.GreetingInsideWord | nairobi-dashboard/src/pages/PlannerChatbot.jsx:415 | "what is this?" is a greeting, because "this" contains "hi" |
| IntentParser.WaterBeforeComparison | nairobi-dashboard/src/pages/PlannerChatbot.jsx:410-412 | "compare water quality" is water sampling, because line 410 precedes line 412 |
| IntentParser.HotspotAlwaysWins | nairobi-dashboard/src/pages/PlannerChatbot.jsx:408 | any text containing "hotspot" is the air-hotspots intent |
| ChatSession.InitialView | nairobi-dashboard/src/pages/PlannerChatbot.jsx:363-383 | the session starts idle with one assistant welcome, no location and no markers |
| ChatSession.ThinkingTime | nairobi-dashboard/src/pages/PlannerChatbot.jsx:437 | the typing delay is 15 ms per character clamped to [800, 2000] |
| ChatSession.TypingShowsOneReply | nairobi-dashboard/src/pages/PlannerChatbot.jsx:434-452 | typing appends exactly one assistant message, replaces the follow-ups only with a non-empty list, and ends not typing |
| ChatSession.PageEngine | nairobi-dashboard/src/pages/PlannerChatbot.jsx:556-625 | the page's engine (the fixtures and `getFollowUpQuestions` the branches call) offers four follow-up questions for every topic |
| ChatSession.PageEngineQuestions | nairobi-dashboard/src/pages/PlannerChatbot.jsx:323-358 | the engine's follow-ups for a topic are that topic's catalogue entry |
| ChatSession.AnsweredSpec | nairobi-dashboard/src/pages/PlannerChatbot.jsx:556-705 | answering appends exactly the reply; a fault keeps map and context; the three catalogue intents show the map and move to their topic with four follow-ups; no other intent changes the topic; the last location is kept |
| ChatSession.SendViewSpec | nairobi-dashboard/src/pages/PlannerChatbot.jsx:548-705 | blank input changes nothing; otherwise one user and then one assistant message are appended, the input is cleared, the topic changes only for the three catalogue intents, the location is kept, and an idle session ends idle |
| ChatSession.SendKeepsHistory | nairobi-dashboard/src/pages/PlannerChatbot.jsx:548-705 | `send` keeps the earlier messages as a prefix and leaves an idle session idle |
| ChatSession.CoordinateIntentsGetOverview | nairobi-dashboard/src/pages/PlannerChatbot.jsx:688-698 | the timeseries, greenspace and exposure intents get the general reply as the second new message and leave the context alone |
| ChatSession.OverviewAnswer | nairobi-dashboard/src/pages/PlannerChatbot.jsx:688-698 | a coordinate intent is answered by the overview alone: no map change, no follow-ups, no topic |
| ChatSession.MapClickSpec | nairobi-dashboard/src/pages/PlannerChatbot.jsx:454-498 | a click appends the click and the location analysis, sets topic `location_analysis` with its four follow-ups and the last location, replaces the markers with one analysis marker and centres the map at zoom 14 |
| ChatSession.MapClickKeepsHistory | nairobi-dashboard/src/pages/PlannerChatbot.jsx:454-498 | a click keeps the earlier messages as a prefix and leaves an idle session idle |
| ChatSession.FollowUpView | nairobi-dashboard/src/pages/PlannerChatbot.jsx:500-546 | the question is appended; a reply follows only for a located `location_analysis` topic, infrastructure checked before risk; the context is unchanged |
| ChatSession.FollowUpKeepsHistory | nairobi-dashboard/src/pages/PlannerChatbot.jsx:500-546 | a follow-up question keeps the earlier messages as a prefix and leaves an idle session idle |
| ChatSession.Session.constructor | nairobi-dashboard/src/pages/PlannerChatbot.jsx:363-383 | the new session's state is `InitialView` |
| ChatSession.Session.AddMessage | nairobi-dashboard/src/pages/PlannerChatbot.jsx:422-432 | appends the message and changes nothing else |
| ChatSession.Session.SimulateTyping | nairobi-dashboard/src/pages/PlannerChatbot.jsx:434-452 | the new state is `TypedView` of the old; the delay is `ThinkingTime` |
| ChatSession.Session.Send | nairobi-dashboard/src/pages/PlannerChatbot.jsx:548-705 | the new state is `SendView` of the old |
| ChatSession.Session.Answer | nairobi-dashboard/src/pages/PlannerChatbot.jsx:556-705 | the `try`/`catch` dispatch on the intent: the new state is `Answered` of the old |
| ChatSession.Session.ShowHotspots | nairobi-dashboard/src/pages/PlannerChatbot.jsx:557-585 | the `air_hotspots` branch: the new state is `Answered` for that intent |
| ChatSession.Session.ShowWaterSites | nairobi-dashboard/src/pages/PlannerChatbot.jsx:587-613 | the `water_sampling` branch: the new state is `Answered` for that intent |
| ChatSession.Session.ShowComparison | nairobi-dashboard/src/pages/PlannerChatbot.jsx:615-645 | the `areas_comparison` branch: the new state is `Answered` for that intent |
| ChatSession.Session.TypeTopicReply | nairobi-dashboard/src/pages/PlannerChatbot.jsx:569-585 | a catalogue branch types its reply with the topic's follow-ups and then sets the topic |
| ChatSession.Session.HandleMapClick | nairobi-dashboard/src/pages/PlannerChatbot.jsx:454-498 | the new state is `MapClickView` of the old, with the 12-month series of the clicked point and its trend label as the page computes it |
| ChatSession.Session.ShowLocationAnalysis | nairobi-dashboard/src/pages/PlannerChatbot.jsx:466-497 | the analysis is typed with the location follow-ups, then the topic, last location and single marker are set |
| ChatSession.Session.HandleFollowUpQuestion | nairobi-dashboard/src/pages/PlannerChatbot.jsx:500-546 | the new state is `FollowUpView` of the old |
| WaterPollution.Find | nairobi-dashboard/src/pages/WaterPollution.jsx:47 | `find`: the first pollutant with the id, `None` iff there is none |
| WaterPollution.IsExceedingGuideline | nairobi-dashboard/src/pages/WaterPollution.jsx:46-49 | an error iff the id is unknown; otherwise true iff the value is strictly above the guideline |
| WaterPollution.GuidelineIsNotExceeded | nairobi-dashboard/src/pages/WaterPollution.jsx:48 | a value equal to the guideline does not exceed it |
| WaterPollution.CriticalIsFilter | nairobi-dashboard/src/pages/WaterPollution.jsx:97 | the critical sites are a subsequence of the samples, and a sample is in it iff it exceeds |
| WaterPollution.CriticalSites | nairobi-dashboard/src/pages/WaterPollution.jsx:97-98 | an error iff the pollutant is unknown; otherwise the exceeding samples in their original order |
| WaterPollution.NitrateCriticalSites | nairobi-dashboard/src/pages/WaterPollution.jsx:23-26 | for nitrates (guideline on line 16, filter on line 97): Industrial Area and Kibera |
| WaterPollution.LeadCriticalSites | nairobi-dashboard/src/pages/WaterPollution.jsx:23-26 | for lead (guideline on line 17, filter on line 97): Kibera only |
| WaterPollution.PhosphateCriticalSites | nairobi-dashboard/src/pages/WaterPollution.jsx:23-26 | for phosphate (guideline on line 18, filter on line 97): all four sites |
| WaterPollution.BodCriticalSites | nairobi-dashboard/src/pages/WaterPollution.jsx:23-26 | for BOD (guideline on line 19, filter on line 97): all four sites |
| SettlementGrowth.InitialFilters | nairobi-dashboard/src/pages/SettlementGrowth.jsx:6-11 | the initial filters |
| SettlementGrowth.HandleFilterChange | nairobi-dashboard/src/pages/SettlementGrowth.jsx:27-32 | exactly the named field is replaced; the others are unchanged |
| SettlementGrowth.Toggle | nairobi-dashboard/src/pages/SettlementGrowth.jsx:50-52 | checking appends at the end; unchecking removes every occurrence and keeps the other entries in order |
| SettlementGrowth.FilterKeepsAll | nairobi-dashboard/src/pages/SettlementGrowth.jsx:52 | a filter whose test keeps every entry returns the list unchanged (so unchecking an absent item changes nothing) |
| SettlementGrowth.ToggleRoundTrip | nairobi-dashboard/src/pages/SettlementGrowth.jsx:50-52 | checking a box and unchecking it again restores a list that did not hold the item |
| SettlementGrowth.OnLandUseChange | nairobi-dashboard/src/pages/SettlementGrowth.jsx:49-54 | a land-use checkbox changes only the land-use list, by `Toggle` |
| SettlementGrowth.OnInfrastructureChange | nairobi-dashboard/src/pages/SettlementGrowth.jsx:87-92 | an infrastructure checkbox changes only the infrastructure list, by `Toggle` |
| SettlementGrowth.OnDensitySlider | nairobi-dashboard/src/pages/SettlementGrowth.jsx:73 | the slider keeps the lower density bound and replaces only the upper |
| Geo.GeojsonPoint | nasa_healthy_cities/app/services/utils.py:17-22 | a point feature with two coordinates; no properties become `{}` (the helpers.py twin at lines 22-27 is the same) |
| Geo.PointRoundTrip | nasa_healthy_cities/app/utils/helpers.py:22-27 | the coordinates are stored longitude first: reading them back gives the latitude and longitude given |
| Geo.GeojsonFeatureCollection | nasa_healthy_cities/app/services/utils.py:25-26 | wraps the features unchanged |
| Geo.CircleBbox | nasa_healthy_cities/app/services/utils.py:29-33 | an error iff the cosine is zero; otherwise symmetric about the point, of height 2·radius/111320, ordered for a non-negative radius and positive cosine |
| Geo.ValidateCoordinates | nasa_healthy_cities/app/utils/helpers.py:8-12 | accepts iff latitude in [-90, 90] and longitude in [-180, 180]; latitude is reported first |
| Geo.LoadEnv | nasa_healthy_cities/app/utils/helpers.py:15-19 | an error iff required and both the variable and the default are missing or empty; otherwise the variable, the default or "" |
| Geo.BboxFromPoint | nasa_healthy_cities/app/utils/helpers.py:30-43 | a box symmetric about the point, half-height buffer/111, ordered for a non-negative buffer, at least as wide as high; the cosine is taken at the latitude clamped to ±89.9 and floored at 1e-6 |
| Geo.WiderAtLatitude | nasa_healthy_cities/app/utils/helpers.py:34-37 | with a cosine at most 1, the longitude half-width is at least the latitude half-height |
| Analyzer.EstimateExposure | nasa_healthy_cities/app/services/analyzer.py:30-35 | insufficient iff either input is missing; otherwise density × area × max(risk, 0), with the area echoed |
| Analyzer.ExposureNonNegative | nasa_healthy_cities/app/services/analyzer.py:34 | a non-negative density and area give a non-negative exposure |
| Analyzer.ExposureMonotoneInRisk | nasa_healthy_cities/app/services/analyzer.py:34 | exposure does not fall as the risk index rises |
| Analysis.WaterRisk | nasa_healthy_cities/app/services/analysis.py:8-11 | in [0, 100], 100 iff five or more water features, 20 per feature below that |
| Analysis.WaterRiskMonotone | nasa_healthy_cities/app/services/analysis.py:10 | more water features never lower the risk |
| Analysis.GreenspaceCover | nasa_healthy_cities/app/services/analysis.py:14-22 | the raster coverage whenever present (0 kept); else value·100 to 1 decimal; else 40.0; buffer and threshold echoed |
| Analysis.HealthAccess | nasa_healthy_cities/app/services/analysis.py:25-28 | the facility count is the number of features |
| Analysis.FacilityShortfall | nasa_healthy_cities/app/services/analysis.py:36 | `max(0, 100 − 20·count)` lies in [0, 100] and is 0 iff there are five or more facilities |
| Analysis.VulnerabilityIndex | nasa_healthy_cities/app/services/analysis.py:31-40 | the components are the three sub-results and the score is the composite rounded to 1 decimal |
| Analysis.VulnerabilityInRange | nasa_healthy_cities/app/services/analysis.py:35-36 | with coverage in [0, 100] the score is in [0, 100] |
| Analysis.VulnerabilityFallsWithCoverage | nasa_healthy_cities/app/services/analysis.py:36 | more green coverage never raises the score |
| Analysis.VulnerabilityFallsWithFacilities | nasa_healthy_cities/app/services/analysis.py:36 | more health facilities never raise the score |
| SettlementRouter.DefaultFilters | nasa_healthy_cities/app/routers/settlement.py:16-19 | the query defaults |
| SettlementRouter.PopulationPenalty | nasa_healthy_cities/app/routers/settlement.py:28-32 | 10 iff 0 < density < 1000; 5 iff density is 0 or in [1000, 2000); 0 otherwise |
| SettlementRouter.GreenPercent | nasa_healthy_cities/app/routers/settlement.py:24 | 50 when the coverage is missing or exactly 0, the coverage otherwise |
| SettlementRouter.FacilityTerm | nasa_healthy_cities/app/routers/settlement.py:33 | `min(100, 20·count)` lies in [0, 100] and is 100 iff there are five or more facilities |
| SettlementRouter.Score | nasa_healthy_cities/app/routers/settlement.py:33 | clamped to [0, 100] |
| SettlementRouter.ScoreMonotone | nasa_healthy_cities/app/routers/settlement.py:33 | non-decreasing in green percentage and in facility count |
| SettlementRouter.FacilityTermSaturates | nasa_healthy_cities/app/routers/settlement.py:33 | five or more facilities all score 100 |
| SettlementRouter.SettlementSuitability | nasa_healthy_cities/app/routers/settlement.py:12-50 | an error iff the coordinates are invalid, prefixed "Settlement suitability error: "; otherwise the filters echoed and the score rounded to 1 decimal, within 0.05 of `Score` and in [0, 100] |
| SettlementRouter.TopAreas | nasa_healthy_cities/app/routers/settlement.py:53-65 | three areas by strictly decreasing suitability |
| SettlementRouter.LandAvailability | nasa_healthy_cities/app/routers/settlement.py:68-81 | five wards by strictly decreasing land |
| EsriClient.Position | nasa_healthy_cities/app/services/esri_client.py:38-44 | a node's own lat/lon, any other element's centre; `None` iff either is missing |
| EsriClient.CopyTagsSpec | nasa_healthy_cities/app/services/esri_client.py:47-49 | exactly the listed tag keys present in the tags are copied, with their values |
| EsriClient.PropsOfSpec | nasa_healthy_cities/app/services/esri_client.py:45-49 | `name` is present iff the name tag is truthy; no keys but `name` and the four copied tags |
| EsriClient.FeaturesOfAppend | nasa_healthy_cities/app/services/esri_client.py:33-51 | the features of a concatenation are the concatenated features (input order kept) |
| EsriClient.FeaturesOfShape | nasa_healthy_cities/app/services/esri_client.py:33-51 | no more features than elements, each a point with two coordinates |
| EsriClient.FeatureOfOne | nasa_healthy_cities/app/services/esri_client.py:43-50 | an element with a position gives one feature at [lon, lat] of it, none otherwise |
| EsriClient.ElementsToFeatures | nasa_healthy_cities/app/services/esri_client.py:32-51 | the two nested loops compute `FeaturesOf` |
| EsriClient.OverpassQueryBox | nasa_healthy_cities/app/services/esri_client.py:56-59 | (and its twin at lines 84-86) an error iff the cosine is zero; otherwise south/west/north/east are min_lat/min_lon/max_lat/max_lon of the circle box for `int(radius·1000)` metres |
| EsriClient.StubsWithinSpec | nasa_healthy_cities/app/services/esri_client.py:76-79 | (and its twin at lines 106-109) a stub is kept iff its distance is at most the radius, carrying its rounded distance |
| EsriClient.StubsWithinAppend | nasa_healthy_cities/app/services/esri_client.py:76-79 | (and its twin at lines 106-109) the filter keeps stub-list order |
| EsriClient.NearbyFeatures | nasa_healthy_cities/app/services/esri_client.py:70-80 | an `elements` answer gives its features (empty for an empty list); a failed or element-less answer gives the stubs within the radius |
| EsriClient.NearbyWater | nasa_healthy_cities/app/services/esri_client.py:54-80 | the box error propagates; otherwise `NearbyFeatures` over the water stubs |
| EsriClient.NearbyHealthFacilities | nasa_healthy_cities/app/services/esri_client.py:83-110 | the same over the health-facility stubs |
| AirService.ParamMap | nasa_healthy_cities/app/services/air_service.py:11-16 | the four pollutants map to their OpenAQ parameters, nothing else does |
| AirService.AdvisoryForValue | nasa_healthy_cities/app/services/air_service.py:99-113 | PM2.5: ≥55 Unhealthy, ≥35 Unhealthy for Sensitive, else Moderate; NO₂ ≥40, CO ≥2, O₃ ≥60 Moderate else Good; any other pollutant Moderate |
| AirService.AdvisoryMonotone | nasa_healthy_cities/app/services/air_service.py:99-113 | a higher value never gives a milder advisory |
| AirService.FirstValueSpec | nasa_healthy_cities/app/services/air_service.py:128-132 | the value is that of the first measurement with the parameter and a value |
| AirService.CollectRows | nasa_healthy_cities/app/services/air_service.py:124-134 | the loop with `break` computes `RowsOf`: one row per result with a truthy location (`locationId` as fallback) and a value |
| AirService.InsertSpec | nasa_healthy_cities/app/services/air_service.py:138 | insertion keeps a list descending and adds the row once |
| AirService.InsertDescending | nasa_healthy_cities/app/services/air_service.py:138 | inserting into a descending list keeps it descending |
| AirService.InsertPermutes | nasa_healthy_cities/app/services/air_service.py:138 | inserting adds exactly the row to the multiset of rows |
| AirService.InsertKeepsTies | nasa_healthy_cities/app/services/air_service.py:138 | the inserted row goes before the rows of equal value it meets, so rows of one value keep their order |
| AirService.SortDescSpec | nasa_healthy_cities/app/services/air_service.py:138 | the sort is descending and a permutation |
| AirService.SortDescStable | nasa_healthy_cities/app/services/air_service.py:138 | rows of equal value keep their input order |
| AirService.TrendForRank | nasa_healthy_cities/app/services/air_service.py:143 | ranks 0-1 rising, 2-3 stable, 4 and beyond falling |
| AirService.FallbackHotspots | nasa_healthy_cities/app/services/air_service.py:152-158 | five entries by strictly decreasing value |
| AirService.FallbackAdvisoriesDifferFromThresholds | nasa_healthy_cities/app/services/air_service.py:155 | against the thresholds of lines 99-106, the fallback lists Eastleigh (58) as Moderate where the PM2.5 thresholds say Unhealthy, and as rising at rank 2 |
| AirService.EnrichRows | nasa_healthy_cities/app/services/air_service.py:141-150 | each row becomes its location, value to 2 decimals, trend by rank and advisory of the unrounded value |
| AirService.GetHotspots | nasa_healthy_cities/app/services/air_service.py:116-158 | no result or no rows gives the fallback list whatever the limit; otherwise the enriched first `limit` rows of the sorted rows |
| AirService.RankedHotspots | nasa_healthy_cities/app/services/air_service.py:138-149 | at most `limit` hotspots, taken from the rows, values non-increasing, advisories from unrounded values |
| AirService.DotsToUnderscores | nasa_healthy_cities/app/services/air_service.py:69 | every dot becomes an underscore and nothing else changes |
| AirService.CollectMonthRows | nasa_healthy_cities/app/services/air_service.py:47-62 | the reading loop keeps the readings with a value and a month, in order, as `MonthRowsOf` |
| AirService.MonthlyMeans | nasa_healthy_cities/app/services/air_service.py:63-69 | the month loop computes `GroupedUpTo` for all twelve months |
| AirService.GroupedUpToSpec | nasa_healthy_cities/app/services/air_service.py:60-72 | a month is listed iff some row falls in it, with the mean of its values rounded to 2 decimals |
| AirService.GroupedHasEveryMonth | nasa_healthy_cities/app/services/air_service.py:63-69 | every month up to `n` with a reading is listed with its mean |
| AirService.GroupedOnlyMonths | nasa_healthy_cities/app/services/air_service.py:63-69 | every listed point is the mean of a month up to `n` with a reading |
| AirService.GroupedInMonthOrder | nasa_healthy_cities/app/services/air_service.py:65-69 | the months are listed in January-to-December order |
| AirService.GroupedNonEmpty | nasa_healthy_cities/app/services/air_service.py:70-72 | at least one dated reading gives a non-empty output, so the live path never falls through to the stub |
| AirService.StubValue | nasa_healthy_cities/app/services/air_service.py:75-93 | a stub row has a value iff the key is one of PM2_5, NO2, CO, O3 |
| AirService.Upper | nasa_healthy_cities/app/services/air_service.py:90 | upper-casing maps each character by its ASCII upper case and leaves no lower-case letter |
| AirService.StubRowsWithSpec | nasa_healthy_cities/app/services/air_service.py:91-96 | the fallback is all twelve months in stub order with only that key, or nothing for an unknown key |
| AirService.KnownPollutantsHaveFallback | nasa_healthy_cities/app/services/air_service.py:90 | each of the four pollutants has a twelve-month fallback |
| AirService.FallbackSeries | nasa_healthy_cities/app/services/air_service.py:89-96 | the loop computes `StubRowsWith` for the fallback key |
| AirService.GetAirTimeseries | nasa_healthy_cities/app/services/air_service.py:31-96 | rows present give the month grouping under the dotted-to-underscored key, never empty; otherwise the fallback series |
| DataLoader.SplitJoin | nasa_healthy_cities/app/services/data_loader.py:16 | splitting a comma join of comma-free parts gives the parts back |
| DataLoader.ParametersRoundTrip | nasa_healthy_cities/app/services/data_loader.py:12-16 | the joined parameter list splits back into the three parameters, in order |
| DataLoader.JoinedParameters | nasa_healthy_cities/app/services/data_loader.py:12-16 | the joined list is `T2M,PRECTOTCORR,ALLSKY_SFC_SW_DWN` |
| DataLoader.PowerUrlFields | nasa_healthy_cities/app/services/data_loader.py:15-20 | the URL is the base and `?`; the rest splits at `&` into the seven query fields in order, and the `parameters` value splits at `,` back into the three requested parameters |
| DataLoader.LookupOwnKey | nasa_healthy_cities/app/services/data_loader.py:39-41 | looking up a date key of the object gives the value stored under it |
| DataLoader.BuildRows | nasa_healthy_cities/app/services/data_loader.py:35-42 | one row per T2M date, in key order, each parameter looked up by that date |
| DataLoader.RowsCarryTemperature | nasa_healthy_cities/app/services/data_loader.py:36-39 | each row's temperature is the one stored under its own date |
| DataLoader.MissingParameterIsNone | nasa_healthy_cities/app/services/data_loader.py:40 | a missing parameter gives `None` in every row |
| DataLoader.StatOf | nasa_healthy_cities/app/services/data_loader.py:50-63 | mean ≤ max and every value ≤ max |
| DataLoader.Anomaly | nasa_healthy_cities/app/services/data_loader.py:68 | the last value minus the mean, between min − mean and max − mean |
| DataLoader.SummaryOf | nasa_healthy_cities/app/services/data_loader.py:50-63 | keyed by exactly the three parameters, mean ≤ max for each |
| DataLoader.Anomalies | nasa_healthy_cities/app/services/data_loader.py:65-70 | the loop fills exactly the three parameters with their anomalies |
| DataLoader.ClimateStatsOf | nasa_healthy_cities/app/services/data_loader.py:47-71 | an empty frame gives empty summary and anomalies; otherwise `SummaryOf` and `Anomalies` |
| Common.RoundHalfEven | nasa_healthy_cities/app/services/air_service.py:146 | Python's `round` lands within one half of its argument, keeps whole numbers, and sends a tie to the even neighbour |
| Common.RoundDecimalsWithin | nasa_healthy_cities/app/services/analysis.py:39 | `round(x, n)` is within 0.5·10⁻ⁿ of x |
| Common.RoundDecimalsMonotone | nasa_healthy_cities/app/services/analysis.py:39 | `round(x, n)` keeps order |
| Common.Trunc | nasa_healthy_cities/app/services/esri_client.py:56 | Python's `int` truncates toward zero |

## Left out

- Reply wording: messages carry a structured reply kind and payload instead of the emoji and markdown text. The text's length enters only as a number for the typing delay.
- Timers, `async`/`await` and turn interleaving: each handler is one atomic state change. The delay is computed but not waited for. The `new Date()` labels, ids and timestamps are not modelled.
- The `catch` path of `send`: the fixtures cannot throw, so a `fault` flag stands for an exception raised while the answer is built.
- IEEE-754 arithmetic and `toFixed`: numbers are exact reals. `toFixed` strings (area and shares in `getGreenspaceCover`, CO in `getAirTimeseries`) are kept as the unrounded reals.
- LocalEngine.GetGreenspaceCover: the four shares are stated to sum to the coverage before `toFixed` rounds them.
- Sines, cosines and the haversine distance are parameters, so every property holds for any such function. Where a property needs a range (|sin| ≤ 1), the contract requires it.
- `Math.random`, which is a parameter of the model: a sequence of draws.
- Network I/O is left out: the OpenAQ, Overpass and NASA POWER requests, and their timeouts and status errors. Only the transformation of an already parsed answer is modelled; a failed request is the `None`/`Failed` case.
- The ndvi call chain of the analysis services and of the suitability router is not modelled. `ndvi_summary` passes arguments that `fetch_ndvi` does not accept. The formulas take the ndvi figures, feature lists and counts as parameters.
- pandas: NaN skipping, dtypes, `groupby` internals and the `try` around each anomaly. The modelled frame has no missing values, so the `None` anomaly cannot arise.
- The ISO date parsing in `get_air_timeseries`: a reading arrives with its month or without one. A reading without a month is one whose date is missing or unparsable.
- The `months` window of the OpenAQ query, and `_date_range_months`.
- The shapely `box` vertex list in `bbox_from_point`: the geometry is kept as its four bounds.
- `str(loc)` in `get_hotspots`: locations are strings, including a `locationId` that the service would stringify.
- The upper-casing and lower-casing cover ASCII letters only.
- `summarize_geotiff` (rasterio), `growth_map` (a constant GeoJSON document), the rendering, Leaflet and Recharts code, and the other pages and routers. They are presentation, wrappers or GIS library calls.
- The `_power_url` coordinates are the text Python prints for the two floats. That text is a parameter, not derived from a real.
- LocalEngine.GetFollowUpQuestions: only the catalogue's own five keys are modelled. In the page, a topic that names a property every object inherits (`constructor`, `toString`, `__proto__`) would find that property instead of falling back to the `general` list. The page passes only literal topic names from its own catalogue.
- DataLoader.Series: a JSON object's keys are taken to be distinct (the `Series` subset type). Python's `json` keeps the last of repeated keys, which the model does not describe.
- The live timeseries key for `NO₂` keeps the subscript character (only dots are replaced), while the fallback key is `NO2`. The model keeps both as written.

## Findings

| source | as written | input that shows it | evidently intended | confidence | as-written member | corrected member |
|---|---|---|---|---|---|---|
| nairobi-dashboard/src/pages/PlannerChatbot.jsx:151 | the summary trend is `improving` when the first month's value is below the last's | a series oldest-first whose pollution rises from 40 to 60 | rising pollution is `deteriorating`, falling pollution `improving` | high; not executed | LocalEngine.SummaryTrendAsWritten, LocalEngine.TrendLabelInverted | LocalEngine.SummaryTrend, LocalEngine.TrendLabelsDisagree |

The summaries the handlers build carry the label as the page computes it. `SummaryTrend` is the intended label, and `TrendLabelsDisagree` shows that the two are opposite whenever the first and last values differ.
