/** The conversation state of the planner assistant (PlannerChatbot.jsx) and
    the three events that change it: sending a question, clicking the map and
    picking a follow-up question. Each handler is a method of `Session` that
    updates the fields step by step, as the component's state setters do; the
    state it leaves is specified by a function on a `View` of the fields, and
    what the handlers promise is stated on those functions.

    Reply wording is not modelled: an assistant message records which reply
    it is and the data attached to it (`data.type` and `data.data` in the
    source). Timers are left out; the typing delay is computed, not awaited. */
module ChatSession {
  import opened Common
  import opened LocalEngine
  import opened IntentParser

  // ------------------------------------------------------------- messages

  /** The reply templates of the assistant. */
  datatype Reply =
    | WelcomeReply | HotspotsReply | WaterReply | ComparisonReply | SpatialReply
    | GreetingReply | ThanksReply | HelpReply | GeneralReply | ErrorReply
    | LocationReply | InfrastructureReply | RiskReply

  /** The structured data an assistant message carries. */
  datatype Payload =
    | NoData
    | HotspotsData(hotspots: seq<Hotspot>)
    | WaterData(sites: seq<WaterSite>)
    | ComparisonData(areas: seq<Area>)
    | LocationData(exposure: ExposureReport, greenspace: Greenspace, air: AirSeries, at: LatLon)
    | InfrastructureData
    | RiskData

  /** A chat message: what the user typed, the request a map click writes
      on the user's behalf, or an assistant reply. */
  datatype Message =
    | UserMessage(text: string)
    | MapClickMessage(at: LatLon)
    | AssistantMessage(reply: Reply, data: Payload)

  predicate FromUser(m: Message) { m.UserMessage? || m.MapClickMessage? }

  datatype MarkerKind = AirMarker | WaterMarker | ComparisonMarker | AnalysisMarker

  datatype Marker = Marker(position: LatLon, kind: MarkerKind)

  /** `conversationContext`. */
  datatype Context = Context(currentTopic: Topic, lastLocation: Option<LatLon>, followUpQuestions: seq<string>)

  /** The component's state. */
  datatype View = View(
    messages: seq<Message>,
    input: string,
    loading: bool,
    isTyping: bool,
    mapCenter: LatLon,
    mapZoom: int,
    markers: seq<Marker>,
    showMap: bool,
    context: Context)

  /** What the component reads from the local engine: the hotspot list, the
      sampling sites, the comparison areas and each topic's follow-up
      questions. */
  datatype Engine = Engine(
    hotspots: seq<Hotspot>,
    sites: seq<WaterSite>,
    areas: seq<Area>,
    followUps: Topic -> seq<string>)

  /** Every topic offers four follow-up questions. */
  predicate EngineOk(e: Engine)
  {
    forall t :: |e.followUps(t)| == 4
  }

  /** The local engine of the page: the default hotspots, the sampling
      sites, the comparison areas and `getFollowUpQuestions` by topic key. */
  function PageEngine(): (e: Engine)
    ensures EngineOk(e)
  {
    Engine(DefaultAirHotspots(), WaterSamplingSites(), LocalEngine.AreasComparison(),
      t => GetFollowUpQuestions(TopicKey(t)))
  }

  /** The page offers each topic the questions of that topic. */
  lemma PageEngineQuestions(t: Topic)
    ensures PageEngine().followUps(t) == Questions(t)
  {
    TopicQuestions(t);
  }

  /** No turn is in progress. */
  predicate Idle(v: View) { !v.loading && !v.isTyping }

  function NairobiCenter(): LatLon { LatLon(-1.2864, 36.8172) }

  /** The state when the page opens: the welcome message, an empty input,
      the map hidden and centred on Nairobi, and the general topic. */
  function InitialView(): (v: View)
    ensures Idle(v) && |v.messages| == 1 && !FromUser(v.messages[0])
    ensures v.context.lastLocation.None? && v.markers == []
  {
    View([AssistantMessage(WelcomeReply, NoData)], "", false, false, NairobiCenter(), 10, [],
         false, Context(GeneralTopic, None, []))
  }

  // ---------------------------------------------------------------- typing

  /** The pause before a reply appears: 15 ms per character, at least 800
      and at most 2000. */
  function ThinkingTime(replyLength: nat): (d: real)
    ensures 800.0 <= d <= 2000.0
    ensures replyLength as real * 15.0 <= 800.0 ==> d == 800.0
    ensures replyLength as real * 15.0 >= 2000.0 ==> d == 2000.0
    ensures 800.0 <= replyLength as real * 15.0 <= 2000.0 ==> d == replyLength as real * 15.0
  {
    Min(2000.0, Max(800.0, replyLength as real * 15.0))
  }

  /** The state after `simulateTyping` has shown a reply. */
  function TypedView(v: View, reply: Reply, data: Payload, followUps: seq<string>): View
  {
    v.(messages := v.messages + [AssistantMessage(reply, data)],
       isTyping := false,
       context := if |followUps| > 0 then v.context.(followUpQuestions := followUps) else v.context)
  }

  /** Typing appends exactly the reply, ends the typing indicator, and
      replaces the follow-up questions only with a non-empty list. */
  lemma TypingShowsOneReply(v: View, reply: Reply, data: Payload, followUps: seq<string>)
    ensures var w := TypedView(v, reply, data, followUps);
            && |w.messages| == |v.messages| + 1
            && v.messages <= w.messages
            && w.messages[|v.messages|] == AssistantMessage(reply, data)
            && !w.isTyping
            && (followUps == [] ==> w.context == v.context)
            && w.context.currentTopic == v.context.currentTopic
            && w.context.lastLocation == v.context.lastLocation
            && (w.context.followUpQuestions == v.context.followUpQuestions || w.context.followUpQuestions == followUps)
  {
    var w := TypedView(v, reply, data, followUps);
    assert w.messages[..|v.messages|] == v.messages;
  }

  // ------------------------------------------------------------------ send

  /** `(text ?? input).trim()`. */
  function Ask(v: View, text: Option<string>): string
  {
    Trim(if text.Some? then text.value else v.input)
  }

  /** The topic a reply moves the conversation to, if any. */
  function TopicOf(k: IntentKind): Option<Topic>
  {
    if k == AirHotspots then Some(AirHotspotsTopic)
    else if k == WaterSampling then Some(WaterSamplingTopic)
    else if k == AreasComparison then Some(AreasComparisonTopic)
    else None
  }

  function SendReply(k: IntentKind, fault: bool): Reply
  {
    if fault then ErrorReply
    else if k == AirHotspots then HotspotsReply
    else if k == WaterSampling then WaterReply
    else if k == AreasComparison then ComparisonReply
    else if k == SpatialAnalysis then SpatialReply
    else if k == Greeting then GreetingReply
    else if k == Thanks then ThanksReply
    else if k == Help then HelpReply
    else GeneralReply
  }

  function SendPayload(e: Engine, k: IntentKind, fault: bool): Payload
  {
    if fault then NoData
    else if k == AirHotspots then HotspotsData(e.hotspots)
    else if k == WaterSampling then WaterData(e.sites)
    else if k == AreasComparison then ComparisonData(e.areas)
    else NoData
  }

  function SendFollowUps(e: Engine, k: IntentKind, fault: bool): seq<string>
  {
    if fault || TopicOf(k).None? then [] else e.followUps(TopicOf(k).value)
  }

  function HotspotMarkers(hs: seq<Hotspot>): seq<Marker>
  {
    seq(|hs|, i requires 0 <= i < |hs| => Marker(hs[i].coordinates, AirMarker))
  }

  function SiteMarkers(sites: seq<WaterSite>): seq<Marker>
  {
    seq(|sites|, i requires 0 <= i < |sites| => Marker(sites[i].coordinates, WaterMarker))
  }

  function AreaMarkers(areas: seq<Area>): seq<Marker>
  {
    seq(|areas|, i requires 0 <= i < |areas| => Marker(areas[i].coordinates, ComparisonMarker))
  }

  /** The map changes a reply makes before it is typed. */
  function Display(e: Engine, v: View, k: IntentKind): View
  {
    if k == AirHotspots then
      v.(markers := HotspotMarkers(e.hotspots), mapCenter := NairobiCenter(), mapZoom := 11, showMap := true)
    else if k == WaterSampling then v.(markers := SiteMarkers(e.sites), showMap := true)
    else if k == AreasComparison then v.(markers := AreaMarkers(e.areas), showMap := true)
    else if k == SpatialAnalysis then v.(showMap := true)
    else v
  }

  /** The state after the `try` block of `send` has answered intent `k`:
      the map changes, the typed reply, and the new topic. */
  function Answered(e: Engine, u: View, k: IntentKind, fault: bool): View
  {
    var shown := if fault then u else Display(e, u, k);
    var typed := TypedView(shown, SendReply(k, fault), SendPayload(e, k, fault), SendFollowUps(e, k, fault));
    if !fault && TopicOf(k).Some? then typed.(context := typed.context.(currentTopic := TopicOf(k).value))
    else typed
  }

  /** What answering intent `k` does to a view: the reply is appended, typing
      ends, a fault leaves the map and the context alone, a catalogue intent
      shows the map and moves to its topic with four follow-up questions, and
      the last location is kept. */
  lemma AnsweredSpec(e: Engine, u: View, k: IntentKind, fault: bool)
    requires EngineOk(e)
    ensures var w := Answered(e, u, k, fault);
            && w.messages == u.messages + [AssistantMessage(SendReply(k, fault), SendPayload(e, k, fault))]
            && w.loading == u.loading && !w.isTyping && w.input == u.input
            && (fault ==> w.markers == u.markers && w.showMap == u.showMap && w.context == u.context)
            && (!fault && TopicOf(k).Some? ==> w.context.currentTopic == TopicOf(k).value && w.showMap)
            && (!fault && TopicOf(k).Some? ==> |w.context.followUpQuestions| == 4)
            && (w.context.currentTopic != u.context.currentTopic ==> !fault && TopicOf(k).Some?)
            && w.context.lastLocation == u.context.lastLocation
  {
    var shown := if fault then u else Display(e, u, k);
    assert shown.messages == u.messages && shown.context == u.context;
    assert shown.loading == u.loading && shown.input == u.input;
    assert !fault && TopicOf(k).Some? ==> shown.showMap;
  }

  /** The state after `send(text)`; `fault` stands for an exception raised
      while the reply is prepared, which the source answers with an error
      reply. */
  function SendView(e: Engine, v: View, text: Option<string>, fault: bool): (w: View)
    ensures Ask(v, text) == [] ==> w == v
  {
    var ask := Ask(v, text);
    if ask == [] then v
    else
      var asked := v.(input := "", messages := v.messages + [UserMessage(ask)], loading := true);
      Answered(e, asked, ParseIntent(ask).kind, fault).(loading := false)
  }

  /** A blank question changes nothing; otherwise the question and then one
      reply are appended, the input is cleared, the topic changes only for the
      three catalogue intents (which show the map and offer four follow-up
      questions), the last location is kept and an idle session ends idle. */
  lemma SendViewSpec(e: Engine, v: View, text: Option<string>, fault: bool)
    requires EngineOk(e)
    ensures var w := SendView(e, v, text, fault);
            && (Ask(v, text) != [] ==>
                  var k := ParseIntent(Ask(v, text)).kind;
                  && w.messages == v.messages + [UserMessage(Ask(v, text)), AssistantMessage(SendReply(k, fault), SendPayload(e, k, fault))]
                  && !w.loading && !w.isTyping && w.input == ""
                  && (fault ==> w.markers == v.markers && w.showMap == v.showMap && w.context == v.context)
                  && (!fault && TopicOf(k).Some? ==> w.context.currentTopic == TopicOf(k).value && w.showMap)
                  && (!fault && TopicOf(k).Some? ==> |w.context.followUpQuestions| == 4))
            && (w.context.currentTopic != v.context.currentTopic ==>
                  !fault && TopicOf(ParseIntent(Ask(v, text)).kind).Some?)
            && w.context.lastLocation == v.context.lastLocation
            && (Idle(v) ==> Idle(w))
  {
    var ask := Ask(v, text);
    if ask != [] {
      var k := ParseIntent(ask).kind;
      var asked := v.(input := "", messages := v.messages + [UserMessage(ask)], loading := true);
      AnsweredSpec(e, asked, k, fault);
      var answered := Answered(e, asked, k, fault);
      assert SendView(e, v, text, fault) == answered.(loading := false);
      var reply := AssistantMessage(SendReply(k, fault), SendPayload(e, k, fault));
      assert asked.messages + [reply] == v.messages + [UserMessage(ask), reply];
    }
  }

  /** Questions that carry a coordinate for the time series, greenspace or
      exposure tools get the generic overview: `send` has no branch for them. */
  lemma CoordinateIntentsGetOverview(e: Engine, v: View, text: Option<string>)
    requires Ask(v, text) != [] && UsesCoordinate(ParseIntent(Ask(v, text)).kind)
    ensures var w := SendView(e, v, text, false);
            && |w.messages| == |v.messages| + 2
            && w.messages[|v.messages| + 1] == AssistantMessage(GeneralReply, NoData)
            && w.context == v.context
  {
    var ask := Ask(v, text);
    var k := ParseIntent(ask).kind;
    var asked := v.(input := "", messages := v.messages + [UserMessage(ask)], loading := true);
    OverviewAnswer(e, asked, k);
    assert SendView(e, v, text, false) == Answered(e, asked, k, false).(loading := false);
  }

  /** A coordinate intent is answered with the overview and no follow-ups. */
  lemma OverviewAnswer(e: Engine, u: View, k: IntentKind)
    requires UsesCoordinate(k)
    ensures Answered(e, u, k, false) == TypedView(u, GeneralReply, NoData, [])
  {
    assert Display(e, u, k) == u && TopicOf(k).None?;
  }

  // ------------------------------------------------------------- map click

  /** The analysis attached to a map click at `at`. */
  function LocationPayload(at: LatLon, air: AirSeries, t: Trig): Payload
  {
    LocationData(GetExposure(at.lat, at.lon, t), GetGreenspaceCover(at.lat, at.lon, 1000.0, t), air, at)
  }

  /** The state after `handleMapClick` at `at`, given the twelve-month air
      series generated for the point. */
  function MapClickView(e: Engine, v: View, at: LatLon, air: AirSeries, t: Trig): View
  {
    LocationView(e, v.(mapCenter := at, mapZoom := 14, messages := v.messages + [MapClickMessage(at)]), at, air, t)
  }

  /** The reply to a click at `at`: the location analysis is typed with the
      location topic's follow-ups, the point becomes the last location and a
      single analysis marker replaces the others. */
  function LocationView(e: Engine, v: View, at: LatLon, air: AirSeries, t: Trig): View
  {
    var typed := TypedView(v, LocationReply, LocationPayload(at, air, t), e.followUps(LocationAnalysisTopic));
    typed.(context := typed.context.(currentTopic := LocationAnalysisTopic, lastLocation := Some(at)),
           markers := [Marker(at, AnalysisMarker)])
  }

  /** A click appends the click and the location analysis, moves to the
      location topic with its four follow-up questions and the clicked
      point, replaces the markers with one analysis marker, and centres the
      map on the point at zoom 14. */
  lemma MapClickSpec(e: Engine, v: View, at: LatLon, air: AirSeries, t: Trig)
    requires EngineOk(e)
    ensures var w := MapClickView(e, v, at, air, t);
            && w.messages == v.messages + [MapClickMessage(at), AssistantMessage(LocationReply, LocationPayload(at, air, t))]
            && w.context.currentTopic == LocationAnalysisTopic && w.context.lastLocation == Some(at)
            && w.context.followUpQuestions == e.followUps(LocationAnalysisTopic)
            && |w.context.followUpQuestions| == 4
            && w.markers == [Marker(at, AnalysisMarker)]
            && w.mapCenter == at && w.mapZoom == 14
            && w.loading == v.loading && !w.isTyping && w.input == v.input && w.showMap == v.showMap
  {
    var click := MapClickMessage(at);
    var reply := AssistantMessage(LocationReply, LocationPayload(at, air, t));
    assert v.messages + [click] + [reply] == v.messages + [click, reply];
    assert |e.followUps(LocationAnalysisTopic)| == 4;
  }

  // ------------------------------------------------------------- follow-up

  predicate AsksInfrastructure(q: string) { Contains(q, "infrastructure") || Contains(q, "development") }

  predicate AsksRisk(q: string) { Contains(q, "risk") || Contains(q, "environmental") }

  /** A follow-up is answered only after a location analysis. */
  predicate AnswersFollowUp(c: Context, q: string)
  {
    c.currentTopic == LocationAnalysisTopic && c.lastLocation.Some? && (AsksInfrastructure(q) || AsksRisk(q))
  }

  /** The state after `handleFollowUpQuestion(q)`. */
  function FollowUpView(v: View, q: string, t: Trig): (w: View)
    ensures w.input == ""
    ensures |w.messages| == |v.messages| + (if AnswersFollowUp(v.context, q) then 2 else 1)
    ensures v.messages + [UserMessage(q)] <= w.messages
    ensures AnswersFollowUp(v.context, q) ==>
              w.messages[|v.messages| + 1] ==
                if AsksInfrastructure(q) then AssistantMessage(InfrastructureReply, InfrastructureData)
                else AssistantMessage(RiskReply, RiskData)
    ensures w.context == v.context && w.markers == v.markers && w.loading == v.loading
    ensures Idle(v) ==> Idle(w)
  {
    var asked := v.(input := "", messages := v.messages + [UserMessage(q)]);
    if !AnswersFollowUp(v.context, q) then asked
    else if AsksInfrastructure(q) then TypedView(asked, InfrastructureReply, InfrastructureData, [])
    else TypedView(asked, RiskReply, RiskData, [])
  }

  /** Sending keeps the earlier messages and leaves an idle session idle. */
  lemma SendKeepsHistory(e: Engine, v: View, text: Option<string>, fault: bool)
    requires EngineOk(e) && Idle(v)
    ensures v.messages <= SendView(e, v, text, fault).messages && Idle(SendView(e, v, text, fault))
  {
    var s := SendView(e, v, text, fault);
    SendViewSpec(e, v, text, fault);
    if Ask(v, text) != [] {
      assert s.messages[..|v.messages|] == v.messages;
    }
  }

  /** A map click keeps the earlier messages and leaves an idle session idle. */
  lemma MapClickKeepsHistory(e: Engine, v: View, at: LatLon, air: AirSeries, t: Trig)
    requires EngineOk(e) && Idle(v)
    ensures v.messages <= MapClickView(e, v, at, air, t).messages && Idle(MapClickView(e, v, at, air, t))
  {
    var m := MapClickView(e, v, at, air, t);
    MapClickSpec(e, v, at, air, t);
    assert m.messages[..|v.messages|] == v.messages;
  }

  /** A follow-up question keeps the earlier messages and leaves an idle
      session idle. */
  lemma FollowUpKeepsHistory(v: View, q: string, t: Trig)
    requires Idle(v)
    ensures v.messages <= FollowUpView(v, q, t).messages && Idle(FollowUpView(v, q, t))
  {
    assert (v.messages + [UserMessage(q)])[..|v.messages|] == v.messages;
  }

  // --------------------------------------------------------------- session

  /** The assistant page: the React state of the component as fields. */
  class Session {
    var messages: seq<Message>
    var input: string
    var loading: bool
    var isTyping: bool
    var mapCenter: LatLon
    var mapZoom: int
    var markers: seq<Marker>
    var showMap: bool
    var context: Context
    /** The local engine the page calls. */
    const engine: Engine

    function Snapshot(): View
      reads this
    {
      View(messages, input, loading, isTyping, mapCenter, mapZoom, markers, showMap, context)
    }

    constructor ()
      ensures Snapshot() == InitialView()
      ensures engine == PageEngine()
    {
      engine := PageEngine();
      messages := [AssistantMessage(WelcomeReply, NoData)];
      input := "";
      loading := false;
      isTyping := false;
      mapCenter := NairobiCenter();
      mapZoom := 10;
      markers := [];
      showMap := false;
      context := Context(GeneralTopic, None, []);
    }

    /** `addMessage`: append one message. */
    method AddMessage(m: Message)
      modifies this
      ensures Snapshot() == old(Snapshot()).(messages := old(messages) + [m])
    {
      messages := messages + [m];
    }

    /** `simulateTyping`: show the typing indicator for the thinking time,
        then the reply, and keep non-empty follow-up questions. */
    method SimulateTyping(reply: Reply, data: Payload, replyLength: nat, followUps: seq<string>)
      returns (delay: real)
      modifies this
      ensures Snapshot() == TypedView(old(Snapshot()), reply, data, followUps)
      ensures delay == ThinkingTime(replyLength)
    {
      isTyping := true;
      delay := ThinkingTime(replyLength);
      AddMessage(AssistantMessage(reply, data));
      if |followUps| > 0 {
        context := context.(followUpQuestions := followUps);
      }
      isTyping := false;
    }

    /** `send(text)`; `text == None` sends the input box. */
    method Send(text: Option<string>, fault: bool, replyLength: nat)
      modifies this
      ensures Snapshot() == SendView(engine, old(Snapshot()), text, fault)
    {
      var ask := Trim(if text.Some? then text.value else input);
      if ask == [] {
        return;
      }
      input := "";
      AddMessage(UserMessage(ask));
      loading := true;
      Answer(ParseIntent(ask).kind, fault, replyLength);
      loading := false;
    }

    /** The `try` block of `send` for intent `k`: update the map, type the
        reply and move to the reply's topic; a fault types the error reply. */
    method Answer(k: IntentKind, fault: bool, replyLength: nat)
      modifies this
      ensures Snapshot() == Answered(engine, old(Snapshot()), k, fault)
    {
      var delay: real;
      if fault {
        delay := SimulateTyping(ErrorReply, NoData, replyLength, []);
      } else if k == AirHotspots {
        ShowHotspots(replyLength);
      } else if k == WaterSampling {
        ShowWaterSites(replyLength);
      } else if k == AreasComparison {
        ShowComparison(replyLength);
      } else if k == SpatialAnalysis {
        showMap := true;
        delay := SimulateTyping(SpatialReply, NoData, replyLength, []);
      } else {
        delay := SimulateTyping(SendReply(k, false), NoData, replyLength, []);
      }
    }

    /** The `air_hotspots` branch: one air marker per hotspot, the map centred
        on Nairobi at zoom 11, the list typed with its follow-up questions. */
    method ShowHotspots(replyLength: nat)
      modifies this
      ensures Snapshot() == Answered(engine, old(Snapshot()), AirHotspots, false)
    {
      var data := engine.hotspots;
      markers := HotspotMarkers(data);
      mapCenter := NairobiCenter();
      mapZoom := 11;
      showMap := true;
      TypeTopicReply(AirHotspotsTopic, HotspotsReply, HotspotsData(data), replyLength);
    }

    /** The `water_sampling` branch. */
    method ShowWaterSites(replyLength: nat)
      modifies this
      ensures Snapshot() == Answered(engine, old(Snapshot()), WaterSampling, false)
    {
      var data := engine.sites;
      markers := SiteMarkers(data);
      showMap := true;
      TypeTopicReply(WaterSamplingTopic, WaterReply, WaterData(data), replyLength);
    }

    /** The `areas_comparison` branch. */
    method ShowComparison(replyLength: nat)
      modifies this
      ensures Snapshot() == Answered(engine, old(Snapshot()), AreasComparison, false)
    {
      var data := engine.areas;
      markers := AreaMarkers(data);
      showMap := true;
      TypeTopicReply(AreasComparisonTopic, ComparisonReply, ComparisonData(data), replyLength);
    }

    /** A catalogue branch's last steps: type the reply with the topic's
        follow-up questions, then move the conversation to the topic. */
    method TypeTopicReply(topic: Topic, reply: Reply, data: Payload, replyLength: nat)
      modifies this
      ensures var w := TypedView(old(Snapshot()), reply, data, engine.followUps(topic));
              Snapshot() == w.(context := w.context.(currentTopic := topic))
    {
      var followUps := engine.followUps(topic);
      var delay := SimulateTyping(reply, data, replyLength, followUps);
      context := context.(currentTopic := topic);
    }

    /** `handleMapClick` at `at`: analyse the point with the default twelve
        months of air data and the default 1000 m greenspace buffer. */
    method HandleMapClick(at: LatLon, draws: seq<real>, t: Trig, replyLength: nat)
      returns (air: AirSeries)
      requires 12 <= |draws|
      modifies this
      ensures |air.series| == 12 && air.at == at
      ensures air.series == MonthlyPoints(BaseValue(at.lat, at.lon, t), 12, draws, t)
      ensures air.summary == Summarize(air.series)
      ensures Snapshot() == MapClickView(engine, old(Snapshot()), at, air, t)
    {
      var r := GetAirTimeseries(at.lat, at.lon, 12, draws, t);
      air := r.value;
      mapCenter := at;
      mapZoom := 14;
      AddMessage(MapClickMessage(at));
      assert Snapshot() == old(Snapshot()).(mapCenter := at, mapZoom := 14,
                                           messages := old(Snapshot()).messages + [MapClickMessage(at)]);
      ShowLocationAnalysis(at, air, t, replyLength);
    }

    /** The reply to a map click, typed into the session. */
    method ShowLocationAnalysis(at: LatLon, air: AirSeries, t: Trig, replyLength: nat)
      modifies this
      ensures Snapshot() == LocationView(engine, old(Snapshot()), at, air, t)
    {
      var followUps := engine.followUps(LocationAnalysisTopic);
      var delay := SimulateTyping(LocationReply, LocationPayload(at, air, t), replyLength, followUps);
      context := context.(currentTopic := LocationAnalysisTopic, lastLocation := Some(at));
      markers := [Marker(at, AnalysisMarker)];
    }

    /** `handleFollowUpQuestion(q)`. */
    method HandleFollowUpQuestion(q: string, t: Trig, replyLength: nat)
      modifies this
      ensures Snapshot() == FollowUpView(old(Snapshot()), q, t)
    {
      input := "";
      AddMessage(UserMessage(q));
      if context.currentTopic == LocationAnalysisTopic && context.lastLocation.Some? {
        var delay: real;
        if Contains(q, "infrastructure") || Contains(q, "development") {
          delay := SimulateTyping(InfrastructureReply, InfrastructureData, replyLength, []);
        } else if Contains(q, "risk") || Contains(q, "environmental") {
          delay := SimulateTyping(RiskReply, RiskData, replyLength, []);
        }
      }
    }
  }
}
