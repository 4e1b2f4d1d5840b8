// The OpenStreetMap client of app/services/esri_client.py: turning Overpass
// elements into point features, the query box, and the fallback to fixed
// stubs within the radius. The Overpass request itself is replaced by its
// outcome, and the haversine distance by a parameter.

module EsriClient {
  import opened Common
  import opened Geo

  /** The `center` Overpass adds to ways and relations. */
  datatype Center = Center(lat: Option<real>, lon: Option<real>)

  /** An Overpass element; a missing `tags` object is the empty map. */
  datatype Element = Element(
    kind: Option<string>,
    lat: Option<real>,
    lon: Option<real>,
    center: Option<Center>,
    tags: map<string, string>)

  /** The tags copied from an element into its feature's properties, in order. */
  const CopiedKeys: seq<string> := ["amenity", "healthcare", "waterway", "natural"]

  /** The coordinates an element is placed at: its own for a node, its center otherwise. */
  function Position(el: Element): (p: Option<(real, real)>)
    ensures el.kind == Some("node") ==>
      (p.Some? <==> el.lat.Some? && el.lon.Some?) && (p.Some? ==> p.value == (el.lat.value, el.lon.value))
    ensures el.kind != Some("node") && (el.center.None? || el.center.value.lat.None? || el.center.value.lon.None?) ==> p.None?
    ensures el.kind != Some("node") && el.center.Some? && el.center.value.lat.Some? && el.center.value.lon.Some? ==>
      p == Some((el.center.value.lat.value, el.center.value.lon.value))
  {
    var (lat, lon) :=
      if el.kind == Some("node") then (el.lat, el.lon)
      else if el.center.Some? then (el.center.value.lat, el.center.value.lon)
      else (None, None);
    if lat.None? || lon.None? then None else Some((lat.value, lon.value))
  }

  /** The element has a non-empty `name` tag. */
  predicate HasName(tags: map<string, string>)
  {
    "name" in tags && tags["name"] != ""
  }

  /** Copies those of `keys` that `tags` has into `props`, one key after another. */
  function CopyTags(props: map<string, Prop>, tags: map<string, string>, keys: seq<string>): map<string, Prop>
  {
    if keys == [] then props
    else
      var p := CopyTags(props, tags, keys[..|keys| - 1]);
      var k := keys[|keys| - 1];
      if k in tags then p[k := PStr(tags[k])] else p
  }

  lemma {:induction false} CopyTagsSpec(props: map<string, Prop>, tags: map<string, string>, keys: seq<string>)
    ensures forall k :: k in CopyTags(props, tags, keys) <==> k in props || (k in keys && k in tags)
    ensures forall k :: k in keys && k in tags ==> CopyTags(props, tags, keys)[k] == PStr(tags[k])
    ensures forall k :: k !in keys && k in props ==> CopyTags(props, tags, keys)[k] == props[k]
  {
    if keys != [] {
      var init := keys[..|keys| - 1];
      CopyTagsSpec(props, tags, init);
      assert forall k :: k in keys <==> k in init || k == keys[|keys| - 1];
    }
  }

  /** The properties of an element's feature. */
  function PropsOf(tags: map<string, string>): map<string, Prop>
  {
    CopyTags(if HasName(tags) then map["name" := PStr(tags["name"])] else map[], tags, CopiedKeys)
  }

  /** Only a truthy name and the four context tags become properties. */
  lemma PropsOfSpec(tags: map<string, string>)
    ensures "name" in PropsOf(tags) <==> HasName(tags)
    ensures HasName(tags) ==> PropsOf(tags)["name"] == PStr(tags["name"])
    ensures forall k :: k in PropsOf(tags) ==> k == "name" || k in CopiedKeys
    ensures forall k :: k in CopiedKeys ==> (k in PropsOf(tags) <==> k in tags)
    ensures forall k :: k in CopiedKeys && k in tags ==> PropsOf(tags)[k] == PStr(tags[k])
  {
    var base: map<string, Prop> := if HasName(tags) then map["name" := PStr(tags["name"])] else map[];
    CopyTagsSpec(base, tags, CopiedKeys);
    assert "name" !in CopiedKeys;
  }

  /** The feature for one element, or none when it has no position. */
  function FeatureOf(el: Element): Option<Feature>
  {
    var p := Position(el);
    if p.None? then None else Some(GeojsonPoint(p.value.0, p.value.1, Some(PropsOf(el.tags))))
  }

  /** The features of a list of elements, in the order of the elements. */
  function FeaturesOf(elements: seq<Element>): seq<Feature>
  {
    if elements == [] then []
    else
      var f := FeatureOf(elements[|elements| - 1]);
      FeaturesOf(elements[..|elements| - 1]) + (if f.Some? then [f.value] else [])
  }

  /** Features of consecutive element lists follow one another. */
  lemma {:induction false} FeaturesOfAppend(a: seq<Element>, b: seq<Element>)
    ensures FeaturesOf(a + b) == FeaturesOf(a) + FeaturesOf(b)
    decreases |b|
  {
    if b == [] {
      assert a + b == a;
    } else {
      var init := b[..|b| - 1];
      assert (a + b)[..|a + b| - 1] == a + init;
      FeaturesOfAppend(a, init);
    }
  }

  /** At most one feature per element; every feature a point with two coordinates. */
  lemma {:induction false} FeaturesOfShape(elements: seq<Element>)
    ensures |FeaturesOf(elements)| <= |elements|
    ensures forall f :: f in FeaturesOf(elements) ==> f.geometry.Point? && |f.geometry.coordinates| == 2
  {
    if elements != [] {
      FeaturesOfShape(elements[..|elements| - 1]);
    }
  }

  /** An element without a position yields nothing; one with a position yields its point. */
  lemma FeatureOfOne(el: Element)
    ensures FeaturesOf([el]) == if Position(el).None? then [] else
      [Feature(Point([Position(el).value.1, Position(el).value.0]), PropsOf(el.tags))]
  {
    assert [el][..0] == [];
  }

  /** `_elements_to_features`. */
  method ElementsToFeatures(elements: seq<Element>) returns (features: seq<Feature>)
    ensures features == FeaturesOf(elements)
  {
    features := [];
    for i := 0 to |elements|
      invariant features == FeaturesOf(elements[..i])
    {
      var el := elements[i];
      var tags := el.tags;
      var lat, lon;
      if el.kind == Some("node") {
        lat, lon := el.lat, el.lon;
      } else {
        var center := if el.center.Some? then el.center.value else Center(None, None);
        lat, lon := center.lat, center.lon;
      }
      assert elements[..i + 1][..i] == elements[..i];
      if lat.None? || lon.None? {
        continue;
      }
      var props: map<string, Prop> := if HasName(tags) then map["name" := PStr(tags["name"])] else map[];
      var base := props;
      for j := 0 to |CopiedKeys|
        invariant props == CopyTags(base, tags, CopiedKeys[..j])
      {
        var key := CopiedKeys[j];
        assert CopiedKeys[..j + 1][..j] == CopiedKeys[..j];
        if key in tags {
          props := props[key := PStr(tags[key])];
        }
      }
      assert CopiedKeys[..|CopiedKeys|] == CopiedKeys;
      features := features + [GeojsonPoint(lat.value, lon.value, Some(props))];
    }
    assert elements[..|elements|] == elements;
  }

  /** The box an Overpass query is given, as `(south, west, north, east)`. */
  datatype QueryBox = QueryBox(south: real, west: real, north: real, east: real)

  /**
   * The query box for a radius in kilometres: the circle box of the radius
   * truncated to whole metres, reordered for Overpass.
   */
  function OverpassQueryBox(lat: real, lon: real, radiusKm: real, cosDeg: real -> real): (r: Result<QueryBox>)
    ensures r.Err? <==> cosDeg(lat) == 0.0
    ensures r.Ok? ==> var b := CircleBbox(lat, lon, Trunc(radiusKm * 1000.0), cosDeg).value;
      r.value.south == b.minLat && r.value.west == b.minLon && r.value.north == b.maxLat && r.value.east == b.maxLon
    ensures r.Ok? ==> r.value.south + r.value.north == 2.0 * lat && r.value.west + r.value.east == 2.0 * lon
    ensures r.Ok? && 0.0 <= radiusKm && 0.0 < cosDeg(lat) ==> r.value.south <= r.value.north && r.value.west <= r.value.east
  {
    var b := CircleBbox(lat, lon, Trunc(radiusKm * 1000.0), cosDeg);
    if b.Err? then Err(b.msg)
    else Ok(QueryBox(b.value.minLat, b.value.minLon, b.value.maxLat, b.value.maxLon))
  }

  /** What the Overpass request gave back. */
  datatype Overpass =
    | Failed              // the request failed: no data
    | WithoutElements     // data without an "elements" key
    | Elements(elements: seq<Element>)

  /** A fixed place used when Overpass gives nothing. */
  datatype Stub = Stub(name: string, lat: real, lon: real)

  function WaterBodiesFallback(): seq<Stub>
  {
    [Stub("Nairobi River", -1.2833, 36.8167), Stub("Mathare River", -1.2650, 36.8650)]
  }

  function HealthFacilitiesFallback(): seq<Stub>
  {
    [Stub("Kenyatta National Hospital", -1.3002, 36.8060),
     Stub("Mbagathi Hospital", -1.3105, 36.7929),
     Stub("Mama Lucy Kibaki Hospital", -1.2815, 36.9159)]
  }

  /** The feature for a stub at distance `d`, with its name and the distance to two decimals. */
  function StubFeature(s: Stub, d: real): Feature
  {
    GeojsonPoint(s.lat, s.lon, Some(map["name" := PStr(s.name), "distance_km" := PNum(RoundDecimals(d, 2))]))
  }

  /** The stubs within `radiusKm` of the point, in stub order. */
  function StubsWithin(stubs: seq<Stub>, lat: real, lon: real, radiusKm: real, distance: Distance): seq<Feature>
  {
    if stubs == [] then []
    else
      var s := stubs[|stubs| - 1];
      var d := distance(lat, lon, s.lat, s.lon);
      StubsWithin(stubs[..|stubs| - 1], lat, lon, radiusKm, distance) +
        (if d <= radiusKm then [StubFeature(s, d)] else [])
  }

  /** A stub's feature is in the fallback exactly when it lies within the radius. */
  lemma {:induction false} StubsWithinSpec(stubs: seq<Stub>, lat: real, lon: real, radiusKm: real, distance: Distance)
    ensures |StubsWithin(stubs, lat, lon, radiusKm, distance)| <= |stubs|
    ensures forall i :: 0 <= i < |stubs| && distance(lat, lon, stubs[i].lat, stubs[i].lon) <= radiusKm ==>
      StubFeature(stubs[i], distance(lat, lon, stubs[i].lat, stubs[i].lon)) in StubsWithin(stubs, lat, lon, radiusKm, distance)
    ensures forall f :: f in StubsWithin(stubs, lat, lon, radiusKm, distance) ==>
      exists i :: 0 <= i < |stubs| && distance(lat, lon, stubs[i].lat, stubs[i].lon) <= radiusKm &&
        f == StubFeature(stubs[i], distance(lat, lon, stubs[i].lat, stubs[i].lon))
  {
    if stubs != [] {
      var init := stubs[..|stubs| - 1];
      StubsWithinSpec(init, lat, lon, radiusKm, distance);
      forall f | f in StubsWithin(stubs, lat, lon, radiusKm, distance)
        ensures exists i :: 0 <= i < |stubs| && distance(lat, lon, stubs[i].lat, stubs[i].lon) <= radiusKm &&
                            f == StubFeature(stubs[i], distance(lat, lon, stubs[i].lat, stubs[i].lon))
      {
        if f in StubsWithin(init, lat, lon, radiusKm, distance) {
          var i :| 0 <= i < |init| && distance(lat, lon, init[i].lat, init[i].lon) <= radiusKm &&
            f == StubFeature(init[i], distance(lat, lon, init[i].lat, init[i].lon));
          assert stubs[i] == init[i];
        } else {
          assert stubs[|stubs| - 1] == stubs[|stubs| - 1];
        }
      }
    }
  }

  /** Fallback features of consecutive stub lists follow one another. */
  lemma {:induction false} StubsWithinAppend(a: seq<Stub>, b: seq<Stub>, lat: real, lon: real, radiusKm: real, distance: Distance)
    ensures StubsWithin(a + b, lat, lon, radiusKm, distance) ==
      StubsWithin(a, lat, lon, radiusKm, distance) + StubsWithin(b, lat, lon, radiusKm, distance)
    decreases |b|
  {
    if b == [] {
      assert a + b == a;
    } else {
      var init := b[..|b| - 1];
      assert (a + b)[..|a + b| - 1] == a + init;
      StubsWithinAppend(a, init, lat, lon, radiusKm, distance);
    }
  }

  /**
   * The features near a point: the Overpass elements when the response has
   * an element list (an empty one included), the stubs within the radius
   * otherwise.
   */
  method NearbyFeatures(lat: real, lon: real, radiusKm: real, response: Overpass, stubs: seq<Stub>, distance: Distance)
    returns (c: FeatureCollection)
    ensures response.Elements? ==> c.features == FeaturesOf(response.elements)
    ensures !response.Elements? ==> c.features == StubsWithin(stubs, lat, lon, radiusKm, distance)
  {
    if response.Elements? {
      var features := ElementsToFeatures(response.elements);
      return GeojsonFeatureCollection(features);
    }
    var features: seq<Feature> := [];
    for i := 0 to |stubs|
      invariant features == StubsWithin(stubs[..i], lat, lon, radiusKm, distance)
    {
      var s := stubs[i];
      var d := distance(lat, lon, s.lat, s.lon);
      assert stubs[..i + 1][..i] == stubs[..i];
      if d <= radiusKm {
        features := features + [StubFeature(s, d)];
      }
    }
    assert stubs[..|stubs|] == stubs;
    c := GeojsonFeatureCollection(features);
  }

  /** The radius searched when none is given, in kilometres. */
  const DefaultRadiusKm: real := 10.0

  /** `nearby_water`: a zero cosine in the query box is the exception the source raises. */
  method NearbyWater(lat: real, lon: real, radiusKm: real, response: Overpass, cosDeg: real -> real, distance: Distance)
    returns (r: Result<FeatureCollection>)
    ensures r.Err? <==> cosDeg(lat) == 0.0
    ensures r.Ok? && response.Elements? ==> r.value.features == FeaturesOf(response.elements)
    ensures r.Ok? && !response.Elements? ==>
      r.value.features == StubsWithin(WaterBodiesFallback(), lat, lon, radiusKm, distance)
  {
    var box := OverpassQueryBox(lat, lon, radiusKm, cosDeg);
    if box.Err? {
      return Err(box.msg);
    }
    var c := NearbyFeatures(lat, lon, radiusKm, response, WaterBodiesFallback(), distance);
    return Ok(c);
  }

  /** `nearby_health_facilities`: as `NearbyWater`, over the health facility stubs. */
  method NearbyHealthFacilities(lat: real, lon: real, radiusKm: real, response: Overpass, cosDeg: real -> real, distance: Distance)
    returns (r: Result<FeatureCollection>)
    ensures r.Err? <==> cosDeg(lat) == 0.0
    ensures r.Ok? && response.Elements? ==> r.value.features == FeaturesOf(response.elements)
    ensures r.Ok? && !response.Elements? ==>
      r.value.features == StubsWithin(HealthFacilitiesFallback(), lat, lon, radiusKm, distance)
  {
    var box := OverpassQueryBox(lat, lon, radiusKm, cosDeg);
    if box.Err? {
      return Err(box.msg);
    }
    var c := NearbyFeatures(lat, lon, radiusKm, response, HealthFacilitiesFallback(), distance);
    return Ok(c);
  }
}
