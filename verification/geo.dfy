// GeoJSON values and the coordinate helpers shared by the backend services
// (app/services/utils.py and app/utils/helpers.py).

module Geo {
  import opened Common

  /** A property value of a GeoJSON feature. */
  datatype Prop = PStr(s: string) | PNum(x: real)

  /** The geometry of a feature: a point `[lon, lat]` or an axis-aligned box. */
  datatype Geometry =
    | Point(coordinates: seq<real>)
    | Box(minLon: real, minLat: real, maxLon: real, maxLat: real)

  datatype Feature = Feature(geometry: Geometry, properties: map<string, Prop>)

  datatype FeatureCollection = FeatureCollection(features: seq<Feature>)

  /** A bounding box in the order `(min_lon, min_lat, max_lon, max_lat)`. */
  datatype BBox = BBox(minLon: real, minLat: real, maxLon: real, maxLat: real)

  /** Latitude and longitude read back from a point feature. */
  function PointLat(f: Feature): real
    requires f.geometry.Point? && |f.geometry.coordinates| == 2
  {
    f.geometry.coordinates[1]
  }

  function PointLon(f: Feature): real
    requires f.geometry.Point? && |f.geometry.coordinates| == 2
  {
    f.geometry.coordinates[0]
  }

  /**
   * A point feature; the coordinates are stored longitude first, and a
   * missing property dictionary becomes the empty one.
   */
  function GeojsonPoint(lat: real, lon: real, properties: Option<map<string, Prop>>): (f: Feature)
    ensures f.geometry.Point? && |f.geometry.coordinates| == 2
    ensures properties.None? ==> f.properties == map[]
    ensures properties.Some? ==> f.properties == properties.value
  {
    Feature(Point([lon, lat]), if properties.Some? then properties.value else map[])
  }

  /** Reading a point back gives the latitude and longitude it was built from. */
  lemma PointRoundTrip(lat: real, lon: real, properties: Option<map<string, Prop>>)
    ensures PointLat(GeojsonPoint(lat, lon, properties)) == lat
    ensures PointLon(GeojsonPoint(lat, lon, properties)) == lon
  {
  }

  function GeojsonFeatureCollection(features: seq<Feature>): (c: FeatureCollection)
    ensures c.features == features
  {
    FeatureCollection(features)
  }

  /** The distance in kilometres the services compare a radius against. */
  type Distance = (real, real, real, real) -> real

  /** Metres per degree of latitude, as the services approximate it. */
  const MetresPerDegree: real := 111320.0

  /**
   * A box of half-side `radiusM` metres around a point; `cosDeg` is the
   * cosine of an angle given in degrees. A zero cosine is a division by zero.
   */
  function CircleBbox(lat: real, lon: real, radiusM: int, cosDeg: real -> real): (r: Result<BBox>)
    ensures r.Err? <==> cosDeg(lat) == 0.0
    ensures r.Ok? ==> r.value.minLat + r.value.maxLat == 2.0 * lat
    ensures r.Ok? ==> r.value.minLon + r.value.maxLon == 2.0 * lon
    ensures r.Ok? ==> r.value.maxLat - r.value.minLat == 2.0 * radiusM as real / MetresPerDegree
    ensures r.Ok? && 0 <= radiusM && 0.0 < cosDeg(lat) ==>
      r.value.minLat <= r.value.maxLat && r.value.minLon <= r.value.maxLon
  {
    if cosDeg(lat) == 0.0 then Err("float division by zero")
    else
      var dlat := radiusM as real / MetresPerDegree;
      var dlon := radiusM as real / (MetresPerDegree * cosDeg(lat));
      assert 0 <= radiusM && 0.0 < cosDeg(lat) ==> 0.0 <= dlon by {
        if 0 <= radiusM && 0.0 < cosDeg(lat) {
          DivideKeepsOrder(0.0, radiusM as real, MetresPerDegree * cosDeg(lat));
        }
      }
      Ok(BBox(lon - dlon, lat - dlat, lon + dlon, lat + dlat))
  }

  /** The error of a coordinate check. */
  const LatitudeRange := "Latitude must be between -90 and 90"
  const LongitudeRange := "Longitude must be between -180 and 180"

  /** Rejects a latitude outside [-90, 90], then a longitude outside [-180, 180]. */
  function ValidateCoordinates(lat: real, lon: real): (r: Result<()>)
    ensures r.Ok? <==> -90.0 <= lat <= 90.0 && -180.0 <= lon <= 180.0
    ensures r.Err? ==> (r.msg == LatitudeRange <==> !(-90.0 <= lat <= 90.0))
    ensures r.Err? ==> (r.msg == LongitudeRange <==> -90.0 <= lat <= 90.0)
  {
    if lat < -90.0 || lat > 90.0 then Err(LatitudeRange)
    else if lon < -180.0 || lon > 180.0 then Err(LongitudeRange)
    else Ok(())
  }

  /**
   * Reads `name` from the environment `env`, falling back to `default`;
   * a required variable that is missing or empty is an error, and an
   * optional one that is missing reads as the empty string.
   */
  function LoadEnv(env: map<string, string>, name: string, default: Option<string>, required: bool): (r: Result<string>)
    ensures r.Err? <==> required && (name !in env || env[name] == "") && (name in env || default.None? || default.value == "")
    ensures r.Err? ==> r.msg == "Missing required environment variable: " + name
    ensures r.Ok? && name in env ==> r.value == env[name]
    ensures r.Ok? && name !in env ==> r.value == (if default.Some? then default.value else "")
  {
    var val := if name in env then Some(env[name]) else default;
    if required && (val.None? || val.value == "") then
      Err("Missing required environment variable: " + name)
    else if val.Some? then Ok(val.value)
    else Ok("")
  }

  /** Latitude used for the cosine, kept away from the poles. */
  const PolarCap: real := 89.9
  const MinCos: real := 0.000001

  /**
   * A box feature `bufferKm` kilometres around a point (111 km per degree);
   * the longitude extent divides by the cosine of the latitude clamped to
   * [-89.9, 89.9], floored at 1e-6, so it is never a division by zero.
   */
  function BboxFromPoint(lat: real, lon: real, bufferKm: real, cosDeg: real -> real): (f: Feature)
    ensures f.geometry.Box?
    ensures f.geometry.minLat + f.geometry.maxLat == 2.0 * lat
    ensures f.geometry.minLon + f.geometry.maxLon == 2.0 * lon
    ensures f.geometry.maxLat - f.geometry.minLat == 2.0 * bufferKm / 111.0
    ensures 0.0 <= bufferKm ==> f.geometry.minLat <= f.geometry.maxLat && f.geometry.minLon <= f.geometry.maxLon
    ensures 0.0 <= bufferKm && cosDeg(Clamp(-PolarCap, PolarCap, lat)) <= 1.0 ==>
      f.geometry.maxLat - f.geometry.minLat <= f.geometry.maxLon - f.geometry.minLon
    ensures f.properties == map["buffer_km" := PNum(bufferKm)]
  {
    var degLat := bufferKm / 111.0;
    var c := Max(cosDeg(Clamp(-PolarCap, PolarCap, lat)), MinCos);
    var degLon := bufferKm / (111.0 * c);
    WiderAtLatitude(bufferKm, c);
    Feature(Box(lon - degLon, lat - degLat, lon + degLon, lat + degLat), map["buffer_km" := PNum(bufferKm)])
  }

  /** A cosine at most 1 makes a degree of longitude no longer than one of latitude. */
  lemma WiderAtLatitude(bufferKm: real, c: real)
    requires MinCos <= c
    ensures 0.0 <= bufferKm ==> 0.0 <= bufferKm / (111.0 * c)
    ensures 0.0 <= bufferKm && c <= 1.0 ==> bufferKm / 111.0 <= bufferKm / (111.0 * c)
  {
    if 0.0 <= bufferKm {
      DivideKeepsOrder(0.0, bufferKm, 111.0 * c);
      if c <= 1.0 {
        var q := bufferKm / (111.0 * c);
        assert q * 111.0 * c == bufferKm;
        assert bufferKm / 111.0 == q * c;
      }
    }
  }
}
