// The NASA POWER climate loader of app/services/data_loader.py: the request
// URL, the per-day rows built from the parsed response, and the summary
// statistics. The request itself, today's date and the date parsing are
// outside the model: the response's `parameter` object is given, and
// dates stay the `YYYYMMDD` strings they are keyed by.

module DataLoader {
  import opened Common

  const PowerBaseUrl := "https://power.larc.nasa.gov/api/temporal/daily/point"
  const T2M := "T2M"
  const Precipitation := "PRECTOTCORR"
  const Radiation := "ALLSKY_SFC_SW_DWN"

  /** `POWER_PARAMETERS`, in the order they are requested. */
  const PowerParameters: seq<string> := [T2M, Precipitation, Radiation]

  // ------------------------------------------------------------------ URL

  /** `sep.join(parts)`. */
  function Join(parts: seq<string>, sep: char): string
  {
    if parts == [] then ""
    else if |parts| == 1 then parts[0]
    else parts[0] + [sep] + Join(parts[1..], sep)
  }

  /** `s.split(sep)`: the pieces between separators, never an empty list. */
  function Split(s: string, sep: char): (r: seq<string>)
    ensures r != []
  {
    if s == [] then [""]
    else
      var rest := Split(s[1..], sep);
      if s[0] == sep then [""] + rest else [[s[0]] + rest[0]] + rest[1..]
  }

  /** A piece without the separator extends the first piece of what follows. */
  lemma {:induction false} SplitPrefix(a: string, t: string, sep: char)
    requires sep !in a
    ensures Split(a + t, sep) == [a + Split(t, sep)[0]] + Split(t, sep)[1..]
  {
    if a != [] {
      assert (a + t)[1..] == a[1..] + t;
      SplitPrefix(a[1..], t, sep);
      assert [a[0]] + (a[1..] + Split(t, sep)[0]) == a + Split(t, sep)[0];
    } else {
      var r := Split(t, sep);
      assert a + t == t && a + r[0] == r[0];
      assert [r[0]] + r[1..] == r;
    }
  }

  /** Splitting a join of separator-free parts gives the parts back. */
  lemma {:induction false} SplitJoin(parts: seq<string>, sep: char)
    requires parts != []
    requires forall i :: 0 <= i < |parts| ==> sep !in parts[i]
    ensures Split(Join(parts, sep), sep) == parts
  {
    if |parts| == 1 {
      SplitPrefix(parts[0], "", sep);
      assert parts[0] + "" == parts[0];
    } else {
      var tail := Join(parts[1..], sep);
      SplitJoin(parts[1..], sep);
      var u := [sep] + tail;
      SplitAtSeparator(tail, sep);
      SplitPrefix(parts[0], u, sep);
      assert Join(parts, sep) == parts[0] + u;
      assert parts[0] + "" == parts[0];
      assert parts == [parts[0]] + parts[1..];
    }
  }

  /** A leading separator starts with an empty piece. */
  lemma SplitAtSeparator(tail: string, sep: char)
    ensures Split([sep] + tail, sep) == [""] + Split(tail, sep)
  {
    assert ([sep] + tail)[1..] == tail;
  }

  /** The POWER parameters comma-joined. */
  lemma JoinedParameters()
    ensures Join(PowerParameters, ',') == "T2M,PRECTOTCORR,ALLSKY_SFC_SW_DWN"
  {
    var ps := PowerParameters;
    assert Join(ps[2..], ',') == Radiation;
    assert Join(ps[1..], ',') == Precipitation + "," + Radiation;
  }

  /** Splitting the joined parameters gives them back, in order. */
  lemma ParametersRoundTrip()
    ensures Split(Join(PowerParameters, ','), ',') == PowerParameters
  {
    assert ',' !in T2M && ',' !in Precipitation && ',' !in Radiation;
    SplitJoin(PowerParameters, ',');
  }

  /** A `name=value` field of a query string. */
  function Field(name: string, value: string): string
  {
    name + "=" + value
  }

  /** The query fields of `_power_url`, in the order the URL lists them;
      `lat` and `lon` are given in the text Python prints for them. */
  function PowerQuery(lat: string, lon: string, start: string, end: string): seq<string>
  {
    [Field("parameters", Join(PowerParameters, ',')), Field("start", start), Field("end", end),
     Field("latitude", lat), Field("longitude", lon), Field("community", "RE"), Field("format", "JSON")]
  }

  /** `_power_url`: the base URL, `?`, and the query fields joined by `&`. */
  function PowerUrl(lat: string, lon: string, start: string, end: string): string
  {
    PowerBaseUrl + "?" + Join(PowerQuery(lat, lon, start, end), '&')
  }

  /**
   * When the dates and coordinates hold no `&`, the query after the base
   * URL and `?` splits at `&` into exactly the seven fields, and the value
   * of the `parameters` field splits at `,` into the requested parameters.
   */
  lemma PowerUrlFields(lat: string, lon: string, start: string, end: string)
    requires '&' !in lat && '&' !in lon && '&' !in start && '&' !in end
    ensures PowerUrl(lat, lon, start, end)[..|PowerBaseUrl| + 1] == PowerBaseUrl + "?"
    ensures Split(PowerUrl(lat, lon, start, end)[|PowerBaseUrl| + 1..], '&') == PowerQuery(lat, lon, start, end)
    ensures Split(PowerQuery(lat, lon, start, end)[0][|"parameters="|..], ',') == PowerParameters
  {
    var fs := PowerQuery(lat, lon, start, end);
    var url := PowerUrl(lat, lon, start, end);
    assert url[..|PowerBaseUrl| + 1] == PowerBaseUrl + "?";
    assert url[|PowerBaseUrl| + 1..] == Join(fs, '&');
    QueryFieldsFree(lat, lon, start, end);
    SplitJoin(fs, '&');
    FieldValue("parameters", Join(PowerParameters, ','));
    ParametersRoundTrip();
  }

  /** The value of a field follows its name and `=`. */
  lemma FieldValue(name: string, value: string)
    ensures Field(name, value)[|name| + 1..] == value
  {
    assert Field(name, value) == name + "=" + value;
  }

  /** A character in none of the parts, other than the separator, is not in their join. */
  lemma {:induction false} JoinFree(parts: seq<string>, sep: char, c: char)
    requires c != sep && forall i :: 0 <= i < |parts| ==> c !in parts[i]
    ensures c !in Join(parts, sep)
    decreases |parts|
  {
    if |parts| > 1 {
      JoinFree(parts[1..], sep, c);
    }
  }

  /** With `&`-free dates and coordinates, no query field holds `&`. */
  lemma QueryFieldsFree(lat: string, lon: string, start: string, end: string)
    requires '&' !in lat && '&' !in lon && '&' !in start && '&' !in end
    ensures forall i :: 0 <= i < |PowerQuery(lat, lon, start, end)| ==> '&' !in PowerQuery(lat, lon, start, end)[i]
  {
    assert '&' !in T2M && '&' !in Precipitation && '&' !in Radiation;
    JoinFree(PowerParameters, ',', '&');
  }

  // ----------------------------------------------------------------- rows

  /** A JSON object from date keys to (possibly null) values, in key order;
      an object's keys are distinct. */
  type Series = s: seq<(string, Option<real>)> | DistinctKeys(s)

  predicate DistinctKeys(s: seq<(string, Option<real>)>)
  {
    forall i, j :: 0 <= i < j < |s| ==> s[i].0 != s[j].0
  }

  /** `series.get(key)`: the value under `key`, `None` when absent or null. */
  function Lookup(s: Series, key: string): Option<real>
  {
    if s == [] then None else if s[0].0 == key then s[0].1 else Lookup(s[1..], key)
  }

  /** Looking up a key gives the value stored under it. */
  lemma {:induction false} LookupOwnKey(s: Series, i: nat)
    requires i < |s|
    ensures Lookup(s, s[i].0) == s[i].1
  {
    if i > 0 {
      assert DistinctKeys(s[1..]);
      LookupOwnKey(s[1..], i - 1);
    }
  }

  /** `parameter.get(name, {})`. */
  function SeriesOf(parameter: map<string, Series>, name: string): Series
  {
    if name in parameter then parameter[name] else []
  }

  datatype ClimateRow = ClimateRow(date: string, t2m: Option<real>, precipitation: Option<real>, radiation: Option<real>)

  /** The row for the day keyed `date`. */
  function RowFor(parameter: map<string, Series>, date: string): ClimateRow
  {
    ClimateRow(date, Lookup(SeriesOf(parameter, T2M), date), Lookup(SeriesOf(parameter, Precipitation), date),
      Lookup(SeriesOf(parameter, Radiation), date))
  }

  /** The row-building loop of `fetch_climate_daily`: one row per T2M key, in key order. */
  method BuildRows(parameter: map<string, Series>) returns (rows: seq<ClimateRow>)
    ensures |rows| == |SeriesOf(parameter, T2M)|
    ensures forall i :: 0 <= i < |rows| ==> rows[i] == RowFor(parameter, SeriesOf(parameter, T2M)[i].0)
  {
    var t2m := SeriesOf(parameter, T2M);
    rows := [];
    for i := 0 to |t2m|
      invariant |rows| == i
      invariant forall k :: 0 <= k < i ==> rows[k] == RowFor(parameter, t2m[k].0)
    {
      var dateStr := t2m[i].0;
      rows := rows + [ClimateRow(dateStr,
        Lookup(SeriesOf(parameter, T2M), dateStr),
        Lookup(SeriesOf(parameter, Precipitation), dateStr),
        Lookup(SeriesOf(parameter, Radiation), dateStr))];
    }
  }

  /** Each row's temperature is the one stored under its own date. */
  lemma RowsCarryTemperature(parameter: map<string, Series>, i: nat)
    requires i < |SeriesOf(parameter, T2M)|
    ensures RowFor(parameter, SeriesOf(parameter, T2M)[i].0).t2m == SeriesOf(parameter, T2M)[i].1
  {
    LookupOwnKey(SeriesOf(parameter, T2M), i);
  }

  /** A parameter missing from the response gives `None` in every row. */
  lemma MissingParameterIsNone(parameter: map<string, Series>, date: string)
    requires Precipitation !in parameter
    ensures RowFor(parameter, date).precipitation.None?
  {
  }

  // ----------------------------------------------------------- statistics

  /** A day of the climate frame, every value present. */
  datatype Day = Day(t2m: real, precipitation: real, radiation: real)

  function Column(frame: seq<Day>, name: string): (col: seq<real>)
    ensures |col| == |frame|
  {
    if frame == [] then []
    else
      var d := frame[0];
      [if name == T2M then d.t2m else if name == Precipitation then d.precipitation else d.radiation]
        + Column(frame[1..], name)
  }

  datatype Stat = Stat(mean: real, max: real)

  datatype ClimateStats = ClimateStats(summary: map<string, Stat>, anomalies: map<string, real>)

  /** The mean and the largest value of a non-empty column. */
  function StatOf(col: seq<real>): (s: Stat)
    requires col != []
    ensures s.mean <= s.max
    ensures forall x :: x in col ==> x <= s.max
  {
    MeanBetweenMinAndMax(col);
    Stat(Mean(col), MaxOf(col))
  }

  /** The last value's departure from the mean. */
  function Anomaly(col: seq<real>): (a: real)
    requires col != []
    ensures MinOf(col) - Mean(col) <= a <= MaxOf(col) - Mean(col)
  {
    assert col[|col| - 1] in col;
    col[|col| - 1] - Mean(col)
  }

  /** The summary of a non-empty frame: mean and maximum per parameter. */
  function SummaryOf(frame: seq<Day>): (summary: map<string, Stat>)
    requires frame != []
    ensures summary.Keys == {T2M, Precipitation, Radiation}
    ensures forall k :: k in summary ==> summary[k].mean <= summary[k].max
  {
    map[T2M := StatOf(Column(frame, T2M)),
        Precipitation := StatOf(Column(frame, Precipitation)),
        Radiation := StatOf(Column(frame, Radiation))]
  }

  /** The anomaly loop of `climate_stats`. */
  method Anomalies(frame: seq<Day>) returns (anomalies: map<string, real>)
    requires frame != []
    ensures anomalies.Keys == {T2M, Precipitation, Radiation}
    ensures forall k :: k in anomalies ==> anomalies[k] == Anomaly(Column(frame, k))
  {
    anomalies := map[];
    for i := 0 to |PowerParameters|
      invariant anomalies.Keys == set j | 0 <= j < i :: PowerParameters[j]
      invariant forall k :: k in anomalies ==> anomalies[k] == Anomaly(Column(frame, k))
    {
      var k := PowerParameters[i];
      var col := Column(frame, k);
      anomalies := anomalies[k := col[|col| - 1] - Mean(col)];
    }
    ParameterNames();
  }

  /** The names the parameter list holds. */
  lemma ParameterNames()
    ensures (set j | 0 <= j < |PowerParameters| :: PowerParameters[j]) == {T2M, Precipitation, Radiation}
  {
    var ps := PowerParameters;
    assert ps[0] == T2M && ps[1] == Precipitation && ps[2] == Radiation;
  }

  /**
   * `climate_stats`: nothing for an empty frame; otherwise the mean and
   * maximum of each parameter, and each parameter's last-day anomaly.
   */
  method ClimateStatsOf(frame: seq<Day>) returns (r: ClimateStats)
    ensures frame == [] ==> r.summary == map[] && r.anomalies == map[]
    ensures frame != [] ==> r.summary == SummaryOf(frame)
    ensures frame != [] ==> r.anomalies.Keys == {T2M, Precipitation, Radiation}
    ensures frame != [] ==> forall k :: k in r.anomalies ==> r.anomalies[k] == Anomaly(Column(frame, k))
  {
    if frame == [] {
      return ClimateStats(map[], map[]);
    }
    var stats := SummaryOf(frame);
    var anomalies := Anomalies(frame);
    r := ClimateStats(stats, anomalies);
  }
}
