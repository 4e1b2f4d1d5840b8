// The air quality service of app/services/air_service.py: the advisory
// thresholds, the hotspot ranking built from OpenAQ's latest readings, and
// the monthly series with its fixed fallback. The OpenAQ requests are
// replaced by their parsed outcome (`None` when a request fails).

module AirService {
  import opened Common

  // ------------------------------------------------------------ pollutants

  const PM25 := "PM2.5"
  const NO2 := "NO\U{2082}"
  const CO := "CO"
  const O3 := "O\U{2083}"

  /** `PARAM_MAP`: the OpenAQ parameter of each pollutant the service knows. */
  function ParamMap(pollutant: string): (r: Option<string>)
    ensures r.Some? <==> pollutant in {PM25, NO2, CO, O3}
  {
    if pollutant == PM25 then Some("pm25")
    else if pollutant == NO2 then Some("no2")
    else if pollutant == CO then Some("co")
    else if pollutant == O3 then Some("o3")
    else None
  }

  /** The OpenAQ parameter queried: unknown pollutants are queried as PM2.5. */
  function Parameter(pollutant: string): string
  {
    var p := ParamMap(pollutant);
    if p.Some? then p.value else "pm25"
  }

  // ------------------------------------------------------------- advisory

  datatype Advisory = Good | Moderate | UnhealthyForSensitive | Unhealthy

  /** Severity rank of an advisory, mildest first. */
  function Severity(a: Advisory): nat
  {
    match a
    case Good => 0
    case Moderate => 1
    case UnhealthyForSensitive => 2
    case Unhealthy => 3
  }

  /** `_advisory_for_value`: the health advisory for a reading of `pollutant`. */
  function AdvisoryForValue(pollutant: string, value: real): (a: Advisory)
    ensures pollutant == PM25 ==>
      (a == Unhealthy <==> 55.0 <= value) &&
      (a == UnhealthyForSensitive <==> 35.0 <= value < 55.0) &&
      (a == Moderate <==> value < 35.0)
    ensures pollutant == NO2 ==> (a == Moderate <==> 40.0 <= value) && (a == Good <==> value < 40.0)
    ensures pollutant == CO ==> (a == Moderate <==> 2.0 <= value) && (a == Good <==> value < 2.0)
    ensures pollutant == O3 ==> (a == Moderate <==> 60.0 <= value) && (a == Good <==> value < 60.0)
    ensures pollutant !in {PM25, NO2, CO, O3} ==> a == Moderate
  {
    if pollutant == PM25 then
      if value >= 55.0 then Unhealthy
      else if value >= 35.0 then UnhealthyForSensitive
      else Moderate
    else if pollutant == NO2 then (if value >= 40.0 then Moderate else Good)
    else if pollutant == CO then (if value >= 2.0 then Moderate else Good)
    else if pollutant == O3 then (if value >= 60.0 then Moderate else Good)
    else Moderate
  }

  /** A higher reading never gives a milder advisory. */
  lemma AdvisoryMonotone(pollutant: string, v1: real, v2: real)
    requires v1 <= v2
    ensures Severity(AdvisoryForValue(pollutant, v1)) <= Severity(AdvisoryForValue(pollutant, v2))
  {
  }

  // ------------------------------------------------------------- hotspots

  /** One measurement of an OpenAQ `latest` result. */
  datatype Measurement = Measurement(parameter: Option<string>, value: Option<real>)

  /**
   * An OpenAQ `latest` result; `locationId` is already in its string form,
   * and missing measurements are the empty list.
   */
  datatype LatestResult = LatestResult(location: Option<string>, locationId: Option<string>, measurements: seq<Measurement>)

  datatype Row = Row(location: string, value: real)

  /** A string that Python treats as true: present and non-empty. */
  predicate Truthy(s: Option<string>)
  {
    s.Some? && s.value != ""
  }

  /** `location or locationId`. */
  function LocationOf(r: LatestResult): Option<string>
  {
    if Truthy(r.location) then r.location else r.locationId
  }

  /** The value of the first measurement of `parameter` that has one. */
  function FirstValue(ms: seq<Measurement>, parameter: string): Option<real>
  {
    if ms == [] then None
    else if ms[0].parameter == Some(parameter) && ms[0].value.Some? then ms[0].value
    else FirstValue(ms[1..], parameter)
  }

  /** `FirstValue` finds a measurement of the parameter with a value, the first such. */
  lemma {:induction false} FirstValueSpec(ms: seq<Measurement>, parameter: string)
    ensures FirstValue(ms, parameter).Some? <==>
      exists i :: 0 <= i < |ms| && ms[i].parameter == Some(parameter) && ms[i].value.Some?
    ensures FirstValue(ms, parameter).Some? ==>
      exists i :: 0 <= i < |ms| && ms[i].parameter == Some(parameter) && ms[i].value == FirstValue(ms, parameter) &&
        forall j :: 0 <= j < i ==> !(ms[j].parameter == Some(parameter) && ms[j].value.Some?)
  {
    if ms != [] && !(ms[0].parameter == Some(parameter) && ms[0].value.Some?) {
      FirstValueSpec(ms[1..], parameter);
      var v := FirstValue(ms, parameter);
      assert forall i :: 0 < i < |ms| ==> ms[i] == ms[1..][i - 1];
      if v.Some? {
        var i :| 0 <= i < |ms[1..]| && ms[1..][i].parameter == Some(parameter) && ms[1..][i].value == v &&
          forall j :: 0 <= j < i ==> !(ms[1..][j].parameter == Some(parameter) && ms[1..][j].value.Some?);
        assert ms[i + 1] == ms[1..][i];
      }
    } else if ms != [] {
      assert ms[0].parameter == Some(parameter) && ms[0].value == FirstValue(ms, parameter);
    }
  }

  /** The row a result contributes, if it has a location and a value. */
  function RowOf(r: LatestResult, parameter: string): Option<Row>
  {
    var loc := LocationOf(r);
    var val := FirstValue(r.measurements, parameter);
    if Truthy(loc) && val.Some? then Some(Row(loc.value, val.value)) else None
  }

  /** The rows of a list of results, in result order. */
  function RowsOf(results: seq<LatestResult>, parameter: string): seq<Row>
  {
    if results == [] then []
    else
      var row := RowOf(results[|results| - 1], parameter);
      RowsOf(results[..|results| - 1], parameter) + (if row.Some? then [row.value] else [])
  }

  /** The row-collecting loop of `get_hotspots`. */
  method CollectRows(results: seq<LatestResult>, parameter: string) returns (rows: seq<Row>)
    ensures rows == RowsOf(results, parameter)
  {
    rows := [];
    for i := 0 to |results|
      invariant rows == RowsOf(results[..i], parameter)
    {
      var r := results[i];
      assert results[..i + 1][..i] == results[..i];
      var loc := if Truthy(r.location) then r.location else r.locationId;
      var measurements := r.measurements;
      var val: Option<real> := None;
      var j := 0;
      while j < |measurements|
        invariant 0 <= j <= |measurements|
        invariant val.None? ==> FirstValue(measurements, parameter) == FirstValue(measurements[j..], parameter)
        invariant val.Some? ==> val == FirstValue(measurements, parameter)
        decreases if val.Some? then 0 else |measurements| - j
      {
        var m := measurements[j];
        assert measurements[j..][1..] == measurements[j + 1..];
        if m.parameter == Some(parameter) && m.value.Some? {
          val := m.value;
          break;
        }
        j := j + 1;
      }
      if j == |measurements| && val.None? {
        assert measurements[j..] == [];
      }
      if Truthy(loc) && val.Some? {
        rows := rows + [Row(loc.value, val.value)];
      }
    }
    assert results[..|results|] == results;
  }

  // --------------------------------------------------------------- sorting

  /** Values never increase along `s`. */
  predicate Descending(s: seq<Row>)
  {
    forall i, j :: 0 <= i < j < |s| ==> s[i].value >= s[j].value
  }

  /** `x` placed before the first row of `t` whose value is not above it. */
  function Insert(x: Row, t: seq<Row>): seq<Row>
  {
    if t == [] || x.value >= t[0].value then [x] + t
    else [t[0]] + Insert(x, t[1..])
  }

  /** `rows.sort(key=value, reverse=True)`: a stable sort by descending value. */
  function SortDesc(s: seq<Row>): seq<Row>
  {
    if s == [] then [] else Insert(s[0], SortDesc(s[1..]))
  }

  lemma InsertSpec(x: Row, t: seq<Row>)
    requires Descending(t)
    ensures Descending(Insert(x, t))
    ensures multiset(Insert(x, t)) == multiset([x] + t)
  {
    InsertDescending(x, t);
    InsertPermutes(x, t);
  }

  /** Insertion adds `x` once and keeps every other row. */
  lemma {:induction false} InsertPermutes(x: Row, t: seq<Row>)
    ensures multiset(Insert(x, t)) == multiset([x] + t)
  {
    if t != [] && x.value < t[0].value {
      var tail := t[1..];
      InsertPermutes(x, tail);
      assert Insert(x, t) == [t[0]] + Insert(x, tail);
      assert multiset(Insert(x, t)) == multiset([t[0]]) + multiset([x] + tail);
      assert multiset([x] + tail) == multiset([x]) + multiset(tail);
      assert t == [t[0]] + tail;
      assert multiset([x] + t) == multiset([x]) + multiset([t[0]]) + multiset(tail);
    }
  }

  /** Insertion into a descending list keeps it descending. */
  lemma {:induction false} InsertDescending(x: Row, t: seq<Row>)
    requires Descending(t)
    ensures Descending(Insert(x, t))
  {
    if t == [] || x.value >= t[0].value {
      assert Insert(x, t) == [x] + t;
      DescendingCons(x, t);
    } else {
      var tail := t[1..];
      assert Descending(tail);
      InsertDescending(x, tail);
      InsertPermutes(x, tail);
      var rest := Insert(x, tail);
      forall j | 0 <= j < |rest|
        ensures t[0].value >= rest[j].value
      {
        assert rest[j] in multiset([x] + tail);
        if rest[j] != x {
          assert rest[j] in tail;
          var k :| 0 <= k < |tail| && tail[k] == rest[j];
          assert t[k + 1] == tail[k];
        }
      }
      assert Insert(x, t) == [t[0]] + rest;
      DescendingCons(t[0], rest);
    }
  }

  /** A row at least as large as every row of a descending list may lead it. */
  lemma DescendingCons(a: Row, s: seq<Row>)
    requires Descending(s)
    requires s != [] ==> a.value >= s[0].value
    ensures Descending([a] + s)
  {
    var t := [a] + s;
    forall i, j | 0 <= i < j < |t|
      ensures t[i].value >= t[j].value
    {
      if i == 0 {
        assert t[j] == s[j - 1];
        assert s[0].value >= s[j - 1].value || j == 1;
      } else {
        assert t[i] == s[i - 1] && t[j] == s[j - 1];
      }
    }
  }

  /** The sorted rows descend and are a permutation of the input. */
  lemma {:induction false} SortDescSpec(s: seq<Row>)
    ensures Descending(SortDesc(s))
    ensures multiset(SortDesc(s)) == multiset(s)
    ensures |SortDesc(s)| == |s|
  {
    if s != [] {
      SortDescSpec(s[1..]);
      InsertSpec(s[0], SortDesc(s[1..]));
      assert s == [s[0]] + s[1..];
      assert |SortDesc(s)| == |multiset(SortDesc(s))|;
    }
  }

  /** The rows of `s` with value `v`, in their order. */
  function WithValue(s: seq<Row>, v: real): seq<Row>
  {
    if s == [] then [] else (if s[0].value == v then [s[0]] else []) + WithValue(s[1..], v)
  }

  lemma {:induction false} InsertKeepsTies(x: Row, t: seq<Row>, v: real)
    ensures WithValue(Insert(x, t), v) == (if x.value == v then [x] else []) + WithValue(t, v)
  {
    if t == [] || x.value >= t[0].value {
      assert Insert(x, t) == [x] + t;
      WithValueCons(x, t, v);
    } else {
      var rest := Insert(x, t[1..]);
      assert Insert(x, t) == [t[0]] + rest;
      InsertKeepsTies(x, t[1..], v);
      WithValueCons(t[0], rest, v);
      assert t == [t[0]] + t[1..];
      WithValueCons(t[0], t[1..], v);
      assert !(x.value == v && t[0].value == v);
    }
  }

  lemma WithValueCons(a: Row, s: seq<Row>, v: real)
    ensures WithValue([a] + s, v) == (if a.value == v then [a] else []) + WithValue(s, v)
  {
    assert ([a] + s)[1..] == s;
  }

  /** Stability: rows of equal value keep their input order. */
  lemma {:induction false} SortDescStable(s: seq<Row>, v: real)
    ensures WithValue(SortDesc(s), v) == WithValue(s, v)
  {
    if s != [] {
      SortDescStable(s[1..], v);
      InsertKeepsTies(s[0], SortDesc(s[1..]), v);
    }
  }

  // ------------------------------------------------------------ enrichment

  datatype Trend = Rising | Stable | Falling

  /** The placeholder trend of the hotspot at rank `i`. */
  function TrendForRank(i: nat): (t: Trend)
    ensures t == Rising <==> i < 2
    ensures t == Stable <==> 2 <= i < 4
    ensures t == Falling <==> 4 <= i
  {
    if i < 2 then Rising else if i < 4 then Stable else Falling
  }

  datatype Hotspot = Hotspot(location: string, value: real, trend: Trend, advisory: Advisory)

  /** The fixed list returned when there is nothing to rank. */
  function FallbackHotspots(): (r: seq<Hotspot>)
    ensures |r| == 5
    ensures forall i, j :: 0 <= i < j < |r| ==> r[i].value > r[j].value
  {
    [Hotspot("Industrial Area", 78.0, Rising, Unhealthy),
     Hotspot("CBD", 65.0, Stable, UnhealthyForSensitive),
     Hotspot("Eastleigh", 58.0, Rising, Moderate),
     Hotspot("Kibera", 52.0, Stable, Moderate),
     Hotspot("Westlands", 45.0, Falling, Moderate)]
  }

  /** The fixed list does not follow the PM2.5 thresholds the live path applies. */
  lemma FallbackAdvisoriesDifferFromThresholds()
    ensures FallbackHotspots()[2].advisory != AdvisoryForValue(PM25, FallbackHotspots()[2].value)
    ensures FallbackHotspots()[2].trend != TrendForRank(2)
  {
  }

  /** The enriched entry for the row at rank `i`. */
  function Enrich(pollutant: string, row: Row, i: nat): Hotspot
  {
    Hotspot(row.location, RoundDecimals(row.value, 2), TrendForRank(i), AdvisoryForValue(pollutant, row.value))
  }

  /** The enrichment loop of `get_hotspots`. */
  method EnrichRows(pollutant: string, top: seq<Row>) returns (enriched: seq<Hotspot>)
    ensures |enriched| == |top|
    ensures forall i :: 0 <= i < |top| ==> enriched[i] == Enrich(pollutant, top[i], i)
  {
    enriched := [];
    for i := 0 to |top|
      invariant |enriched| == i
      invariant forall k :: 0 <= k < i ==> enriched[k] == Enrich(pollutant, top[k], k)
    {
      var item := top[i];
      var trend := if i < 2 then Rising else if i < 4 then Stable else Falling;
      enriched := enriched + [Hotspot(item.location, RoundDecimals(item.value, 2), trend, AdvisoryForValue(pollutant, item.value))];
    }
  }

  /**
   * `get_hotspots` given the parsed OpenAQ results (`None` when the request
   * failed): the `limit` highest rows, ranked and enriched, or the fixed list
   * when there is no row.
   */
  method GetHotspots(pollutant: string, limit: int, fetched: Option<seq<LatestResult>>) returns (r: seq<Hotspot>)
    ensures fetched.None? || RowsOf(fetched.value, Parameter(pollutant)) == [] ==> r == FallbackHotspots()
    ensures fetched.Some? && RowsOf(fetched.value, Parameter(pollutant)) != [] ==>
      var top := SlicePrefix(SortDesc(RowsOf(fetched.value, Parameter(pollutant))), limit);
      |r| == |top| && forall i :: 0 <= i < |top| ==> r[i] == Enrich(pollutant, top[i], i)
  {
    if fetched.None? {
      return FallbackHotspots();
    }
    var rows := CollectRows(fetched.value, Parameter(pollutant));
    if rows == [] {
      return FallbackHotspots();
    }
    var sorted := SortDesc(rows);
    var top := SlicePrefix(sorted, limit);
    r := EnrichRows(pollutant, top);
  }

  /**
   * What the ranked list promises: at most `limit` entries, values (rounded
   * to two decimals) never increasing, trend by rank, advisory from the
   * unrounded value, and every entry one of the input rows.
   */
  lemma RankedHotspots(pollutant: string, limit: int, rows: seq<Row>)
    ensures var top := SlicePrefix(SortDesc(rows), limit);
      (0 <= limit ==> |top| <= limit) &&
      multiset(top) <= multiset(rows) &&
      (forall i, j :: 0 <= i < j < |top| ==>
        Enrich(pollutant, top[i], i).value >= Enrich(pollutant, top[j], j).value) &&
      (forall i :: 0 <= i < |top| ==> Enrich(pollutant, top[i], i).advisory == AdvisoryForValue(pollutant, top[i].value))
  {
    var sorted := SortDesc(rows);
    SortDescSpec(rows);
    var top := SlicePrefix(sorted, limit);
    assert top == sorted[..|top|];
    assert sorted == top + sorted[|top|..];
    assert multiset(sorted) == multiset(top) + multiset(sorted[|top|..]);
    forall i, j | 0 <= i < j < |top|
      ensures Enrich(pollutant, top[i], i).value >= Enrich(pollutant, top[j], j).value
    {
      RoundDecimalsMonotone(top[j].value, top[i].value, 2);
    }
  }

  // ------------------------------------------------------- monthly series

  /** A month number, January being 1. */
  type Month = m: int | 1 <= m <= 12 witness 1

  function MonthLabel(m: Month): string
  {
    ["Jan", "Feb", "Mar", "Apr", "May", "Jun", "Jul", "Aug", "Sep", "Oct", "Nov", "Dec"][m - 1]
  }

  /**
   * An OpenAQ measurement: its value and the month of its UTC date, `None`
   * when the date is missing or does not parse.
   */
  datatype Reading = Reading(value: Option<real>, month: Option<Month>)

  datatype MonthRow = MonthRow(month: Month, value: real)

  /** A point of the returned series: a month label and one keyed value. */
  datatype SeriesPoint = SeriesPoint(date: string, key: string, value: real)

  /** The readings that have both a value and a date, in order. */
  function MonthRowsOf(readings: seq<Reading>): seq<MonthRow>
  {
    if readings == [] then []
    else
      var r := readings[|readings| - 1];
      MonthRowsOf(readings[..|readings| - 1]) +
        (if r.value.Some? && r.month.Some? then [MonthRow(r.month.value, r.value.value)] else [])
  }

  /** The values read in month `m`. */
  function ValuesIn(rows: seq<MonthRow>, m: Month): seq<real>
  {
    if rows == [] then []
    else (if rows[0].month == m then [rows[0].value] else []) + ValuesIn(rows[1..], m)
  }

  /** `s` with every "." replaced by "_". */
  function DotsToUnderscores(s: string): (r: string)
    ensures |r| == |s| && '.' !in r
    ensures forall i :: 0 <= i < |s| && s[i] != '.' ==> r[i] == s[i]
  {
    if s == [] then [] else [if s[0] == '.' then '_' else s[0]] + DotsToUnderscores(s[1..])
  }

  /** The monthly means of the months 1..n that have readings, in month order. */
  function GroupedUpTo(rows: seq<MonthRow>, key: string, n: nat): seq<SeriesPoint>
    requires n <= 12
  {
    if n == 0 then []
    else
      GroupedUpTo(rows, key, n - 1) + (if ValuesIn(rows, n) != [] then [Point(rows, key, n)] else [])
  }

  /** A month's point appears exactly when the month has readings, among the first `n` months. */
  lemma GroupedUpToSpec(rows: seq<MonthRow>, key: string, n: nat)
    requires n <= 12
    ensures forall m: Month :: m <= n && ValuesIn(rows, m) != [] ==> Point(rows, key, m) in GroupedUpTo(rows, key, n)
    ensures forall p :: p in GroupedUpTo(rows, key, n) ==>
      exists m: Month :: m <= n && ValuesIn(rows, m) != [] && p == Point(rows, key, m)
  {
    GroupedHasEveryMonth(rows, key, n);
    GroupedOnlyMonths(rows, key, n);
  }

  lemma {:induction false} GroupedHasEveryMonth(rows: seq<MonthRow>, key: string, n: nat)
    requires n <= 12
    ensures forall m: Month :: m <= n && ValuesIn(rows, m) != [] ==> Point(rows, key, m) in GroupedUpTo(rows, key, n)
  {
    if n > 0 {
      GroupedHasEveryMonth(rows, key, n - 1);
      var prev := GroupedUpTo(rows, key, n - 1);
      var last := if ValuesIn(rows, n) != [] then [Point(rows, key, n)] else [];
      assert GroupedUpTo(rows, key, n) == prev + last;
      forall m: Month | m <= n && ValuesIn(rows, m) != []
        ensures Point(rows, key, m) in prev + last
      {
        if m < n {
          assert Point(rows, key, m) in prev;
        } else {
          assert Point(rows, key, m) in last;
        }
      }
    }
  }

  lemma {:induction false} GroupedOnlyMonths(rows: seq<MonthRow>, key: string, n: nat)
    requires n <= 12
    ensures forall p :: p in GroupedUpTo(rows, key, n) ==>
      exists m: Month :: m <= n && ValuesIn(rows, m) != [] && p == Point(rows, key, m)
  {
    if n > 0 {
      GroupedOnlyMonths(rows, key, n - 1);
      var prev := GroupedUpTo(rows, key, n - 1);
      var last := if ValuesIn(rows, n) != [] then [Point(rows, key, n)] else [];
      assert GroupedUpTo(rows, key, n) == prev + last;
      forall p | p in prev + last
        ensures exists m: Month :: m <= n && ValuesIn(rows, m) != [] && p == Point(rows, key, m)
      {
        if p in prev {
          var m: Month :| m <= n - 1 && ValuesIn(rows, m) != [] && p == Point(rows, key, m);
          assert m <= n;
        } else {
          var m: Month := n;
          assert ValuesIn(rows, m) != [] && p == Point(rows, key, m);
        }
      }
    }
  }

  /** The point of month `m`: its label and its mean rounded to two decimals. */
  function Point(rows: seq<MonthRow>, key: string, m: Month): SeriesPoint
    requires ValuesIn(rows, m) != []
  {
    SeriesPoint(MonthLabel(m), key, RoundDecimals(Mean(ValuesIn(rows, m)), 2))
  }

  /** Every row's month has readings, so rows give at least one point. */
  lemma {:induction false} RowMonthHasValues(rows: seq<MonthRow>, i: nat)
    requires i < |rows|
    ensures rows[i].value in ValuesIn(rows, rows[i].month)
  {
    if i > 0 {
      RowMonthHasValues(rows[1..], i - 1);
    }
  }

  lemma GroupedNonEmpty(rows: seq<MonthRow>, key: string)
    requires rows != []
    ensures GroupedUpTo(rows, key, 12) != []
  {
    RowMonthHasValues(rows, 0);
    GroupedUpToSpec(rows, key, 12);
  }

  /** The points come in calendar order: their labels are a subsequence of Jan..Dec. */
  lemma {:induction false} GroupedInMonthOrder(rows: seq<MonthRow>, key: string, n: nat)
    requires n <= 12
    ensures IsSubsequence(Dates(GroupedUpTo(rows, key, n)), MonthLabels(n))
  {
    if n > 0 {
      GroupedInMonthOrder(rows, key, n - 1);
      var prev := GroupedUpTo(rows, key, n - 1);
      var last := if ValuesIn(rows, n) != [] then [Point(rows, key, n)] else [];
      DatesAppend(prev, last);
      SubsequenceAppend(Dates(prev), MonthLabels(n - 1), Dates(last), [MonthLabel(n)]);
    }
  }

  /** The labels of the first `n` months. */
  function MonthLabels(n: nat): seq<string>
    requires n <= 12
  {
    if n == 0 then [] else MonthLabels(n - 1) + [MonthLabel(n)]
  }

  function Dates(ps: seq<SeriesPoint>): seq<string>
  {
    if ps == [] then [] else [ps[0].date] + Dates(ps[1..])
  }

  lemma {:induction false} DatesAppend(a: seq<SeriesPoint>, b: seq<SeriesPoint>)
    ensures Dates(a + b) == Dates(a) + Dates(b)
  {
    if a != [] {
      assert (a + b)[1..] == a[1..] + b;
      DatesAppend(a[1..], b);
    } else {
      assert a + b == b;
    }
  }

  /** Subsequences of two lists concatenate to a subsequence of their concatenation. */
  lemma {:induction false} SubsequenceAppend<T>(a: seq<T>, s: seq<T>, b: seq<T>, t: seq<T>)
    requires IsSubsequence(a, s) && IsSubsequence(b, t)
    ensures IsSubsequence(a + b, s + t)
    decreases |s|
  {
    if s == [] {
      assert a == [];
      assert a + b == b && s + t == t;
    } else if a != [] && a[0] == s[0] {
      SubsequenceAppend(a[1..], s[1..], b, t);
      assert (a + b)[1..] == a[1..] + b && (s + t)[1..] == s[1..] + t;
    } else {
      SubsequenceAppend(a, s[1..], b, t);
      assert (s + t)[1..] == s[1..] + t;
      SubsequenceOfTail(a + b, s + t);
    }
  }

  /** The stub series of the fallback, one row per month. */
  datatype StubRow = StubRow(date: string, pm25: real, no2: real, co: real, o3: real)

  function StubSeries(): seq<StubRow>
  {
    [StubRow("Jan", 45.0, 32.0, 1.2, 28.0), StubRow("Feb", 52.0, 35.0, 1.4, 26.0),
     StubRow("Mar", 48.0, 38.0, 1.3, 29.0), StubRow("Apr", 65.0, 42.0, 1.6, 25.0),
     StubRow("May", 78.0, 48.0, 1.8, 23.0), StubRow("Jun", 82.0, 52.0, 2.1, 22.0),
     StubRow("Jul", 75.0, 45.0, 1.9, 24.0), StubRow("Aug", 68.0, 40.0, 1.7, 26.0),
     StubRow("Sep", 58.0, 36.0, 1.5, 27.0), StubRow("Oct", 52.0, 34.0, 1.4, 28.0),
     StubRow("Nov", 48.0, 33.0, 1.3, 29.0), StubRow("Dec", 42.0, 30.0, 1.2, 30.0)]
  }

  /** `row.get(key)` on a stub row. */
  function StubValue(row: StubRow, key: string): (v: Option<real>)
    ensures v.Some? <==> key in {"PM2_5", "NO2", "CO", "O3"}
  {
    if key == "PM2_5" then Some(row.pm25)
    else if key == "NO2" then Some(row.no2)
    else if key == "CO" then Some(row.co)
    else if key == "O3" then Some(row.o3)
    else None
  }

  function UpperChar(c: char): char
  {
    if 'a' <= c <= 'z' then (c as int - 32) as char else c
  }

  /** `str.upper()` on ASCII letters. */
  function Upper(s: string): (r: string)
    ensures |r| == |s|
    ensures forall i :: 0 <= i < |s| ==> r[i] == UpperChar(s[i])
    ensures forall i :: 0 <= i < |r| ==> !('a' <= r[i] <= 'z')
  {
    if s == [] then [] else [UpperChar(s[0])] + Upper(s[1..])
  }

  lemma UpperOfTwo(s: string)
    requires |s| == 2
    ensures Upper(s) == [UpperChar(s[0]), UpperChar(s[1])]
  {
    assert s[1..][1..] == [];
  }

  lemma UpperOfThree(s: string)
    requires |s| == 3
    ensures Upper(s) == [UpperChar(s[0]), UpperChar(s[1]), UpperChar(s[2])]
  {
    UpperOfTwo(s[1..]);
  }

  /** The key of the fallback series: `PM2_5`, else the upper-cased OpenAQ parameter or raw name. */
  function FallbackKey(pollutant: string): string
  {
    if pollutant == PM25 then "PM2_5"
    else Upper(var p := ParamMap(pollutant); if p.Some? then p.value else pollutant)
  }

  /** The stub rows that have `key`, keeping only the date and that value. */
  function StubRowsWith(stub: seq<StubRow>, key: string): seq<SeriesPoint>
  {
    if stub == [] then []
    else
      var v := StubValue(stub[|stub| - 1], key);
      StubRowsWith(stub[..|stub| - 1], key) + (if v.Some? then [SeriesPoint(stub[|stub| - 1].date, key, v.value)] else [])
  }

  /** Every stub row has every known key, so the fallback is all or nothing. */
  lemma {:induction false} StubRowsWithSpec(stub: seq<StubRow>, key: string)
    ensures key in {"PM2_5", "NO2", "CO", "O3"} ==> |StubRowsWith(stub, key)| == |stub|
    ensures key in {"PM2_5", "NO2", "CO", "O3"} ==> forall i :: 0 <= i < |stub| ==>
      StubRowsWith(stub, key)[i] == SeriesPoint(stub[i].date, key, StubValue(stub[i], key).value)
    ensures key !in {"PM2_5", "NO2", "CO", "O3"} ==> StubRowsWith(stub, key) == []
  {
    if stub != [] {
      StubRowsWithSpec(stub[..|stub| - 1], key);
    }
  }

  /** The four known pollutants map to keys the stub has. */
  lemma KnownPollutantsHaveFallback(pollutant: string)
    requires pollutant in {PM25, NO2, CO, O3}
    ensures FallbackKey(pollutant) in {"PM2_5", "NO2", "CO", "O3"}
  {
    if pollutant == NO2 {
      assert FallbackKey(pollutant) == Upper("no2");
      UpperOfThree("no2");
    } else if pollutant == CO {
      assert FallbackKey(pollutant) == Upper("co");
      UpperOfTwo("co");
    } else if pollutant == O3 {
      assert FallbackKey(pollutant) == Upper("o3");
      UpperOfTwo("o3");
    }
  }

  /** The fallback-stub loop of `get_air_timeseries`. */
  method FallbackSeries(pollutant: string) returns (out: seq<SeriesPoint>)
    ensures out == StubRowsWith(StubSeries(), FallbackKey(pollutant))
  {
    var stub := StubSeries();
    var key := FallbackKey(pollutant);
    out := [];
    for i := 0 to |stub|
      invariant out == StubRowsWith(stub[..i], key)
    {
      var row := stub[i];
      assert stub[..i + 1][..i] == stub[..i];
      var val := StubValue(row, key);
      if val.Some? {
        out := out + [SeriesPoint(row.date, key, val.value)];
      }
    }
    assert stub[..|stub|] == stub;
  }

  /**
   * `get_air_timeseries` given the parsed OpenAQ readings (`None` when the
   * request failed): the monthly means in calendar order when any reading
   * has a value and a date, the stub series otherwise.
   */
  method GetAirTimeseries(pollutant: string, fetched: Option<seq<Reading>>) returns (out: seq<SeriesPoint>)
    ensures fetched.Some? && MonthRowsOf(fetched.value) != [] ==>
      out == GroupedUpTo(MonthRowsOf(fetched.value), DotsToUnderscores(pollutant), 12) && out != []
    ensures fetched.None? || MonthRowsOf(fetched.value) == [] ==>
      out == StubRowsWith(StubSeries(), FallbackKey(pollutant))
  {
    if fetched.None? || fetched.value == [] {
      out := FallbackSeries(pollutant);
      return;
    }
    var rows := CollectMonthRows(fetched.value);
    if rows == [] {
      out := FallbackSeries(pollutant);
      return;
    }
    var key := DotsToUnderscores(pollutant);
    var dataOut := MonthlyMeans(rows, key);
    GroupedNonEmpty(rows, key);
    out := dataOut;
  }

  /** The row-collecting loop: readings with a value and a date, in order. */
  method CollectMonthRows(results: seq<Reading>) returns (rows: seq<MonthRow>)
    ensures rows == MonthRowsOf(results)
  {
    rows := [];
    for i := 0 to |results|
      invariant rows == MonthRowsOf(results[..i])
    {
      var r := results[i];
      assert results[..i + 1][..i] == results[..i];
      if r.value.None? || r.month.None? {
        continue;
      }
      rows := rows + [MonthRow(r.month.value, r.value.value)];
    }
    assert results[..|results|] == results;
  }

  /** The month loop: one point per month with readings, January first. */
  method MonthlyMeans(rows: seq<MonthRow>, key: string) returns (dataOut: seq<SeriesPoint>)
    ensures dataOut == GroupedUpTo(rows, key, 12)
  {
    dataOut := [];
    for m := 1 to 13
      invariant dataOut == GroupedUpTo(rows, key, m - 1)
    {
      var vs := ValuesIn(rows, m);
      if vs != [] {
        dataOut := dataOut + [SeriesPoint(MonthLabel(m), key, RoundDecimals(Mean(vs), 2))];
        assert dataOut == GroupedUpTo(rows, key, m - 1) + [Point(rows, key, m)];
      }
    }
  }
}
