/** The dashboard's logic: the session-state update after a fetch, the data-table
    filters, the overview metrics and the grouping of key metrics into rows. All
    rendering is left out. */
module App {
  import opened Wrappers
  import opened Seqs
  import opened Tables
  import opened DataFetcher
  import opened AiAnalyzer

  // ---------------------------------------------------------------------------
  // The outside world of one fetch

  /** Everything a fetch and an analysis depend on beyond their arguments: the two
      HTTP exchanges, the schedule-source key, the date parser, the clock, the random
      draws, the model client (if a key is configured) and the one-decimal renderer. */
  datatype Services = Services(
    openSkyGet: OpenSkyRequest -> Response,
    flightsGet: FlightsRequest -> Response,
    aviationStackKey: string,
    parse: string -> Option<int>,
    now: int,
    sample: nat -> nat,
    client: Option<(Topic, Summary) -> Reply>,
    fmt1: real -> string)

  const OpenSkySource := "OpenSky Network"

  /** The fetch `fetch_and_analyze_data` performs for the chosen source. */
  function FetchFor(env: Services, source: string, country: string, timeRange: string): Option<Table> {
    if source == OpenSkySource then
      FetchOpenSky(country, timeRange, env.openSkyGet, env.now, env.sample)
    else
      AviationStackResult(env.aviationStackKey, country, timeRange, env.flightsGet, env.parse, env.now, env.sample)
  }

  /** A fetch result the session accepts: present and with at least one row. */
  predicate Accepted(fetched: Option<Table>) {
    fetched.Some? && !IsEmpty(fetched.value)
  }

  // ---------------------------------------------------------------------------
  // Session state

  /** `st.session_state.flight_data` and `st.session_state.analysis_results`. */
  class Session {
    var flightData: Option<Table>
    var analysisResults: Option<Analysis>

    /** A stored table is never empty. */
    predicate Valid()
      reads this
    {
      flightData.Some? ==> !IsEmpty(flightData.value)
    }

    constructor ()
      ensures Valid() && flightData.None? && analysisResults.None?
    {
      flightData := None;
      analysisResults := None;
    }

    /** `fetch_and_analyze_data`: the stored table is replaced only by an accepted fetch
        result; the stored analysis is replaced only after an accepted fetch with the
        analysis switched on, by the analysis of the new table. */
    method FetchAndAnalyze(
      env: Services, source: string, country: string, airportCode: string, timeRange: string,
      kinds: seq<string>, useAi: bool)
      returns (fetched: Option<Table>)
      requires Valid()
      modifies this
      ensures Valid()
      ensures fetched == FetchFor(env, source, country, timeRange)
      ensures Accepted(fetched) ==> flightData == fetched
      ensures !Accepted(fetched) ==> flightData == old(flightData) && analysisResults == old(analysisResults)
      ensures !useAi ==> analysisResults == old(analysisResults)
      ensures Accepted(fetched) && useAi && env.client.None? ==>
        analysisResults == Some(BasicAnalysis(fetched.value, kinds, env.fmt1))
      ensures Accepted(fetched) && useAi && env.client.Some? ==>
        analysisResults == Some(ClientAnalysis(fetched.value, kinds, env.client.value))
    {
      if source == OpenSkySource {
        fetched := FetchOpenSky(country, timeRange, env.openSkyGet, env.now, env.sample);
      } else {
        fetched := FetchAviationStack(
          env.aviationStackKey, country, airportCode, timeRange, env.flightsGet, env.parse, env.now, env.sample);
      }
      if fetched.Some? && !IsEmpty(fetched.value) {
        flightData := fetched;
        if useAi {
          var results := AnalyzeFlightData(fetched.value, kinds, env.client, env.fmt1);
          analysisResults := Some(results);
        }
      }
    }

    /** The data-table block of `main`: the stored table narrowed by the origin and the
        destination filters, then cut to `showRows` rows; nothing without a stored table. */
    method FilterForDisplay(originFilter: seq<Option<string>>, destFilter: seq<Option<string>>, showRows: nat)
      returns (shown: Option<Table>)
      requires Valid()
      ensures shown.Some? <==> flightData.Some?
      ensures shown.Some? ==> shown.value == Head(Selected(flightData.value, originFilter, destFilter), showRows)
    {
      if flightData.None? {
        return None;
      }
      var filtered := flightData.value;
      if originFilter != [] && HasColumn(filtered, "origin") {
        SourceColumns(filtered);
        filtered := Schedules(WithOrigins(filtered.schedules, originFilter));
      }
      if destFilter != [] && HasColumn(filtered, "destination") {
        SourceColumns(filtered);
        filtered := Schedules(WithDestinations(filtered.schedules, destFilter));
      }
      shown := Some(Head(filtered, showRows));
    }
  }

  // ---------------------------------------------------------------------------
  // Table filters

  /** `df[df['origin'].isin(allowed)]`. */
  function WithOrigins(rows: seq<ScheduleRow>, allowed: seq<Option<string>>): (r: seq<ScheduleRow>)
    ensures forall x :: multiset(r)[x] == if x.origin in allowed then multiset(rows)[x] else 0
    ensures IsSubsequence(r, rows)
  {
    var p := (x: ScheduleRow) => x.origin in allowed;
    FilterIsSubsequence(rows, p);
    Filter(rows, p)
  }

  /** `df[df['destination'].isin(allowed)]`. */
  function WithDestinations(rows: seq<ScheduleRow>, allowed: seq<Option<string>>): (r: seq<ScheduleRow>)
    ensures forall x :: multiset(r)[x] == if x.destination in allowed then multiset(rows)[x] else 0
    ensures IsSubsequence(r, rows)
  {
    var p := (x: ScheduleRow) => x.destination in allowed;
    FilterIsSubsequence(rows, p);
    Filter(rows, p)
  }

  /** The filters as the source applies them to a schedule table: each only when it
      selects something. */
  function SelectRows(rows: seq<ScheduleRow>, originFilter: seq<Option<string>>, destFilter: seq<Option<string>>): seq<ScheduleRow> {
    var byOrigin := if originFilter != [] then WithOrigins(rows, originFilter) else rows;
    if destFilter != [] then WithDestinations(byOrigin, destFilter) else byOrigin
  }

  /** The filters on any table: a table without the route columns passes unchanged. */
  function Selected(t: Table, originFilter: seq<Option<string>>, destFilter: seq<Option<string>>): Table {
    match t
    case Schedules(rows) => Schedules(SelectRows(rows, originFilter, destFilter))
    case _ => t
  }

  /** `df.head(n)`. */
  function Head(t: Table, n: nat): (r: Table)
    ensures Length(r) == if n < Length(t) then n else Length(t)
    ensures t.Blank? ==> r.Blank?
    ensures t.Positions? ==> r.Positions? && r.positions == t.positions[..Length(r)]
    ensures t.Schedules? ==> r.Schedules? && r.schedules == t.schedules[..Length(r)]
  {
    match t
    case Blank => Blank
    case Positions(rows) => Positions(Take(rows, n))
    case Schedules(rows) => Schedules(Take(rows, n))
  }

  /** The displayed rows come from the stored table in their stored order, at most
      `showRows` of them. A position table has neither route column and is only cut. */
  lemma DisplayedRows(t: Table, originFilter: seq<Option<string>>, destFilter: seq<Option<string>>, showRows: nat)
    ensures var shown := Head(Selected(t, originFilter, destFilter), showRows);
      Length(shown) <= showRows
      && (t.Blank? ==> shown.Blank?)
      && (t.Positions? ==> shown.Positions? && shown.positions == Take(t.positions, showRows))
      && (t.Schedules? ==> shown.Schedules? && IsSubsequence(shown.schedules, t.schedules))
  {
    if t.Schedules? {
      var selected := SelectRows(t.schedules, originFilter, destFilter);
      SelectRowsSubsequence(t.schedules, originFilter, destFilter);
      PrefixIsSubsequence(selected, t.schedules, |Take(selected, showRows)|);
    }
  }

  lemma SelectRowsSubsequence(rows: seq<ScheduleRow>, originFilter: seq<Option<string>>, destFilter: seq<Option<string>>)
    ensures IsSubsequence(SelectRows(rows, originFilter, destFilter), rows)
  {
    var byOrigin := if originFilter != [] then WithOrigins(rows, originFilter) else rows;
    var selected := SelectRows(rows, originFilter, destFilter);
    assert IsSubsequence(byOrigin, rows) by {
      if originFilter == [] {
        SubsequenceRefl(rows);
      }
    }
    assert IsSubsequence(selected, byOrigin) by {
      if destFilter == [] {
        SubsequenceRefl(byOrigin);
      }
    }
    SubsequenceTrans(selected, byOrigin, rows);
  }

  /** Exactly the schedule rows that pass every non-empty filter are selected, each as
      often as it occurs; so every displayed row passes them. */
  lemma SelectRowsExact(rows: seq<ScheduleRow>, originFilter: seq<Option<string>>, destFilter: seq<Option<string>>)
    ensures var selected := SelectRows(rows, originFilter, destFilter);
      forall x :: multiset(selected)[x] ==
        if (originFilter == [] || x.origin in originFilter) && (destFilter == [] || x.destination in destFilter)
        then multiset(rows)[x] else 0
    ensures var selected := SelectRows(rows, originFilter, destFilter);
      forall k :: 0 <= k < |selected| ==>
        (originFilter != [] ==> selected[k].origin in originFilter)
        && (destFilter != [] ==> selected[k].destination in destFilter)
  {
    var selected := SelectRows(rows, originFilter, destFilter);
    forall k | 0 <= k < |selected|
      ensures originFilter != [] ==> selected[k].origin in originFilter
      ensures destFilter != [] ==> selected[k].destination in destFilter
    {
      assert selected[k] in multiset(selected);
    }
  }

  lemma {:induction false} SubsequenceRefl<T(!new)>(s: seq<T>)
    ensures IsSubsequence(s, s)
    decreases |s|
  {
    if s != [] {
      SubsequenceRefl(s[..|s| - 1]);
    }
  }

  // ---------------------------------------------------------------------------
  // Overview metrics

  /** The hour with the most rows among `from..23`, the earliest on a tie. */
  function PeakFrom(hours: seq<int>, from: nat): (p: nat)
    requires from < 24
    ensures from <= p < 24
    ensures forall h :: from <= h < 24 ==> multiset(hours)[h] <= multiset(hours)[p]
    ensures forall h :: from <= h < p ==> multiset(hours)[h] < multiset(hours)[p]
    decreases 24 - from
  {
    if from == 23 then 23
    else
      var rest := PeakFrom(hours, from + 1);
      if multiset(hours)[from] >= multiset(hours)[rest] then from else rest
  }

  /** The peak hour of the overview: `mode()` lists the most frequent hours ascending
      and the first is shown; 0 when no row has a time. */
  function PeakHour(ts: seq<Option<int>>): (p: int)
    ensures Somes(ts) == [] ==> p == 0
    ensures Somes(ts) != [] ==>
      var hours := Hours(ts);
      0 <= p < 24 && p in hours
      && (forall h :: 0 <= h < 24 ==> multiset(hours)[h] <= multiset(hours)[p])
      && (forall h :: 0 <= h < p ==> multiset(hours)[h] < multiset(hours)[p])
  {
    if Somes(ts) == [] then 0
    else
      var hours := Hours(ts);
      var p := PeakFrom(hours, 0);
      assert multiset(hours)[hours[0]] >= 1;
      p
  }

  /** The peak-hour expression as written: the empty test is on the hour column, which
      has a (missing) entry per row, so on a table with rows but no times `mode()` is
      empty and taking its first entry fails (`None` here). */
  function PeakHourAsWritten(t: Table): (p: Option<int>)
    ensures p.None? <==> Length(t) > 0 && Somes(Timestamps(t)) == []
    ensures p.Some? && Somes(Timestamps(t)) != [] ==> p.value == PeakHour(Timestamps(t))
  {
    if Length(t) == 0 then Some(0)
    else if Somes(Timestamps(t)) == [] then None
    else Some(PeakHour(Timestamps(t)))
  }

  const UntimedRow := ScheduleRow(
    Some("QF1"), None, None, Some("SYD"), None, Some("LHR"), None, None, None, None, None,
    None, None, None)

  /** A one-row schedule table whose departure time did not parse: the overview as
      written fails, the corrected peak hour is 0. */
  lemma PeakHourOfUntimedTable()
    ensures PeakHourAsWritten(Schedules([UntimedRow])).None?
    ensures PeakHour(Timestamps(Schedules([UntimedRow]))) == 0
  {
    var ts := Timestamps(Schedules([UntimedRow]));
    assert ts == [None];
    assert Somes(ts) == Somes([]) + [];
  }

  function Sum(xs: seq<real>): real {
    if xs == [] then 0.0 else Sum(xs[..|xs| - 1]) + xs[|xs| - 1]
  }

  /** The arithmetic mean of a non-empty sequence of speeds. */
  function Mean(xs: seq<real>): real
    requires xs != []
  {
    Sum(xs) / |xs| as real
  }

  /** `velocity.mean() * 2.237`, or 0 when no speed is present. */
  function AverageSpeedMph(vels: seq<Option<real>>): (mph: real)
    ensures Somes(vels) == [] ==> mph == 0.0
  {
    var present := Somes(vels);
    if present == [] then 0.0 else Mean(present) * MphPerMetrePerSecond
  }

  lemma {:induction false} SumBounds(xs: seq<real>, lo: real, hi: real)
    requires forall k :: 0 <= k < |xs| ==> lo <= xs[k] <= hi
    ensures |xs| as real * lo <= Sum(xs) <= |xs| as real * hi
    decreases |xs|
  {
    if xs != [] {
      SumBounds(xs[..|xs| - 1], lo, hi);
    }
  }

  lemma MeanBounds(total: real, n: real, lo: real, hi: real)
    requires n > 0.0 && n * lo <= total <= n * hi
    ensures lo <= total / n <= hi
  {
    assert total / n - lo == (total - n * lo) / n;
    assert hi - total / n == (n * hi - total) / n;
  }

  /** The mean lies between any lower and upper bound of its elements. */
  lemma MeanWithin(xs: seq<real>, lo: real, hi: real)
    requires xs != []
    requires forall k :: 0 <= k < |xs| ==> lo <= xs[k] <= hi
    ensures lo <= Mean(xs) <= hi
  {
    SumBounds(xs, lo, hi);
    MeanBounds(Sum(xs), |xs| as real, lo, hi);
  }

  lemma ScaleMonotone(a: real, b: real, c: real)
    requires a <= b && c >= 0.0
    ensures a * c <= b * c
  {
    assert b * c - a * c == (b - a) * c;
  }

  /** The average speed lies between the slowest and the fastest present speed, converted. */
  lemma AverageSpeedBounds(vels: seq<Option<real>>, lo: real, hi: real)
    requires Somes(vels) != []
    requires forall k :: 0 <= k < |Somes(vels)| ==> lo <= Somes(vels)[k] <= hi
    ensures lo * MphPerMetrePerSecond <= AverageSpeedMph(vels) <= hi * MphPerMetrePerSecond
  {
    var present := Somes(vels);
    MeanWithin(present, lo, hi);
    ScaleMonotone(lo, Mean(present), MphPerMetrePerSecond);
    ScaleMonotone(Mean(present), hi, MphPerMetrePerSecond);
  }

  /** One metric tile: its caption and value. */
  datatype Tile = Tile(caption: string, value: nat)

  /** The second row of tiles, shown when the table has a `timestamp` column. The date
      range is `None` when every time is missing (NaN). */
  datatype TimeTiles = TimeTiles(dateRangeDays: Option<nat>, averageDaily: real, peakHour: int, averageSpeedMph: Option<real>)

  datatype Overview = Overview(totalFlights: nat, second: Tile, third: Tile, fourth: Tile, times: Option<TimeTiles>)

  /** The second tile: distinct origins, or distinct callsigns on a table without origins. */
  function SecondTile(t: Table): (tile: Tile)
    ensures HasColumn(t, "origin") ==> tile == Tile("Unique Origins", |set x | x in Somes(Origins(t))|)
    ensures !HasColumn(t, "origin") ==> tile == Tile("Active Aircraft", |set x | x in Somes(Callsigns(t))|)
  {
    SourceColumns(t);
    if HasColumn(t, "origin") then Tile("Unique Origins", NUnique(Origins(t)))
    else Tile("Active Aircraft", if HasColumn(t, "callsign") then NUnique(Callsigns(t)) else 0)
  }

  /** The third tile: distinct destinations, or distinct origin countries on a table
      without destinations. */
  function ThirdTile(t: Table): (tile: Tile)
    ensures HasColumn(t, "destination") ==> tile == Tile("Unique Destinations", |set x | x in Somes(Destinations(t))|)
    ensures !HasColumn(t, "destination") ==> tile == Tile("Countries", |set x | x in Somes(OriginCountries(t))|)
  {
    SourceColumns(t);
    if HasColumn(t, "destination") then Tile("Unique Destinations", NUnique(Destinations(t)))
    else Tile("Countries", if HasColumn(t, "origin_country") then NUnique(OriginCountries(t)) else 0)
  }

  /** The fourth tile: distinct airlines, or the row count. */
  function FourthTile(t: Table): (tile: Tile)
    ensures !HasColumn(t, "airline") ==> tile == Tile("Data Points", Length(t))
    ensures HasColumn(t, "airline") ==> tile == Tile("Airlines", |set x | x in Somes(Airlines(t))|)
  {
    if HasColumn(t, "airline") then Tile("Airlines", NUnique(Airlines(t))) else Tile("Data Points", Length(t))
  }

  /** `n / max(1, days)` with the floor already applied. */
  function PerDay(n: nat, days: nat): (r: real)
    requires days >= 1
    ensures r * days as real == n as real
  {
    n as real / days as real
  }

  /** The time tiles: the whole days between the first and the last time, the rows per
      day over at least one day, the peak hour and the average speed. */
  function TimeTilesOf(t: Table): (tt: TimeTiles)
    ensures tt.dateRangeDays == SpanDays(Timestamps(t))
    ensures tt.averageDaily == PerDay(Length(t), DateRangeDays(Timestamps(t)))
    ensures tt.peakHour == PeakHour(Timestamps(t)) && 0 <= tt.peakHour < 24
    ensures tt.averageSpeedMph.Some? <==> HasColumn(t, "velocity")
    ensures tt.averageSpeedMph.Some? ==> tt.averageSpeedMph.value == AverageSpeedMph(Velocities(t))
  {
    var ts := Timestamps(t);
    var perDay := PerDay(Length(t), DateRangeDays(ts));
    TimeTiles(
      SpanDays(ts),
      perDay,
      PeakHour(ts),
      if HasColumn(t, "velocity") then Some(AverageSpeedMph(Velocities(t))) else None)
  }

  /** `display_data_overview`, with the corrected peak hour; nothing for an empty table. */
  function DataOverview(t: Table): (o: Option<Overview>)
    ensures o.None? <==> IsEmpty(t)
    ensures o.Some? ==> o.value.totalFlights == Length(t)
    ensures o.Some? ==> (o.value.times.Some? <==> HasColumn(t, "timestamp"))
    ensures o.Some? ==> o.value.second == SecondTile(t) && o.value.third == ThirdTile(t) && o.value.fourth == FourthTile(t)
    ensures o.Some? && o.value.times.Some? ==> o.value.times.value == TimeTilesOf(t)
  {
    if IsEmpty(t) then None
    else
      var times := if HasColumn(t, "timestamp") then Some(TimeTilesOf(t)) else None;
      Some(Overview(Length(t), SecondTile(t), ThirdTile(t), FourthTile(t), times))
  }

  // ---------------------------------------------------------------------------
  // Key-metric rows

  /** The position of each metric name in the order `_extract_key_metrics` inserts them. */
  function MetricRank(name: string): int {
    if name == "Total Flights" then 0
    else if name == "Countries" then 1
    else if name == "Unique Routes" then 2
    else if name == "Airlines" then 3
    else if name == "Date Range (Days)" then 4
    else 5
  }

  /** `list(metrics.items())`: Total Flights first, then the present metrics in the
      order they are inserted (their membership is `MetricItemsExact`). */
  function MetricItems(m: Metrics): (items: seq<(string, nat)>)
    ensures 1 <= |items| <= 5 && items[0] == ("Total Flights", m.totalFlights)
    ensures forall i, j :: 0 <= i < j < |items| ==> MetricRank(items[i].0) < MetricRank(items[j].0)
  {
    var e0 := [("Total Flights", m.totalFlights)];
    var e1 := e0 + Entry("Countries", m.countries);
    var e2 := e1 + Entry("Unique Routes", m.uniqueRoutes);
    var e3 := e2 + Entry("Airlines", m.airlines);
    AppendEntry(e0, "Countries", m.countries);
    AppendEntry(e1, "Unique Routes", m.uniqueRoutes);
    AppendEntry(e2, "Airlines", m.airlines);
    AppendEntry(e3, "Date Range (Days)", m.dateRangeDays);
    e3 + Entry("Date Range (Days)", m.dateRangeDays)
  }

  /** Each optional metric is listed, with its value, exactly when it was computed. */
  lemma MetricItemsExact(m: Metrics)
    ensures forall v: nat :: ("Countries", v) in MetricItems(m) <==> m.countries == Some(v)
    ensures forall v: nat :: ("Unique Routes", v) in MetricItems(m) <==> m.uniqueRoutes == Some(v)
    ensures forall v: nat :: ("Airlines", v) in MetricItems(m) <==> m.airlines == Some(v)
    ensures forall v: nat :: ("Date Range (Days)", v) in MetricItems(m) <==> m.dateRangeDays == Some(v)
  {
    var e0 := [("Total Flights", m.totalFlights)];
    var c, u, a, d := Entry("Countries", m.countries), Entry("Unique Routes", m.uniqueRoutes),
      Entry("Airlines", m.airlines), Entry("Date Range (Days)", m.dateRangeDays);
    assert MetricItems(m) == e0 + c + u + a + d;
    OnlyEntry(e0, c, u + a + d, "Countries");
    OnlyEntry(e0 + c, u, a + d, "Unique Routes");
    OnlyEntry(e0 + c + u, a, d, "Airlines");
    OnlyEntry(e0 + c + u + a, d, [], "Date Range (Days)");
  }

  /** The item of one optional metric: none when it is absent. */
  function Entry(name: string, o: Option<nat>): (e: seq<(string, nat)>)
    ensures |e| <= 1
    ensures forall v: nat :: (name, v) in e <==> o == Some(v)
    ensures forall k :: 0 <= k < |e| ==> e[k].0 == name
    ensures forall x :: x in e ==> x.0 == name
  {
    if o.Some? then [(name, o.value)] else []
  }

  /** A name that occurs only in the middle part is found there alone. */
  lemma OnlyEntry(pre: seq<(string, nat)>, e: seq<(string, nat)>, post: seq<(string, nat)>, name: string)
    requires forall x :: x in pre ==> x.0 != name
    requires forall x :: x in post ==> x.0 != name
    ensures forall v :: (name, v) in pre + e + post <==> (name, v) in e
  {
  }

  /** Names strictly in insertion order, all before rank `r`. */
  predicate RankedBelow(items: seq<(string, nat)>, r: int) {
    (forall i, j :: 0 <= i < j < |items| ==> MetricRank(items[i].0) < MetricRank(items[j].0))
    && (forall k :: 0 <= k < |items| ==> MetricRank(items[k].0) < r)
  }

  lemma AppendEntry(items: seq<(string, nat)>, name: string, o: Option<nat>)
    requires RankedBelow(items, MetricRank(name))
    ensures RankedBelow(items + Entry(name, o), MetricRank(name) + 1)
  {
  }

  function Concat<T>(groups: seq<seq<T>>): seq<T> {
    if groups == [] then [] else Concat(groups[..|groups| - 1]) + groups[|groups| - 1]
  }

  /** The rows of metric tiles: one row when there are at most four items, otherwise
      consecutive rows of four with a shorter last row. Together the rows are exactly
      the items, in order. */
  method ChunkMetrics<T>(items: seq<T>) returns (groups: seq<seq<T>>)
    ensures Concat(groups) == items
    ensures |items| <= 4 ==> groups == [items]
    ensures |items| > 4 ==> forall k :: 0 <= k < |groups| ==> 1 <= |groups[k]| <= 4
    ensures forall k :: 0 <= k < |groups| - 1 ==> |groups[k]| == 4
  {
    if |items| <= 4 {
      groups := [items];
      assert Concat(groups) == Concat([]) + items;
      return;
    }
    groups := [];
    var i := 0;
    while i < |items|
      invariant 0 <= i <= |items|
      invariant |groups| * 4 == i || (i == |items| && |groups| > 0)
      invariant Concat(groups) == items[..i]
      invariant forall k :: 0 <= k < |groups| ==> 1 <= |groups[k]| <= 4
      invariant forall k :: 0 <= k < |groups| - 1 ==> |groups[k]| == 4
      invariant i < |items| ==> forall k :: 0 <= k < |groups| ==> |groups[k]| == 4
      decreases |items| - i
    {
      var end := if i + 4 <= |items| then i + 4 else |items|;
      var chunk := items[i..end];
      assert Concat(groups + [chunk]) == Concat(groups) + chunk by {
        assert (groups + [chunk])[..|groups|] == groups;
      }
      assert items[..i] + items[i..end] == items[..end];
      groups := groups + [chunk];
      i := end;
    }
    assert items[..i] == items;
  }
}
