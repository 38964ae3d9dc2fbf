/** The analyzer: reduces a flight table to a summary (frequency tables, hourly
    histogram, date range), to key metrics, and to a set of analysis texts. The
    language-model client is an uninterpreted function of the topic and the summary;
    the prompt texts are not part of the model. */
module AiAnalyzer {
  import opened Wrappers
  import opened Seqs
  import opened Text
  import opened Tables
  import opened Counting

  // ---------------------------------------------------------------------------
  // Routes

  const RouteArrow := " → "

  /** `origin + ' → ' + destination`. */
  function RouteKey(origin: string, destination: string): (k: string)
    ensures |k| == |origin| + |RouteArrow| + |destination|
    ensures k[..|origin|] == origin && k[|k| - |destination|..] == destination
    ensures k[|origin|..|origin| + |RouteArrow|] == RouteArrow
  {
    origin + RouteArrow + destination
  }

  /** The route of one row; a missing end makes the route missing, as NaN does. */
  function RouteOf(origin: Option<string>, destination: Option<string>): (r: Option<string>)
    ensures r.Some? <==> origin.Some? && destination.Some?
    ensures r.Some? ==> r.value == RouteKey(origin.value, destination.value)
  {
    if origin.Some? && destination.Some? then Some(RouteKey(origin.value, destination.value)) else None
  }

  /** The `route` column: defined on a table with both route columns. */
  function RouteColumn(t: Table): (col: seq<Option<string>>)
    ensures |col| == |Origins(t)| && |col| == |Destinations(t)|
    ensures forall k :: 0 <= k < |col| ==> col[k] == RouteOf(Origins(t)[k], Destinations(t)[k])
  {
    var o, d := Origins(t), Destinations(t);
    seq(|o|, k requires 0 <= k < |o| => RouteOf(o[k], d[k]))
  }

  /** In a route key whose origin holds no arrow, the first arrow is the separator's. */
  lemma ArrowFirst(o: string, d: string)
    requires '→' !in o
    ensures var k := RouteKey(o, d);
      k[|o| + 1] == '→' && forall i :: 0 <= i <= |o| ==> k[i] != '→'
  {
    var k := RouteKey(o, d);
    assert k == o + RouteArrow + d;
    forall i | 0 <= i <= |o| ensures k[i] != '→' {
      if i < |o| {
        assert k[i] == o[i];
      }
    }
  }

  /** Two routes with the same key have the same ends, as long as no origin holds
      the arrow character. */
  lemma RouteKeyInjective(o1: string, d1: string, o2: string, d2: string)
    requires RouteKey(o1, d1) == RouteKey(o2, d2)
    requires '→' !in o1 && '→' !in o2
    ensures o1 == o2 && d1 == d2
  {
    var k := RouteKey(o1, d1);
    ArrowFirst(o1, d1);
    ArrowFirst(o2, d2);
    assert |o1| == |o2|;
    assert o1 == k[..|o1|] == o2;
    assert d1 == k[|o1| + 3..] == d2;
  }

  /** Without that proviso two different routes can share a key. */
  lemma RouteKeyCollision()
    ensures RouteKey("A → B", "C") == RouteKey("A", "B → C")
  {
  }

  // ---------------------------------------------------------------------------
  // Frequency tables and the hourly histogram

  /** What `value_counts().head(n).to_dict()` promises about a table `r` over `vals`:
      at most `n` distinct values with their exact counts, most frequent first, and
      the listed values are the most frequent ones: a value that occurs but is not
      listed was crowded out of a full table by values at least as frequent. */
  predicate FrequencyTable<T(==)>(r: seq<(T, nat)>, vals: seq<T>, n: nat) {
    |r| <= n
    && (forall i, j :: 0 <= i < j < |r| ==> r[i].1 >= r[j].1)
    && (forall k :: 0 <= k < |r| ==> r[k].0 in vals && r[k].1 == multiset(vals)[r[k].0] && r[k].1 > 0)
    && (forall i, j :: 0 <= i < j < |r| ==> r[i].0 != r[j].0)
    && (forall x :: x in vals && (forall k :: 0 <= k < |r| ==> r[k].0 != x) ==>
          |r| == n && forall k :: 0 <= k < |r| ==> r[k].1 >= multiset(vals)[x])
  }

  /** The hours 0..23 at or after `from` that occur in `hours`, ascending, with their counts. */
  function HourCounts(hours: seq<int>, from: nat): (r: seq<(int, nat)>)
    requires from <= 24
    ensures forall k :: 0 <= k < |r| ==> from <= r[k].0 < 24 && r[k].1 == multiset(hours)[r[k].0] && r[k].1 > 0
    ensures forall i, j :: 0 <= i < j < |r| ==> r[i].0 < r[j].0
    ensures forall h :: from <= h < 24 && h in hours ==> (h, multiset(hours)[h]) in r
    decreases 24 - from
  {
    if from == 24 then []
    else
      var rest := HourCounts(hours, from + 1);
      if from in hours then [(from as int, multiset(hours)[from])] + rest else rest
  }

  /** `value_counts().sort_index().to_dict()` over the hour column. */
  function Hourly(hours: seq<int>): seq<(int, nat)> {
    HourCounts(hours, 0)
  }

  function SumCounts(pairs: seq<(int, nat)>): nat {
    if pairs == [] then 0 else pairs[0].1 + SumCounts(pairs[1..])
  }

  /** The number of entries of `hours` at or after `from`. */
  function AtLeast(hours: seq<int>, from: int): nat {
    if hours == [] then 0 else (if hours[0] >= from then 1 else 0) + AtLeast(hours[1..], from)
  }

  lemma {:induction false} AtLeastStep(hours: seq<int>, from: int)
    ensures AtLeast(hours, from) == multiset(hours)[from] + AtLeast(hours, from + 1)
  {
    if hours != [] {
      AtLeastStep(hours[1..], from);
      assert hours == [hours[0]] + hours[1..];
      assert multiset(hours) == multiset{hours[0]} + multiset(hours[1..]);
    }
  }

  lemma {:induction false} AtLeastBounds(hours: seq<int>)
    requires forall k :: 0 <= k < |hours| ==> 0 <= hours[k] < 24
    ensures AtLeast(hours, 0) == |hours| && AtLeast(hours, 24) == 0
  {
    if hours != [] {
      AtLeastBounds(hours[1..]);
    }
  }

  lemma {:induction false} HourCountsSum(hours: seq<int>, from: nat)
    requires from <= 24
    requires forall k :: 0 <= k < |hours| ==> 0 <= hours[k] < 24
    ensures SumCounts(HourCounts(hours, from)) == AtLeast(hours, from)
    decreases 24 - from
  {
    if from == 24 {
      AtLeastBounds(hours);
    } else {
      HourCountsSum(hours, from + 1);
      AtLeastStep(hours, from);
      var rest := HourCounts(hours, from + 1);
      if from in hours {
        assert HourCounts(hours, from) == [(from as int, multiset(hours)[from])] + rest;
        assert ([(from as int, multiset(hours)[from])] + rest)[1..] == rest;
      } else {
        assert multiset(hours)[from] == 0;
      }
    }
  }

  /** The hourly histogram lists exactly the hours that occur, ascending, each with its
      count, and its counts add up to the number of hours given. */
  lemma HourlyProperties(hours: seq<int>)
    requires forall k :: 0 <= k < |hours| ==> 0 <= hours[k] < 24
    ensures var r := Hourly(hours);
      (forall i, j :: 0 <= i < j < |r| ==> r[i].0 < r[j].0)
      && (forall k :: 0 <= k < |r| ==> r[k].0 in hours && r[k].1 == multiset(hours)[r[k].0])
      && (forall h :: h in hours ==> (h, multiset(hours)[h]) in r)
      && SumCounts(r) == |hours|
  {
    HourCountsSum(hours, 0);
    AtLeastBounds(hours);
  }

  // ---------------------------------------------------------------------------
  // The data summary

  /** `_prepare_data_summary`'s dictionary; an absent key is `None`. `dateStart` and
      `dateEnd` are `None` both without a `timestamp` column and when every timestamp
      is missing (NaT). */
  datatype Summary = Summary(
    totalFlights: nat,
    dataColumns: seq<string>,
    dateStart: Option<int>,
    dateEnd: Option<int>,
    topRoutes: Option<seq<(string, nat)>>,
    topCountries: Option<seq<(string, nat)>>,
    topAirlines: Option<seq<(string, nat)>>,
    hourlyDistribution: Option<seq<(int, nat)>>)

  const TopN := 10

  function RouteValues(t: Table): seq<string> {
    Somes(RouteColumn(t))
  }

  predicate HasRouteColumns(t: Table) {
    HasColumn(t, "origin") && HasColumn(t, "destination")
  }

  function PrepareDataSummary(t: Table): (s: Summary)
    ensures s.totalFlights == Length(t) && s.dataColumns == Columns(t)
    ensures s.topRoutes.Some? <==> HasRouteColumns(t)
    ensures s.topCountries.Some? <==> HasColumn(t, "origin_country")
    ensures s.topAirlines.Some? <==> HasColumn(t, "airline")
    ensures s.hourlyDistribution.Some? <==> HasColumn(t, "timestamp")
  {
    var stamped := HasColumn(t, "timestamp");
    Summary(
      Length(t),
      Columns(t),
      if stamped then MinStamp(Timestamps(t)) else None,
      if stamped then MaxStamp(Timestamps(t)) else None,
      if HasRouteColumns(t) then Some(TopCounts(RouteValues(t), TopN)) else None,
      if HasColumn(t, "origin_country") then Some(TopCounts(Somes(OriginCountries(t)), TopN)) else None,
      if HasColumn(t, "airline") then Some(TopCounts(Somes(Airlines(t)), TopN)) else None,
      if stamped then Some(Hourly(Hours(Timestamps(t)))) else None)
  }

  lemma TopTable<T(!new)>(vals: seq<T>, n: nat)
    ensures FrequencyTable(TopCounts(vals, n), vals, n)
  {
    TopCountsProperties(vals, n);
    var r := TopCounts(vals, n);
    forall i, j | 0 <= i < j < |r| ensures r[i].0 != r[j].0 {
      assert Keys(r)[i] != Keys(r)[j];
    }
    forall x | x in vals && (forall k :: 0 <= k < |r| ==> r[k].0 != x)
      ensures |r| == n && forall k :: 0 <= k < |r| ==> r[k].1 >= multiset(vals)[x]
    {
      assert x !in Keys(r) by {
        forall k | 0 <= k < |Keys(r)| ensures Keys(r)[k] != x {
          assert Keys(r)[k] == r[k].0;
        }
      }
    }
  }

  /** Each frequency table of the summary holds at most ten present values of its
      column with their exact counts, most frequent first; the hourly histogram
      lists the hours that occur, ascending, and counts every present timestamp once. */
  lemma SummaryTables(t: Table)
    ensures var s := PrepareDataSummary(t);
      (s.topRoutes.Some? ==> FrequencyTable(s.topRoutes.value, RouteValues(t), 10))
      && (s.topCountries.Some? ==> FrequencyTable(s.topCountries.value, Somes(OriginCountries(t)), 10))
      && (s.topAirlines.Some? ==> FrequencyTable(s.topAirlines.value, Somes(Airlines(t)), 10))
    ensures var s := PrepareDataSummary(t);
      s.hourlyDistribution.Some? ==>
        var r, hours := s.hourlyDistribution.value, Hours(Timestamps(t));
        (forall i, j :: 0 <= i < j < |r| ==> r[i].0 < r[j].0)
        && (forall k :: 0 <= k < |r| ==> 0 <= r[k].0 < 24 && r[k].1 == multiset(hours)[r[k].0] && r[k].1 > 0)
        && SumCounts(r) == |Somes(Timestamps(t))|
  {
    var s := PrepareDataSummary(t);
    assert s.topRoutes.Some? ==> FrequencyTable(s.topRoutes.value, RouteValues(t), 10) by {
      TopTable(RouteValues(t), TopN);
    }
    assert s.topCountries.Some? ==> FrequencyTable(s.topCountries.value, Somes(OriginCountries(t)), 10) by {
      TopTable(Somes(OriginCountries(t)), TopN);
    }
    assert s.topAirlines.Some? ==> FrequencyTable(s.topAirlines.value, Somes(Airlines(t)), 10) by {
      TopTable(Somes(Airlines(t)), TopN);
    }
    HourlyProperties(Hours(Timestamps(t)));
  }

  // ---------------------------------------------------------------------------
  // Key metrics

  /** `nunique()`: the number of distinct present values. */
  function NUnique(col: seq<Option<string>>): (n: nat)
    ensures n == |set x | x in Somes(col)|
  {
    var d := Distinct(Somes(col));
    NoDupCardinality(d);
    assert (set x | x in d) == (set x | x in Somes(col));
    |d|
  }

  function RoutePairs(t: Table): (pairs: seq<(Option<string>, Option<string>)>)
    ensures |pairs| == |Origins(t)| && |pairs| == |Destinations(t)|
    ensures forall k :: 0 <= k < |pairs| ==> pairs[k] == (Origins(t)[k], Destinations(t)[k])
  {
    var o, d := Origins(t), Destinations(t);
    seq(|o|, k requires 0 <= k < |o| => (o[k], d[k]))
  }

  /** `df[['origin', 'destination']].drop_duplicates().shape[0]`: the number of distinct
      (origin, destination) pairs, a missing end counting as a value of its own. */
  function UniqueRoutes(t: Table): (n: nat)
    ensures n == |set p | p in RoutePairs(t)|
    ensures n <= Length(t)
  {
    var d := Distinct(RoutePairs(t));
    NoDupCardinality(d);
    assert (set p | p in d) == (set p | p in RoutePairs(t));
    assert |d| <= |RoutePairs(t)| by {
      CardinalityOfElements(RoutePairs(t));
    }
    |d|
  }

  lemma {:induction false} CardinalityOfElements<T(!new)>(s: seq<T>)
    ensures |set x | x in s| <= |s|
  {
    if s != [] {
      CardinalityOfElements(s[1..]);
      assert (set x | x in s) == (set x | x in s[1..]) + {s[0]};
    }
  }

  /** `max(1, (max - min).days)`; `max(1, nan)` is 1 when every timestamp is missing.
      At least one day; otherwise the whole days between the earliest and the latest
      timestamp. */
  function DateRangeDays(ts: seq<Option<int>>): (days: nat)
    ensures days >= 1
    ensures MinStamp(ts).None? ==> days == 1
    ensures MinStamp(ts).Some? ==>
      var span := MaxStamp(ts).value - MinStamp(ts).value;
      (span < SecondsPerDay ==> days == 1)
      && (span >= SecondsPerDay ==> days * SecondsPerDay <= span < (days + 1) * SecondsPerDay)
  {
    match SpanDays(ts)
    case None => 1
    case Some(d) => if d < 1 then 1 else d
  }

  /** `_extract_key_metrics`' dictionary; an absent key is `None`. */
  datatype Metrics = Metrics(
    totalFlights: nat,
    countries: Option<nat>,
    uniqueRoutes: Option<nat>,
    airlines: Option<nat>,
    dateRangeDays: Option<nat>)

  function ExtractKeyMetrics(t: Table): (m: Metrics)
    ensures m.totalFlights == Length(t)
    ensures m.countries.Some? <==> HasColumn(t, "origin_country")
    ensures m.uniqueRoutes.Some? <==> HasRouteColumns(t)
    ensures m.airlines.Some? <==> HasColumn(t, "airline")
    ensures m.dateRangeDays.Some? <==> HasColumn(t, "timestamp")
    ensures m.countries.Some? ==> m.countries.value == |set x | x in Somes(OriginCountries(t))|
    ensures m.uniqueRoutes.Some? ==> m.uniqueRoutes.value == |set p | p in RoutePairs(t)| <= Length(t)
    ensures m.airlines.Some? ==> m.airlines.value == |set x | x in Somes(Airlines(t))|
    ensures m.dateRangeDays.Some? ==> m.dateRangeDays.value == DateRangeDays(Timestamps(t)) >= 1
  {
    Metrics(
      Length(t),
      if HasColumn(t, "origin_country") then Some(NUnique(OriginCountries(t))) else None,
      if HasRouteColumns(t) then Some(UniqueRoutes(t)) else None,
      if HasColumn(t, "airline") then Some(NUnique(Airlines(t))) else None,
      if HasColumn(t, "timestamp") then Some(DateRangeDays(Timestamps(t))) else None)
  }

  // ---------------------------------------------------------------------------
  // Analysis results

  /** The results dictionary; an absent key is `None`. */
  datatype Analysis = Analysis(
    popularRoutes: Option<string>,
    demandPatterns: Option<string>,
    peakHours: Option<string>,
    aircraftAnalysis: Option<string>,
    marketTrends: Option<string>,
    recommendations: Option<string>,
    keyMetrics: Option<Metrics>)

  const NoResults := Analysis(None, None, None, None, None, None, None)

  const RoutePopularityKind := "Route Popularity"
  const DemandTrendsKind := "Demand Trends"
  const PeakHoursKind := "Peak Hours"
  const AircraftTypesKind := "Aircraft Types"

  const BasicRouteLimit := 5
  const RouteHeader := "Top routes by frequency:\n"
  const BasicRecommendations :=
    "• Monitor peak travel periods for pricing optimization\n• Focus on popular routes for marketing\n"
    + "• Consider seasonal variations in demand\n• Analyze competitor presence on key routes"

  function RouteLine(p: (string, nat)): string {
    "• " + p.0 + ": " + NatStr(p.1) + " flights"
  }

  function RouteLines(top: seq<(string, nat)>): (lines: seq<string>)
    ensures |lines| == |top| && forall k :: 0 <= k < |top| ==> lines[k] == RouteLine(top[k])
  {
    MapSeq(top, RouteLine)
  }

  /** The fallback route text: the header, then one line per route of the top five. */
  function BasicRouteText(t: Table): string {
    RouteHeader + Join(RouteLines(TopCounts(RouteValues(t), BasicRouteLimit)), "\n")
  }

  /** The fallback route text lists at most five routes, one `• route: n flights` line
      each, with each route's exact count, most frequent first. */
  lemma BasicRouteTextLines(t: Table)
    ensures var top := TopCounts(RouteValues(t), BasicRouteLimit);
      var lines := RouteLines(top);
      BasicRouteText(t) == RouteHeader + Join(lines, "\n")
      && |lines| <= 5
      && (forall k :: 0 <= k < |lines| ==> lines[k] == "• " + top[k].0 + ": " + NatStr(top[k].1) + " flights")
      && FrequencyTable(top, RouteValues(t), 5)
  {
    TopTable(RouteValues(t), BasicRouteLimit);
  }

  /** `len(df) / max(1, date_range)`. */
  function AverageDaily(t: Table): real {
    Length(t) as real / DateRangeDays(Timestamps(t)) as real
  }

  /** The fallback demand text; `fmt1` renders a number with one decimal. */
  function DemandText(t: Table, fmt1: real -> string): string {
    if HasColumn(t, "timestamp") then
      "Average daily flights: " + fmt1(AverageDaily(t)) + "\nTotal flights analyzed: " + NatStr(Length(t))
    else
      "Total flights in dataset: " + NatStr(Length(t))
  }

  /** `_generate_basic_analysis`: the results without a model client. */
  function BasicAnalysis(t: Table, kinds: seq<string>, fmt1: real -> string): (a: Analysis)
    ensures a.popularRoutes.Some? <==> RoutePopularityKind in kinds && HasRouteColumns(t)
    ensures a.demandPatterns.Some? <==> DemandTrendsKind in kinds
    ensures a.peakHours.None? && a.aircraftAnalysis.None? && a.marketTrends.None?
    ensures a.recommendations.Some? && a.keyMetrics == Some(ExtractKeyMetrics(t))
  {
    Analysis(
      if RoutePopularityKind in kinds && HasRouteColumns(t) then Some(BasicRouteText(t)) else None,
      if DemandTrendsKind in kinds then Some(DemandText(t, fmt1)) else None,
      None,
      None,
      None,
      Some(BasicRecommendations),
      Some(ExtractKeyMetrics(t)))
  }

  /** `_generate_basic_analysis`, filling the results key by key. */
  method GenerateBasicAnalysis(t: Table, kinds: seq<string>, fmt1: real -> string) returns (results: Analysis)
    ensures results == BasicAnalysis(t, kinds, fmt1)
  {
    results := NoResults;
    if RoutePopularityKind in kinds && HasRouteColumns(t) {
      results := results.(popularRoutes := Some(BasicRouteText(t)));
    }
    if DemandTrendsKind in kinds {
      results := results.(demandPatterns := Some(DemandText(t, fmt1)));
    }
    results := results.(recommendations := Some(BasicRecommendations));
    results := results.(keyMetrics := Some(ExtractKeyMetrics(t)));
  }

  // ---------------------------------------------------------------------------
  // The model client

  datatype Topic = RoutePopularity | DemandTrends | PeakHours | MarketTrends | Recommendations

  /** What a model call gave back: a response whose text may be missing, or an exception. */
  datatype Reply = Answer(text: Option<string>) | Raised(message: string)

  const NoAnalysis := "No analysis generated"
  const NoRecommendations := "No recommendations generated"
  const NoHourlyData := "No hourly data available for peak hours analysis."
  const AircraftMessage :=
    "Aircraft type analysis requires more detailed flight data. Consider upgrading data sources for comprehensive aircraft insights."

  /** `response.text or fallback`, and the error text when the call raised. */
  function ReplyText(reply: Reply, fallback: string, errorPrefix: string): (s: string)
    ensures reply.Answer? && reply.text.Some? && reply.text.value != "" ==> s == reply.text.value
    ensures reply.Answer? && (reply.text.None? || reply.text.value == "") ==> s == fallback
    ensures reply.Raised? ==> s == errorPrefix + reply.message
  {
    match reply
    case Answer(text) => if text.None? || text.value == "" then fallback else text.value
    case Raised(message) => errorPrefix + message
  }

  /** `_analyze_peak_hours`: without an hourly histogram, or with an empty one, the
      fixed message, and the model is not asked. */
  function PeakHoursText(s: Summary, ask: (Topic, Summary) -> Reply): string {
    if s.hourlyDistribution.None? || s.hourlyDistribution.value == [] then NoHourlyData
    else ReplyText(ask(PeakHours, s), NoAnalysis, "Error analyzing peak hours: ")
  }

  /** The peak-hours text of an empty histogram does not depend on the model at all. */
  lemma PeakHoursWithoutData(s: Summary, ask1: (Topic, Summary) -> Reply, ask2: (Topic, Summary) -> Reply)
    requires s.hourlyDistribution.None? || s.hourlyDistribution.value == []
    ensures PeakHoursText(s, ask1) == PeakHoursText(s, ask2) == NoHourlyData
  {
  }

  /** `analyze_flight_data` with a client: one entry per requested kind, then the market
      trends, the recommendations and the key metrics. */
  function ClientAnalysis(t: Table, kinds: seq<string>, ask: (Topic, Summary) -> Reply): (a: Analysis)
    ensures a.popularRoutes.Some? <==> RoutePopularityKind in kinds
    ensures a.demandPatterns.Some? <==> DemandTrendsKind in kinds
    ensures a.peakHours.Some? <==> PeakHoursKind in kinds
    ensures a.aircraftAnalysis.Some? <==> AircraftTypesKind in kinds
    ensures a.aircraftAnalysis.Some? ==> a.aircraftAnalysis.value == AircraftMessage
    ensures a.marketTrends.Some? && a.recommendations.Some?
    ensures a.keyMetrics == Some(ExtractKeyMetrics(t))
  {
    var s := PrepareDataSummary(t);
    Analysis(
      if RoutePopularityKind in kinds then
        Some(ReplyText(ask(RoutePopularity, s), NoAnalysis, "Error analyzing route popularity: "))
      else None,
      if DemandTrendsKind in kinds then
        Some(ReplyText(ask(DemandTrends, s), NoAnalysis, "Error analyzing demand trends: "))
      else None,
      if PeakHoursKind in kinds then Some(PeakHoursText(s, ask)) else None,
      if AircraftTypesKind in kinds then Some(AircraftMessage) else None,
      Some(ReplyText(ask(MarketTrends, s), NoAnalysis, "Error generating market trends: ")),
      Some(ReplyText(ask(Recommendations, s), NoRecommendations, "Error generating recommendations: ")),
      Some(ExtractKeyMetrics(t)))
  }

  /** `analyze_flight_data`: the fallback analysis without a client, otherwise the
      client analysis, filled key by key. */
  method AnalyzeFlightData(t: Table, kinds: seq<string>, client: Option<(Topic, Summary) -> Reply>, fmt1: real -> string)
    returns (results: Analysis)
    ensures client.None? ==> results == BasicAnalysis(t, kinds, fmt1)
    ensures client.Some? ==> results == ClientAnalysis(t, kinds, client.value)
  {
    if client.None? {
      results := GenerateBasicAnalysis(t, kinds, fmt1);
      return;
    }
    var ask := client.value;
    var s := PrepareDataSummary(t);
    results := NoResults;
    if RoutePopularityKind in kinds {
      results := results.(popularRoutes := Some(ReplyText(ask(RoutePopularity, s), NoAnalysis, "Error analyzing route popularity: ")));
    }
    if DemandTrendsKind in kinds {
      results := results.(demandPatterns := Some(ReplyText(ask(DemandTrends, s), NoAnalysis, "Error analyzing demand trends: ")));
    }
    if PeakHoursKind in kinds {
      results := results.(peakHours := Some(PeakHoursText(s, ask)));
    }
    if AircraftTypesKind in kinds {
      results := results.(aircraftAnalysis := Some(AircraftMessage));
    }
    results := results.(marketTrends := Some(ReplyText(ask(MarketTrends, s), NoAnalysis, "Error generating market trends: ")));
    results := results.(recommendations := Some(ReplyText(ask(Recommendations, s), NoRecommendations, "Error generating recommendations: ")));
    results := results.(keyMetrics := Some(ExtractKeyMetrics(t)));
  }
}
