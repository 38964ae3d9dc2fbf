/** The canonical flight table. Column presence distinguishes the two sources, so
    the table is a tagged union: the position source's rows, the schedule source's
    rows, or `Blank`, the column-less `pd.DataFrame()` a fetch returns when the
    response holds no records. Missing cells (None, NaN, NaT) are `None`. */
module Tables {
  import opened Wrappers
  import opened JsonValue
  import opened Seqs

  const SecondsPerHour := 3600
  const SecondsPerDay := 86400

  /** One aircraft state of the position source: the 17 slots of a state vector, then
      the columns the cleaning and the fetch add (`altitude_ft`, `speed_mph`, `timestamp`).
      Times are whole seconds since the epoch. */
  datatype PositionRow = PositionRow(
    icao24: Option<string>,
    callsign: Option<string>,
    originCountry: Option<string>,
    timePosition: Option<int>,
    lastContact: Option<int>,
    longitude: Option<real>,
    latitude: Option<real>,
    baroAltitude: Option<real>,
    onGround: Option<bool>,
    velocity: Option<real>,
    trueTrack: Option<real>,
    verticalRate: Option<real>,
    sensors: Json,
    geoAltitude: Option<real>,
    squawk: Option<string>,
    spi: Option<bool>,
    positionSource: Option<int>,
    altitudeFt: Option<real>,
    speedMph: Option<real>,
    timestamp: Option<int>)

  /** One scheduled flight of the schedule source, after cleaning: the two scheduled
      times are parsed (a value that does not parse is `None`), and `timestamp` is added. */
  datatype ScheduleRow = ScheduleRow(
    flightNumber: Option<string>,
    airline: Option<string>,
    airlineIata: Option<string>,
    origin: Option<string>,
    originAirport: Option<string>,
    destination: Option<string>,
    destinationAirport: Option<string>,
    departureTime: Option<int>,
    arrivalTime: Option<int>,
    flightStatus: Option<string>,
    aircraftType: Option<string>,
    departureDelay: Option<int>,
    arrivalDelay: Option<int>,
    timestamp: Option<int>)

  datatype Table =
    | Blank
    | Positions(positions: seq<PositionRow>)
    | Schedules(schedules: seq<ScheduleRow>)

  const PositionColumns: seq<string> := [
    "icao24", "callsign", "origin_country", "time_position", "last_contact",
    "longitude", "latitude", "baro_altitude", "on_ground", "velocity", "true_track",
    "vertical_rate", "sensors", "geo_altitude", "squawk", "spi", "position_source",
    "altitude_ft", "speed_mph", "timestamp"]

  const ScheduleColumns: seq<string> := [
    "flight_number", "airline", "airline_iata", "origin", "origin_airport",
    "destination", "destination_airport", "departure_time", "arrival_time",
    "flight_status", "aircraft_type", "departure_delay", "arrival_delay", "timestamp"]

  /** `list(df.columns)`. */
  function Columns(t: Table): seq<string> {
    match t
    case Blank => []
    case Positions(_) => PositionColumns
    case Schedules(_) => ScheduleColumns
  }

  /** `name in df.columns`. */
  predicate HasColumn(t: Table, name: string) {
    name in Columns(t)
  }

  /** Which source a column test singles out. */
  lemma SourceColumns(t: Table)
    ensures HasColumn(t, "origin") <==> t.Schedules?
    ensures HasColumn(t, "destination") <==> t.Schedules?
    ensures HasColumn(t, "airline") <==> t.Schedules?
    ensures HasColumn(t, "origin_country") <==> t.Positions?
    ensures HasColumn(t, "callsign") <==> t.Positions?
    ensures HasColumn(t, "velocity") <==> t.Positions?
    ensures HasColumn(t, "timestamp") <==> !t.Blank?
  {
    PositionColumnsLack();
    ScheduleColumnsLack();
    assert "origin" in ScheduleColumns && "destination" in ScheduleColumns && "airline" in ScheduleColumns;
    assert "origin_country" in PositionColumns && "callsign" in PositionColumns && "velocity" in PositionColumns;
    assert "timestamp" in PositionColumns && "timestamp" in ScheduleColumns;
  }

  lemma PositionColumnsLack()
    ensures "origin" !in PositionColumns && "destination" !in PositionColumns && "airline" !in PositionColumns
  {
  }

  lemma ScheduleColumnsLack()
    ensures "origin_country" !in ScheduleColumns && "callsign" !in ScheduleColumns && "velocity" !in ScheduleColumns
  {
  }

  /** `len(df)`. */
  function Length(t: Table): nat {
    match t
    case Blank => 0
    case Positions(rows) => |rows|
    case Schedules(rows) => |rows|
  }

  /** `df.empty`. */
  predicate IsEmpty(t: Table) {
    Length(t) == 0
  }

  // Column views. A view of a column the table does not have is empty; callers
  // test `HasColumn` first, as the source does.

  function Origins(t: Table): (col: seq<Option<string>>)
    ensures t.Schedules? ==> |col| == Length(t)
  {
    if t.Schedules? then seq(|t.schedules|, k requires 0 <= k < |t.schedules| => t.schedules[k].origin) else []
  }

  function Destinations(t: Table): (col: seq<Option<string>>)
    ensures t.Schedules? ==> |col| == Length(t)
  {
    if t.Schedules? then seq(|t.schedules|, k requires 0 <= k < |t.schedules| => t.schedules[k].destination) else []
  }

  function Airlines(t: Table): (col: seq<Option<string>>)
    ensures t.Schedules? ==> |col| == Length(t)
  {
    if t.Schedules? then seq(|t.schedules|, k requires 0 <= k < |t.schedules| => t.schedules[k].airline) else []
  }

  function OriginCountries(t: Table): (col: seq<Option<string>>)
    ensures t.Positions? ==> |col| == Length(t)
  {
    if t.Positions? then seq(|t.positions|, k requires 0 <= k < |t.positions| => t.positions[k].originCountry) else []
  }

  function Callsigns(t: Table): (col: seq<Option<string>>)
    ensures t.Positions? ==> |col| == Length(t)
  {
    if t.Positions? then seq(|t.positions|, k requires 0 <= k < |t.positions| => t.positions[k].callsign) else []
  }

  function Velocities(t: Table): (col: seq<Option<real>>)
    ensures t.Positions? ==> |col| == Length(t)
  {
    if t.Positions? then seq(|t.positions|, k requires 0 <= k < |t.positions| => t.positions[k].velocity) else []
  }

  function Timestamps(t: Table): (col: seq<Option<int>>)
    ensures |col| == Length(t)
  {
    match t
    case Blank => []
    case Positions(rows) => seq(|rows|, k requires 0 <= k < |rows| => rows[k].timestamp)
    case Schedules(rows) => seq(|rows|, k requires 0 <= k < |rows| => rows[k].timestamp)
  }

  /** `min()` of a time column, skipping NaT; `None` when nothing is present. */
  function MinStamp(ts: seq<Option<int>>): (r: Option<int>)
    ensures r.None? <==> forall k :: 0 <= k < |ts| ==> ts[k].None?
    ensures r.Some? ==> Some(r.value) in ts
    ensures r.Some? ==> forall k :: 0 <= k < |ts| && ts[k].Some? ==> r.value <= ts[k].value
    decreases |ts|
  {
    if ts == [] then None
    else
      var rest := MinStamp(ts[1..]);
      assert forall k :: 1 <= k < |ts| ==> ts[k] == ts[1..][k - 1];
      if ts[0].None? then rest
      else if rest.None? || ts[0].value <= rest.value then ts[0]
      else rest
  }

  /** `max()` of a time column, skipping NaT; `None` when nothing is present. */
  function MaxStamp(ts: seq<Option<int>>): (r: Option<int>)
    ensures r.None? <==> forall k :: 0 <= k < |ts| ==> ts[k].None?
    ensures r.Some? ==> Some(r.value) in ts
    ensures r.Some? ==> forall k :: 0 <= k < |ts| && ts[k].Some? ==> ts[k].value <= r.value
    decreases |ts|
  {
    if ts == [] then None
    else
      var rest := MaxStamp(ts[1..]);
      assert forall k :: 1 <= k < |ts| ==> ts[k] == ts[1..][k - 1];
      if ts[0].None? then rest
      else if rest.None? || ts[0].value >= rest.value then ts[0]
      else rest
  }

  /** `(max - min).days`: the whole days between the latest and the earliest present
      time (a `timedelta` floors); `None` (NaN) when nothing is present. */
  function SpanDays(ts: seq<Option<int>>): (d: Option<nat>)
    ensures d.None? <==> MinStamp(ts).None?
    ensures d.Some? ==>
      d.value * SecondsPerDay <= MaxStamp(ts).value - MinStamp(ts).value < (d.value + 1) * SecondsPerDay
  {
    match MinStamp(ts)
    case None => None
    case Some(lo) =>
      assert MaxStamp(ts).Some? && lo <= MaxStamp(ts).value;
      Some((MaxStamp(ts).value - lo) / SecondsPerDay)
  }

  /** `.dt.hour` of a time: the hour of the day it falls in. */
  function HourOf(t: int): (h: int)
    ensures 0 <= h < 24
    ensures h * SecondsPerHour <= t % SecondsPerDay < (h + 1) * SecondsPerHour
  {
    (t % SecondsPerDay) / SecondsPerHour
  }

  /** The hours of the present times of a column, in row order. */
  function Hours(ts: seq<Option<int>>): (hs: seq<int>)
    ensures |hs| == |Somes(ts)|
    ensures forall k :: 0 <= k < |hs| ==> 0 <= hs[k] < 24
    ensures forall k :: 0 <= k < |hs| ==> hs[k] == HourOf(Somes(ts)[k])
  {
    MapSeq(Somes(ts), HourOf)
  }
}
