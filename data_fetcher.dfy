/** The two fetchers and their cleaners: from a parsed API response to the canonical
    flight table. The HTTP exchange is the parameter `get` (a transport failure, an
    error status and an unreadable body are all `TransportError`); the clock is `now`
    (whole seconds) and the random source is `sample`, whose i-th value is the raw
    i-th draw of the call. */
module DataFetcher {
  import opened Wrappers
  import opened JsonValue
  import opened Seqs
  import opened Text
  import opened Tables

  const OpenSkyStatesUrl := "https://opensky-network.org/api/states/all"
  const AviationStackFlightsUrl := "http://api.aviationstack.com/v1/flights"
  const RequestTimeout := 30

  // ---------------------------------------------------------------------------
  // Country bounding boxes

  datatype BBox = BBox(north: real, south: real, east: real, west: real)

  const BBoxCountries := {
    "Australia", "United States", "United Kingdom", "Germany", "France", "Japan",
    "Singapore", "Canada", "Netherlands"}

  /** `_get_country_bbox`: the box of one of the nine listed countries, none otherwise.
      Every box is non-degenerate: south below north, west of east. */
  function CountryBBox(country: string): (r: Option<BBox>)
    ensures r.Some? <==> country in BBoxCountries
    ensures r.Some? ==> r.value.south < r.value.north && r.value.west < r.value.east
  {
    if country == "Australia" then Some(BBox(-10.0, -44.0, 154.0, 112.0))
    else if country == "United States" then Some(BBox(49.0, 24.0, -66.0, -125.0))
    else if country == "United Kingdom" then Some(BBox(61.0, 49.0, 2.0, -8.0))
    else if country == "Germany" then Some(BBox(55.0, 47.0, 15.0, 6.0))
    else if country == "France" then Some(BBox(51.0, 42.0, 8.0, -5.0))
    else if country == "Japan" then Some(BBox(46.0, 24.0, 146.0, 129.0))
    else if country == "Singapore" then Some(BBox(1.5, 1.2, 104.0, 103.6))
    else if country == "Canada" then Some(BBox(70.0, 42.0, -52.0, -141.0))
    else if country == "Netherlands" then Some(BBox(53.6, 50.7, 7.3, 3.3))
    else None
  }

  // ---------------------------------------------------------------------------
  // Requests and responses

  datatype OpenSkyRequest = OpenSkyRequest(url: string, params: seq<(string, real)>, timeout: nat)

  /** The states query: bounded by the country's box when it has one, global otherwise. */
  function OpenSkyRequestFor(country: string): (q: OpenSkyRequest)
    ensures q.url == OpenSkyStatesUrl && q.timeout == RequestTimeout
    ensures q.params == [] <==> country !in BBoxCountries
    ensures q.params != [] ==>
      |q.params| == 4
      && q.params[0].0 == "lamin" && q.params[1].0 == "lomin"
      && q.params[2].0 == "lamax" && q.params[3].0 == "lomax"
      && q.params[0].1 < q.params[2].1 && q.params[1].1 < q.params[3].1
    ensures q.params != [] ==>
      var b := CountryBBox(country).value;
      q.params == [("lamin", b.south), ("lomin", b.west), ("lamax", b.north), ("lomax", b.east)]
  {
    match CountryBBox(country)
    case Some(b) =>
      OpenSkyRequest(OpenSkyStatesUrl, [("lamin", b.south), ("lomin", b.west), ("lamax", b.north), ("lomax", b.east)], RequestTimeout)
    case None =>
      OpenSkyRequest(OpenSkyStatesUrl, [], RequestTimeout)
  }

  datatype FlightsRequest = FlightsRequest(
    url: string, accessKey: string, limit: nat, offset: nat, depIata: Option<string>, timeout: nat)

  /** The flights query, or nothing at all when no access key is configured. */
  function FlightsRequestFor(apiKey: string, country: string): (q: Option<FlightsRequest>)
    ensures q.None? <==> apiKey == ""
    ensures q.Some? ==> q.value.accessKey == apiKey && q.value.limit == 100 && q.value.offset == 0
    ensures q.Some? ==> (q.value.depIata.Some? <==> country == "Australia")
  {
    if apiKey == "" then None
    else
      var dep := if country == "Australia" then Some("SYD,MEL,BNE,PER,ADL") else None;
      Some(FlightsRequest(AviationStackFlightsUrl, apiKey, 100, 0, dep, RequestTimeout))
  }

  /** What `requests.get(...).json()` gave back: the top-level JSON object, or a failure. */
  datatype Response = TransportError | Body(fields: map<string, Json>)

  /** `not data or key not in data or not data[key]`: the response holds no records. */
  predicate NoRecords(data: map<string, Json>, key: string) {
    data == map[] || key !in data || Falsy(data[key])
  }

  // ---------------------------------------------------------------------------
  // Position source: state vectors to rows

  const StateWidth := 17

  /** A value of the JSON kind a slot expects; any other kind reads as missing. */
  function TextSlot(j: Json): Option<string> {
    if j.JStr? then Some(j.s) else None
  }

  function IntSlot(j: Json): Option<int> {
    if j.JInt? then Some(j.i) else None
  }

  function RealSlot(j: Json): Option<real> {
    match j
    case JInt(i) => Some(i as real)
    case JNum(r) => Some(r)
    case _ => None
  }

  function BoolSlot(j: Json): Option<bool> {
    if j.JBool? then Some(j.b) else None
  }

  /** A state vector pandas can place in the table: a list of at most 17 slots. */
  predicate IsState(j: Json) {
    j.JArr? && |j.items| <= StateWidth
  }

  /** The states pandas accepts for 17 columns: lists no wider than 17, the widest of
      them exactly 17 wide (pandas sizes the table by its widest row). */
  predicate StatesShaped(items: seq<Json>) {
    (forall k :: 0 <= k < |items| ==> IsState(items[k]))
    && (items == [] || exists k :: 0 <= k < |items| && |items[k].items| == StateWidth)
  }

  /** A shorter state vector padded with nulls to the table's width. */
  function Padded(s: seq<Json>): (p: seq<Json>)
    requires |s| <= StateWidth
    ensures |p| == StateWidth && p[..|s|] == s
    ensures forall i :: |s| <= i < StateWidth ==> p[i] == JNull
  {
    s + seq(StateWidth - |s|, _ => JNull)
  }

  /** One state vector, its slots named in the documented order. */
  function StateRow(s: seq<Json>): PositionRow
    requires |s| == StateWidth
  {
    PositionRow(
      TextSlot(s[0]), TextSlot(s[1]), TextSlot(s[2]), IntSlot(s[3]), IntSlot(s[4]),
      RealSlot(s[5]), RealSlot(s[6]), RealSlot(s[7]), BoolSlot(s[8]), RealSlot(s[9]),
      RealSlot(s[10]), RealSlot(s[11]), s[12], RealSlot(s[13]), TextSlot(s[14]),
      BoolSlot(s[15]), IntSlot(s[16]),
      None, None, None)
  }

  /** A non-empty states list made only of JSON objects, which pandas reads as
      records keyed by column name. */
  predicate AllRecords(items: seq<Json>) {
    items != [] && forall k :: 0 <= k < |items| ==> items[k].JObj?
  }

  /** A record's 17 slots: each column takes the value under its own name, null when
      the record has no such key; other keys are ignored. */
  function RecordSlots(fields: map<string, Json>): (p: seq<Json>)
    ensures |p| == StateWidth
    ensures forall i :: 0 <= i < StateWidth ==>
      p[i] == if PositionColumns[i] in fields then fields[PositionColumns[i]] else JNull
  {
    seq(StateWidth, i requires 0 <= i < StateWidth =>
      if PositionColumns[i] in fields then fields[PositionColumns[i]] else JNull)
  }

  /** `pd.DataFrame(data['states'], columns=columns)`: one row per state, in order.
      A list of lists gives a short state padded with nulls, and fails when a state is
      wider than 17 slots or when no state is as wide as the 17 columns. A list of
      objects gives one record per object, read by column name. Any other mixture
      fails. */
  function StatesTable(states: Json): (r: Option<seq<PositionRow>>)
    ensures r.Some? <==> states.JArr? && (StatesShaped(states.items) || AllRecords(states.items))
    ensures r.Some? ==> |r.value| == |states.items|
    ensures r.Some? && StatesShaped(states.items) ==>
      forall k :: 0 <= k < |r.value| ==> r.value[k] == StateRow(Padded(states.items[k].items))
    ensures r.Some? && AllRecords(states.items) ==>
      forall k :: 0 <= k < |r.value| ==> r.value[k] == StateRow(RecordSlots(states.items[k].fields))
  {
    if !states.JArr? then None
    else
      var items := states.items;
      if StatesShaped(items) then
        Some(seq(|items|, k requires 0 <= k < |items| => StateRow(Padded(items[k].items))))
      else if AllRecords(items) then
        Some(seq(|items|, k requires 0 <= k < |items| => StateRow(RecordSlots(items[k].fields))))
      else
        None
  }

  /** A record's longitude and latitude are read from its keys of those names. */
  lemma RecordCoordinates(fields: map<string, Json>)
    ensures var row := StateRow(RecordSlots(fields));
      && row.longitude == (if "longitude" in fields then RealSlot(fields["longitude"]) else None)
      && row.latitude == (if "latitude" in fields then RealSlot(fields["latitude"]) else None)
      && row.callsign == (if "callsign" in fields then TextSlot(fields["callsign"]) else None)
  {
    var p := RecordSlots(fields);
    assert PositionColumns[1] == "callsign" && PositionColumns[5] == "longitude" && PositionColumns[6] == "latitude";
    assert p[1] == (if "callsign" in fields then fields["callsign"] else JNull);
  }

  // ---------------------------------------------------------------------------
  // Position source: cleaning

  const FeetPerMetre: real := 3.28084
  const MphPerMetrePerSecond: real := 2.237

  /** A column multiplied by a constant; a missing cell stays missing. */
  function Scale(x: Option<real>, factor: real): Option<real> {
    match x
    case Some(v) => Some(v * factor)
    case None => None
  }

  predicate HasCoordinates(r: PositionRow) {
    r.longitude.Some? && r.latitude.Some?
  }

  /** `on_ground == False`: a missing flag compares unequal and is dropped too. */
  predicate IsAirborne(r: PositionRow) {
    r.onGround == Some(false)
  }

  predicate LocatedAirborne(r: PositionRow) {
    HasCoordinates(r) && IsAirborne(r)
  }

  /** `str.strip()` on the callsign column; a missing callsign stays missing. */
  function StripCallsign(r: PositionRow): PositionRow {
    r.(callsign := match r.callsign case Some(c) => Some(Strip(c)) case None => None)
  }

  /** `callsign != ''`: true of a missing callsign, as NaN differs from ''. */
  predicate CallsignNotBlank(r: PositionRow) {
    r.callsign != Some("")
  }

  predicate StrippedNotBlank(r: PositionRow) {
    CallsignNotBlank(StripCallsign(r))
  }

  function AddDerived(r: PositionRow): PositionRow {
    r.(altitudeFt := Scale(r.baroAltitude, FeetPerMetre), speedMph := Scale(r.velocity, MphPerMetrePerSecond))
  }

  function LastContactKey(r: PositionRow): Option<int> {
    r.lastContact
  }

  /** The rows position cleaning keeps, judged on the raw row in one go. */
  predicate KeptPosition(r: PositionRow) {
    LocatedAirborne(r) && StrippedNotBlank(r)
  }

  /** What position cleaning makes of a kept row. */
  function CleanedPosition(r: PositionRow): PositionRow {
    AddDerived(StripCallsign(r))
  }

  lemma MapSeqMapSeq<T, U, V>(s: seq<T>, f: T -> U, g: U -> V, gf: T -> V)
    requires forall x :: gf(x) == g(f(x))
    ensures MapSeq(MapSeq(s, f), g) == MapSeq(s, gf)
  {
  }

  /** `_clean_opensky_data`: keep the located, airborne rows whose stripped callsign is
      not blank, strip the callsigns, add the converted altitude and speed, and sort
      by last contact, latest first. The result holds each kept row, cleaned, exactly
      as often as the input holds it. */
  function CleanOpenSky(rows: seq<PositionRow>): (r: seq<PositionRow>)
    ensures SortedDesc(r, LastContactKey)
    ensures multiset(r) == multiset(MapSeq(Filter(rows, KeptPosition), CleanedPosition))
  {
    var located := Filter(rows, HasCoordinates);
    var airborne := Filter(located, IsAirborne);
    var stripped := MapSeq(airborne, StripCallsign);
    var labelled := Filter(stripped, CallsignNotBlank);
    var derived := MapSeq(labelled, AddDerived);
    FilterFilter(rows, HasCoordinates, IsAirborne, LocatedAirborne);
    FilterMapSeq(airborne, StripCallsign, CallsignNotBlank, StrippedNotBlank);
    FilterFilter(rows, LocatedAirborne, StrippedNotBlank, KeptPosition);
    MapSeqMapSeq(Filter(rows, KeptPosition), StripCallsign, AddDerived, CleanedPosition);
    SortDesc(derived, LastContactKey)
  }

  /** Every row position cleaning returns is located and airborne, carries a
      stripped non-blank callsign or none, and the two converted columns; it is the
      cleaned form of a kept input row. */
  lemma CleanOpenSkyRows(rows: seq<PositionRow>, x: PositionRow)
    requires x in CleanOpenSky(rows)
    ensures exists src :: src in rows && KeptPosition(src) && x == CleanedPosition(src)
    ensures HasCoordinates(x) && x.onGround == Some(false)
    ensures x.callsign.Some? ==> x.callsign.value != "" && Strip(x.callsign.value) == x.callsign.value
    ensures x.altitudeFt == Scale(x.baroAltitude, FeetPerMetre)
    ensures x.speedMph == Scale(x.velocity, MphPerMetrePerSecond)
  {
    var src := CleanedSource(rows, x);
    CleanedPositionShape(src);
  }

  /** The kept input row a cleaned row comes from. */
  lemma CleanedSource(rows: seq<PositionRow>, x: PositionRow) returns (src: PositionRow)
    requires x in CleanOpenSky(rows)
    ensures src in rows && KeptPosition(src) && x == CleanedPosition(src)
  {
    var kept := Filter(rows, KeptPosition);
    var mapped := MapSeq(kept, CleanedPosition);
    assert multiset(CleanOpenSky(rows)) == multiset(mapped);
    assert x in multiset(CleanOpenSky(rows));
    assert x in multiset(mapped);
    var k :| 0 <= k < |mapped| && mapped[k] == x;
    src := kept[k];
    assert KeptPosition(src);
    assert src in multiset(kept);
    assert multiset(kept)[src] == multiset(rows)[src];
  }

  lemma CleanedPositionShape(src: PositionRow)
    requires KeptPosition(src)
    ensures var x := CleanedPosition(src);
      HasCoordinates(x) && x.onGround == Some(false)
      && (x.callsign.Some? ==> x.callsign.value != "" && Strip(x.callsign.value) == x.callsign.value)
      && x.altitudeFt == Scale(x.baroAltitude, FeetPerMetre)
      && x.speedMph == Scale(x.velocity, MphPerMetrePerSecond)
  {
    if src.callsign.Some? {
      StripIdempotent(src.callsign.value);
    }
  }

  /** A located airborne row without a callsign survives cleaning: the blank test
      compares NaN with '' and keeps it. */
  lemma MissingCallsignKept(rows: seq<PositionRow>, src: PositionRow)
    requires src in rows && LocatedAirborne(src) && src.callsign.None?
    ensures CleanedPosition(src) in CleanOpenSky(rows)
  {
    var kept := Filter(rows, KeptPosition);
    assert src in multiset(kept);
    var k :| 0 <= k < |kept| && kept[k] == src;
    assert CleanedPosition(src) in MapSeq(kept, CleanedPosition);
    assert CleanedPosition(src) in multiset(MapSeq(kept, CleanedPosition));
  }

  // ---------------------------------------------------------------------------
  // Time windows

  const SecondsPerWeek := 604800
  const SecondsPerMonth := 2592000

  /** The window whose timestamps are synthesized; none for any other label. */
  function WindowSeconds(timeRange: string): (w: Option<nat>)
    ensures w.Some? ==> w.value > 0
  {
    if timeRange == "Last 7 Days" then Some(SecondsPerWeek)
    else if timeRange == "Last 30 Days" then Some(SecondsPerMonth)
    else None
  }

  /** `np.random.uniform(-window, 0)`, at one-second granularity, from a raw draw. */
  function Offset(window: nat, draw: nat): (o: int)
    requires window > 0
    ensures -(window as int) <= o < 0
  {
    draw % window - window
  }

  /** The k-th synthesized timestamp of a window ending now. */
  function WindowStamp(now: int, window: nat, draw: nat): (t: int)
    requires window > 0
    ensures now - window <= t < now
  {
    now + Offset(window, draw)
  }

  /** Timestamps for position rows: `last_contact`, or `now + offset` per row when the
      label names a 7- or 30-day window. Nothing but `timestamp` changes. */
  function StampPositions(rows: seq<PositionRow>, timeRange: string, now: int, sample: nat -> nat): (r: seq<PositionRow>)
    ensures |r| == |rows|
    ensures forall k :: 0 <= k < |r| ==> r[k] == rows[k].(timestamp := r[k].timestamp)
    ensures WindowSeconds(timeRange).None? ==> forall k :: 0 <= k < |r| ==> r[k].timestamp == rows[k].lastContact
    ensures WindowSeconds(timeRange).Some? ==> forall k :: 0 <= k < |r| ==>
      r[k].timestamp.Some? && now - WindowSeconds(timeRange).value <= r[k].timestamp.value < now
  {
    match WindowSeconds(timeRange)
    case None =>
      seq(|rows|, k requires 0 <= k < |rows| => rows[k].(timestamp := rows[k].lastContact))
    case Some(w) =>
      var r := seq(|rows|, k requires 0 <= k < |rows| => rows[k].(timestamp := Some(WindowStamp(now, w, sample(k)))));
      assert forall k :: 0 <= k < |r| ==> r[k].timestamp == Some(WindowStamp(now, w, sample(k)));
      r
  }

  /** `fetch_opensky_data`. */
  function FetchOpenSky(country: string, timeRange: string, get: OpenSkyRequest -> Response, now: int, sample: nat -> nat): Option<Table>
  {
    match get(OpenSkyRequestFor(country))
    case TransportError => None
    case Body(data) =>
      if NoRecords(data, "states") then Some(Blank)
      else
        match StatesTable(data["states"])
        case None => None
        case Some(raw) => Some(Positions(StampPositions(CleanOpenSky(raw), timeRange, now, sample)))
  }

  /** The outcomes of a position fetch: failure exactly on a transport failure or a
      malformed states list, the column-less table exactly when no states came back,
      and otherwise rows that passed cleaning, stamped by the window rule. */
  lemma FetchOpenSkyOutcome(country: string, timeRange: string, get: OpenSkyRequest -> Response, now: int, sample: nat -> nat)
    ensures var response := get(OpenSkyRequestFor(country));
      FetchOpenSky(country, timeRange, get, now, sample).None? <==>
        response.TransportError? || (!NoRecords(response.fields, "states") && StatesTable(response.fields["states"]).None?)
    ensures var response := get(OpenSkyRequestFor(country));
      FetchOpenSky(country, timeRange, get, now, sample) == Some(Blank) <==>
        response.Body? && NoRecords(response.fields, "states")
    ensures var result := FetchOpenSky(country, timeRange, get, now, sample);
      result.Some? && result.value.Positions? ==>
        var rows := result.value.positions;
        forall k :: 0 <= k < |rows| ==>
          HasCoordinates(rows[k]) && rows[k].onGround == Some(false) && rows[k].callsign != Some("")
          && rows[k].altitudeFt == Scale(rows[k].baroAltitude, FeetPerMetre)
          && rows[k].speedMph == Scale(rows[k].velocity, MphPerMetrePerSecond)
          && (WindowSeconds(timeRange).None? ==> rows[k].timestamp == rows[k].lastContact)
          && (WindowSeconds(timeRange).Some? ==>
                rows[k].timestamp.Some? && now - WindowSeconds(timeRange).value <= rows[k].timestamp.value < now)
  {
    var result := FetchOpenSky(country, timeRange, get, now, sample);
    if result.Some? && result.value.Positions? {
      var response := get(OpenSkyRequestFor(country));
      var raw := StatesTable(response.fields["states"]).value;
      var cleaned := CleanOpenSky(raw);
      var rows := result.value.positions;
      forall k | 0 <= k < |rows|
        ensures HasCoordinates(rows[k]) && rows[k].onGround == Some(false) && rows[k].callsign != Some("")
        ensures rows[k].altitudeFt == Scale(rows[k].baroAltitude, FeetPerMetre)
        ensures rows[k].speedMph == Scale(rows[k].velocity, MphPerMetrePerSecond)
      {
        assert rows[k] == cleaned[k].(timestamp := rows[k].timestamp);
        CleanOpenSkyRows(raw, cleaned[k]);
      }
    }
  }

  // ---------------------------------------------------------------------------
  // Schedule source: flattening

  /** One schedule item flattened, before cleaning. Text fields and delays hold what
      `.get(key, default)` returned: the default ('' or 0) for an absent key, `None`
      for JSON null. The two scheduled times are still text. */
  datatype FlatFlight = FlatFlight(
    flightNumber: Option<string>,
    airline: Option<string>,
    airlineIata: Option<string>,
    origin: Option<string>,
    originAirport: Option<string>,
    destination: Option<string>,
    destinationAirport: Option<string>,
    departureTime: Option<string>,
    arrivalTime: Option<string>,
    flightStatus: Option<string>,
    aircraftType: Option<string>,
    departureDelay: Option<int>,
    arrivalDelay: Option<int>)

  /** `item.get(key, {})` as the receiver of a further `.get`: the nested object, an
      empty one when the key is absent, and failure (an AttributeError) when the
      value is present but not an object, JSON null included. */
  function NestedObject(item: map<string, Json>, key: string): (r: Option<map<string, Json>>)
    ensures key !in item ==> r == Some(map[])
    ensures key in item && item[key] == JNull ==> r.None?
  {
    if key !in item then Some(map[])
    else match item[key]
      case JObj(fields) => Some(fields)
      case _ => None
  }

  /** `obj.get(key, '')`. */
  function TextField(obj: map<string, Json>, key: string): Option<string> {
    if key !in obj then Some("") else TextSlot(obj[key])
  }

  /** `obj.get(key, 0)`. */
  function DelayField(obj: map<string, Json>, key: string): Option<int> {
    if key !in obj then Some(0) else IntSlot(obj[key])
  }

  const NestedKeys := ["flight", "airline", "departure", "arrival", "aircraft"]

  /** One `flight_info` record, or failure when the item is not an object or one of
      its nested objects is present but not an object. Each field reads its own
      nested path (`ReadsPaths`). */
  function FlattenItem(item: Json): (r: Option<FlatFlight>)
    ensures r.Some? <==> item.JObj? && forall key :: key in NestedKeys ==> NestedObject(item.fields, key).Some?
    ensures r.Some? ==> ReadsPaths(item.fields, r.value)
  {
    if !item.JObj? then None
    else
      var f := item.fields;
      var flight, airline := NestedObject(f, "flight"), NestedObject(f, "airline");
      var departure, arrival := NestedObject(f, "departure"), NestedObject(f, "arrival");
      var aircraft := NestedObject(f, "aircraft");
      if flight.None? || airline.None? || departure.None? || arrival.None? || aircraft.None? then None
      else
        Some(FlatFlight(
          TextField(flight.value, "number"),
          TextField(airline.value, "name"),
          TextField(airline.value, "iata"),
          TextField(departure.value, "iata"),
          TextField(departure.value, "airport"),
          TextField(arrival.value, "iata"),
          TextField(arrival.value, "airport"),
          TextField(departure.value, "scheduled"),
          TextField(arrival.value, "scheduled"),
          TextField(f, "flight_status"),
          TextField(aircraft.value, "registration"),
          DelayField(departure.value, "delay"),
          DelayField(arrival.value, "delay")))
  }

  /** An item without any of the expected keys flattens to the defaults. */
  lemma FlattenItemDefaults()
    ensures FlattenItem(JObj(map[])) == Some(FlatFlight(
      Some(""), Some(""), Some(""), Some(""), Some(""), Some(""), Some(""),
      Some(""), Some(""), Some(""), Some(""), Some(0), Some(0)))
  {
  }

  /** The value `item.get(outer, {}).get(inner)` finds: nothing when either key is
      absent (or the outer value is not an object). */
  function PathLeaf(f: map<string, Json>, outer: string, inner: string): Option<Json> {
    if outer in f && f[outer].JObj? && inner in f[outer].fields then Some(f[outer].fields[inner])
    else None
  }

  /** The value `item.get(key)` finds at the top level. */
  function TopLeaf(f: map<string, Json>, key: string): Option<Json> {
    if key in f then Some(f[key]) else None
  }

  /** A text field read from `leaf`: '' when nothing is there, the text of a JSON
      string, and `None` for JSON null. */
  predicate ReadsText(field: Option<string>, leaf: Option<Json>) {
    (leaf.None? ==> field == Some(""))
    && (leaf.Some? && leaf.value.JStr? ==> field == Some(leaf.value.s))
    && (leaf == Some(JNull) ==> field.None?)
  }

  /** A delay read from `leaf`: 0 when nothing is there, the number of a JSON integer,
      and `None` for JSON null. */
  predicate ReadsDelay(field: Option<int>, leaf: Option<Json>) {
    (leaf.None? ==> field == Some(0))
    && (leaf.Some? && leaf.value.JInt? ==> field == Some(leaf.value.i))
    && (leaf == Some(JNull) ==> field.None?)
  }

  /** Every field of `r` reads the path of `f` that `flight_info` names for it. */
  predicate ReadsPaths(f: map<string, Json>, r: FlatFlight) {
    && ReadsText(r.flightNumber, PathLeaf(f, "flight", "number"))
    && ReadsText(r.airline, PathLeaf(f, "airline", "name"))
    && ReadsText(r.airlineIata, PathLeaf(f, "airline", "iata"))
    && ReadsText(r.origin, PathLeaf(f, "departure", "iata"))
    && ReadsText(r.originAirport, PathLeaf(f, "departure", "airport"))
    && ReadsText(r.destination, PathLeaf(f, "arrival", "iata"))
    && ReadsText(r.destinationAirport, PathLeaf(f, "arrival", "airport"))
    && ReadsText(r.departureTime, PathLeaf(f, "departure", "scheduled"))
    && ReadsText(r.arrivalTime, PathLeaf(f, "arrival", "scheduled"))
    && ReadsText(r.flightStatus, TopLeaf(f, "flight_status"))
    && ReadsText(r.aircraftType, PathLeaf(f, "aircraft", "registration"))
    && ReadsDelay(r.departureDelay, PathLeaf(f, "departure", "delay"))
    && ReadsDelay(r.arrivalDelay, PathLeaf(f, "arrival", "delay"))
  }

  /** The flattening loop's outcome: one record per item, in order, or failure when any
      item fails. */
  function FlattenAll(items: seq<Json>): (r: Option<seq<FlatFlight>>)
    ensures r.Some? <==> forall k :: 0 <= k < |items| ==> FlattenItem(items[k]).Some?
    ensures r.Some? ==> |r.value| == |items| && forall k :: 0 <= k < |items| ==> FlattenItem(items[k]) == Some(r.value[k])
    decreases |items|
  {
    if items == [] then Some([])
    else
      assert forall k :: 1 <= k < |items| ==> items[k] == items[1..][k - 1];
      match FlattenItem(items[0])
      case None => None
      case Some(first) =>
        match FlattenAll(items[1..])
        case None => None
        case Some(rest) =>
          var r := [first] + rest;
          assert forall k :: 0 <= k < |items| ==> FlattenItem(items[k]) == Some(r[k]) by {
            forall k | 0 <= k < |items| ensures FlattenItem(items[k]) == Some(r[k]) {
              if k > 0 {
                assert items[k] == items[1..][k - 1] && r[k] == rest[k - 1];
              }
            }
          }
          Some(r)
  }

  /** The loop of `fetch_aviationstack_data` that appends one record per item. */
  method FlattenFlights(items: seq<Json>) returns (flights: Option<seq<FlatFlight>>)
    ensures flights == FlattenAll(items)
  {
    var acc: seq<FlatFlight> := [];
    var i := 0;
    while i < |items|
      invariant 0 <= i <= |items|
      invariant |acc| == i
      invariant forall k :: 0 <= k < i ==> FlattenItem(items[k]) == Some(acc[k])
    {
      var info := FlattenItem(items[i]);
      if info.None? {
        assert FlattenAll(items).None?;
        return None;
      }
      acc := acc + [info.value];
      i := i + 1;
    }
    assert FlattenAll(items).Some?;
    assert FlattenAll(items).value == acc;
    flights := Some(acc);
  }

  // ---------------------------------------------------------------------------
  // Schedule source: cleaning

  /** `flight_number != ''`: a missing number is kept. */
  predicate HasFlightNumber(f: FlatFlight) {
    f.flightNumber != Some("")
  }

  function FlightNumberOf(f: FlatFlight): Option<string> {
    f.flightNumber
  }

  /** `pd.to_datetime(value, errors='coerce')` over the injected parser: a missing or
      empty value, or one that does not parse, becomes NaT. */
  function ParseTime(text: Option<string>, parse: string -> Option<int>): Option<int> {
    match text
    case None => None
    case Some(s) => if s == "" then None else parse(s)
  }

  function ScheduleRowOf(f: FlatFlight, parse: string -> Option<int>): (r: ScheduleRow)
    ensures r.timestamp == r.departureTime
  {
    var departure := ParseTime(f.departureTime, parse);
    ScheduleRow(
      f.flightNumber, f.airline, f.airlineIata, f.origin, f.originAirport,
      f.destination, f.destinationAirport, departure, ParseTime(f.arrivalTime, parse),
      f.flightStatus, f.aircraftType, f.departureDelay, f.arrivalDelay, departure)
  }

  function ScheduleRowsOf(flights: seq<FlatFlight>, parse: string -> Option<int>): (r: seq<ScheduleRow>)
    ensures |r| == |flights| && forall k :: 0 <= k < |r| ==> r[k] == ScheduleRowOf(flights[k], parse)
  {
    seq(|flights|, k requires 0 <= k < |flights| => ScheduleRowOf(flights[k], parse))
  }

  function DepartureKey(r: ScheduleRow): Option<int> {
    r.departureTime
  }

  /** `_clean_aviationstack_data`: drop the rows whose flight number is '', parse the
      two times, set `timestamp` to the departure time and sort by departure time,
      latest first, unparsed times last. */
  function CleanAviationStack(flights: seq<FlatFlight>, parse: string -> Option<int>): (r: seq<ScheduleRow>)
    ensures SortedDesc(r, DepartureKey)
    ensures multiset(r) == multiset(ScheduleRowsOf(Filter(flights, HasFlightNumber), parse))
  {
    SortDesc(ScheduleRowsOf(Filter(flights, HasFlightNumber), parse), DepartureKey)
  }

  /** Schedule cleaning removes exactly the rows numbered '': every other row is kept,
      once per occurrence, and no kept row is numbered ''. */
  lemma CleanAviationStackRows(flights: seq<FlatFlight>, parse: string -> Option<int>)
    ensures var r := CleanAviationStack(flights, parse);
      |r| == |flights| - multiset(MapSeq(flights, FlightNumberOf))[Some("")]
    ensures var r := CleanAviationStack(flights, parse);
      forall k :: 0 <= k < |r| ==> r[k].flightNumber != Some("") && r[k].timestamp == r[k].departureTime
  {
    var kept := Filter(flights, HasFlightNumber);
    var r := CleanAviationStack(flights, parse);
    var rows := ScheduleRowsOf(kept, parse);
    assert |r| == |rows| by {
      assert |multiset(r)| == |multiset(rows)|;
    }
    CountBlankNumbers(flights);
    forall k | 0 <= k < |r| ensures r[k].flightNumber != Some("") && r[k].timestamp == r[k].departureTime {
      assert r[k] in multiset(rows);
      var j :| 0 <= j < |rows| && rows[j] == r[k];
      assert HasFlightNumber(kept[j]);
    }
  }

  lemma {:induction false} CountBlankNumbers(flights: seq<FlatFlight>)
    ensures |Filter(flights, HasFlightNumber)| == |flights| - multiset(MapSeq(flights, FlightNumberOf))[Some("")]
    decreases |flights|
  {
    if flights != [] {
      var init, last := flights[..|flights| - 1], flights[|flights| - 1];
      CountBlankNumbers(init);
      assert flights == init + [last];
      FilterSnoc(init, last, HasFlightNumber);
      MapSeqSnoc(init, last, FlightNumberOf);
      var nums := MapSeq(init, FlightNumberOf);
      assert multiset(nums + [last.flightNumber]) == multiset(nums) + multiset{last.flightNumber};
    }
  }

  /** Timestamps for schedule rows: unchanged for "Last 24 Hours", any other unknown
      label and an empty table; otherwise `now + offset` per row, copied into
      `departure_time`. Nothing else changes. */
  function StampSchedules(rows: seq<ScheduleRow>, timeRange: string, now: int, sample: nat -> nat): (r: seq<ScheduleRow>)
    ensures |r| == |rows|
    ensures forall k :: 0 <= k < |r| ==>
      r[k] == rows[k].(timestamp := r[k].timestamp, departureTime := r[k].departureTime)
    ensures WindowSeconds(timeRange).None? ==> r == rows
    ensures WindowSeconds(timeRange).Some? ==> forall k :: 0 <= k < |r| ==>
      r[k].timestamp.Some? && r[k].departureTime == r[k].timestamp
      && now - WindowSeconds(timeRange).value <= r[k].timestamp.value < now
  {
    if rows == [] || timeRange == "Last 24 Hours" then rows
    else
      match WindowSeconds(timeRange)
      case None => rows
      case Some(w) =>
        var r := seq(|rows|, k requires 0 <= k < |rows| =>
          var t := Some(WindowStamp(now, w, sample(k)));
          rows[k].(timestamp := t, departureTime := t));
        assert forall k :: 0 <= k < |r| ==>
          r[k].timestamp == Some(WindowStamp(now, w, sample(k))) && r[k].departureTime == r[k].timestamp;
        r
  }

  /** `fetch_aviationstack_data`. */
  function AviationStackResult(
    apiKey: string, country: string, timeRange: string, get: FlightsRequest -> Response,
    parse: string -> Option<int>, now: int, sample: nat -> nat): Option<Table>
  {
    match FlightsRequestFor(apiKey, country)
    case None => None
    case Some(q) =>
      match get(q)
      case TransportError => None
      case Body(data) =>
        if NoRecords(data, "data") then Some(Blank)
        else if !data["data"].JArr? then None
        else
          match FlattenAll(data["data"].items)
          case None => None
          case Some(flights) =>
            Some(Schedules(StampSchedules(CleanAviationStack(flights, parse), timeRange, now, sample)))
  }

  /** `fetch_aviationstack_data`, with its flattening loop. `airportCode` is accepted and
      not used, as in the source. */
  method FetchAviationStack(
    apiKey: string, country: string, airportCode: string, timeRange: string,
    get: FlightsRequest -> Response, parse: string -> Option<int>, now: int, sample: nat -> nat)
    returns (result: Option<Table>)
    ensures result == AviationStackResult(apiKey, country, timeRange, get, parse, now, sample)
  {
    var q := FlightsRequestFor(apiKey, country);
    if q.None? {
      return None;
    }
    var response := get(q.value);
    if response.TransportError? {
      return None;
    }
    var data := response.fields;
    if NoRecords(data, "data") {
      return Some(Blank);
    }
    if !data["data"].JArr? {
      return None;
    }
    var flights := FlattenFlights(data["data"].items);
    if flights.None? {
      return None;
    }
    var rows := CleanAviationStack(flights.value, parse);
    result := Some(Schedules(StampSchedules(rows, timeRange, now, sample)));
  }

  /** The outcomes of a schedule fetch: no key means no result and no request; an
      empty or absent `data` list gives the column-less table; an item whose nested
      object is JSON null fails the whole fetch. */
  lemma AviationStackOutcomes(
    apiKey: string, country: string, timeRange: string, get: FlightsRequest -> Response,
    parse: string -> Option<int>, now: int, sample: nat -> nat)
    ensures apiKey == "" ==> AviationStackResult(apiKey, country, timeRange, get, parse, now, sample).None?
    ensures apiKey != "" ==>
      var response := get(FlightsRequestFor(apiKey, country).value);
      response.Body? && NoRecords(response.fields, "data") ==>
        AviationStackResult(apiKey, country, timeRange, get, parse, now, sample) == Some(Blank)
    ensures apiKey != "" ==>
      var response := get(FlightsRequestFor(apiKey, country).value);
      response.Body? && "data" in response.fields && response.fields["data"].JArr? &&
      (exists k, key :: 0 <= k < |response.fields["data"].items| && key in NestedKeys &&
         var item := response.fields["data"].items[k];
         item.JObj? && key in item.fields && item.fields[key] == JNull) ==>
        AviationStackResult(apiKey, country, timeRange, get, parse, now, sample).None?
  {
    if apiKey != "" {
      var response := get(FlightsRequestFor(apiKey, country).value);
      if response.Body? && "data" in response.fields && response.fields["data"].JArr? {
        var items := response.fields["data"].items;
        if exists k, key :: 0 <= k < |items| && key in NestedKeys &&
             items[k].JObj? && key in items[k].fields && items[k].fields[key] == JNull {
          var k, key :| 0 <= k < |items| && key in NestedKeys &&
             items[k].JObj? && key in items[k].fields && items[k].fields[key] == JNull;
          assert FlattenItem(items[k]).None?;
        }
      }
    }
  }
}
