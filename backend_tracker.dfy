/**
 * The web backend's session tracker (backend/tracker.py): the Flight record
 * normalised from an attribute object or a dict, and FlightTracker, which keeps
 * the flights first seen in the current session keyed by callsign, reports the
 * session's statistics and decides whether the session should go on.
 * Wall-clock time is the parameter `now` (seconds, as time.time() gives them);
 * the geocoder and the flight feed are function parameters.
 */
module BackendTracker {
  import opened Wrappers
  import opened Values
  import opened Settings
  import Text

  // ---------------------------------------------------------------------------
  // Flight normalisation
  // ---------------------------------------------------------------------------

  /** What the flight feed hands over: attribute (or dict key) name to value. */
  type FlightData = map<string, Value>

  datatype Flight = Flight(
    callsign: Value,
    id: Value,
    latitude: Value,
    longitude: Value,
    altitude: Value,
    groundSpeed: Value,
    originAirportName: Value,
    destinationAirportName: Value,
    originAirportIata: Value,
    destinationAirportIata: Value,
    airlineName: Value,
    aircraftModel: Value,
    registration: Value)

  /** safe_get: the value stored under attr (even when it is None), otherwise the default. */
  function SafeGet(data: FlightData, attr: string, default: Value): Value {
    if attr in data then data[attr] else default
  }

  /** Python's `a or b`. */
  function Or(a: Value, b: Value): Value {
    if Truthy(a) then a else b
  }

  /** A numeric altitude or speed becomes the text of its integer part, or "Unknown" when it is zero. */
  function DisplayNumber(v: Value): (r: Value)
    ensures !IsNumber(r)
    ensures !IsNumber(v) ==> r == v
  {
    if !IsNumber(v) then v
    else if Truthy(v) then PyStr(Text.IntToString(ToInt(v).value))
    else PyStr("Unknown")
  }

  const Unknown: Value := PyStr("Unknown")
  const NotAvailable: Value := PyStr("N/A")

  /** Flight.__init__. */
  function NewFlight(data: FlightData): (f: Flight)
    ensures !IsNumber(f.altitude) && !IsNumber(f.groundSpeed)
  {
    Flight(
      callsign := SafeGet(data, "callsign", Unknown),
      id := SafeGet(data, "id", PyStr("")),
      latitude := SafeGet(data, "latitude", PyFloat(0.0)),
      longitude := SafeGet(data, "longitude", PyFloat(0.0)),
      altitude := DisplayNumber(SafeGet(data, "altitude", Unknown)),
      groundSpeed := DisplayNumber(SafeGet(data, "ground_speed", Unknown)),
      originAirportName := Or(SafeGet(data, "origin_airport_name", Unknown), SafeGet(data, "origin", Unknown)),
      destinationAirportName := Or(SafeGet(data, "destination_airport_name", Unknown), SafeGet(data, "destination", Unknown)),
      originAirportIata := SafeGet(data, "origin_airport_iata", NotAvailable),
      destinationAirportIata := SafeGet(data, "destination_airport_iata", NotAvailable),
      airlineName := Or(SafeGet(data, "airline_name", Unknown), SafeGet(data, "airline", Unknown)),
      aircraftModel := Or(SafeGet(data, "aircraft_model", Unknown), SafeGet(data, "aircraft", Unknown)),
      registration := SafeGet(data, "registration", Unknown))
  }

  /** Flight.to_dict. */
  function ToDict(f: Flight): FlightData {
    map[
      "callsign" := f.callsign,
      "id" := f.id,
      "latitude" := f.latitude,
      "longitude" := f.longitude,
      "altitude" := f.altitude,
      "ground_speed" := f.groundSpeed,
      "origin_airport_name" := f.originAirportName,
      "destination_airport_name" := f.destinationAirportName,
      "origin_airport_iata" := f.originAirportIata,
      "destination_airport_iata" := f.destinationAirportIata,
      "airline_name" := f.airlineName,
      "aircraft_model" := f.aircraftModel,
      "registration" := f.registration]
  }

  /** A missing callsign reads "Unknown", a missing id the empty string. */
  lemma NewFlightDefaults(data: FlightData)
    ensures "callsign" !in data ==> NewFlight(data).callsign == PyStr("Unknown")
    ensures "callsign" in data ==> NewFlight(data).callsign == data["callsign"]
    ensures "id" !in data ==> NewFlight(data).id == PyStr("")
    ensures "id" in data ==> NewFlight(data).id == data["id"]
  {
  }

  /**
   * A numeric altitude becomes the decimal text of its integer part, which reads
   * back as that integer, or "Unknown" when the number is zero.
   */
  lemma NewFlightAltitude(data: FlightData)
    requires "altitude" in data && IsNumber(data["altitude"])
    ensures var n := ToInt(data["altitude"]).value;
      if Truthy(data["altitude"]) then
        NewFlight(data).altitude == PyStr(Text.IntToString(n))
        && (n >= 0 ==> Text.ParseNat(NewFlight(data).altitude.s) == n)
      else NewFlight(data).altitude == PyStr("Unknown")
  {
    var n := ToInt(data["altitude"]).value;
    if n >= 0 {
      Text.ParseNatToString(n);
    }
  }

  /** The flights to_dict renders with names set and texts for numbers are read back unchanged. */
  ghost predicate Renderable(f: Flight) {
    Truthy(f.originAirportName) && Truthy(f.destinationAirportName)
    && Truthy(f.airlineName) && Truthy(f.aircraftModel)
    && !IsNumber(f.altitude) && !IsNumber(f.groundSpeed)
  }

  /** Normalising what to_dict produced gives the same flight back. */
  lemma {:induction false} ToDictRoundTrip(f: Flight)
    requires Renderable(f)
    ensures NewFlight(ToDict(f)) == f
  {
    var d := ToDict(f);
    assert d["callsign"] == f.callsign && d["id"] == f.id;
    assert d["latitude"] == f.latitude && d["longitude"] == f.longitude;
    assert d["altitude"] == f.altitude && d["ground_speed"] == f.groundSpeed;
    assert d["origin_airport_name"] == f.originAirportName;
    assert d["destination_airport_name"] == f.destinationAirportName;
    assert d["origin_airport_iata"] == f.originAirportIata;
    assert d["destination_airport_iata"] == f.destinationAirportIata;
    assert d["airline_name"] == f.airlineName && d["aircraft_model"] == f.aircraftModel;
    assert d["registration"] == f.registration;
  }

  // ---------------------------------------------------------------------------
  // Session bookkeeping
  // ---------------------------------------------------------------------------

  /** What flights_overhead stores for a callsign: FROM, TO and detected_at. */
  datatype Sighting = Sighting(origin: Value, destination: Value, detectedAt: real)

  /** The geocoder's answer: the formatted address and the coordinates. */
  datatype Location = Location(address: string, latitude: real, longitude: real)

  /** The arguments handed to the feed's get_bounds_by_point. */
  datatype BoundsQuery = BoundsQuery(latitude: real, longitude: real, radius: int)

  datatype SessionStats = SessionStats(
    flightsCount: nat, elapsedTime: int, elapsedStr: string, locationShort: string)

  /** `if self.start_time`: a session has started (a start time of 0.0 reads as none). */
  predicate Started(startTime: Option<real>) {
    startTime.Some? && startTime.value != 0.0
  }

  /** The insert-if-absent step of process_flight: whether the flight is new, and both maps afterwards. */
  function Record(overhead: map<Value, Sighting>, detailed: map<Value, Flight>, f: Flight, now: real)
    : (bool, map<Value, Sighting>, map<Value, Flight>)
  {
    if f.callsign !in overhead then
      (true, overhead[f.callsign := Sighting(f.originAirportName, f.destinationAirportName, now)],
       detailed[f.id := f])
    else (false, overhead, detailed)
  }

  /** A callsign not yet seen is stored once, with FROM, TO and the time it was seen. */
  lemma RecordNew(overhead: map<Value, Sighting>, detailed: map<Value, Flight>, f: Flight, now: real)
    requires f.callsign !in overhead
    ensures var (isNew, o, d) := Record(overhead, detailed, f, now);
      isNew && o.Keys == overhead.Keys + {f.callsign} && |o| == |overhead| + 1
      && o[f.callsign] == Sighting(f.originAirportName, f.destinationAirportName, now)
      && (forall c :: c in overhead ==> o[c] == overhead[c])
      && d.Keys == detailed.Keys + {f.id} && d[f.id] == f
      && (forall i :: i in detailed && i != f.id ==> d[i] == detailed[i])
  {
  }

  /** A callsign already seen changes nothing and is not reported as new. */
  lemma RecordSeen(overhead: map<Value, Sighting>, detailed: map<Value, Flight>, f: Flight, now: real)
    requires f.callsign in overhead
    ensures Record(overhead, detailed, f, now) == (false, overhead, detailed)
  {
  }

  /** Processing the same callsign twice reports it new, then seen, and the count grows by exactly one. */
  lemma RecordTwice(overhead: map<Value, Sighting>, detailed: map<Value, Flight>, f: Flight, g: Flight, t1: real, t2: real)
    requires f.callsign !in overhead && g.callsign == f.callsign
    ensures var (new1, o1, d1) := Record(overhead, detailed, f, t1);
      var (new2, o2, d2) := Record(o1, d1, g, t2);
      new1 && !new2 && |o2| == |overhead| + 1
      && o2[f.callsign] == Sighting(f.originAirportName, f.destinationAirportName, t1)
  {
    RecordNew(overhead, detailed, f, t1);
  }

  /** process_flight never overwrites what is stored for a callsign and never forgets one. */
  lemma RecordKeeps(overhead: map<Value, Sighting>, detailed: map<Value, Flight>, f: Flight, now: real)
    ensures var (_, o, _) := Record(overhead, detailed, f, now);
      overhead.Keys <= o.Keys && |overhead| <= |o| && forall c :: c in overhead ==> o[c] == overhead[c]
  {
    if f.callsign !in overhead {
      RecordNew(overhead, detailed, f, now);
    }
  }

  /** should_continue. */
  function ShouldContinue(startTime: Option<real>, count: nat, maxFlights: int, maxElapsedTime: int, now: real): bool {
    !Started(startTime) || (count < maxFlights && now - startTime.value < maxElapsedTime as real)
  }

  /** Before the first session it is always true; afterwards it is false exactly when a bound is reached. */
  lemma ShouldContinueBounds(startTime: Option<real>, count: nat, maxFlights: int, maxElapsedTime: int, now: real)
    ensures !Started(startTime) ==> ShouldContinue(startTime, count, maxFlights, maxElapsedTime, now)
    ensures Started(startTime) ==>
      (!ShouldContinue(startTime, count, maxFlights, maxElapsedTime, now)
       <==> count >= maxFlights || now - startTime.value >= maxElapsedTime as real)
  {
  }

  /**
   * Once a started session should stop, it stays stopped: processing more flights
   * and letting more time pass never makes should_continue true again.
   */
  lemma ShouldContinueStaysFalse(
    startTime: Option<real>, overhead: map<Value, Sighting>, detailed: map<Value, Flight>,
    f: Flight, maxFlights: int, maxElapsedTime: int, now: real, later: real)
    requires Started(startTime) && now <= later
    requires !ShouldContinue(startTime, |overhead|, maxFlights, maxElapsedTime, now)
    ensures var (_, o, _) := Record(overhead, detailed, f, later);
      !ShouldContinue(startTime, |o|, maxFlights, maxElapsedTime, later)
  {
    RecordKeeps(overhead, detailed, f, later);
  }

  /** The seconds of the session, truncated, or 0 when none has started. */
  function Elapsed(startTime: Option<real>, now: real): (e: int)
    ensures !Started(startTime) ==> e == 0
    ensures Started(startTime) && startTime.value <= now ==>
      e == (now - startTime.value).Floor && e as real <= now - startTime.value < e as real + 1.0
  {
    if Started(startTime) then TruncToInt(now - startTime.value) else 0
  }

  /** time.strftime("%H:%M:%S", time.gmtime(e)): the time of day e seconds after midnight. */
  function ClockString(e: int): (r: string)
    ensures |r| == 8 && r[2] == ':' && r[5] == ':'
  {
    var d := e % 86400;
    Text.TwoDigits(d / 3600) + ":" + Text.TwoDigits(d % 3600 / 60) + ":" + Text.TwoDigits(d % 60)
  }

  /** Reading the three fields of the clock string back gives e modulo one day. */
  lemma ClockStringReadBack(e: int)
    ensures var d := e % 86400; var h, m, s := d / 3600, d % 3600 / 60, d % 60;
      Text.ReadsAsClock(ClockString(e), h, m, s)
      && h < 24 && m < 60 && s < 60 && h * 3600 + m * 60 + s == d
  {
    var d := e % 86400;
    DaySplit(d);
    var h, m, s := Text.TwoDigits(d / 3600), Text.TwoDigits(d % 3600 / 60), Text.TwoDigits(d % 60);
    Text.ClockPieces(h, m, s);
    assert ClockString(e) == h + ":" + m + ":" + s;
  }

  /** A time of day splits into hours below 24, minutes and seconds below 60. */
  lemma DaySplit(d: int)
    requires 0 <= d < 86400
    ensures d / 3600 < 24 && d % 3600 / 60 < 60 && d % 60 < 60
    ensures d / 3600 * 3600 + d % 3600 / 60 * 60 + d % 60 == d
  {
  }

  /** 3725 seconds are one hour, two minutes and five seconds. */
  lemma ClockStringExample()
    ensures ClockString(3725) == "01:02:05"
  {
    assert 3725 % 86400 == 3725 && 3725 / 3600 == 1 && 3725 % 3600 / 60 == 2 && 3725 % 60 == 5;
    Text.TwoDigitsChars(1);
    Text.TwoDigitsChars(2);
    Text.TwoDigitsChars(5);
  }

  /** A day and an hour shows as one hour: the clock wraps at 24 hours. */
  lemma ClockStringWraps()
    ensures ClockString(90000) == "01:00:00"
  {
    assert 90000 % 86400 == 3600 && 3600 / 3600 == 1 && 3600 % 3600 / 60 == 0 && 3600 % 60 == 0;
    Text.TwoDigitsChars(0);
    Text.TwoDigitsChars(1);
  }

  /** location_short: the first comma segment as is, then ", ", then the last segment stripped. */
  function LocationShort(address: string): (r: string)
    ensures var first := Text.FirstSegment(address, ',');
      first + ", " <= r && r[|first| + 2..] == Text.PyStrip(Text.LastSegment(address, ','))
  {
    Text.FirstSegment(address, ',') + ", " + Text.PyStrip(Text.LastSegment(address, ','))
  }

  /**
   * For an address with a comma, cut as the comma-free text before the first
   * comma, anything up to the last comma, and the comma-free text after it:
   * the short location is the first part, ", ", and the last part stripped.
   */
  lemma LocationShortOfParts(first: string, middle: string, last: string)
    requires ',' !in first && ',' !in last
    requires middle == "" || middle[|middle| - 1] == ','
    ensures LocationShort(first + "," + middle + last) == first + ", " + Text.PyStrip(last)
  {
    var address := first + "," + middle + last;
    assert address == first + [','] + (middle + last);
    Text.FirstSegmentBeforeSep(first, ',', middle + last);
    Text.FirstSegmentWhole(first, ',');
    if middle == "" {
      assert address == first + [','] + last;
      Text.LastSegmentAfterSep(first, ',', last);
    } else {
      assert address == (first + "," + middle[..|middle| - 1]) + [','] + last;
      Text.LastSegmentAfterSep(first + "," + middle[..|middle| - 1], ',', last);
    }
  }

  /** An address without commas is shown twice over, the second time stripped. */
  lemma LocationShortNoComma(address: string)
    requires ',' !in address
    ensures LocationShort(address) == address + ", " + Text.PyStrip(address)
  {
    Text.FirstSegmentWhole(address, ',');
    Text.LastSegmentWhole(address, ',');
  }

  /** get_session_stats. */
  function Stats(startTime: Option<real>, overhead: map<Value, Sighting>, location: Location, now: real): (s: SessionStats)
    ensures s.flightsCount == |overhead|
    ensures !Started(startTime) ==> s.elapsedTime == 0
  {
    var e := Elapsed(startTime, now);
    SessionStats(|overhead|, e, ClockString(e), LocationShort(location.address))
  }

  // ---------------------------------------------------------------------------
  // FlightTracker
  // ---------------------------------------------------------------------------

  const DefaultAddress := "31 Maltings Place, Fulham, London, SW62BU"

  /** The AttributeError of reading `address` on a location that is None. */
  const NoLocationMessage := "'NoneType' object has no attribute 'address'"

  /** What the geocoding call (Nominatim.geocode) answers for an address: None when nothing matched. */
  type Geocoder = string -> Option<Location>

  class FlightTracker {
    var config: Section
    var address: string
    var searchRadius: int
    var maxFlights: int
    var maxElapsedTime: int
    var flightsOverhead: map<Value, Sighting>
    var flightsDetailed: map<Value, Flight>
    /** self.location: None once a geocode of a changed address found nothing. */
    var location: Option<Location>
    var bounds: BoundsQuery
    var startTime: Option<real>

    /** The part of __init__ after _setup_location found the address. */
    constructor Located(config: Section, location: Location)
      ensures this.config == config
      ensures address == TextOr(config, "address", DefaultAddress)
      ensures searchRadius == NumberOr(config, "search_radius_meters", 3000)
      ensures maxFlights == NumberOr(config, "max_flights", 20)
      ensures maxElapsedTime == NumberOr(config, "max_elapsed_time", 30 * 60)
      ensures flightsOverhead == map[] && flightsDetailed == map[] && startTime == None
      ensures this.location == Some(location)
      ensures bounds == BoundsQuery(location.latitude, location.longitude, searchRadius)
    {
      this.config := config;
      address := TextOr(config, "address", DefaultAddress);
      searchRadius := NumberOr(config, "search_radius_meters", 3000);
      maxFlights := NumberOr(config, "max_flights", 20);
      maxElapsedTime := NumberOr(config, "max_elapsed_time", 30 * 60);
      flightsOverhead := map[];
      flightsDetailed := map[];
      this.location := Some(location);
      bounds := BoundsQuery(location.latitude, location.longitude, NumberOr(config, "search_radius_meters", 3000));
      startTime := None;
    }

    /** __init__: raises when the configured address cannot be geocoded. */
    static method Create(config: Section, geocode: Geocoder) returns (r: Result<FlightTracker>)
      ensures var a := TextOr(config, "address", DefaultAddress);
        (geocode(a).None? <==> r.Err?)
        && (r.Err? ==> r.message == "Could not geocode address: " + a)
        && (r.Ok? ==>
              fresh(r.value) && r.value.location == geocode(a)
              && r.value.config == config && r.value.address == a
              && r.value.searchRadius == NumberOr(config, "search_radius_meters", 3000)
              && r.value.maxFlights == NumberOr(config, "max_flights", 20)
              && r.value.maxElapsedTime == NumberOr(config, "max_elapsed_time", 30 * 60)
              && r.value.flightsOverhead == map[] && r.value.flightsDetailed == map[]
              && r.value.startTime == None
              && r.value.bounds == BoundsQuery(geocode(a).value.latitude, geocode(a).value.longitude, r.value.searchRadius))
    {
      var a := TextOr(config, "address", DefaultAddress);
      var found := geocode(a);
      if found.None? {
        return Err("Could not geocode address: " + a);
      }
      var t := new FlightTracker.Located(config, found.value);
      return Ok(t);
    }

    /** start_session: a new session starting now, with no flights seen. */
    method StartSession(now: real)
      modifies this`startTime, this`flightsOverhead, this`flightsDetailed
      ensures startTime == Some(now) && flightsOverhead == map[] && flightsDetailed == map[]
    {
      startTime := Some(now);
      flightsOverhead := map[];
      flightsDetailed := map[];
    }

    /** process_flight: true exactly when the callsign was not yet seen in this session. */
    method ProcessFlight(f: Flight, now: real) returns (isNew: bool)
      modifies this`flightsOverhead, this`flightsDetailed
      ensures (isNew, flightsOverhead, flightsDetailed) == Record(old(flightsOverhead), old(flightsDetailed), f, now)
      ensures isNew <==> f.callsign !in old(flightsOverhead)
    {
      if f.callsign !in flightsOverhead {
        flightsOverhead := flightsOverhead[f.callsign := Sighting(f.originAirportName, f.destinationAirportName, now)];
        flightsDetailed := flightsDetailed[f.id := f];
        return true;
      }
      return false;
    }

    /**
     * get_session_stats: the statistics of the session; reading
     * location.address raises when the last geocode found nothing.
     */
    method GetSessionStats(now: real) returns (r: Result<SessionStats>)
      ensures location.None? <==> r.Err?
      ensures r.Err? ==> r.message == NoLocationMessage
      ensures r.Ok? ==> r.value == Stats(startTime, flightsOverhead, location.value, now)
                        && r.value.flightsCount == |flightsOverhead|
    {
      if location.None? {
        return Err(NoLocationMessage);
      }
      return Ok(Stats(startTime, flightsOverhead, location.value, now));
    }

    /** should_continue. */
    method ShouldContinueNow(now: real) returns (go: bool)
      ensures go == ShouldContinue(startTime, |flightsOverhead|, maxFlights, maxElapsedTime, now)
    {
      if !Started(startTime) {
        return true;
      }
      var elapsed := now - startTime.value;
      go := |flightsOverhead| < maxFlights && elapsed < maxElapsedTime as real;
    }

    /**
     * update_config: merges the new settings in, keeps every setting the new
     * config does not give, and geocodes again only when the address changed;
     * a failed geocode raises after the settings were already taken over.
     */
    method UpdateConfig(newConfig: Section, geocode: Geocoder) returns (r: Result<()>)
      modifies this`config, this`address, this`searchRadius, this`maxFlights, this`maxElapsedTime,
        this`location, this`bounds
      ensures config == old(config) + newConfig
      ensures address == TextOr(newConfig, "address", old(address))
      ensures searchRadius == NumberOr(newConfig, "search_radius_meters", old(searchRadius))
      ensures maxFlights == NumberOr(newConfig, "max_flights", old(maxFlights))
      ensures maxElapsedTime == NumberOr(newConfig, "max_elapsed_time", old(maxElapsedTime))
      ensures address == old(address) ==> r.Ok? && location == old(location) && bounds == old(bounds)
      ensures address != old(address) ==>
        (geocode(address).None? <==> r.Err?)
        && location == geocode(address)
        && (r.Err? ==> r.message == "Could not geocode address: " + address && bounds == old(bounds))
        && (r.Ok? ==> bounds == BoundsQuery(location.value.latitude, location.value.longitude, searchRadius))
    {
      var oldAddress := address;
      config := config + newConfig;
      address := TextOr(newConfig, "address", address);
      searchRadius := NumberOr(newConfig, "search_radius_meters", searchRadius);
      maxFlights := NumberOr(newConfig, "max_flights", maxFlights);
      maxElapsedTime := NumberOr(newConfig, "max_elapsed_time", maxElapsedTime);
      if oldAddress != address {
        location := geocode(address);
        if location.None? {
          return Err("Could not geocode address: " + address);
        }
        bounds := BoundsQuery(location.value.latitude, location.value.longitude, searchRadius);
      }
      return Ok(());
    }
  }

  /** In a fresh session three distinct callsigns are all new and all stored, whatever max_flights is. */
  method ThreeDistinctCallsigns(t: FlightTracker, a: Flight, b: Flight, c: Flight, now: real)
    requires a.callsign != b.callsign && b.callsign != c.callsign && a.callsign != c.callsign
    modifies t
    ensures |t.flightsOverhead| == 3
  {
    t.StartSession(now);
    var ra := t.ProcessFlight(a, now);
    var rb := t.ProcessFlight(b, now);
    var rc := t.ProcessFlight(c, now);
    assert ra && rb && rc;
  }
}
