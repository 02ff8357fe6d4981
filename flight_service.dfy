/**
 * The backend's flight selection (src/backend/services/flight_service.py):
 * a one-entry geocoding cache, the search box around the centre, the scan of
 * the feed's records that keeps the flights within the radius up to
 * max_flights, the stable sort by distance, and the normalisation of one
 * positional FlightRadar24 record.
 * The geocoder, the feed and the geodesic distance are function parameters.
 */
module FlightService {
  import opened Wrappers
  import opened Values
  import opened Sorting
  import Text

  datatype Coordinates = Coordinates(latitude: real, longitude: real)

  /** What the geocoding library does for an address: a match, no match, or an exception with its text. */
  datatype GeocodeAnswer = Found(coords: Coordinates) | NotFound | Failed(error: string)

  type Geocoder = string -> GeocodeAnswer

  /** geodesic(center, point).meters */
  type Distance = (Coordinates, Coordinates) -> real

  /** One value of the feed's result: a positional list of cells, or anything else. */
  datatype Raw = ListRecord(cells: seq<Value>) | OtherRecord

  /** The feed's answer for a box: its (flight id, record) items in iteration order, or an exception text. */
  type Feed = Box -> Result<seq<(string, Raw)>>

  /** The dictionary _parse_flight_data returns. */
  datatype ParsedFlight = ParsedFlight(
    id: string,
    callsign: Value,
    registration: Value,
    aircraft: Value,
    airline: string,
    origin: Value,
    destination: Value,
    altitude: int,
    speed: int,
    heading: int,
    latitude: real,
    longitude: real,
    distance: real,
    timestamp: string)

  // ---------------------------------------------------------------------------
  // Geocoding cache
  // ---------------------------------------------------------------------------

  /** The cache answers when it holds coordinates that were looked up for this very address. */
  predicate CacheHit(lastAddress: Option<string>, lastCoordinates: Option<Coordinates>, address: string) {
    lastAddress == Some(address) && lastCoordinates.Some?
  }

  /** The outcome of a real lookup, with the messages geocode_address raises. */
  function LookupOutcome(answer: GeocodeAnswer, address: string): (r: Result<Coordinates>)
    ensures r.Ok? <==> answer.Found?
    ensures answer.NotFound? ==> r == Err("Geocoding error: Could not geocode address: " + address)
    ensures answer.Failed? ==> r == Err("Geocoding error: " + answer.error)
  {
    match answer
    case Found(c) => Ok(c)
    case NotFound => Err("Geocoding error: Could not geocode address: " + address)
    case Failed(e) => Err("Geocoding error: " + e)
  }

  // ---------------------------------------------------------------------------
  // Search box
  // ---------------------------------------------------------------------------

  /** The corners handed to the feed: top-left and bottom-right, latitude as y and longitude as x. */
  datatype Box = Box(tlY: real, tlX: real, brY: real, brX: real)

  function Abs(x: real): real { if x < 0.0 then -x else x }

  /** Twice the radius in degrees of latitude, at 111 km per degree. */
  function LatOffset(radius: int): (o: real)
    ensures o * 111000.0 == 2.0 * radius as real
  {
    (radius as real / 111000.0) * 2.0
  }

  /** The longitude half-width: the latitude offset divided by |lat / 90|, or equal to it on the equator. */
  function LonOffset(lat: real, radius: int): (o: real)
    ensures lat == 0.0 ==> o == LatOffset(radius)
    ensures lat != 0.0 ==> o * (111000.0 * Abs(lat / 90.0)) == 2.0 * radius as real
  {
    if lat != 0.0 then (radius as real / (111000.0 * Abs(lat / 90.0))) * 2.0 else LatOffset(radius)
  }

  /** The box around the centre. */
  function BoundingBox(center: Coordinates, radius: int): (b: Box)
    ensures b.tlY == center.latitude + LatOffset(radius) && b.brY == center.latitude - LatOffset(radius)
    ensures b.tlX == center.longitude - LonOffset(center.latitude, radius)
    ensures b.brX == center.longitude + LonOffset(center.latitude, radius)
  {
    var latOffset := LatOffset(radius);
    var lonOffset := LonOffset(center.latitude, radius);
    Box(center.latitude + latOffset, center.longitude - lonOffset, center.latitude - latOffset, center.longitude + lonOffset)
  }

  /** The box is centred on the query point and, for a non-negative radius, not inverted. */
  lemma BoundingBoxCentred(center: Coordinates, radius: int)
    requires radius >= 0
    ensures var b := BoundingBox(center, radius);
      (b.tlY + b.brY) / 2.0 == center.latitude && (b.tlX + b.brX) / 2.0 == center.longitude
      && b.brY <= center.latitude <= b.tlY && b.tlX <= center.longitude <= b.brX
  {
    var lo := LonOffset(center.latitude, radius);
    if center.latitude != 0.0 {
      assert lo * (111000.0 * Abs(center.latitude / 90.0)) >= 0.0;
      assert 111000.0 * Abs(center.latitude / 90.0) > 0.0;
    }
  }

  /** Away from the equator, within the valid latitudes, the box is at least as wide as it is tall. */
  lemma LonOffsetAtLeastLatOffset(lat: real, radius: int)
    requires 0.0 < Abs(lat) <= 90.0 && radius >= 0
    ensures LonOffset(lat, radius) >= LatOffset(radius)
    ensures Abs(lat) == 90.0 ==> LonOffset(lat, radius) == LatOffset(radius)
  {
    var k := Abs(lat / 90.0);
    assert k == Abs(lat) / 90.0;
    assert 0.0 < k <= 1.0;
    var lo, la := LonOffset(lat, radius), LatOffset(radius);
    assert lo * (111000.0 * k) == la * 111000.0;
    assert lo * k == la;
  }

  // ---------------------------------------------------------------------------
  // Normalising one record
  // ---------------------------------------------------------------------------

  /** The maximal leading run of letters of s. */
  function LeadingLetters(s: string): (r: string)
    ensures r <= s
    ensures forall i :: 0 <= i < |r| ==> Text.IsAsciiLetter(r[i])
    ensures |r| < |s| ==> !Text.IsAsciiLetter(s[|r|])
  {
    if s != [] && Text.IsAsciiLetter(s[0]) then [s[0]] + LeadingLetters(s[1..]) else []
  }

  /** What _extract_airline returns for a text callsign. */
  function AirlineCode(callsign: string): (r: string)
    ensures |callsign| < 3 ==> r == "N/A"
    ensures |callsign| >= 3 && LeadingLetters(callsign) != [] ==> r == LeadingLetters(callsign)
    ensures |callsign| >= 3 && LeadingLetters(callsign) == [] ==> r == "N/A"
  {
    if |callsign| < 3 then "N/A"
    else if LeadingLetters(callsign) == [] then "N/A"
    else LeadingLetters(callsign)
  }

  /** _extract_airline: collects the letters up to the first non-letter. */
  method ExtractAirline(callsign: string) returns (code: string)
    ensures code == AirlineCode(callsign)
  {
    if |callsign| < 3 {
      return "N/A";
    }
    var airlineCode := "";
    var i := 0;
    while i < |callsign|
      invariant 0 <= i <= |callsign|
      invariant airlineCode == callsign[..i]
      invariant forall j :: 0 <= j < i ==> Text.IsAsciiLetter(callsign[j])
      invariant i <= |LeadingLetters(callsign)|
    {
      if Text.IsAsciiLetter(callsign[i]) {
        airlineCode := airlineCode + [callsign[i]];
        i := i + 1;
      } else {
        break;
      }
    }
    assert airlineCode == LeadingLetters(callsign);
    code := if airlineCode != "" then airlineCode else "N/A";
  }

  /**
   * _extract_airline applied to whatever cell 16 holds: a falsy value gives "N/A";
   * a truthy value that is not text has no length, and the record is dropped (None).
   */
  function AirlineOf(v: Value): (r: Option<string>)
    ensures !Truthy(v) ==> r == Some("N/A")
    ensures v.PyStr? ==> r == Some(AirlineCode(v.s))
    ensures Truthy(v) && !v.PyStr? ==> r == None
  {
    if !Truthy(v) then Some("N/A")
    else if v.PyStr? then Some(AirlineCode(v.s))
    else None
  }

  /** round(x, 2) on the exact value: to the nearest hundredth, ties to the even hundredth. */
  function Round2(x: real): (r: real)
    ensures -0.005 <= r - x <= 0.005
  {
    var y := x * 100.0;
    var f := y.Floor;
    var frac := y - f as real;
    var n := if frac > 0.5 then f + 1 else if frac < 0.5 then f else if f % 2 == 0 then f else f + 1;
    n as real / 100.0
  }

  /** Rounding to hundredths never takes a distance within a whole-metre radius outside it. */
  lemma Round2WithinRadius(x: real, radius: int)
    requires x <= radius as real
    ensures Round2(x) <= radius as real
  {
    var y := x * 100.0;
    var f := y.Floor;
    assert f <= radius * 100 by {
      assert f as real <= y <= (radius * 100) as real;
    }
    if f == radius * 100 {
      assert y == f as real;
    }
  }

  /** int(cell) when the cell is present and truthy, else 0; None when int() of the cell raises. */
  function IntCell(cells: seq<Value>, k: nat): (r: Option<int>)
    ensures k >= |cells| || !Truthy(cells[k]) ==> r == Some(0)
    ensures k < |cells| && Truthy(cells[k]) && IsNumber(cells[k]) ==> r == ToInt(cells[k])
  {
    if k < |cells| && Truthy(cells[k]) then ToInt(cells[k]) else Some(0)
  }

  /** The cell when present and truthy, otherwise the default text. */
  function CellOr(cells: seq<Value>, k: nat, default: string): Value {
    if k < |cells| && Truthy(cells[k]) then cells[k] else PyStr(default)
  }

  /** The callsign: cell 16, else cell 13, else "N/A", whether or not the cell is empty. */
  function CallsignCell(cells: seq<Value>): Value {
    if |cells| > 16 then cells[16] else if |cells| > 13 then cells[13] else PyStr("N/A")
  }

  /** _parse_flight_data; None when one of its conversions raises. */
  function ParseFlightData(id: string, cells: seq<Value>, distance: real, timestamp: string): (r: Option<ParsedFlight>)
    requires |cells| > 2 && IsNumber(cells[1]) && IsNumber(cells[2])
  {
    var airline := AirlineOf(if |cells| > 16 then cells[16] else PyStr(""));
    var altitude := IntCell(cells, 4);
    var speed := IntCell(cells, 5);
    var heading := IntCell(cells, 3);
    if airline.None? || altitude.None? || speed.None? || heading.None? then None
    else Some(ParsedFlight(
      id := id,
      callsign := CallsignCell(cells),
      registration := CellOr(cells, 9, "N/A"),
      aircraft := CellOr(cells, 8, "Unknown"),
      airline := airline.value,
      origin := CellOr(cells, 11, "N/A"),
      destination := CellOr(cells, 12, "N/A"),
      altitude := altitude.value,
      speed := speed.value,
      heading := heading.value,
      latitude := ToFloat(cells[1]).value,
      longitude := ToFloat(cells[2]).value,
      distance := Round2(distance),
      timestamp := timestamp + "Z"))
  }

  /** The defaults of _parse_flight_data, and when it succeeds at all. */
  lemma ParseFlightDataDefaults(id: string, cells: seq<Value>, distance: real, timestamp: string)
    requires |cells| > 2 && IsNumber(cells[1]) && IsNumber(cells[2])
    ensures var r := ParseFlightData(id, cells, distance, timestamp);
      (r.Some? <==>
        (|cells| <= 16 || !Truthy(cells[16]) || cells[16].PyStr?)
        && (forall k :: 3 <= k <= 5 && k < |cells| && Truthy(cells[k]) ==> IsNumber(cells[k])))
      && (r.Some? ==>
        r.value.id == id
        && (|cells| > 16 ==> r.value.callsign == cells[16])
        && (13 < |cells| <= 16 ==> r.value.callsign == cells[13])
        && (|cells| <= 13 ==> r.value.callsign == PyStr("N/A"))
        && (|cells| <= 9 || !Truthy(cells[9]) ==> r.value.registration == PyStr("N/A"))
        && (|cells| <= 8 || !Truthy(cells[8]) ==> r.value.aircraft == PyStr("Unknown"))
        && (|cells| <= 11 || !Truthy(cells[11]) ==> r.value.origin == PyStr("N/A"))
        && (|cells| <= 12 || !Truthy(cells[12]) ==> r.value.destination == PyStr("N/A"))
        && (|cells| <= 4 || !Truthy(cells[4]) ==> r.value.altitude == 0)
        && (|cells| <= 5 || !Truthy(cells[5]) ==> r.value.speed == 0)
        && (|cells| <= 3 || !Truthy(cells[3]) ==> r.value.heading == 0)
        && (|cells| > 4 && Truthy(cells[4]) ==> r.value.altitude == ToInt(cells[4]).value)
        && (|cells| <= 16 ==> r.value.airline == "N/A")
        && -0.005 <= r.value.distance - distance <= 0.005)
  {
    var r := ParseFlightData(id, cells, distance, timestamp);
    if |cells| <= 16 {
      assert AirlineOf(PyStr("")) == Some("N/A");
    }
    if r.Some? {
      assert forall k :: 3 <= k <= 5 && k < |cells| && Truthy(cells[k]) ==> IsNumber(cells[k]) by {
        assert IntCell(cells, 3).Some? && IntCell(cells, 4).Some? && IntCell(cells, 5).Some?;
      }
    }
  }

  // ---------------------------------------------------------------------------
  // Selecting the flights in range
  // ---------------------------------------------------------------------------

  /** The geodesic distance from the centre to the record's position. */
  function DistanceTo(center: Coordinates, cells: seq<Value>, distance: Distance): real
    requires |cells| > 2 && IsNumber(cells[1]) && IsNumber(cells[2])
  {
    distance(center, Coordinates(ToFloat(cells[1]).value, ToFloat(cells[2]).value))
  }

  /**
   * A record the scan parses: a list of at least 13 cells whose latitude and
   * longitude are present numbers, no farther from the centre than the radius.
   */
  predicate Eligible(center: Coordinates, raw: Raw, radius: int, distance: Distance) {
    raw.ListRecord? && |raw.cells| >= 13
    && raw.cells[1] != PyNone && raw.cells[2] != PyNone
    && IsNumber(raw.cells[1]) && IsNumber(raw.cells[2])
    && DistanceTo(center, raw.cells, distance) <= radius as real
  }

  /**
   * One iteration of the scan: the parsed flight when the record is a list of
   * at least 13 cells with a position, lies within the radius and parses;
   * None when the loop skips it, by `continue` or by a caught exception.
   */
  function Qualify(center: Coordinates, item: (string, Raw), radius: int, distance: Distance, timestamp: string)
    : (r: Option<ParsedFlight>)
    ensures r.Some? ==>
      item.1.ListRecord? && |item.1.cells| >= 13
      && item.1.cells[1] != PyNone && item.1.cells[2] != PyNone
      && IsNumber(item.1.cells[1]) && IsNumber(item.1.cells[2])
      && r.value.id == item.0 && r.value.distance <= radius as real
      && r.value.latitude == ToFloat(item.1.cells[1]).value
      && r.value.longitude == ToFloat(item.1.cells[2]).value
    ensures Eligible(center, item.1, radius, distance) ==>
      r == ParseFlightData(item.0, item.1.cells, DistanceTo(center, item.1.cells, distance), timestamp)
    ensures !Eligible(center, item.1, radius, distance) ==> r == None
  {
    var (id, raw) := item;
    if !raw.ListRecord? || |raw.cells| < 13 then None
    else
      var lat, lon := raw.cells[1], raw.cells[2];
      if lat == PyNone || lon == PyNone then None
      else if !IsNumber(lat) || !IsNumber(lon) then None
      else
        var d := distance(center, Coordinates(ToFloat(lat).value, ToFloat(lon).value));
        if d <= radius as real then
          Round2WithinRadius(d, radius);
          ParseFlightData(id, raw.cells, d, timestamp)
        else None
  }

  /** Every record that qualifies, parsed, in iteration order. */
  function Qualified(center: Coordinates, items: seq<(string, Raw)>, radius: int, distance: Distance, timestamp: string)
    : (r: seq<ParsedFlight>)
    ensures |r| <= |items|
    ensures forall f :: f in r ==> f.distance <= radius as real
  {
    if items == [] then []
    else
      var last := Qualify(center, items[|items| - 1], radius, distance, timestamp);
      Qualified(center, items[..|items| - 1], radius, distance, timestamp) + (if last.Some? then [last.value] else [])
  }

  /** Exactly the flights of the qualifying records: each of them is kept, and nothing else is. */
  lemma {:induction false} QualifiedContents(center: Coordinates, items: seq<(string, Raw)>, radius: int, distance: Distance, timestamp: string)
    ensures var r := Qualified(center, items, radius, distance, timestamp);
      forall k :: 0 <= k < |items| && Qualify(center, items[k], radius, distance, timestamp).Some? ==>
        Qualify(center, items[k], radius, distance, timestamp).value in r
    ensures var r := Qualified(center, items, radius, distance, timestamp);
      forall f :: f in r ==>
        exists k :: 0 <= k < |items| && Qualify(center, items[k], radius, distance, timestamp) == Some(f)
    decreases |items|
  {
    if items != [] {
      var init := items[..|items| - 1];
      QualifiedContents(center, init, radius, distance, timestamp);
      assert forall k :: 0 <= k < |init| ==> init[k] == items[k];
    }
  }

  /** The qualifying records of a prefix of the items begin the qualifying records of all of them. */
  lemma {:induction false} QualifiedPrefix(center: Coordinates, items: seq<(string, Raw)>, j: nat, radius: int, distance: Distance, timestamp: string)
    requires j <= |items|
    ensures Qualified(center, items[..j], radius, distance, timestamp) <= Qualified(center, items, radius, distance, timestamp)
    decreases |items| - j
  {
    if j < |items| {
      QualifiedPrefix(center, items, j + 1, radius, distance, timestamp);
      assert items[..j + 1][..j] == items[..j];
    } else {
      assert items[..j] == items;
    }
  }

  /**
   * The order of the scan: the flight of item k sits at the position given by
   * the number of qualifying items before it, so earlier items come first.
   */
  lemma QualifiedAt(center: Coordinates, items: seq<(string, Raw)>, k: nat, radius: int, distance: Distance, timestamp: string)
    requires k < |items| && Qualify(center, items[k], radius, distance, timestamp).Some?
    ensures var r := Qualified(center, items, radius, distance, timestamp);
      var p := |Qualified(center, items[..k], radius, distance, timestamp)|;
      p < |r| && r[p] == Qualify(center, items[k], radius, distance, timestamp).value
  {
    QualifiedStep(center, items, k, radius, distance, timestamp);
    QualifiedPrefix(center, items, k + 1, radius, distance, timestamp);
  }

  /** Earlier qualifying items come before later ones in the result. */
  lemma QualifiedOrder(center: Coordinates, items: seq<(string, Raw)>, j: nat, k: nat, radius: int, distance: Distance, timestamp: string)
    requires j < k < |items|
    requires Qualify(center, items[j], radius, distance, timestamp).Some?
    requires Qualify(center, items[k], radius, distance, timestamp).Some?
    ensures |Qualified(center, items[..j], radius, distance, timestamp)| < |Qualified(center, items[..k], radius, distance, timestamp)|
  {
    QualifiedStep(center, items, j, radius, distance, timestamp);
    QualifiedPrefix(center, items[..k], j + 1, radius, distance, timestamp);
    assert items[..k][..j + 1] == items[..j + 1];
  }

  /** The scan over one more item appends that item's flight, if it qualifies. */
  lemma QualifiedStep(center: Coordinates, items: seq<(string, Raw)>, i: nat, radius: int, distance: Distance, timestamp: string)
    requires i < |items|
    ensures var q := Qualify(center, items[i], radius, distance, timestamp);
      Qualified(center, items[..i + 1], radius, distance, timestamp)
      == Qualified(center, items[..i], radius, distance, timestamp) + (if q.Some? then [q.value] else [])
  {
    assert items[..i + 1][..i] == items[..i];
    assert items[..i + 1][i] == items[i];
  }

  function Min(a: int, b: int): int { if a <= b then a else b }
  function Max(a: int, b: int): int { if a >= b then a else b }

  /**
   * What the loop collects: the first qualifying records, at most max_flights of
   * them. The bound is checked only after an append, so a max_flights of zero or
   * less still lets the first one through.
   */
  function Selected(center: Coordinates, items: seq<(string, Raw)>, radius: int, maxFlights: int, distance: Distance, timestamp: string)
    : (r: seq<ParsedFlight>)
    ensures r <= Qualified(center, items, radius, distance, timestamp)
    ensures |r| <= Max(maxFlights, 1)
    ensures |r| == Min(|Qualified(center, items, radius, distance, timestamp)|, Max(maxFlights, 1))
  {
    var q := Qualified(center, items, radius, distance, timestamp);
    q[..Min(|q|, Max(maxFlights, 1))]
  }

  /** The sort key: the rounded distance. */
  function DistanceKey(f: ParsedFlight): real { f.distance }

  /** The loop of get_flights_in_area over the feed's items, followed by the sort by distance. */
  method FilterInRange(center: Coordinates, items: seq<(string, Raw)>, radius: int, maxFlights: int, distance: Distance, timestamp: string)
    returns (flights: seq<ParsedFlight>)
    ensures flights == SortByKey(Selected(center, items, radius, maxFlights, distance, timestamp), DistanceKey)
  {
    ghost var q := Qualified(center, items, radius, distance, timestamp);
    var inRange: seq<ParsedFlight> := [];
    var i := 0;
    while i < |items|
      invariant 0 <= i <= |items|
      invariant inRange == Qualified(center, items[..i], radius, distance, timestamp)
      invariant |inRange| < Max(maxFlights, 1)
    {
      QualifiedStep(center, items, i, radius, distance, timestamp);
      var info := Qualify(center, items[i], radius, distance, timestamp);
      if info.Some? {
        inRange := inRange + [info.value];
        if |inRange| >= maxFlights {
          QualifiedPrefix(center, items, i + 1, radius, distance, timestamp);
          assert |inRange| == Max(maxFlights, 1);
          assert q[..|inRange|] == inRange;
          assert Min(|q|, Max(maxFlights, 1)) == |inRange|;
          assert inRange == Selected(center, items, radius, maxFlights, distance, timestamp);
          break;
        }
      }
      i := i + 1;
    }
    if i == |items| {
      assert items[..i] == items;
      assert inRange == q && q[..|q|] == q;
      assert inRange == Selected(center, items, radius, maxFlights, distance, timestamp);
    }
    flights := SortByKey(inRange, DistanceKey);
  }

  /** What get_flights_in_area returns: in range, at most max_flights of them (one when it is 0 or less), nearest first. */
  lemma SelectedProperties(center: Coordinates, items: seq<(string, Raw)>, radius: int, maxFlights: int, distance: Distance, timestamp: string)
    ensures var s := Selected(center, items, radius, maxFlights, distance, timestamp);
      var r := SortByKey(s, DistanceKey);
      SortedBy(r, DistanceKey) && multiset(r) == multiset(s)
      && (maxFlights >= 1 ==> |r| <= maxFlights)
      && (forall f :: f in r ==> f.distance <= radius as real)
      && (|Qualified(center, items, radius, distance, timestamp)| <= Max(maxFlights, 1) ==>
            forall k :: 0 <= k < |items| && Qualify(center, items[k], radius, distance, timestamp).Some? ==>
              Qualify(center, items[k], radius, distance, timestamp).value in r)
  {
    var s := Selected(center, items, radius, maxFlights, distance, timestamp);
    var q := Qualified(center, items, radius, distance, timestamp);
    SortByKeySorted(s, DistanceKey);
    SortByKeyPermutes(s, DistanceKey);
    var r := SortByKey(s, DistanceKey);
    if |q| <= Max(maxFlights, 1) {
      assert s == q;
      QualifiedContents(center, items, radius, distance, timestamp);
      forall k | 0 <= k < |items| && Qualify(center, items[k], radius, distance, timestamp).Some?
        ensures Qualify(center, items[k], radius, distance, timestamp).value in r
      {
        assert Qualify(center, items[k], radius, distance, timestamp).value in multiset(s);
      }
    }
    forall f | f in r ensures f.distance <= radius as real {
      assert f in multiset(r);
      assert f in s;
      var k :| 0 <= k < |s| && s[k] == f;
      assert q[k] == f;
    }
  }

  // ---------------------------------------------------------------------------
  // The service object
  // ---------------------------------------------------------------------------

  /** The default arguments of get_flights_in_area. */
  const DefaultRadius := 3000
  const DefaultMaxFlights := 20

  class FlightTrackerService {
    var lastCoordinates: Option<Coordinates>
    var lastAddress: Option<string>

    constructor ()
      ensures lastCoordinates == None && lastAddress == None
    {
      lastCoordinates := None;
      lastAddress := None;
    }

    /**
     * geocode_address: answers from the cache without a lookup when it holds
     * coordinates for this address; otherwise looks up, caches a match, and
     * leaves the cache as it was on a failure. `lookedUp` says whether the
     * geocoder was consulted.
     */
    method GeocodeAddress(address: string, geocoder: Geocoder) returns (r: Result<Coordinates>, lookedUp: bool)
      modifies this`lastAddress, this`lastCoordinates
      ensures CacheHit(old(lastAddress), old(lastCoordinates), address) ==>
        !lookedUp && r == Ok(old(lastCoordinates).value)
        && lastAddress == old(lastAddress) && lastCoordinates == old(lastCoordinates)
      ensures !CacheHit(old(lastAddress), old(lastCoordinates), address) ==>
        lookedUp && r == LookupOutcome(geocoder(address), address)
      ensures !CacheHit(old(lastAddress), old(lastCoordinates), address) && r.Ok? ==>
        lastAddress == Some(address) && lastCoordinates == Some(r.value)
      ensures r.Err? ==> lastAddress == old(lastAddress) && lastCoordinates == old(lastCoordinates)
      ensures r.Ok? ==> CacheHit(lastAddress, lastCoordinates, address)
    {
      if lastAddress == Some(address) && lastCoordinates.Some? {
        return Ok(lastCoordinates.value), false;
      }
      var answer := geocoder(address);
      match answer {
        case NotFound =>
          return Err("Geocoding error: Could not geocode address: " + address), true;
        case Failed(e) =>
          return Err("Geocoding error: " + e), true;
        case Found(c) =>
          lastAddress := Some(address);
          lastCoordinates := Some(c);
          return Ok(c), true;
      }
    }

    /** clear_cache: afterwards no address hits the cache. */
    method ClearCache()
      modifies this`lastAddress, this`lastCoordinates
      ensures lastAddress == None && lastCoordinates == None
      ensures forall a :: !CacheHit(lastAddress, lastCoordinates, a)
    {
      lastAddress := None;
      lastCoordinates := None;
    }

    /** get_flights_in_area: every failure is re-raised prefixed with "Error fetching flights: ". */
    method GetFlightsInArea(address: string, radius: int, maxFlights: int,
                            geocoder: Geocoder, feed: Feed, distance: Distance, timestamp: string)
      returns (r: Result<seq<ParsedFlight>>)
      modifies this`lastAddress, this`lastCoordinates
      ensures r.Ok? ==>
        CacheHit(lastAddress, lastCoordinates, address)
        && var center := lastCoordinates.value;
           feed(BoundingBox(center, radius)).Ok?
           && r.value == SortByKey(Selected(center, feed(BoundingBox(center, radius)).value, radius, maxFlights, distance, timestamp), DistanceKey)
      ensures r.Err? ==> "Error fetching flights: " <= r.message
      ensures !CacheHit(old(lastAddress), old(lastCoordinates), address) && !geocoder(address).Found? ==>
        r == Err("Error fetching flights: " + LookupOutcome(geocoder(address), address).message)
      ensures CacheHit(old(lastAddress), old(lastCoordinates), address) || geocoder(address).Found? ==>
        var center := if CacheHit(old(lastAddress), old(lastCoordinates), address)
                      then old(lastCoordinates).value else geocoder(address).coords;
        var answer := feed(BoundingBox(center, radius));
        (answer.Ok? ==>
           r == Ok(SortByKey(Selected(center, answer.value, radius, maxFlights, distance, timestamp), DistanceKey)))
        && (answer.Err? ==> r == Err("Error fetching flights: " + answer.message))
      ensures CacheHit(old(lastAddress), old(lastCoordinates), address) || !geocoder(address).Found? ==>
        lastAddress == old(lastAddress) && lastCoordinates == old(lastCoordinates)
      ensures !CacheHit(old(lastAddress), old(lastCoordinates), address) && geocoder(address).Found? ==>
        lastAddress == Some(address) && lastCoordinates == Some(geocoder(address).coords)
      ensures CacheHit(old(lastAddress), old(lastCoordinates), address) || geocoder(address).Found? ==>
        CacheHit(lastAddress, lastCoordinates, address)
    {
      var coords, _ := GeocodeAddress(address, geocoder);
      if coords.Err? {
        return Err("Error fetching flights: " + coords.message);
      }
      var center := coords.value;
      var bounds := feed(BoundingBox(center, radius));
      if bounds.Err? {
        return Err("Error fetching flights: " + bounds.message);
      }
      var flights := FilterInRange(center, bounds.value, radius, maxFlights, distance, timestamp);
      return Ok(flights);
    }
  }
}
