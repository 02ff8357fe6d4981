/**
 * The flight state of the newer web frontend
 * (src/frontend/src/contexts/FlightContext.tsx, and the same updaters in
 * src/frontend/src/pages/Tracker.tsx): on each poll the history of tracked
 * flights gains the polled flights whose registration it does not hold yet,
 * the session counters grow, and the last flight seen is kept so the display
 * can hold it for a while once the sky is empty. The page adds the rotation
 * through the polled flights and the session duration text. Times are
 * milliseconds; hold times are seconds.
 */
module FlightHistory {
  import opened Wrappers
  import Text
  import JsMath
  import Seqs
  import RaspiUtils

  /** The fields of a flight the state logic reads; the others are carried along unread. */
  datatype Flight = Flight(id: string, callsign: string, registration: string)

  /** new Set(flights.map(f => f.registration)). */
  function Registrations(s: seq<Flight>): set<string> {
    set f | f in s :: f.registration
  }

  /** A sequence holds no two flights with the same registration. */
  predicate DistinctRegistrations(s: seq<Flight>) {
    forall i, j :: 0 <= i < j < |s| ==> s[i].registration != s[j].registration
  }

  /** The polled flights whose registration is not yet in the history, in poll order. */
  function NewFlights(prev: seq<Flight>, data: seq<Flight>): seq<Flight> {
    var existing := Registrations(prev);
    Seqs.Filter(data, (f: Flight) => f.registration !in existing)
  }

  /** The history updater: the new flights first, then the previous history. */
  function TrackedHistory(prev: seq<Flight>, data: seq<Flight>): seq<Flight> {
    NewFlights(prev, data) + prev
  }

  /**
   * The history keeps every previous entry, after the new ones; the new ones
   * are the polled flights with a registration not seen before, exactly
   * those, in poll order; and the registrations of the history become those
   * it had together with those of the poll.
   */
  lemma TrackedHistoryProperties(prev: seq<Flight>, data: seq<Flight>)
    ensures var r := TrackedHistory(prev, data); var n := |NewFlights(prev, data)|;
      n <= |data| && r[n..] == prev
      && Seqs.IsSubsequence(r[..n], data)
      && (forall i :: 0 <= i < n ==> r[i] in data && r[i].registration !in Registrations(prev))
      && (forall i :: 0 <= i < |data| && data[i].registration !in Registrations(prev) ==> data[i] in r[..n])
      && Registrations(r) == Registrations(prev) + Registrations(data)
  {
    var existing := Registrations(prev);
    var p := (f: Flight) => f.registration !in existing;
    var added := NewFlights(prev, data);
    var r := TrackedHistory(prev, data);
    assert r[..|added|] == added && r[|added|..] == prev;
    Seqs.FilterIsSubsequence(data, p);
    forall x | x in Registrations(prev) + Registrations(data)
      ensures x in Registrations(r)
    {
      if x in Registrations(prev) {
        var f :| f in prev && f.registration == x;
        assert f in r;
      } else {
        var f :| f in data && f.registration == x;
        var i :| 0 <= i < |data| && data[i] == f;
        assert data[i] in added;
        assert f in r;
      }
    }
    forall x | x in Registrations(r)
      ensures x in Registrations(prev) + Registrations(data)
    {
      var f :| f in r && f.registration == x;
      if f !in prev {
        assert f in added;
      }
    }
  }

  /** A filter of flights with distinct registrations has distinct registrations. */
  lemma {:induction false} FilterDistinct(s: seq<Flight>, p: Flight -> bool)
    requires DistinctRegistrations(s)
    ensures DistinctRegistrations(Seqs.Filter(s, p))
    decreases |s|
  {
    if s != [] {
      var init := s[..|s| - 1];
      var last := s[|s| - 1];
      FilterDistinct(init, p);
      var r := Seqs.Filter(init, p);
      forall i | 0 <= i < |r|
        ensures r[i].registration != last.registration
      {
        var k :| 0 <= k < |init| && init[k] == r[i];
        assert s[k] == r[i];
      }
    }
  }

  /**
   * The history has no registration twice as long as no poll brings one twice.
   * A poll with a repeated new registration adds every copy: only the
   * registrations already in the history are checked.
   */
  lemma HistoryDistinct(prev: seq<Flight>, data: seq<Flight>)
    requires DistinctRegistrations(prev) && DistinctRegistrations(data)
    ensures DistinctRegistrations(TrackedHistory(prev, data))
  {
    var existing := Registrations(prev);
    var added := NewFlights(prev, data);
    FilterDistinct(data, (f: Flight) => f.registration !in existing);
    var r := TrackedHistory(prev, data);
    forall i, j | 0 <= i < j < |r|
      ensures r[i].registration != r[j].registration
    {
      if j >= |added| {
        if i >= |added| {
          assert r[i] == prev[i - |added|] && r[j] == prev[j - |added|];
        } else {
          assert r[i] == added[i] && r[j] in prev;
        }
      } else {
        assert r[i] == added[i] && r[j] == added[j];
      }
    }
  }

  /** Two polled flights with one new registration both enter the history. */
  lemma DuplicatesWithinOnePoll(f: Flight, g: Flight)
    requires f.registration == g.registration
    ensures TrackedHistory([], [f, g]) == [f, g]
  {
    var p := (h: Flight) => h.registration !in Registrations([]);
    assert Seqs.Filter([f], p) == Seqs.Filter([], p) + [f];
    assert [f, g][..1] == [f];
  }

  /** There are no more registrations than flights. */
  lemma {:induction false} RegistrationsSize(s: seq<Flight>)
    ensures |Registrations(s)| <= |s|
    decreases |s|
  {
    if s != [] {
      var init := s[..|s| - 1];
      RegistrationsSize(init);
      assert s == init + [s[|s| - 1]];
      assert Registrations(s) == Registrations(init) + {s[|s| - 1].registration};
    }
  }

  datatype SessionStats = SessionStats(flightsDetected: nat, uniqueAircraft: set<string>, sessionStart: int)

  /** The stats updater: every polled flight is counted, and its registration joins the set. */
  function UpdateStats(prev: SessionStats, data: seq<Flight>): (r: SessionStats)
    ensures r.sessionStart == prev.sessionStart
    ensures r.flightsDetected == prev.flightsDetected + |data|
    ensures prev.uniqueAircraft <= r.uniqueAircraft && |prev.uniqueAircraft| <= |r.uniqueAircraft|
    ensures forall x :: x in r.uniqueAircraft <==> x in prev.uniqueAircraft || exists i :: 0 <= i < |data| && data[i].registration == x
  {
    var r := prev.(flightsDetected := prev.flightsDetected + |data|, uniqueAircraft := prev.uniqueAircraft + Registrations(data));
    assert |prev.uniqueAircraft| <= |r.uniqueAircraft| by {
      SubsetSize(prev.uniqueAircraft, r.uniqueAircraft);
    }
    forall x | x in r.uniqueAircraft && x !in prev.uniqueAircraft
      ensures exists i :: 0 <= i < |data| && data[i].registration == x
    {
      var f :| f in data && f.registration == x;
      var i :| 0 <= i < |data| && data[i] == f;
    }
    r
  }

  lemma SubsetSize(a: set<string>, b: set<string>)
    requires a <= b
    ensures |a| <= |b|
  {
    assert b == a + (b - a);
  }

  /** config.main.display_hold_time || 30: a missing or zero hold time becomes 30 seconds. */
  function HoldTime(configured: Option<real>): (t: real)
    ensures t != 0.0
    ensures configured.Some? && configured.value != 0.0 ==> t == configured.value
    ensures configured.None? || configured.value == 0.0 ==> t == 30.0
  {
    if configured.Some? && configured.value != 0.0 then configured.value else 30.0
  }

  /** getSessionDuration: "{h}h {m}m" from an hour on, otherwise "{m}m", from whole minutes. */
  function SessionDuration(sessionStart: int, now: int): string {
    var diffMins := JsMath.FloorDiv(now - sessionStart, 60000);
    var diffHours := JsMath.FloorDiv(diffMins, 60);
    var mins := JsMath.Rem(diffMins, 60);
    if diffHours > 0 then Text.IntToString(diffHours) + "h " + Text.IntToString(mins) + "m"
    else Text.IntToString(mins) + "m"
  }

  /**
   * For a session that has not started in the future, the page's duration is
   * the Raspberry Pi client's format_duration of the same time in seconds.
   */
  lemma SessionDurationAsRaspi(sessionStart: int, now: int)
    requires sessionStart <= now
    ensures SessionDuration(sessionStart, now) == RaspiUtils.FormatDuration((now - sessionStart) as real / 1000.0)
  {
    var d := now - sessionStart;
    MinutesOfMilliseconds(d);
    HoursMinutesOfMilliseconds(d);
    assert JsMath.FloorDiv(d, 60000) == d / 60000;
    assert JsMath.FloorDiv(d / 60000, 60) == d / 3600000;
    assert JsMath.Rem(d / 60000, 60) == d % 3600000 / 60000;
  }

  /** Whole minutes, then hours of those, and minutes of the hour, of a number of milliseconds. */
  lemma MinutesOfMilliseconds(d: nat)
    ensures d / 60000 / 60 == d / 3600000 && d / 60000 % 60 == d % 3600000 / 60000
  {
  }

  /** format_duration's hours and minutes of d / 1000 seconds are those of d milliseconds. */
  lemma HoursMinutesOfMilliseconds(d: nat)
    ensures RaspiUtils.HoursMinutes(d as real / 1000.0) == (d / 3600000, d % 3600000 / 60000)
  {
    var seconds := d as real / 1000.0;
    var h, m := d / 3600000, d % 3600000 / 60000;
    assert d == h * 3600000 + m * 60000 + d % 60000;
    assert RaspiUtils.FloorDiv(seconds, 3600.0) == h by {
      assert h as real <= seconds / 3600.0 < h as real + 1.0;
    }
    var rest := RaspiUtils.FloorMod(seconds, 3600.0);
    assert rest == (m * 60000 + d % 60000) as real / 1000.0;
    assert RaspiUtils.FloorDiv(rest, 60.0) == m by {
      assert m as real <= rest / 60.0 < m as real + 1.0;
    }
  }

  /** 3725 seconds into the session read "1h 2m"; a negative time falls on the minutes, truncated. */
  lemma SessionDurationExamples()
    ensures SessionDuration(0, 3725000) == "1h 2m"
    ensures SessionDuration(0, 59000) == "0m"
    ensures SessionDuration(60000, 0) == "-1m"
  {
    assert JsMath.FloorDiv(3725000, 60000) == 62 && JsMath.FloorDiv(62, 60) == 1 && JsMath.Rem(62, 60) == 2;
    assert JsMath.FloorDiv(59000, 60000) == 0 && JsMath.FloorDiv(0, 60) == 0 && JsMath.Rem(0, 60) == 0;
    assert JsMath.FloorDiv(-60000, 60000) == -1 && JsMath.FloorDiv(-1, 60) == -1 && JsMath.Rem(-1, 60) == -1;
  }

  /**
   * The history holds exactly the registrations counted as unique, it has no
   * more entries than flights were detected, and the last flight's
   * registration has been counted.
   */
  ghost predicate Consistent(history: seq<Flight>, stats: SessionStats, lastFlight: Option<Flight>) {
    Registrations(history) == stats.uniqueAircraft
    && |history| <= stats.flightsDetected
    && |stats.uniqueAircraft| <= stats.flightsDetected
    && (lastFlight.Some? ==> lastFlight.value.registration in stats.uniqueAircraft)
  }

  /** A poll keeps the history, the stats and the last flight consistent. */
  lemma PollConsistent(history: seq<Flight>, stats: SessionStats, lastFlight: Option<Flight>, data: seq<Flight>)
    requires Consistent(history, stats, lastFlight)
    ensures Consistent(TrackedHistory(history, data), UpdateStats(stats, data), if data != [] then Some(data[0]) else lastFlight)
  {
    TrackedHistoryProperties(history, data);
    var r := TrackedHistory(history, data);
    RegistrationsSize(r);
    if data != [] {
      assert data[0].registration in Registrations(data);
    }
  }

  /** The state of the flight provider, with the rotation index of the tracker page. */
  class FlightSession {
    var flights: seq<Flight>
    var allTrackedFlights: seq<Flight>
    var lastFlight: Option<Flight>
    var lastFlightTime: int
    var displayHoldTime: real
    var stats: SessionStats
    var loading: bool
    var error: Option<string>
    var currentFlightIndex: nat

    /** The history, the stats and the last flight agree. */
    ghost predicate Valid()
      reads this
    {
      Consistent(allTrackedFlights, stats, lastFlight)
    }

    constructor (now: int)
      ensures flights == [] && allTrackedFlights == [] && lastFlight == None && lastFlightTime == 0
      ensures displayHoldTime == 30.0 && stats == SessionStats(0, {}, now)
      ensures loading && error == None && currentFlightIndex == 0
      ensures Valid()
    {
      flights := [];
      allTrackedFlights := [];
      lastFlight := None;
      lastFlightTime := 0;
      displayHoldTime := 30.0;
      stats := SessionStats(0, {}, now);
      loading := true;
      error := None;
      currentFlightIndex := 0;
    }

    /** fetchConfig: the configured hold time, or the current one when the config cannot be read. */
    method FetchConfig(response: Result<Option<real>>)
      modifies this`displayHoldTime
      ensures response.Ok? ==> displayHoldTime == HoldTime(response.value)
      ensures response.Err? ==> displayHoldTime == old(displayHoldTime)
    {
      if response.Ok? {
        displayHoldTime := HoldTime(response.value);
      }
    }

    /** fetchFlights for one poll: the flights, or the message of the failure. */
    method FetchFlights(response: Result<seq<Flight>>, now: int)
      requires Valid()
      modifies this`flights, this`allTrackedFlights, this`lastFlight, this`lastFlightTime, this`stats, this`loading, this`error
      ensures Valid() && !loading
      ensures response.Err? ==> (
        error == Some(response.message) && flights == old(flights)
        && allTrackedFlights == old(allTrackedFlights) && stats == old(stats)
        && lastFlight == old(lastFlight) && lastFlightTime == old(lastFlightTime))
      ensures response.Ok? ==> (
        error == None && flights == response.value
        && allTrackedFlights == TrackedHistory(old(allTrackedFlights), response.value)
        && stats == UpdateStats(old(stats), response.value))
      ensures response.Ok? && response.value != [] ==> lastFlight == Some(response.value[0]) && lastFlightTime == now
      ensures response.Ok? && response.value == [] ==> lastFlight == old(lastFlight) && lastFlightTime == old(lastFlightTime)
    {
      error := None;
      if response.Err? {
        error := Some(response.message);
        loading := false;
        return;
      }
      var data := response.value;
      flights := data;
      if |data| > 0 {
        lastFlight := Some(data[0]);
        lastFlightTime := now;
      }
      PollConsistent(allTrackedFlights, stats, old(lastFlight), data);
      allTrackedFlights := TrackedHistory(allTrackedFlights, data);
      stats := UpdateStats(stats, data);
      loading := false;
    }

    /** One tick of the page's rotation interval, which runs only while there are flights. */
    method RotateTick()
      modifies this`currentFlightIndex
      ensures flights != [] ==> currentFlightIndex < |flights| && currentFlightIndex == (old(currentFlightIndex) + 1) % |flights|
      ensures flights == [] ==> currentFlightIndex == old(currentFlightIndex)
    {
      if |flights| > 0 {
        currentFlightIndex := JsMath.Rem(currentFlightIndex + 1, |flights|);
      }
    }

    /**
     * getDisplayFlight: the rotated flight while there are flights (none when
     * the index has run past a shorter list), otherwise the last flight for
     * displayHoldTime seconds after it was seen.
     */
    function DisplayFlight(now: int): (r: Option<Flight>)
      reads this
      ensures flights != [] ==> (r.Some? <==> currentFlightIndex < |flights|)
      ensures flights != [] && r.Some? ==> r.value == flights[currentFlightIndex]
      ensures flights == [] && r.Some? ==> r == lastFlight
      ensures flights == [] && lastFlight.Some? && lastFlightTime != 0 ==>
        (r.Some? <==> (now - lastFlightTime) as real < displayHoldTime * 1000.0)
      ensures flights == [] && (lastFlight.None? || lastFlightTime == 0) ==> r.None?
    {
      if |flights| > 0 then
        (if currentFlightIndex < |flights| then Some(flights[currentFlightIndex]) else None)
      else if lastFlight.Some? && lastFlightTime != 0 && (now - lastFlightTime) as real / 1000.0 < displayHoldTime then
        lastFlight
      else
        None
    }
  }

  /**
   * A poll with flights followed by an empty one: the first polled flight stays
   * on the display for the hold time after the first poll, and then goes.
   */
  method HoldLastFlight(session: FlightSession, data: seq<Flight>, seen: int, later: int, now: int)
    requires session.Valid() && data != [] && seen != 0
    modifies session
    ensures session.flights == [] && session.lastFlight == Some(data[0]) && session.lastFlightTime == seen
    ensures (now - seen) as real < session.displayHoldTime * 1000.0 ==> session.DisplayFlight(now) == Some(data[0])
    ensures (now - seen) as real >= session.displayHoldTime * 1000.0 ==> session.DisplayFlight(now) == None
  {
    session.FetchFlights(Ok(data), seen);
    session.FetchFlights(Ok([]), later);
  }
}
