/**
 * The tracker page of the web frontend
 * (src/frontend/react-ts-vite/src/pages/Tracker.tsx and its plain JavaScript
 * copy src/frontend/react/pages/Tracker.js): the session clock shown as
 * HH:MM:SS, the flight picked for the display after each poll, and the
 * rotation through the polled flights. Times are milliseconds; the session
 * start kept in sessionStorage is a field.
 */
module TrackerPage {
  import opened Wrappers
  import Text
  import JsMath
  import BackendTracker
  import FlightBoard

  /** A number rendered with toString() and padStart(2, '0'). */
  function Padded(n: int): string {
    Text.PadStart2(Text.IntToString(n))
  }

  /** formatElapsedTime: whole seconds split into hours, minutes and seconds, each padded to two digits. */
  function FormatElapsedTime(ms: int): string {
    var seconds := JsMath.FloorDiv(ms, 1000);
    var hours := JsMath.FloorDiv(seconds, 3600);
    var minutes := JsMath.FloorDiv(JsMath.Rem(seconds, 3600), 60);
    var secs := JsMath.Rem(seconds, 60);
    Padded(hours) + ":" + Padded(minutes) + ":" + Padded(secs)
  }

  /** A field of a non-negative number: at least two digits that read back as the number, exactly two below 100. */
  lemma PaddedReadBack(n: nat)
    ensures var f := Padded(n);
      |f| >= 2 && Text.AllDigits(f) && Text.ParseNat(f) == n && (|f| == 2 <==> n < 100)
  {
    if n < 100 {
      Text.TwoDigitsReadBack(n);
    } else {
      Text.ParseNatToString(n);
      assert Text.NatToString(n) == Text.NatToString(n / 10) + [Text.DigitChar(n % 10)];
      assert Text.NatToString(n / 10) == Text.NatToString(n / 100) + [Text.DigitChar(n / 10 % 10)];
    }
  }

  /** The text of a non-negative number of whole seconds. */
  function ClockText(seconds: nat): string {
    Padded(seconds / 3600) + ":" + Padded(seconds % 3600 / 60) + ":" + Padded(seconds % 60)
  }

  /** For a non-negative time the page shows the clock text of the whole seconds, ms / 1000. */
  lemma FormatElapsedTimeFields(ms: int)
    requires ms >= 0
    ensures FormatElapsedTime(ms) == ClockText(ms / 1000)
  {
    var seconds := ms / 1000;
    assert JsMath.FloorDiv(ms, 1000) == seconds && JsMath.FloorDiv(seconds, 3600) == seconds / 3600;
    assert JsMath.Rem(seconds, 3600) == seconds % 3600 && JsMath.Rem(seconds, 60) == seconds % 60;
  }

  /**
   * The three fields read back as the whole hours, the minutes of the hour
   * and the seconds of the minute: the hours are not wrapped, and their field
   * takes a third digit from 100 hours on.
   */
  lemma ClockTextReadBack(seconds: nat)
    ensures Text.ReadsAsClock(ClockText(seconds), seconds / 3600, seconds % 3600 / 60, seconds % 60)
    ensures |ClockText(seconds)| == 8 <==> seconds < 360000
  {
    var hours, minutes, secs := seconds / 3600, seconds % 3600 / 60, seconds % 60;
    PaddedReadBack(hours);
    PaddedReadBack(minutes);
    PaddedReadBack(secs);
    Text.ClockPieces(Padded(hours), Padded(minutes), Padded(secs));
  }

  /** Hours, minutes and seconds add up to the whole time. */
  lemma SecondsSplit(seconds: nat)
    ensures seconds == seconds / 3600 * 3600 + seconds % 3600 / 60 * 60 + seconds % 60
  {
  }

  /** 3725000 ms are one hour, two minutes and five seconds. */
  lemma FormatElapsedTimeExample()
    ensures FormatElapsedTime(3725000) == "01:02:05"
  {
    assert JsMath.FloorDiv(3725000, 1000) == 3725 && JsMath.FloorDiv(3725, 3600) == 1;
    assert JsMath.Rem(3725, 3600) == 125 && JsMath.FloorDiv(125, 60) == 2 && JsMath.Rem(3725, 60) == 5;
    Text.TwoDigitsChars(1);
    Text.TwoDigitsChars(2);
    Text.TwoDigitsChars(5);
  }

  /** A hundred hours take three digits: the hours are never wrapped. */
  lemma FormatElapsedTimeHundredHours()
    ensures FormatElapsedTime(360000000) == "100:00:00"
  {
    assert JsMath.FloorDiv(360000000, 1000) == 360000 && JsMath.FloorDiv(360000, 3600) == 100;
    assert JsMath.Rem(360000, 3600) == 0 && JsMath.FloorDiv(0, 60) == 0 && JsMath.Rem(360000, 60) == 0;
    assert Text.NatToString(100) == Text.NatToString(10) + [Text.DigitChar(0)];
    assert Text.NatToString(10) == Text.NatToString(1) + [Text.DigitChar(0)];
    Text.TwoDigitsChars(0);
  }

  /** Below a day the page shows the same clock as the backend's elapsed_str. */
  lemma SameClockAsBackendBelowADay(ms: int)
    requires 0 <= ms < 86400000
    ensures FormatElapsedTime(ms) == BackendTracker.ClockString(ms / 1000)
  {
    var seconds := ms / 1000;
    FormatElapsedTimeFields(ms);
    assert seconds % 86400 == seconds;
    var hours, minutes, secs := seconds / 3600, seconds % 3600 / 60, seconds % 60;
    assert Padded(hours) == Text.TwoDigits(hours);
    assert Padded(minutes) == Text.TwoDigits(minutes);
    assert Padded(secs) == Text.TwoDigits(secs);
  }

  /** From a day on the two clocks differ: the backend wraps at 24 hours, the page does not. */
  lemma DifferentClockFromBackendFromADay(ms: int)
    requires ms >= 86400000
    ensures FormatElapsedTime(ms) != BackendTracker.ClockString(ms / 1000)
  {
    var seconds := ms / 1000;
    FormatElapsedTimeFields(ms);
    ClockTextReadBack(seconds);
    SecondsSplit(seconds);
    BackendTracker.ClockStringReadBack(seconds);
  }

  /** The next rotation index, (prev + 1) % flights.length, for a non-empty list. */
  function NextIndex(prev: nat, length: nat): (i: nat)
    requires length > 0
    ensures i < length
  {
    JsMath.Rem(prev + 1, length)
  }

  /** The index after k rotations. */
  function Rotated(i: nat, length: nat, k: nat): (j: nat)
    requires length > 0
  {
    if k == 0 then i else NextIndex(Rotated(i, length, k - 1), length)
  }

  /** From an index in range the next one is the following index, or 0 after the last. */
  lemma NextIndexInRange(p: nat, length: nat)
    requires p < length
    ensures NextIndex(p, length) == if p + 1 < length then p + 1 else 0
  {
  }

  /** Before the end of the list each rotation moves one place on. */
  lemma {:induction false} RotatedForward(i: nat, length: nat, k: nat)
    requires i + k < length
    ensures Rotated(i, length, k) == i + k
  {
    if k > 0 {
      RotatedForward(i, length, k - 1);
      NextIndexInRange(i + k - 1, length);
    }
  }

  /** a + b rotations are a rotations followed by b more. */
  lemma {:induction false} RotatedCompose(i: nat, length: nat, a: nat, b: nat)
    requires length > 0
    ensures Rotated(i, length, a + b) == Rotated(Rotated(i, length, a), length, b)
  {
    if b > 0 {
      RotatedCompose(i, length, a, b - 1);
    }
  }

  /** Rotation shows every flight: within length rotations each index comes up, and length rotations come back. */
  lemma RotationVisitsAll(i: nat, length: nat, j: nat)
    requires i < length && j < length
    ensures exists k :: 0 <= k < length && Rotated(i, length, k) == j
    ensures Rotated(i, length, length) == i
  {
    var toEnd := length - i;
    RotatedForward(i, length, toEnd - 1);
    NextIndexInRange(length - 1, length);
    assert Rotated(i, length, toEnd) == 0;
    if j >= i {
      RotatedForward(i, length, j - i);
    } else {
      RotatedCompose(i, length, toEnd, j);
      RotatedForward(0, length, j);
      assert Rotated(i, length, toEnd + j) == j;
    }
    RotatedCompose(i, length, toEnd, i);
    RotatedForward(0, length, i);
  }

  /**
   * The page's state: the last polled flights, the flight on the display, the
   * rotation index, the stats shown, whether the last poll succeeded, and the
   * session start kept in sessionStorage.
   */
  class TrackerView {
    var flights: seq<FlightBoard.FlightData>
    var currentFlight: Option<FlightBoard.FlightData>
    var rotationIndex: nat
    var flightsCount: nat
    var elapsedStr: string
    var isConnected: bool
    var sessionStart: Option<int>

    /** Once a poll comes back empty the display is cleared and the index reset; before any flight, likewise. */
    ghost predicate Valid()
      reads this
    {
      flights == [] ==> currentFlight == None && rotationIndex == 0
    }

    /** The initial state, with initializeTracker's reset of the session start to now. */
    constructor (now: int)
      ensures flights == [] && currentFlight == None && rotationIndex == 0
      ensures flightsCount == 0 && elapsedStr == "00:00:00" && !isConnected && sessionStart == Some(now)
      ensures Valid()
    {
      flights := [];
      currentFlight := None;
      rotationIndex := 0;
      flightsCount := 0;
      elapsedStr := "00:00:00";
      isConnected := false;
      sessionStart := Some(now);
    }

    /**
     * fetchData for one poll, the flights or a failure. seenIndex is the
     * rotation index the callback reads: its closure's copy of
     * flightRotationIndex.
     */
    method FetchData(response: Result<seq<FlightBoard.FlightData>>, now: int, seenIndex: nat)
      requires Valid()
      modifies this
      ensures Valid()
      ensures response.Err? ==> (
        !isConnected && flights == old(flights) && currentFlight == old(currentFlight)
        && rotationIndex == old(rotationIndex) && flightsCount == old(flightsCount)
        && elapsedStr == old(elapsedStr) && sessionStart == old(sessionStart))
      ensures response.Ok? ==> isConnected && flights == response.value && flightsCount == |response.value|
      ensures response.Ok? ==> (
        sessionStart == Some(old(sessionStart).GetOr(now))
        && elapsedStr == FormatElapsedTime(now - old(sessionStart).GetOr(now)))
      ensures response.Ok? && response.value == [] ==> currentFlight == None && rotationIndex == 0
      ensures response.Ok? && 0 < |response.value| && seenIndex < |response.value| ==>
        currentFlight == Some(response.value[seenIndex]) && rotationIndex == old(rotationIndex)
      ensures response.Ok? && 0 < |response.value| <= seenIndex ==>
        currentFlight == old(currentFlight) && rotationIndex == old(rotationIndex)
    {
      if response.Err? {
        isConnected := false;
        return;
      }
      ShowPoll(response.value, now);
      SelectCurrentFlight(seenIndex);
    }

    /** The flights, the stats and the connection state of a successful poll. */
    method ShowPoll(received: seq<FlightBoard.FlightData>, now: int)
      modifies this`flights, this`sessionStart, this`flightsCount, this`elapsedStr, this`isConnected
      ensures isConnected && flights == received && flightsCount == |received|
      ensures sessionStart == Some(old(sessionStart).GetOr(now))
      ensures elapsedStr == FormatElapsedTime(now - old(sessionStart).GetOr(now))
    {
      var startTime := if sessionStart.Some? then sessionStart.value else now;
      assert startTime == sessionStart.GetOr(now);
      var text := FormatElapsedTime(now - startTime);
      flights := received;
      if sessionStart.None? {
        sessionStart := Some(startTime);
      }
      flightsCount := |received|;
      elapsedStr := text;
      isConnected := true;
    }

    /** The flight for the display after a poll: the one at the seen index if there is one, none for an empty poll. */
    method SelectCurrentFlight(seenIndex: nat)
      modifies this`currentFlight, this`rotationIndex
      ensures Valid()
      ensures flights == [] ==> currentFlight == None && rotationIndex == 0
      ensures 0 < |flights| && seenIndex < |flights| ==>
        currentFlight == Some(flights[seenIndex]) && rotationIndex == old(rotationIndex)
      ensures 0 < |flights| <= seenIndex ==>
        currentFlight == old(currentFlight) && rotationIndex == old(rotationIndex)
    {
      if |flights| > 0 && seenIndex < |flights| {
        currentFlight := Some(flights[seenIndex]);
      } else if |flights| == 0 {
        currentFlight := None;
        rotationIndex := 0;
      }
    }

    /**
     * rotateCurrentFlight. seenFlights is the list the callback reads, its
     * closure's copy of `flights`; the index itself is updated from its
     * current value.
     */
    method RotateCurrentFlight(seenFlights: seq<FlightBoard.FlightData>)
      requires Valid() && (flights == [] ==> seenFlights == [])
      modifies this`rotationIndex, this`currentFlight
      ensures Valid()
      ensures seenFlights == [] ==> rotationIndex == old(rotationIndex) && currentFlight == old(currentFlight)
      ensures seenFlights != [] ==>
        rotationIndex == NextIndex(old(rotationIndex), |seenFlights|)
        && currentFlight == Some(seenFlights[rotationIndex])
    {
      if |seenFlights| > 0 {
        var newIndex := JsMath.Rem(rotationIndex + 1, |seenFlights|);
        currentFlight := Some(seenFlights[newIndex]);
        rotationIndex := newIndex;
      }
    }
  }

  /**
   * The intervals as written: both are set up once, on mount, so their
   * callbacks keep the first render's state, an empty `flights` and a
   * rotation index of 0. Whatever was polled, a rotation changes nothing and
   * a poll always shows the first flight.
   */
  method StaleIntervalNeverRotates(view: TrackerView, polled: seq<FlightBoard.FlightData>, now: int)
    requires view.Valid() && polled != []
    modifies view
    ensures view.flights == polled && view.currentFlight == Some(polled[0])
    ensures view.rotationIndex == old(view.rotationIndex)
  {
    view.FetchData(Ok(polled), now, 0);
    view.RotateCurrentFlight([]);
    view.RotateCurrentFlight([]);
  }

  /**
   * The intervals as intended: the callbacks read the current state, so after
   * a poll each rotation moves the display to the next polled flight, in
   * order and around the list.
   */
  method CurrentIntervalRotates(view: TrackerView, polled: seq<FlightBoard.FlightData>, now: int)
    requires view.Valid() && polled != []
    modifies view
    ensures view.flights == polled && view.rotationIndex < |polled|
    ensures view.rotationIndex == Rotated(old(view.rotationIndex), |polled|, 2)
    ensures view.currentFlight == Some(polled[view.rotationIndex])
  {
    ghost var i0 := view.rotationIndex;
    view.FetchData(Ok(polled), now, view.rotationIndex);
    assert view.flights == polled && view.rotationIndex == i0;
    view.RotateCurrentFlight(polled);
    ghost var i1 := view.rotationIndex;
    assert i1 == Rotated(i0, |polled|, 1);
    view.RotateCurrentFlight(polled);
  }
}
