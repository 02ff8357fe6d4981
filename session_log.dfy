/**
 * The Raspberry Pi client's session statistics (src/raspi/log.py): how many
 * flights were logged, the set of distinct registrations among them, and the
 * time of the last one. Clock readings are parameters, in seconds.
 */
module SessionLog {
  import opened Wrappers
  import opened Values
  import RaspiUtils

  datatype SessionStats = SessionStats(flightsCount: nat, uniqueCount: nat, elapsedStr: string, elapsedSeconds: real)

  /** `registration and registration != 'N/A'`: a registration that identifies an aircraft. */
  predicate Identifies(registration: Value) {
    Truthy(registration) && registration != PyStr("N/A")
  }

  class SessionLog {
    const sessionStart: real
    var flightsDetected: nat
    var uniqueAircraft: set<Value>
    var lastFlightTime: Option<real>

    /** Every distinct registration came with a logged flight, and each identifies an aircraft. */
    ghost predicate Valid()
      reads this
    {
      |uniqueAircraft| <= flightsDetected && forall r :: r in uniqueAircraft ==> Identifies(r)
    }

    constructor (now: real)
      ensures sessionStart == now && flightsDetected == 0 && uniqueAircraft == {} && lastFlightTime == None
      ensures Valid()
    {
      sessionStart := now;
      flightsDetected := 0;
      uniqueAircraft := {};
      lastFlightTime := None;
    }

    /**
     * log_flight: counts the flight, stamps the time, and adds its registration
     * (getattr(flight, 'registration', None), so None when missing) when it identifies an aircraft.
     */
    method LogFlight(registration: Value, now: real)
      requires Valid()
      modifies this`flightsDetected, this`uniqueAircraft, this`lastFlightTime
      ensures Valid()
      ensures flightsDetected == old(flightsDetected) + 1
      ensures lastFlightTime == Some(now)
      ensures Identifies(registration) ==> uniqueAircraft == old(uniqueAircraft) + {registration}
      ensures !Identifies(registration) ==> uniqueAircraft == old(uniqueAircraft)
      ensures registration in old(uniqueAircraft) ==> |uniqueAircraft| == |old(uniqueAircraft)|
    {
      flightsDetected := flightsDetected + 1;
      lastFlightTime := Some(now);
      if Truthy(registration) && registration != PyStr("N/A") {
        if registration in uniqueAircraft {
          assert uniqueAircraft + {registration} == uniqueAircraft;
        }
        uniqueAircraft := uniqueAircraft + {registration};
      }
    }

    /** get_stats: the counts, the elapsed time and its format_duration text. */
    method GetStats(now: real) returns (s: SessionStats)
      requires Valid()
      ensures s.flightsCount == flightsDetected && s.uniqueCount == |uniqueAircraft|
      ensures s.uniqueCount <= s.flightsCount
      ensures s.elapsedSeconds == now - sessionStart
      ensures s.elapsedStr == RaspiUtils.FormatDuration(now - sessionStart)
    {
      var elapsed := now - sessionStart;
      s := SessionStats(flightsDetected, |uniqueAircraft|, RaspiUtils.FormatDuration(elapsed), elapsed);
    }
  }

  /** Logging the flights of a sequence of registrations one after the other. */
  method LogAll(log: SessionLog, registrations: seq<Value>, now: real)
    requires log.Valid()
    modifies log
    ensures log.Valid()
    ensures log.flightsDetected == old(log.flightsDetected) + |registrations|
    ensures log.uniqueAircraft == old(log.uniqueAircraft) + set r | r in registrations && Identifies(r)
  {
    var i := 0;
    while i < |registrations|
      invariant 0 <= i <= |registrations|
      invariant log.Valid()
      invariant log.flightsDetected == old(log.flightsDetected) + i
      invariant log.uniqueAircraft == old(log.uniqueAircraft) + set r | r in registrations[..i] && Identifies(r)
    {
      assert registrations[..i + 1] == registrations[..i] + [registrations[i]];
      log.LogFlight(registrations[i], now);
      i := i + 1;
    }
    assert registrations[..i] == registrations;
  }
}
