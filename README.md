# Flight tracker core in Dafny

This project models the parts of the flight tracker that decide things. The
HTTP routes, the React rendering and the e-ink drawing around them are not
modelled.

**Backend sources**
- **Session tracker** (`backend/tracker.py`). It normalises the flight records
  of the FlightRadar24 feed. It keeps the flights first seen in the current
  session, keyed by callsign (the first sighting wins). It reports the
  session's statistics: count, elapsed seconds, `HH:MM:SS` and a short
  location. It decides whether the session should go on.
- **Flight selection service** (`src/backend/services/flight_service.py`):
  - the one-entry geocoding cache;
  - the search box around the centre;
  - the scan of the feed's records that keeps the flights within the radius,
    up to `max_flights`, then sorts them by distance;
  - the positional record normalisation and the airline-prefix extractor.
- **Activity log** (`src/backend/services/activity_service.py`): a FIFO buffer
  of bounded capacity. It is read back newest first, filtered by category and
  cut to a limit.
- **Configuration service** (`src/backend/services/config_service.py`):
  - loading, with a fallback to the last good configuration and then to the
    defaults;
  - saving;
  - merging a partial update into the `main` section.

**Raspberry Pi client**
- the duration text, truncation and attribute helpers (`src/raspi/utils.py`);
- the session counter (`src/raspi/log.py`);
- the greedy 28-column word wrap of the start-up screen
  (`src/raspi/startup_status.py`).

**Web frontends.** Each list update is modelled as a function of the previous
state, the input and the time:
- the flight board;
- the activity page;
- the display-field picker;
- the tracker page's clock and rotation;
- the tracked-flight history with its "hold the last flight" rule.

**Copies of the same logic.** Each is modelled once:
- The plain JavaScript frontend (`src/frontend/react/`) repeats the flight
  board, activity page and tracker page logic of `src/frontend/react-ts-vite/`
  line for line. The table cites the TypeScript files.
- `src/frontend/src/pages/Tracker.tsx` and
  `src/frontend/src/contexts/FlightContext.tsx` share the fetch, history and
  stats code. The table cites one of the two for each member.

**How the model is built**
- Code that changes state is imperative Dafny. This covers:
  - the tracker, the cache, the activity buffer, the configuration cache and
    the session counter, each a `class` with `modifies` clauses;
  - the loops (record scan, airline prefix, category filter, word wrap, board
    update, bucket grouping), each a `method` with the invariants that connect
    it to a specification function.
- Pure expressions are functions.
- Every operation has lemmas relating it to a reference definition, an
  invariant or an inverse.

**Environment as parameters**
- Wall-clock time is a `now` parameter. Frontend times are in milliseconds.
- The geocoder, the flight feed and the geodesic distance are function
  parameters.
- The TOML file is the parsed document, or `None` when it could not be read.
- Python values that can be of several types are a `Value` datatype (`values.dfy`).
- Python's `//` and `%` and JavaScript's `Math.floor` and `%` are written out
  (`raspi_utils.dfy`, `js_math.dfy`).

**Discrepancies the model records**
- The backend clock wraps at 24 hours (`gmtime`); the JavaScript clock does not.
  `TrackerPage.SameClockAsBackendBelowADay` and
  `TrackerPage.DifferentClockFromBackendFromADay` prove both halves.
- `get_activities` treats a limit of 0 as "no limit"
  (`ActivityService.NewestProperties`).
- The docstring of `format_duration` promises `H:MM` or `HH:MM:SS`. The code
  gives `"{h}h {m}m"` or `"{m}m"`, and `RaspiUtils.FormatDurationExamples`
  pins the code's behaviour.
- The two defects that change behaviour are under "Findings".

## Model

| member | source | states |
|---|---|---|
| BackendTracker.DisplayNumber | backend/tracker.py:50-55 | a number becomes text (never a number again); anything else passes through unchanged |
| BackendTracker.NewFlight | backend/tracker.py:11-55 | a normalised flight never holds a number as altitude or ground speed |
| BackendTracker.NewFlightDefaults | backend/tracker.py:21-22 | a missing callsign reads "Unknown" and a missing id ""; present ones are taken as they are, even when None |
| BackendTracker.NewFlightAltitude | backend/tracker.py:50-51 | a non-zero numeric altitude becomes the decimal text of its integer part, which parses back to that integer; zero becomes "Unknown" |
| BackendTracker.ToDictRoundTrip | backend/tracker.py:57-72 | normalising the dict that to_dict produced gives the same flight back, when its names are set and its numbers are already text |
| BackendTracker.RecordNew | backend/tracker.py:141-156 | an unseen callsign adds exactly one flights_overhead key holding FROM, TO and the detection time, stores the flight under its id, and reports true |
| BackendTracker.RecordSeen | backend/tracker.py:141-157 | a callsign already present reports false and leaves both maps unchanged |
| BackendTracker.RecordTwice | backend/tracker.py:139-163 | the same callsign processed twice reports true then false; the count grows by exactly one and keeps the first FROM/TO |
| BackendTracker.RecordKeeps | backend/tracker.py:141-157 | no stored callsign is ever overwritten or forgotten, so the count never decreases |
| BackendTracker.ShouldContinueBounds | backend/tracker.py:169-178 | true before any session; afterwards false exactly when the count reaches max_flights or the elapsed time reaches max_elapsed_time |
| BackendTracker.ShouldContinueStaysFalse | backend/tracker.py:169-178 | once a started session should stop, more flights and more time never make it continue again |
| BackendTracker.Elapsed | backend/tracker.py:161 | 0 without a session; otherwise the floor of now - start |
| BackendTracker.ClockString | backend/tracker.py:165 | always eight characters, colons at positions 2 and 5 |
| BackendTracker.ClockStringReadBack | backend/tracker.py:165 | the three fields read back as hours < 24, minutes < 60 and seconds < 60 that add up to the elapsed time modulo one day |
| BackendTracker.ClockStringExample | backend/tracker.py:165 | 3725 seconds read "01:02:05" |
| BackendTracker.ClockStringWraps | backend/tracker.py:165 | 25 hours read "01:00:00": the clock wraps at a day |
| BackendTracker.LocationShort | backend/tracker.py:166 | the comma-free text before the first comma, ", ", then the comma-free text after the last comma, stripped |
| BackendTracker.LocationShortOfParts | backend/tracker.py:166 | for an address first,…,last with comma-free first and last parts, the short location is first + ", " + last stripped, whatever lies between |
| BackendTracker.LocationShortNoComma | backend/tracker.py:166 | an address without a comma appears twice, the second time stripped |
| BackendTracker.Stats | backend/tracker.py:159-167 | the count is the number of distinct callsigns of the session; without a session the elapsed time is 0 |
| BackendTracker.FlightTracker.Located | backend/tracker.py:76-111 | each setting is the configured value or its default (address, 3000 m, 20 flights, 1800 s); the maps are empty, no session has started, and the bounds are taken around the geocoded location |
| BackendTracker.FlightTracker.Create | backend/tracker.py:76-102 | fails, with the source's message, exactly when the address cannot be geocoded; otherwise every setting is the configured value or its default, both flight maps are empty, there is no session, the location is the geocode and the bounds are built from it and the search radius |
| BackendTracker.FlightTracker.StartSession | backend/tracker.py:113-117 | start time now; both maps empty |
| BackendTracker.FlightTracker.ProcessFlight | backend/tracker.py:139-157 | the new state is the insert-if-absent step; the result is true exactly when the callsign was absent |
| BackendTracker.FlightTracker.GetSessionStats | backend/tracker.py:159-167 | the statistics of the current state; after a failed geocode left location None, the AttributeError of reading its address |
| BackendTracker.FlightTracker.ShouldContinueNow | backend/tracker.py:169-178 | agrees with the should_continue rule on the current count and start time |
| BackendTracker.FlightTracker.UpdateConfig | backend/tracker.py:180-193 | the new settings are merged in; every key the new config lacks keeps its value; the address is geocoded again only when it changed, and location becomes the geocoder's answer; a failure leaves location None and the bounds unchanged, and raises after the settings were taken over |
| BackendTracker.ThreeDistinctCallsigns | backend/tracker.py:139-157 | after a fresh session, three distinct callsigns give three stored flights |
| Settings.TextOr | backend/tracker.py:78-80 | config.get of a text setting: the stored text, else the default |
| Settings.NumberOr | backend/tracker.py:81-83 | config.get of a number setting: the stored number, else the default |
| FlightService.LookupOutcome | src/backend/services/flight_service.py:36-45 | a lookup succeeds exactly when the geocoder matched; no match and an exception give the two error messages of the source |
| FlightService.LatOffset | src/backend/services/flight_service.py:71 | the latitude offset times 111000 is twice the radius |
| FlightService.LonOffset | src/backend/services/flight_service.py:72 | on the equator it equals the latitude offset; elsewhere, times 111000·\|lat/90\|, it is twice the radius |
| FlightService.BoundingBox | src/backend/services/flight_service.py:71-79 | the corners are the centre plus or minus the two offsets |
| FlightService.BoundingBoxCentred | src/backend/services/flight_service.py:71-79 | for a non-negative radius the box is centred on the query point and contains it |
| FlightService.LonOffsetAtLeastLatOffset | src/backend/services/flight_service.py:72 | off the equator, at valid latitudes, the box is at least as wide as it is tall, and exactly square at the poles |
| FlightService.LeadingLetters | src/backend/services/flight_service.py:172-178 | the maximal leading run of letters: a prefix, all letters, followed by a non-letter or the end |
| FlightService.AirlineCode | src/backend/services/flight_service.py:169-180 | "N/A" for a callsign shorter than 3 or one without leading letters; otherwise its leading letters |
| FlightService.ExtractAirline | src/backend/services/flight_service.py:160-180 | the loop that builds the code agrees with AirlineCode |
| FlightService.AirlineOf | src/backend/services/flight_service.py:148 | a falsy cell gives "N/A"; a text cell gives its airline code; any other truthy cell makes parsing fail |
| FlightService.Round2 | src/backend/services/flight_service.py:156 | round(d, 2) is within half a hundredth of d |
| FlightService.Round2WithinRadius | src/backend/services/flight_service.py:156 | rounding never moves a distance within a whole-metre radius outside it |
| FlightService.IntCell | src/backend/services/flight_service.py:151-153 | a missing or falsy cell gives 0; a numeric one gives its int() |
| FlightService.ParseFlightDataDefaults | src/backend/services/flight_service.py:143-158 | parsing succeeds exactly when the airline and numeric cells convert; callsign is cell 16, else 13, else "N/A"; falsy registration, aircraft, origin and destination give "N/A"/"Unknown"; falsy altitude, speed and heading give 0; the distance is rounded to hundredths |
| FlightService.Qualify | src/backend/services/flight_service.py:84-111 | a record that is a list of at least 13 cells with present numeric latitude and longitude, within the radius, gives its parsed flight; every other record is skipped |
| FlightService.Qualified | src/backend/services/flight_service.py:82-111 | at most one flight per record, each within the radius |
| FlightService.QualifiedContents | src/backend/services/flight_service.py:82-111 | every qualifying record's flight is in the result and every flight in it comes from a qualifying record |
| FlightService.QualifiedAt | src/backend/services/flight_service.py:84-104 | the flight of item k sits at the position given by the number of qualifying items before it |
| FlightService.QualifiedOrder | src/backend/services/flight_service.py:84-104 | of two qualifying items, the earlier one comes first: the loop keeps the feed's order |
| FlightService.Selected | src/backend/services/flight_service.py:104-107 | the first qualifying records in iteration order, min(count, max(max_flights, 1)) of them |
| FlightService.FilterInRange | src/backend/services/flight_service.py:82-114 | the loop with its early break returns the selected records stably sorted by distance |
| FlightService.SelectedProperties | src/backend/services/flight_service.py:101-114 | the result is sorted by distance, a permutation of the selection, at most max_flights long for max_flights ≥ 1, and every entry lies within the radius; when all qualifying records fit, none is left out |
| FlightService.FlightTrackerService.constructor | src/backend/services/flight_service.py:12-17 | the cache starts empty |
| FlightService.FlightTrackerService.GeocodeAddress | src/backend/services/flight_service.py:19-45 | a cache hit answers without a lookup and changes nothing; otherwise the geocoder is consulted; a match replaces the cache and a failure leaves it unchanged |
| FlightService.FlightTrackerService.ClearCache | src/backend/services/flight_service.py:197-200 | both cache fields become None, so no address hits the cache afterwards |
| FlightService.FlightTrackerService.GetFlightsInArea | src/backend/services/flight_service.py:47-119 | with a centre from the cache or a geocoder match, a feed answer gives the sorted selection of its records and a feed failure gives "Error fetching flights: " and its message; a geocoding failure gives the prefix and the geocoding message; the cache keeps its old entry on a cache hit or a failed geocode, and holds the new address and coordinates after a match, whatever the feed answers |
| Sorting.SortByKeyStable | src/backend/services/flight_service.py:114 | sorting by key keeps the relative order of equal keys, as Python's list.sort does |
| Sorting.SortByKeyPermutes | src/backend/services/flight_service.py:114 | sorting is a permutation |
| Sorting.SortByKeySorted | src/backend/services/flight_service.py:114 | the result is ordered by the key |
| ActivityService.Bounded | src/backend/services/activity_service.py:18 | a deque of maxlen n keeps the newest n elements: a suffix of exactly min(len, n) |
| ActivityService.NewActivity | src/backend/services/activity_service.py:36-44 | the category is upper-cased; details are present exactly when given and non-empty |
| ActivityService.OfCategory | src/backend/services/activity_service.py:66 | a subsequence of the log: entries of the category only, in log order |
| ActivityService.OfCategoryExact | src/backend/services/activity_service.py:66 | every entry of the category is kept exactly as many times as the log holds it, and no other entry |
| ActivityService.Reverse | src/backend/services/activity_service.py:69 | position i holds the i-th entry from the end |
| ActivityService.NewestProperties | src/backend/services/activity_service.py:62-75 | newest first, of the upper-cased category when one is given; a limit of None or 0 returns all, a positive limit cuts to min(limit, count) |
| ActivityService.NewestFirst | src/backend/services/activity_service.py:62-75 | without a category, the first entry returned is the last one logged |
| ActivityService.ActivityLoggerService.constructor | src/backend/services/activity_service.py:11-18 | the log starts empty with the given capacity |
| ActivityService.ActivityLoggerService.Log | src/backend/services/activity_service.py:20-46 | the size never exceeds the capacity; the entry is appended and returned as the newest element; a full log loses its oldest entry |
| ActivityService.ActivityLoggerService.GetActivities | src/backend/services/activity_service.py:48-75 | the result is the specification's newest-first view; the stored log is not changed |
| ActivityService.ActivityLoggerService.Clear | src/backend/services/activity_service.py:77-80 | with a capacity of at least one, the log afterwards holds exactly the SYSTEM "Activity logs cleared" entry |
| ActivityService.KeepCategory | src/backend/services/activity_service.py:66 | the comprehension's loop keeps the entries of the category in order |
| ActivityService.Reversed | src/backend/services/activity_service.py:69 | the in-place reverse gives the reversed sequence |
| ConfigService.Updates | src/backend/services/config_service.py:61-81 | the updates dictionary has exactly the provided fields as keys, each holding its new value |
| ConfigService.MergedProperties | src/backend/services/config_service.py:58-83 | exactly the provided fields of main are overwritten; every other key of main and every other section keeps its value |
| ConfigService.EmptyUpdateChangesNothing | src/backend/services/config_service.py:63-84 | an update with every field None leaves a configuration that has a main section unchanged |
| ConfigService.MergedIdempotent | src/backend/services/config_service.py:58-83 | merging the same update twice is merging it once |
| ConfigService.DefaultMainSettings | src/backend/services/config_service.py:104-111 | the default main section is San Francisco, CA, 3000 m, 20 flights, 1800 s and five display fields |
| ConfigService.Loaded | src/backend/services/config_service.py:26-34 | the file's contents when readable, else the cache when non-empty, else the defaults |
| ConfigService.ConfigService.constructor | src/backend/services/config_service.py:17-18 | nothing is cached |
| ConfigService.ConfigService.LoadConfig | src/backend/services/config_service.py:20-34 | returns the fallback chain's configuration; a readable file replaces the cache, a failure keeps it |
| ConfigService.ConfigService.SaveConfig | src/backend/services/config_service.py:36-47 | a successful write caches exactly what was written; a failed one raises and caches nothing |
| ConfigService.ConfigService.UpdateConfigAsWritten | src/backend/services/config_service.py:58-79 | the update always raises at display_fields; a cache that shares the loaded dictionary has already taken the edits to main |
| ConfigService.ConfigService.UpdateConfig | src/backend/services/config_service.py:49-86 | returns the merged configuration and the updates and caches what it saved; a failed save raises |
| ConfigService.MergeMain | src/backend/services/config_service.py:61-81 | the field-by-field edits produce main overridden by the updates, and the updates themselves |
| ConfigService.AsWrittenCacheDivergesFromFile | src/backend/services/config_service.py:58-84 | an update of max_flights from 20 to 10 leaves the cache at 10 while the file still says 20 |
| ConfigService.AddressChangeReported | src/backend/routes/config.py:42-43 | the updates name the address exactly when the update provides one, which is the route's condition for clearing the geocoding cache |
| RaspiUtils.HoursMinutes | src/raspi/utils.py:22-23 | the whole hours and the whole minutes of the remaining part of the hour |
| RaspiUtils.FormatDuration | src/raspi/utils.py:20-28 | "{h}h {m}m" when there is at least an hour, else "{m}m" |
| RaspiUtils.HoursMinutesBounds | src/raspi/utils.py:22-24 | the minutes are 0..59, and hours and minutes cover the duration up to the dropped seconds |
| RaspiUtils.FormatDurationExamples | src/raspi/utils.py:21-28 | 3725 s read "1h 2m" and 59 s read "0m", which is not the clock format the docstring names |
| RaspiUtils.TruncateStringLength | src/raspi/utils.py:38-42 | a text that fits is unchanged; a longer one is cut to exactly max_length, suffix included, when max_length ≥ len(suffix) |
| RaspiUtils.TruncateStringShortLimit | src/raspi/utils.py:42 | with a max_length below the suffix length, the slice bound counts from the end |
| RaspiUtils.TruncateStringIdempotent | src/raspi/utils.py:38-42 | truncating twice with the same max_length ≥ len(suffix) is truncating once |
| RaspiUtils.SafeGetattr | src/raspi/utils.py:45-51 | the attribute's value unless it is missing or None, then the default |
| SessionLog.SessionLog.constructor | src/raspi/log.py:10-14 | no flights counted and no aircraft seen |
| SessionLog.SessionLog.LogFlight | src/raspi/log.py:16-24 | the count grows by exactly one; the registration joins the set only when truthy and not "N/A"; a known one leaves the unique count unchanged; the unique count never exceeds the flight count |
| SessionLog.SessionLog.GetStats | src/raspi/log.py:32-40 | reports the flight count and the size of the unique set, never more unique aircraft than flights, and the format_duration text of the elapsed time |
| SessionLog.LogAll | src/raspi/log.py:16-24 | after logging a sequence, the count grows by its length and the set gains exactly its identifying registrations |
| StartupStatus.Words | src/raspi/startup_status.py:95 | message.split() yields non-empty words without white space |
| StartupStatus.WordsOfWord | src/raspi/startup_status.py:95 | a run of non-space characters is one word |
| StartupStatus.WordsSplitAtSpace | src/raspi/startup_status.py:95 | splitting at any white-space character gives the words before it followed by the words after it; with WordsOfWord and WordsOfBlank this fixes split() completely |
| StartupStatus.WordsOfBlank | src/raspi/startup_status.py:95 | a message has no words exactly when it is white space only |
| StartupStatus.WrapMessage | src/raspi/startup_status.py:93-109 | joining the lines with spaces gives the message's words joined with spaces; no line is empty; a line of several words fits in 28; a longer word stands alone; each line is full; a blank message gives no lines |
| StartupStatus.WrapWords | src/raspi/startup_status.py:99-109 | the loop over the words has all the wrap properties |
| StartupStatus.StepPlaced | src/raspi/startup_status.py:99-106 | one iteration preserves the loop invariant |
| StartupStatus.WrapDone | src/raspi/startup_status.py:108-109 | appending the pending line completes the wrap properties |
| StartupStatus.YPos | src/raspi/startup_status.py:91 | 40 exactly when step and total are both truthy, else 25 |
| StartupStatus.Drawn | src/raspi/startup_status.py:112-113 | at most the first four lines, each 16 pixels below the previous one |
| FieldSelector.AvailableExact | src/frontend/src/components/DisplayFieldSelector.tsx:78-83 | a field is offered exactly when it is not selected and matches the query case-insensitively in label, description or category; catalogue order is kept |
| FieldSelector.EmptyQueryMatchesAll | src/frontend/src/components/DisplayFieldSelector.tsx:78-83 | the empty query matches every field |
| FieldSelector.InCategory | src/frontend/src/components/DisplayFieldSelector.tsx:85-91 | the fields of one category and only those, as a subsequence of the list (in order) |
| FieldSelector.InCategoryExact | src/frontend/src/components/DisplayFieldSelector.tsx:85-91 | a bucket holds each field of its category as often as the list does, and no other field |
| FieldSelector.GroupFields | src/frontend/src/components/DisplayFieldSelector.tsx:85-91 | the reduce gives one bucket per category present, each holding exactly that category's fields in their order; the key order lists each category once, only categories that occur, sorted by the index of their first field (Object.entries order) |
| FieldSelector.GroupsPartition | src/frontend/src/components/DisplayFieldSelector.tsx:85-91 | a field lies in the bucket of its own category and in no other |
| FieldSelector.FindField | src/frontend/src/components/DisplayFieldSelector.tsx:148 | an entry with the id, at an index before which no entry has the id (the first match), or none exactly when no entry has the id |
| FieldSelector.FieldLabel | src/frontend/src/components/DisplayFieldSelector.tsx:147-150 | the title of the first catalogue entry with the id, otherwise the id itself |
| FieldSelector.MovedProperties | src/frontend/src/components/DisplayFieldSelector.tsx:102-105 | a permutation with the dragged field at the target index; the other fields keep their relative order |
| FieldSelector.MovedBack | src/frontend/src/components/DisplayFieldSelector.tsx:102-105 | dragging back restores the original order |
| FieldSelector.FieldSelectorView.DragOver | src/frontend/src/components/DisplayFieldSelector.tsx:98-109 | no change when nothing is dragged or it is over itself; otherwise the list is the moved permutation and the target becomes the dragged index |
| FieldSelector.FieldSelectorView.FieldDrop | src/frontend/src/components/DisplayFieldSelector.tsx:122-140 | no change without a dragged field; at five or more selected, an alert and no change; otherwise one more field, inserted at the index or appended; never more than five when there were at most five |
| FieldSelector.FieldSelectorView.RemoveField | src/frontend/src/components/DisplayFieldSelector.tsx:142-145 | exactly position i is removed and the rest keep their order |
| FieldSelector.FieldSelectorView.Drop | src/frontend/src/components/DisplayFieldSelector.tsx:111-115 | both kinds of drag are forgotten |
| FieldSelector.FieldSelectorView.DragStart | src/frontend/src/components/DisplayFieldSelector.tsx:93-96 | remembers the dragged index |
| FieldSelector.FieldSelectorView.FieldDragStart | src/frontend/src/components/DisplayFieldSelector.tsx:117-120 | remembers the dragged catalogue field |
| FlightBoard.FindIndex | src/frontend/react-ts-vite/src/components/FlightBoard.tsx:26 | the first position with the id, or -1 exactly when no entry has it |
| FlightBoard.MergeProperties | src/frontend/react-ts-vite/src/components/FlightBoard.tsx:26-44 | a known id is updated in place (firstSeen kept, seen now, overhead) and nothing else changes; an unknown id is put in front, first and last seen now |
| FlightBoard.MergeAllProperties | src/frontend/react-ts-vite/src/components/FlightBoard.tsx:25-45 | with unique ids before, ids stay unique; every current flight has an entry seen now and overhead; other entries are untouched previous ones; firstSeen is kept for known ids and is now for new ones |
| FlightBoard.MarkAll | src/frontend/react-ts-vite/src/components/FlightBoard.tsx:48-59 | entries keep their positions; only the status of entries not overhead changes |
| FlightBoard.UpdateBoard | src/frontend/react-ts-vite/src/components/FlightBoard.tsx:21-65 | the updater's loops (findIndex, index assignment, unshift, status pass, sort, slice) compute the specified board |
| FlightBoard.BoardSortedCapped | src/frontend/react-ts-vite/src/components/FlightBoard.tsx:62-64 | exactly min(50, merged size) entries, newest lastSeen first, ids unique when they were before |
| FlightBoard.BoardStatuses | src/frontend/react-ts-vite/src/components/FlightBoard.tsx:48-58 | a current flight's entry is overhead and seen now; any other is departed when seen less than 30 s ago, else tracking, and is a previous entry apart from its status |
| FlightBoard.CurrentFlightsSurvive | src/frontend/react-ts-vite/src/components/FlightBoard.tsx:33-64 | with earlier sightings older than now, unique ids and at most 50 distinct current ids, every current flight survives the cut, overhead and seen now |
| FlightBoard.MergeAllSeenNow | src/frontend/react-ts-vite/src/components/FlightBoard.tsx:33-40 | with earlier sightings older than now, the entries seen now are exactly one per distinct current id |
| FlightBoard.FormatDurationShape | src/frontend/react-ts-vite/src/components/FlightBoard.tsx:95-101 | "m:ss": whole minutes unpadded, seconds 0..59 in two digits, together giving the whole seconds |
| FlightBoard.FormatDurationExample | src/frontend/react-ts-vite/src/components/FlightBoard.tsx:95-101 | 125 s read "2:05" |
| ActivitiesPage.Capped | src/frontend/react-ts-vite/src/pages/Activities.tsx:62 | a prefix of min(500, len) entries |
| ActivitiesPage.AddLogProperties | src/frontend/react-ts-vite/src/pages/Activities.tsx:127-130 | the new entry comes first and the previous ones follow in order; only the oldest can drop off, and at most 500 remain |
| ActivitiesPage.FromBackend | src/frontend/react-ts-vite/src/pages/Activities.tsx:47-53 | a backend log's id gains the "backend-" prefix; its other fields are kept |
| ActivitiesPage.MergeBackendProperties | src/frontend/react-ts-vite/src/pages/Activities.tsx:55-62 | at most 500 entries, newest first; each is a previous entry or a mapped backend log whose id was not present; when all fit, nothing previous or unseen is lost |
| ActivitiesPage.MergeBackendKeepsNewest | src/frontend/react-ts-vite/src/pages/Activities.tsx:56-62 | the merged list is drawn from the previous and unseen logs, and no log left out by the cut is newer than the last one kept |
| ActivitiesPage.MergeBackendSkipsSeen | src/frontend/react-ts-vite/src/pages/Activities.tsx:57-58 | a backend log whose prefixed id is already listed is not added again |
| ActivitiesPage.FilterLogs | src/frontend/react-ts-vite/src/pages/Activities.tsx:89-105 | the effect's reassignments compute the specified filter |
| ActivitiesPage.FilteredProperties | src/frontend/react-ts-vite/src/pages/Activities.tsx:90-104 | a subsequence of the logs; an entry is shown exactly when its level passes ('all' or equal) and, for a non-blank term, it matches the untrimmed lower-cased term in message or category |
| ActivitiesPage.ExportLine | src/frontend/react-ts-vite/src/pages/Activities.tsx:194-196 | "[time] [LEVEL] [category] message", with the category part left out when there is no category |
| ActivitiesPage.ExportLines | src/frontend/react-ts-vite/src/pages/Activities.tsx:194-196 | one line per shown log, in order |
| ActivitiesPage.ExportLineFrame | src/frontend/react/pages/Activities.js:183-185 | every line starts with the bracketed time and level and ends with the message |
| TrackerPage.FormatElapsedTimeFields | src/frontend/react-ts-vite/src/pages/Tracker.tsx:112-118 | for a non-negative time the text is the clock of the whole seconds ms / 1000 |
| TrackerPage.ClockTextReadBack | src/frontend/react-ts-vite/src/pages/Tracker.tsx:113-117 | the three fields read back as the unwrapped hours, minutes 0..59 and seconds 0..59; the text is eight characters exactly below 100 hours |
| TrackerPage.PaddedReadBack | src/frontend/react-ts-vite/src/pages/Tracker.tsx:117 | padStart(2, '0') gives at least two digits that read back as the number, exactly two below 100 |
| TrackerPage.FormatElapsedTimeExample | src/frontend/react-ts-vite/src/pages/Tracker.tsx:112-118 | 3725000 ms read "01:02:05" |
| TrackerPage.FormatElapsedTimeHundredHours | src/frontend/react-ts-vite/src/pages/Tracker.tsx:112-118 | 100 hours read "100:00:00": the hours are not wrapped |
| TrackerPage.SameClockAsBackendBelowADay | src/frontend/react-ts-vite/src/pages/Tracker.tsx:112-118 | below a day the page's clock equals the backend's elapsed_str of the same seconds |
| TrackerPage.DifferentClockFromBackendFromADay | src/frontend/react-ts-vite/src/pages/Tracker.tsx:112-118 | from a day on the two clocks always differ |
| TrackerPage.NextIndex | src/frontend/react-ts-vite/src/pages/Tracker.tsx:105 | (prev + 1) % length is always below the length |
| TrackerPage.NextIndexInRange | src/frontend/react-ts-vite/src/pages/Tracker.tsx:105 | from an index in range: the next index, or 0 after the last |
| TrackerPage.RotationVisitsAll | src/frontend/react-ts-vite/src/pages/Tracker.tsx:102-110 | every flight comes up within length rotations, and length rotations return to the start |
| TrackerPage.RotatedCompose | src/frontend/react-ts-vite/src/pages/Tracker.tsx:102-110 | a + b rotations are a rotations followed by b more |
| TrackerPage.TrackerView.constructor | src/frontend/react-ts-vite/src/pages/Tracker.tsx:43-46 | no flight or current flight, index 0, with the session start reset to now |
| TrackerPage.TrackerView.FetchData | src/frontend/react-ts-vite/src/pages/Tracker.tsx:67-100 | a failure only marks the page disconnected; an empty poll clears the current flight and resets the index; a non-empty poll with the index in range selects flights[index], otherwise keeps the current flight; the elapsed text is measured from the stored session start, which is set when missing |
| TrackerPage.TrackerView.SelectCurrentFlight | src/frontend/react-ts-vite/src/pages/Tracker.tsx:88-94 | empty → none and index 0; index in range → that flight; otherwise unchanged |
| TrackerPage.TrackerView.ShowPoll | src/frontend/react-ts-vite/src/pages/Tracker.tsx:71-86 | the flights, the count, the elapsed text and the connection state of a successful poll |
| TrackerPage.TrackerView.RotateCurrentFlight | src/frontend/react-ts-vite/src/pages/Tracker.tsx:102-110 | acts only on a non-empty list: the index becomes (prev + 1) % length and the display shows that flight |
| TrackerPage.StaleIntervalNeverRotates | src/frontend/react-ts-vite/src/pages/Tracker.tsx:26-41 | with the mount-time closures, every poll shows the first flight and rotation never moves the index |
| TrackerPage.CurrentIntervalRotates | src/frontend/react-ts-vite/src/pages/Tracker.tsx:102-110 | with the current state, two rotations after a poll advance the display by two flights, around the list |
| FlightHistory.TrackedHistoryProperties | src/frontend/src/pages/Tracker.tsx:55-60 | the previous history is kept intact behind the new entries; the new entries are exactly the polled flights with an unseen registration, in poll order; the registrations become the old ones plus the poll's |
| FlightHistory.HistoryDistinct | src/frontend/src/contexts/FlightContext.tsx:69-74 | the history never holds a registration twice, provided no single poll brings one twice |
| FlightHistory.DuplicatesWithinOnePoll | src/frontend/src/contexts/FlightContext.tsx:70-73 | two flights of one poll with the same new registration both enter the history |
| FlightHistory.UpdateStats | src/frontend/src/pages/Tracker.tsx:63-67 | flightsDetected grows by the poll's length; uniqueAircraft becomes the old set plus the poll's registrations and never shrinks |
| FlightHistory.PollConsistent | src/frontend/src/contexts/FlightContext.tsx:63-81 | a poll keeps the history's registrations equal to the unique set, both bounded by the flights detected, and the last flight counted |
| FlightHistory.HoldTime | src/frontend/src/contexts/FlightContext.tsx:46 | a missing or zero configured hold time becomes 30 s; any other value is taken as is |
| FlightHistory.SessionDurationAsRaspi | src/frontend/src/pages/Tracker.tsx:96-108 | for a session not in the future, the text is format_duration of the same time in seconds: "Xh Ym" from an hour on, else "Ym" |
| FlightHistory.SessionDurationExamples | src/frontend/src/pages/Tracker.tsx:96-108 | 3725 s read "1h 2m", 59 s read "0m", and a start one minute in the future reads "-1m" |
| FlightHistory.FlightSession.constructor | src/frontend/src/contexts/FlightContext.tsx:28-39 | empty lists, no last flight, hold time 30, zero counters, loading |
| FlightHistory.FlightSession.FetchConfig | src/frontend/src/pages/Tracker.tsx:28-38 | the configured hold time with its default, or unchanged when the config cannot be read |
| FlightHistory.FlightSession.FetchFlights | src/frontend/src/contexts/FlightContext.tsx:56-88 | a failure records its message and changes nothing else; a poll updates the history and the stats, and sets the last flight and its time only when non-empty |
| FlightHistory.FlightSession.RotateTick | src/frontend/src/pages/Tracker.tsx:86-94 | while there are flights, the index becomes (prev + 1) % length, always in range |
| FlightHistory.FlightSession.DisplayFlight | src/frontend/src/pages/Tracker.tsx:112-126 | with flights, flights[index] (none past the end); without flights, the last flight while fewer than displayHoldTime seconds have passed since it, else none |
| FlightHistory.HoldLastFlight | src/frontend/src/pages/Tracker.tsx:112-126 | after a poll with flights and an empty one, the first polled flight stays shown for the hold time and then goes |

## Left out

- I/O and the network. Not modelled:
  - HTTP routes, WebSockets and polling timers;
  - the FlightRadar24 client, Nominatim/geopy and the geodesic formula, which are parameters;
  - a `get_bounds` answer that is not a dict of records, which the feed parameter reports as a failure, so it yields "Error fetching flights: " and its message;
  - the TOML file, which is the parsed document or a read/write failure;
  - localStorage and sessionStorage parsing;
  - `toISOString`/`isoformat` rendering, which is a parameter or an opaque string;
  - `alert`, which is a returned flag;
  - logging calls;
  - `Math.random` log ids.
- Floating point: times, coordinates and distances are exact reals or integers. `round(x, 2)` is rounded on the exact value.
- Text functions: `str.upper`, `str.lower`, `toLowerCase`, `toUpperCase` and `isalpha` map ASCII letters only. `str.split()` and `strip()` use Python's Unicode white-space set; `trim()` uses JavaScript's, which adds U+FEFF.
- Settings.TextOr: returns the default for a setting stored with the wrong type, where Python's `config.get` would return the stored value.
- Settings.NumberOr: the same as TextOr, for number settings.
- FlightService.IntCell: `int()` of a text cell is treated as a failed parse, so the record is skipped. A numeric string that Python would convert is not modelled.
- FlightService.Qualify: a non-number latitude or longitude skips the record. `float()` of a numeric string is not modelled.
- FlightService.FlightTrackerService.GetFlightsInArea: takes the radius and max_flights as plain parameters; the Python defaults (3000 m and 20) are the constants DefaultRadius and DefaultMaxFlights, and a call that omits them is modelled as passing those.
- FlightService.ParseFlightData: a truthy non-text cell 16 makes `len()` fail. The record is then dropped, as the loop's `except` would drop it.
- BackendTracker.FlightTracker.UpdateConfig and BackendTracker.FlightTracker.Create: the geocoder answers a location or None and cannot raise. An exception from geopy at backend/tracker.py:100 would propagate with `location` left as it was; that path is not modelled.
- BackendTracker.Stats: uses a single `now`. Keys are the `Value` datatype, so Python's `1 == 1.0` key equality is not modelled.
- SessionLog.SessionLog.GetStats: uses one clock reading for both elapsed fields. The source reads the clock twice.
- FlightBoard: a flight carries its id and a map of the other properties. The spread `{...entry, ...flight}` is map override.
- FlightBoard.MarkAll: writes each new status into a fresh entry. The source mutates the status of entries shared with the previous state, which is not modelled.
- FieldSelector.FieldSelectorView.DragOver: requires the dragged index and the target index to lie in the selected list, which the rendering guarantees. Out-of-range indices (JavaScript `undefined`) are not modelled.
- Catalogue: the distinctness of the catalogue's ids is not proved; FieldLabel's contract names the first match, as `find` does, so it does not depend on it.
- FlightHistory.Flight: reduced to the fields the logic reads.
- FlightHistory.HoldTime: does not model `NaN`.
- FlightHistory.FlightSession.DisplayFlight: an index past a shorter list gives none, where TypeScript would yield `undefined`.
- ConfigService: the pydantic range constraints on ConfigUpdate are stated (`WithinDeclaredBounds`) but not enforced by the service.
- Routes: the clear-cache-on-address-change rule of the routes is only the one lemma AddressChangeReported.
- Page rendering: the React pages' rendering, component lifecycles and CSS are left out. So is boot data.
- Network-bound copies: `src/raspi/tracker.py` and other network-bound copies of the logic are not part of this model.

## Findings

| source | as written | input that shows it | evidently intended | confidence | as-written member | corrected member |
|---|---|---|---|---|---|---|
| src/backend/services/config_service.py:79 | `update_config` reads `config_update.display_fields`, but the ConfigUpdate model of src/backend/models/schemas.py:25-30 declares no such field. Every update raises AttributeError after `main` was edited in place in the dictionary shared with the cache. Nothing is saved, yet later loads that fall back to the cache see the edits. | file with `main.max_flights = 20`, update `max_flights = 10` | the field is declared, the merge is saved, and cache and file agree | not executed | ConfigService.ConfigService.UpdateConfigAsWritten | ConfigService.ConfigService.UpdateConfig |
| src/frontend/react-ts-vite/src/pages/Tracker.tsx:26-41 | both intervals are created once, on mount (`[]` dependencies). Their callbacks keep the first render's `flights` (empty) and `flightRotationIndex` (0). The display therefore never rotates, and each poll shows the first flight. | any poll with two or more flights, followed by a rotation tick | rotation and selection read the current state | not executed | TrackerPage.StaleIntervalNeverRotates | TrackerPage.CurrentIntervalRotates |
