/**
 * The departures board of the web frontend
 * (src/frontend/react-ts-vite/src/components/FlightBoard.tsx and its plain
 * JavaScript copy src/frontend/react/components/FlightBoard.js, which has the
 * same updater). On every poll the board is merged with the current flights,
 * entries no longer overhead are marked departed or tracking, and the board
 * is sorted by last sighting, newest first, and cut to 50 entries.
 * Times are milliseconds; `now` is a parameter.
 */
module FlightBoard {
  import Sorting
  import Seqs
  import Text
  import JsMath

  datatype Status = Overhead | Departed | Tracking

  /** A flight of the current poll: its id and its other properties. */
  datatype FlightData = FlightData(id: string, info: map<string, string>)

  datatype BoardEntry = BoardEntry(id: string, info: map<string, string>, firstSeen: int, lastSeen: int, status: Status)

  /** The board keeps at most this many entries. */
  const BoardSize := 50
  /** An entry seen less than this many milliseconds ago counts as departed, an older one as tracking. */
  const DepartedWindow := 30000

  /** findIndex by id: the first position holding the id, or -1. */
  function FindIndex(board: seq<BoardEntry>, id: string): (k: int)
    ensures -1 <= k < |board|
    ensures k >= 0 ==> board[k].id == id && forall j :: 0 <= j < k ==> board[j].id != id
    ensures k == -1 <==> forall j :: 0 <= j < |board| ==> board[j].id != id
  {
    if board == [] then -1
    else if board[0].id == id then 0
    else
      var k := FindIndex(board[1..], id);
      if k == -1 then -1 else k + 1
  }

  /**
   * One flight of the poll: an entry with its id is updated in place
   * ({...entry, ...flight}, seen now, overhead), otherwise a new entry first
   * seen now is put at the front (unshift).
   */
  function Merge(board: seq<BoardEntry>, f: FlightData, now: int): seq<BoardEntry> {
    var k := FindIndex(board, f.id);
    if k >= 0 then board[k := BoardEntry(f.id, board[k].info + f.info, board[k].firstSeen, now, Overhead)]
    else [BoardEntry(f.id, f.info, now, now, Overhead)] + board
  }

  /** The forEach over the current flights, in poll order. */
  function MergeAll(board: seq<BoardEntry>, flights: seq<FlightData>, now: int): seq<BoardEntry>
    decreases |flights|
  {
    if flights == [] then board
    else Merge(MergeAll(board, flights[..|flights| - 1], now), flights[|flights| - 1], now)
  }

  /** currentFlights.some(cf => cf.id === id). */
  predicate IdIn(flights: seq<FlightData>, id: string) {
    exists k :: 0 <= k < |flights| && flights[k].id == id
  }

  /** The status pass for one entry: one not overhead is departed within 30 s of its last sighting, tracking after. */
  function Marked(e: BoardEntry, flights: seq<FlightData>, now: int): BoardEntry {
    if IdIn(flights, e.id) then e
    else e.(status := if now - e.lastSeen < DepartedWindow then Departed else Tracking)
  }

  function MarkAll(board: seq<BoardEntry>, flights: seq<FlightData>, now: int): (r: seq<BoardEntry>)
    ensures |r| == |board| && forall i :: 0 <= i < |r| ==> r[i] == Marked(board[i], flights, now)
  {
    seq(|board|, i requires 0 <= i < |board| => Marked(board[i], flights, now))
  }

  /** The sort key: b.lastSeen - a.lastSeen orders by last sighting, newest first. */
  function LastSeenKey(e: BoardEntry): real {
    -(e.lastSeen as real)
  }

  /** The board before the cut: merged, marked, and stably sorted newest first. */
  function SortedBoard(prev: seq<BoardEntry>, flights: seq<FlightData>, now: int): seq<BoardEntry> {
    Sorting.SortByKey(MarkAll(MergeAll(prev, flights, now), flights, now), LastSeenKey)
  }

  /** The new board: the sorted board sliced to 50. */
  function Board(prev: seq<BoardEntry>, flights: seq<FlightData>, now: int): seq<BoardEntry> {
    var sorted := SortedBoard(prev, flights, now);
    if |sorted| <= BoardSize then sorted else sorted[..BoardSize]
  }

  /** The state updater of the effect, step by step as the source runs it. */
  method UpdateBoard(prev: seq<BoardEntry>, currentFlights: seq<FlightData>, now: int) returns (board: seq<BoardEntry>)
    ensures board == Board(prev, currentFlights, now)
  {
    var newBoard := prev;
    for i := 0 to |currentFlights|
      invariant newBoard == MergeAll(prev, currentFlights[..i], now)
    {
      assert currentFlights[..i + 1][..i] == currentFlights[..i];
      var flight := currentFlights[i];
      var existingIndex := FindIndex(newBoard, flight.id);
      if existingIndex >= 0 {
        var existing := newBoard[existingIndex];
        newBoard := newBoard[existingIndex := BoardEntry(flight.id, existing.info + flight.info, existing.firstSeen, now, Overhead)];
      } else {
        newBoard := [BoardEntry(flight.id, flight.info, now, now, Overhead)] + newBoard;
      }
    }
    assert currentFlights[..|currentFlights|] == currentFlights;
    ghost var merged := newBoard;
    for index := 0 to |newBoard|
      invariant |newBoard| == |merged|
      invariant forall j :: 0 <= j < index ==> newBoard[j] == Marked(merged[j], currentFlights, now)
      invariant forall j :: index <= j < |newBoard| ==> newBoard[j] == merged[j]
    {
      var boardFlight := newBoard[index];
      var stillOverhead := IdIn(currentFlights, boardFlight.id);
      var timeSinceLastSeen := now - boardFlight.lastSeen;
      if !stillOverhead {
        if timeSinceLastSeen < DepartedWindow {
          newBoard := newBoard[index := boardFlight.(status := Departed)];
        } else {
          newBoard := newBoard[index := boardFlight.(status := Tracking)];
        }
      }
    }
    assert newBoard == MarkAll(merged, currentFlights, now);
    var sorted := Sorting.SortByKey(newBoard, LastSeenKey);
    board := if |sorted| <= BoardSize then sorted else sorted[..BoardSize];
  }

  /**
   * Merging one flight: a known id keeps its position and its firstSeen and is
   * now seen and overhead; an unknown id is added in front, first and last seen now.
   */
  lemma MergeProperties(board: seq<BoardEntry>, f: FlightData, now: int)
    ensures var r := Merge(board, f, now); var k := FindIndex(board, f.id);
      (k >= 0 ==>
         |r| == |board|
         && r[k] == BoardEntry(f.id, board[k].info + f.info, board[k].firstSeen, now, Overhead)
         && forall j :: 0 <= j < |r| && j != k ==> r[j] == board[j])
      && (k < 0 ==>
         r == [BoardEntry(f.id, f.info, now, now, Overhead)] + board
         && forall j :: 0 <= j < |board| ==> board[j].id != f.id)
  {
  }

  ghost predicate UniqueIds(board: seq<BoardEntry>) {
    forall i, j :: 0 <= i < j < |board| ==> board[i].id != board[j].id
  }

  /** Some entry of the board has the id. */
  predicate OnBoard(board: seq<BoardEntry>, id: string) {
    exists i :: 0 <= i < |board| && board[i].id == id
  }

  lemma FindIndexOnBoard(board: seq<BoardEntry>, id: string)
    ensures FindIndex(board, id) >= 0 <==> OnBoard(board, id)
  {
    if FindIndex(board, id) >= 0 {
      assert board[FindIndex(board, id)].id == id;
    }
  }

  /** Merged boards keep distinct ids, and every previous and every current id is on them. */
  ghost predicate IdsOf(board: seq<BoardEntry>, prev: seq<BoardEntry>, flights: seq<FlightData>) {
    UniqueIds(board)
    && (forall k :: 0 <= k < |flights| ==> OnBoard(board, flights[k].id))
    && (forall p :: 0 <= p < |prev| ==> OnBoard(board, prev[p].id))
  }

  /** Entries of current flights are seen now and overhead; the others are untouched previous entries. */
  ghost predicate SightingsOf(board: seq<BoardEntry>, prev: seq<BoardEntry>, flights: seq<FlightData>, now: int) {
    (forall i :: 0 <= i < |board| && IdIn(flights, board[i].id) ==>
       board[i].lastSeen == now && board[i].status == Overhead)
    && (forall i :: 0 <= i < |board| && !IdIn(flights, board[i].id) ==> board[i] in prev)
  }

  /** An id already on the previous board keeps its firstSeen; a new one was first seen now. */
  ghost predicate FirstSightingsOf(board: seq<BoardEntry>, prev: seq<BoardEntry>, now: int) {
    (forall i, p :: 0 <= i < |board| && 0 <= p < |prev| && board[i].id == prev[p].id ==>
       board[i].firstSeen == prev[p].firstSeen)
    && (forall i :: 0 <= i < |board| && !OnBoard(prev, board[i].id) ==> board[i].firstSeen == now)
  }

  lemma IdInSnoc(flights: seq<FlightData>, f: FlightData, id: string)
    ensures IdIn(flights + [f], id) <==> IdIn(flights, id) || f.id == id
  {
    if IdIn(flights, id) {
      var k :| 0 <= k < |flights| && flights[k].id == id;
      assert (flights + [f])[k] == flights[k];
    }
    if IdIn(flights + [f], id) && f.id != id {
      var k :| 0 <= k < |flights + [f]| && (flights + [f])[k].id == id;
      assert k < |flights| && flights[k] == (flights + [f])[k];
    }
    if f.id == id {
      assert (flights + [f])[|flights|] == f;
    }
  }

  /** Merging keeps every id on the board and adds the flight's. */
  lemma MergeOnBoard(board: seq<BoardEntry>, f: FlightData, now: int, id: string)
    ensures OnBoard(Merge(board, f, now), id) <==> OnBoard(board, id) || id == f.id
  {
    var r := Merge(board, f, now);
    var k := FindIndex(board, f.id);
    FindIndexOnBoard(board, f.id);
    if OnBoard(board, id) {
      var j :| 0 <= j < |board| && board[j].id == id;
      assert r[if k >= 0 then j else j + 1].id == id;
    }
    if id == f.id && k < 0 {
      assert r[0].id == id;
    }
    if OnBoard(r, id) && id != f.id {
      var j :| 0 <= j < |r| && r[j].id == id;
      assert board[if k >= 0 then j else j - 1].id == id;
    }
  }

  lemma StepIds(board: seq<BoardEntry>, prev: seq<BoardEntry>, flights: seq<FlightData>, f: FlightData, now: int)
    requires IdsOf(board, prev, flights)
    ensures IdsOf(Merge(board, f, now), prev, flights + [f])
  {
    var r := Merge(board, f, now);
    var fl := flights + [f];
    forall id ensures OnBoard(r, id) <==> OnBoard(board, id) || id == f.id {
      MergeOnBoard(board, f, now, id);
    }
    forall k | 0 <= k < |fl| ensures OnBoard(r, fl[k].id) {
      if k < |flights| {
        assert fl[k] == flights[k];
      }
    }
    FindIndexOnBoard(board, f.id);
  }

  lemma StepSightings(board: seq<BoardEntry>, prev: seq<BoardEntry>, flights: seq<FlightData>, f: FlightData, now: int)
    requires IdsOf(board, prev, flights) && SightingsOf(board, prev, flights, now)
    ensures SightingsOf(Merge(board, f, now), prev, flights + [f], now)
  {
    var r := Merge(board, f, now);
    var fl := flights + [f];
    forall id ensures IdIn(fl, id) <==> IdIn(flights, id) || f.id == id {
      IdInSnoc(flights, f, id);
    }
    var k := FindIndex(board, f.id);
    if k >= 0 {
      forall i | 0 <= i < |r| && i != k ensures r[i] == board[i] && board[i].id != f.id {
      }
    } else {
      forall i | 0 < i < |r| ensures r[i] == board[i - 1] {
      }
    }
  }

  lemma StepFirstSightings(board: seq<BoardEntry>, prev: seq<BoardEntry>, flights: seq<FlightData>, f: FlightData, now: int)
    requires IdsOf(board, prev, flights) && FirstSightingsOf(board, prev, now)
    ensures FirstSightingsOf(Merge(board, f, now), prev, now)
  {
    var r := Merge(board, f, now);
    var k := FindIndex(board, f.id);
    if k < 0 {
      FindIndexOnBoard(board, f.id);
      forall i | 0 < i < |r| ensures r[i] == board[i - 1] {
      }
      assert !OnBoard(prev, f.id);
    }
  }

  /** The board after merging `flights` into `prev`, in terms of prev and the flights. */
  ghost predicate MergedFrom(board: seq<BoardEntry>, prev: seq<BoardEntry>, flights: seq<FlightData>, now: int) {
    IdsOf(board, prev, flights) && SightingsOf(board, prev, flights, now) && FirstSightingsOf(board, prev, now)
  }

  lemma {:induction false} MergeAllFrom(prev: seq<BoardEntry>, flights: seq<FlightData>, now: int)
    requires UniqueIds(prev)
    ensures MergedFrom(MergeAll(prev, flights, now), prev, flights, now)
    decreases |flights|
  {
    if flights == [] {
      assert IdsOf(prev, prev, flights) by {
        forall p | 0 <= p < |prev| ensures OnBoard(prev, prev[p].id) {
        }
      }
    } else {
      var init := flights[..|flights| - 1];
      var f := flights[|flights| - 1];
      var b := MergeAll(prev, init, now);
      MergeAllFrom(prev, init, now);
      StepIds(b, prev, init, f, now);
      StepSightings(b, prev, init, f, now);
      StepFirstSightings(b, prev, init, f, now);
      assert init + [f] == flights;
    }
  }

  /**
   * With distinct ids on the previous board, every current flight has exactly
   * one entry afterwards, seen now and overhead, which kept its firstSeen when
   * the id was already on the board and was first seen now otherwise; every
   * other entry is an untouched entry of the previous board.
   */
  lemma MergeAllProperties(prev: seq<BoardEntry>, flights: seq<FlightData>, now: int)
    requires UniqueIds(prev)
    ensures var m := MergeAll(prev, flights, now);
      UniqueIds(m)
      && (forall k :: 0 <= k < |flights| ==> exists i :: 0 <= i < |m| && m[i].id == flights[k].id)
      && (forall i :: 0 <= i < |m| && IdIn(flights, m[i].id) ==> m[i].lastSeen == now && m[i].status == Overhead)
      && (forall i :: 0 <= i < |m| && !IdIn(flights, m[i].id) ==> m[i] in prev)
      && (forall i, p :: 0 <= i < |m| && 0 <= p < |prev| && m[i].id == prev[p].id ==> m[i].firstSeen == prev[p].firstSeen)
      && (forall i :: 0 <= i < |m| && !OnBoard(prev, m[i].id) ==> m[i].firstSeen == now)
  {
    MergeAllFrom(prev, flights, now);
  }

  /** The entries seen at time `now`. */
  function SeenAt(now: int): BoardEntry -> bool {
    (e: BoardEntry) => e.lastSeen == now
  }

  /** The number of distinct ids among the flights. */
  function NumDistinct(flights: seq<FlightData>): (n: nat)
    ensures n <= |flights|
  {
    if flights == [] then 0
    else
      var init := flights[..|flights| - 1];
      NumDistinct(init) + (if IdIn(init, flights[|flights| - 1].id) then 0 else 1)
  }

  /** When every earlier sighting is older than now, the entries seen now are one per distinct current id. */
  lemma {:induction false} MergeAllSeenNow(prev: seq<BoardEntry>, flights: seq<FlightData>, now: int)
    requires UniqueIds(prev) && forall p :: 0 <= p < |prev| ==> prev[p].lastSeen < now
    ensures |Seqs.Filter(MergeAll(prev, flights, now), SeenAt(now))| == NumDistinct(flights)
    decreases |flights|
  {
    if flights == [] {
      Seqs.FilterNone(prev, SeenAt(now));
    } else {
      var init := flights[..|flights| - 1];
      var f := flights[|flights| - 1];
      var b := MergeAll(prev, init, now);
      MergeAllSeenNow(prev, init, now);
      MergeAllFrom(prev, init, now);
      var k := FindIndex(b, f.id);
      if k >= 0 {
        var x := BoardEntry(f.id, b[k].info + f.info, b[k].firstSeen, now, Overhead);
        Seqs.FilterCountUpdate(b, k, x, SeenAt(now));
        if !IdIn(init, f.id) {
          assert b[k] in prev;
        }
      } else {
        var x := BoardEntry(f.id, f.info, now, now, Overhead);
        Seqs.FilterAppend([x], b, SeenAt(now));
        assert Seqs.Filter([x], SeenAt(now)) == Seqs.Filter([], SeenAt(now)) + [x];
        FindIndexOnBoard(b, f.id);
        assert !IdIn(init, f.id);
      }
    }
  }

  lemma {:induction false} InsertKeepsIds(s: seq<BoardEntry>, x: BoardEntry, key: BoardEntry -> real)
    requires UniqueIds(s) && forall i :: 0 <= i < |s| ==> s[i].id != x.id
    ensures UniqueIds(Sorting.Insert(s, x, key))
    decreases |s|
  {
    if s != [] && key(s[0]) <= key(x) {
      var t := s[1..];
      InsertKeepsIds(t, x, key);
      Sorting.InsertPermutes(t, x, key);
      var r := Sorting.Insert(t, x, key);
      forall i | 0 <= i < |r| ensures r[i].id != s[0].id {
        assert r[i] in multiset(t) + multiset{x};
      }
      assert Sorting.Insert(s, x, key) == [s[0]] + r;
    }
  }

  lemma {:induction false} SortKeepsIds(s: seq<BoardEntry>, key: BoardEntry -> real)
    requires UniqueIds(s)
    ensures UniqueIds(Sorting.SortByKey(s, key))
    decreases |s|
  {
    if s != [] {
      var init := s[..|s| - 1];
      var x := s[|s| - 1];
      SortKeepsIds(init, key);
      Sorting.SortByKeyPermutes(init, key);
      var t := Sorting.SortByKey(init, key);
      forall i | 0 <= i < |t| ensures t[i].id != x.id {
        assert t[i] in multiset(init);
      }
      InsertKeepsIds(t, x, key);
    }
  }

  /**
   * The board holds at most 50 entries, min(50, merged size) exactly, sorted
   * by last sighting newest first, and it never lists an id twice when the
   * previous board did not.
   */
  lemma BoardSortedCapped(prev: seq<BoardEntry>, flights: seq<FlightData>, now: int)
    ensures var r := Board(prev, flights, now); var m := MergeAll(prev, flights, now);
      |r| == (if |m| <= BoardSize then |m| else BoardSize)
      && forall i, j :: 0 <= i < j < |r| ==> r[i].lastSeen >= r[j].lastSeen
    ensures UniqueIds(prev) ==> UniqueIds(Board(prev, flights, now))
  {
    var m := MergeAll(prev, flights, now);
    var marked := MarkAll(m, flights, now);
    var sorted := Sorting.SortByKey(marked, LastSeenKey);
    Sorting.SortByKeySorted(marked, LastSeenKey);
    assert forall i, j :: 0 <= i < j < |sorted| ==> LastSeenKey(sorted[i]) <= LastSeenKey(sorted[j]);
    if UniqueIds(prev) {
      MergeAllFrom(prev, flights, now);
      assert UniqueIds(marked);
      SortKeepsIds(marked, LastSeenKey);
    }
  }

  /**
   * The statuses on the board: an entry for a current flight is overhead and
   * seen now; any other is departed when last seen less than 30 s ago and
   * tracking otherwise, and is an entry of the previous board apart from its status.
   */
  lemma BoardStatuses(prev: seq<BoardEntry>, flights: seq<FlightData>, now: int, e: BoardEntry)
    requires UniqueIds(prev) && e in Board(prev, flights, now)
    ensures IdIn(flights, e.id) ==> e.status == Overhead && e.lastSeen == now
    ensures !IdIn(flights, e.id) ==>
      e.status == (if now - e.lastSeen < DepartedWindow then Departed else Tracking)
      && exists p :: 0 <= p < |prev| && prev[p] == e.(status := prev[p].status)
  {
    var m := MergeAll(prev, flights, now);
    var marked := MarkAll(m, flights, now);
    var sorted := Sorting.SortByKey(marked, LastSeenKey);
    Sorting.SortByKeyPermutes(marked, LastSeenKey);
    assert e in sorted;
    assert e in multiset(marked);
    var i :| 0 <= i < |marked| && marked[i] == e;
    MergeAllFrom(prev, flights, now);
    if !IdIn(flights, e.id) {
      var p :| 0 <= p < |prev| && prev[p] == m[i];
      assert prev[p] == e.(status := prev[p].status);
    }
  }

  /** The sorted board has exactly one entry seen now per distinct current id. */
  lemma SortedBoardCount(prev: seq<BoardEntry>, flights: seq<FlightData>, now: int)
    requires UniqueIds(prev) && forall p :: 0 <= p < |prev| ==> prev[p].lastSeen < now
    ensures |Seqs.Filter(SortedBoard(prev, flights, now), SeenAt(now))| == NumDistinct(flights)
  {
    var m := MergeAll(prev, flights, now);
    var marked := MarkAll(m, flights, now);
    var sorted := SortedBoard(prev, flights, now);
    MergeAllSeenNow(prev, flights, now);
    Seqs.FilterCountSamePositions(m, SeenAt(now), marked, SeenAt(now));
    Sorting.SortByKeyPermutes(marked, LastSeenKey);
    Seqs.FilterCountPermutation(marked, sorted, SeenAt(now));
  }

  /** Nothing on the sorted board was seen after now. */
  lemma SortedBoardNotAfterNow(prev: seq<BoardEntry>, flights: seq<FlightData>, now: int)
    requires UniqueIds(prev) && forall p :: 0 <= p < |prev| ==> prev[p].lastSeen < now
    ensures var sorted := SortedBoard(prev, flights, now);
      forall q :: 0 <= q < |sorted| ==> sorted[q].lastSeen <= now
  {
    var m := MergeAll(prev, flights, now);
    var marked := MarkAll(m, flights, now);
    var sorted := SortedBoard(prev, flights, now);
    MergeAllFrom(prev, flights, now);
    Sorting.SortByKeyPermutes(marked, LastSeenKey);
    forall q | 0 <= q < |sorted| ensures sorted[q].lastSeen <= now {
      assert sorted[q] in multiset(marked);
      var i :| 0 <= i < |marked| && marked[i] == sorted[q];
      if !IdIn(flights, m[i].id) {
        assert m[i] in prev;
      }
    }
  }

  /** Every current flight has an entry on the sorted board, overhead and seen now. */
  lemma SortedBoardHoldsCurrent(prev: seq<BoardEntry>, flights: seq<FlightData>, now: int)
    requires UniqueIds(prev)
    ensures var sorted := SortedBoard(prev, flights, now);
      forall k :: 0 <= k < |flights| ==>
        exists pos :: 0 <= pos < |sorted| && sorted[pos].id == flights[k].id
          && sorted[pos].lastSeen == now && sorted[pos].status == Overhead
  {
    var m := MergeAll(prev, flights, now);
    var marked := MarkAll(m, flights, now);
    var sorted := SortedBoard(prev, flights, now);
    MergeAllFrom(prev, flights, now);
    Sorting.SortByKeyPermutes(marked, LastSeenKey);
    forall k | 0 <= k < |flights|
      ensures exists pos :: 0 <= pos < |sorted| && sorted[pos].id == flights[k].id
                && sorted[pos].lastSeen == now && sorted[pos].status == Overhead
    {
      assert OnBoard(m, flights[k].id);
      var i :| 0 <= i < |m| && m[i].id == flights[k].id;
      assert IdIn(flights, m[i].id);
      assert marked[i] == m[i];
      assert marked[i] in multiset(sorted);
    }
  }

  /** In a board sorted newest first with nothing newer than now, an entry seen now has only entries seen now before it. */
  lemma SeenNowPosition(sorted: seq<BoardEntry>, pos: nat, now: int)
    requires Sorting.SortedBy(sorted, LastSeenKey)
    requires forall q :: 0 <= q < |sorted| ==> sorted[q].lastSeen <= now
    requires pos < |sorted| && sorted[pos].lastSeen == now
    ensures pos < |Seqs.Filter(sorted, SeenAt(now))|
  {
    FrontSeenNow(sorted, pos, now);
    forall q | 0 <= q < pos + 1 ensures SeenAt(now)(sorted[q]) {
    }
    Seqs.FilterPassingPrefix(sorted, SeenAt(now), pos + 1);
  }

  /** Everything up to an entry seen now was seen now too. */
  lemma FrontSeenNow(sorted: seq<BoardEntry>, pos: nat, now: int)
    requires Sorting.SortedBy(sorted, LastSeenKey)
    requires forall q :: 0 <= q < |sorted| ==> sorted[q].lastSeen <= now
    requires pos < |sorted| && sorted[pos].lastSeen == now
    ensures forall q :: 0 <= q <= pos ==> sorted[q].lastSeen == now
  {
    forall q | 0 <= q <= pos ensures sorted[q].lastSeen == now {
      if q < pos {
        assert LastSeenKey(sorted[q]) <= LastSeenKey(sorted[pos]);
        assert sorted[q].lastSeen <= now;
      }
    }
  }

  /**
   * When every earlier sighting is older than now, the previous board lists
   * no id twice and the poll has at most 50 distinct ids, every current flight
   * survives the cut to 50, overhead and seen now.
   */
  lemma CurrentFlightsSurvive(prev: seq<BoardEntry>, flights: seq<FlightData>, now: int)
    requires UniqueIds(prev) && forall p :: 0 <= p < |prev| ==> prev[p].lastSeen < now
    requires NumDistinct(flights) <= BoardSize
    ensures var r := Board(prev, flights, now);
      forall k :: 0 <= k < |flights| ==>
        exists j :: 0 <= j < |r| && r[j].id == flights[k].id && r[j].lastSeen == now && r[j].status == Overhead
  {
    var sorted := SortedBoard(prev, flights, now);
    var r := Board(prev, flights, now);
    Sorting.SortByKeySorted(MarkAll(MergeAll(prev, flights, now), flights, now), LastSeenKey);
    SortedBoardCount(prev, flights, now);
    SortedBoardNotAfterNow(prev, flights, now);
    SortedBoardHoldsCurrent(prev, flights, now);
    forall k | 0 <= k < |flights|
      ensures exists j :: 0 <= j < |r| && r[j].id == flights[k].id && r[j].lastSeen == now && r[j].status == Overhead
    {
      var pos :| 0 <= pos < |sorted| && sorted[pos].id == flights[k].id
                 && sorted[pos].lastSeen == now && sorted[pos].status == Overhead;
      SeenNowPosition(sorted, pos, now);
      assert r[pos] == sorted[pos];
    }
  }

  /** formatDuration(start, end): whole minutes, a colon, and the seconds padded to two digits. */
  function FormatDuration(start: int, end: int): string {
    var diffSecs := JsMath.FloorDiv(end - start, 1000);
    var mins := JsMath.FloorDiv(diffSecs, 60);
    var secs := JsMath.Rem(diffSecs, 60);
    Text.IntToString(mins) + ":" + Text.PadStart2(Text.IntToString(secs))
  }

  /**
   * For an end not before the start, the text is "m:ss": the whole minutes
   * unpadded and the remaining seconds 0..59 in two digits, which together
   * give back the whole seconds elapsed.
   */
  lemma FormatDurationShape(start: int, end: int)
    requires start <= end
    ensures var d := (end - start) / 1000;
      FormatDuration(start, end) == Text.NatToString(d / 60) + ":" + Text.TwoDigits(d % 60)
      && (d / 60) * 60 + d % 60 == d && 0 <= d % 60 < 60
  {
  }

  /** 125 seconds are shown as "2:05". */
  lemma FormatDurationExample()
    ensures FormatDuration(0, 125000) == "2:05"
  {
    assert JsMath.FloorDiv(125000, 1000) == 125;
    assert JsMath.Rem(125, 60) == 5;
    Text.TwoDigitsChars(5);
    assert Text.NatToString(2) == "2";
  }
}
