/**
 * The activity page of the web frontend
 * (src/frontend/react-ts-vite/src/pages/Activities.tsx and its plain
 * JavaScript copy src/frontend/react/pages/Activities.js): the log list kept
 * newest first and capped at 500, the merge of the backend's logs into it,
 * the level and search filter, and the lines of the exported text file.
 * Timestamps are milliseconds; the ISO rendering of a time is a parameter.
 */
module ActivitiesPage {
  import opened Wrappers
  import Text
  import Seqs
  import Sorting

  datatype LogEntry = LogEntry(id: string, timestamp: int, level: string, message: string, category: Option<string>)

  /** A log as the backend's activity endpoint returns it, its time already read. */
  datatype BackendLog = BackendLog(id: string, timestamp: int, level: string, message: string, category: Option<string>)

  /** The list never holds more than this many entries. */
  const MaxLogs := 500

  /** slice(0, MAX_LOGS). */
  function Capped(s: seq<LogEntry>): (r: seq<LogEntry>)
    ensures r <= s && |r| == if |s| <= MaxLogs then |s| else MaxLogs
  {
    if |s| <= MaxLogs then s else s[..MaxLogs]
  }

  /** addLog's updater: the new entry first, then the previous ones, cut to 500. */
  function AddLog(prev: seq<LogEntry>, newLog: LogEntry): seq<LogEntry> {
    Capped([newLog] + prev)
  }

  /** The new entry comes first and the previous ones follow in order; only the oldest can fall off. */
  lemma AddLogProperties(prev: seq<LogEntry>, newLog: LogEntry)
    ensures var r := AddLog(prev, newLog);
      |r| == (if |prev| < MaxLogs then |prev| + 1 else MaxLogs)
      && r[0] == newLog && r[1..] == prev[..|r| - 1]
      && (|prev| < MaxLogs ==> r[1..] == prev)
  {
    var r := AddLog(prev, newLog);
    assert r == ([newLog] + prev)[..|r|];
    assert ([newLog] + prev)[1..] == prev;
  }

  /** The mapping of a backend log: its id gets the "backend-" prefix. */
  function FromBackend(log: BackendLog): (e: LogEntry)
    ensures e.id == "backend-" + log.id && e.timestamp == log.timestamp && e.level == log.level
    ensures e.message == log.message && e.category == log.category
  {
    LogEntry("backend-" + log.id, log.timestamp, log.level, log.message, log.category)
  }

  function FromBackendAll(logs: seq<BackendLog>): (r: seq<LogEntry>)
    ensures |r| == |logs| && forall i :: 0 <= i < |r| ==> r[i] == FromBackend(logs[i])
  {
    seq(|logs|, i requires 0 <= i < |logs| => FromBackend(logs[i]))
  }

  /** new Set(prevLogs.map(log => log.id)). */
  function Ids(logs: seq<LogEntry>): set<string> {
    set e | e in logs :: e.id
  }

  /** The sort key of (a, b) => b.timestamp - a.timestamp: newest first. */
  function NewestFirstKey(e: LogEntry): real {
    -(e.timestamp as real)
  }

  /** The backend logs whose prefixed id is not yet in the list. */
  function Unseen(prev: seq<LogEntry>, backend: seq<BackendLog>): seq<LogEntry> {
    var existing := Ids(prev);
    Seqs.Filter(FromBackendAll(backend), (e: LogEntry) => e.id !in existing)
  }

  /** The merge updater of loadBackendLogs: unseen backend logs appended, stably sorted newest first, cut to 500. */
  function MergeBackend(prev: seq<LogEntry>, backend: seq<BackendLog>): seq<LogEntry> {
    Capped(Sorting.SortByKey(prev + Unseen(prev, backend), NewestFirstKey))
  }

  /**
   * The merged list holds at most 500 entries, newest first. Each entry is a
   * previous one or a mapped backend log whose id was not in the list, and
   * when everything fits no previous entry and no unseen backend log is lost.
   */
  lemma MergeBackendProperties(prev: seq<LogEntry>, backend: seq<BackendLog>)
    ensures var r := MergeBackend(prev, backend); var u := Unseen(prev, backend);
      |r| == (if |prev| + |u| <= MaxLogs then |prev| + |u| else MaxLogs)
      && (forall i, j :: 0 <= i < j < |r| ==> r[i].timestamp >= r[j].timestamp)
      && (forall i :: 0 <= i < |r| ==>
            r[i] in prev
            || exists k :: 0 <= k < |backend| && r[i] == FromBackend(backend[k]) && r[i].id !in Ids(prev))
      && (|prev| + |u| <= MaxLogs ==> multiset(r) == multiset(prev) + multiset(u))
  {
    var u := Unseen(prev, backend);
    var existing := Ids(prev);
    var combined := prev + u;
    var sorted := Sorting.SortByKey(combined, NewestFirstKey);
    var r := MergeBackend(prev, backend);
    Sorting.SortByKeySorted(combined, NewestFirstKey);
    Sorting.SortByKeyPermutes(combined, NewestFirstKey);
    assert forall i, j :: 0 <= i < j < |sorted| ==> NewestFirstKey(sorted[i]) <= NewestFirstKey(sorted[j]);
    forall i | 0 <= i < |r|
      ensures r[i] in prev
              || exists k :: 0 <= k < |backend| && r[i] == FromBackend(backend[k]) && r[i].id !in Ids(prev)
    {
      assert r[i] == sorted[i];
      assert r[i] in multiset(combined);
      if r[i] !in prev {
        UnseenOrigin(prev, backend, r[i]);
      }
    }
    assert multiset(combined) == multiset(prev) + multiset(u);
  }

  /**
   * When more than 500 compete, the newest are kept: the merged list is drawn
   * from the previous and unseen logs, and no entry left out is newer than the
   * last one kept.
   */
  lemma MergeBackendKeepsNewest(prev: seq<LogEntry>, backend: seq<BackendLog>)
    ensures var r := MergeBackend(prev, backend); var u := Unseen(prev, backend);
      multiset(r) <= multiset(prev) + multiset(u)
      && (forall x :: x in multiset(prev) + multiset(u) - multiset(r) ==> r != [] && x.timestamp <= r[|r| - 1].timestamp)
  {
    var u := Unseen(prev, backend);
    var combined := prev + u;
    var sorted := Sorting.SortByKey(combined, NewestFirstKey);
    var r := MergeBackend(prev, backend);
    Sorting.SortByKeySorted(combined, NewestFirstKey);
    Sorting.SortByKeyPermutes(combined, NewestFirstKey);
    assert multiset(combined) == multiset(prev) + multiset(u);
    assert sorted == r + sorted[|r|..];
    assert multiset(sorted) == multiset(r) + multiset(sorted[|r|..]);
    forall x | x in multiset(prev) + multiset(u) - multiset(r)
      ensures r != [] && x.timestamp <= r[|r| - 1].timestamp
    {
      assert x in multiset(sorted[|r|..]);
      var i :| 0 <= i < |sorted[|r|..]| && sorted[|r|..][i] == x;
      assert sorted[|r| + i] == x;
      assert |r| == MaxLogs;
      assert r[|r| - 1] == sorted[|r| - 1];
      assert NewestFirstKey(sorted[|r| - 1]) <= NewestFirstKey(sorted[|r| + i]);
    }
  }

  /** An unseen log is a mapped backend log whose id is not in the list. */
  lemma UnseenOrigin(prev: seq<LogEntry>, backend: seq<BackendLog>, x: LogEntry)
    requires x in Unseen(prev, backend)
    ensures x.id !in Ids(prev) && exists k :: 0 <= k < |backend| && x == FromBackend(backend[k])
  {
    var mapped := FromBackendAll(backend);
    var u := Unseen(prev, backend);
    var j :| 0 <= j < |u| && u[j] == x;
    assert u[j] in mapped;
    var k :| 0 <= k < |mapped| && mapped[k] == x;
  }

  /** A log already in the list is never added a second time by the merge. */
  lemma MergeBackendSkipsSeen(prev: seq<LogEntry>, backend: seq<BackendLog>, k: nat)
    requires k < |backend| && "backend-" + backend[k].id in Ids(prev)
    ensures FromBackend(backend[k]) !in Unseen(prev, backend)
  {
  }

  /** The search: the lower-cased term occurs in the lower-cased message, or in the category when there is one. */
  predicate MatchesSearch(log: LogEntry, search: string) {
    Text.Contains(Text.ToLower(log.message), search)
    || (log.category.Some? && log.category.value != "" && Text.Contains(Text.ToLower(log.category.value), search))
  }

  /** The level filter of the effect: 'all' keeps every entry. */
  predicate LevelPasses(log: LogEntry, logFilter: string) {
    logFilter == "all" || log.level == logFilter
  }

  /** The effect's filter, the search applied only when the trimmed term is not empty. */
  function Filtered(logs: seq<LogEntry>, logFilter: string, searchTerm: string): seq<LogEntry> {
    var byLevel := if logFilter != "all" then Seqs.Filter(logs, (e: LogEntry) => e.level == logFilter) else logs;
    var search := Text.ToLower(searchTerm);
    if Text.JsTrim(searchTerm) != "" then Seqs.Filter(byLevel, (e: LogEntry) => MatchesSearch(e, search)) else byLevel
  }

  /** The filter effect as written: `filtered` is reassigned by each active filter in turn. */
  method FilterLogs(logs: seq<LogEntry>, logFilter: string, searchTerm: string) returns (filtered: seq<LogEntry>)
    ensures filtered == Filtered(logs, logFilter, searchTerm)
  {
    filtered := logs;
    if logFilter != "all" {
      filtered := Seqs.Filter(filtered, (e: LogEntry) => e.level == logFilter);
    }
    if Text.JsTrim(searchTerm) != "" {
      var search := Text.ToLower(searchTerm);
      filtered := Seqs.Filter(filtered, (e: LogEntry) => MatchesSearch(e, search));
    }
  }

  /**
   * The shown logs are a subsequence of the list, in its order; an entry is
   * shown exactly when it passes the level filter and, with a non-blank
   * term, matches the untrimmed lower-cased term.
   */
  lemma FilteredProperties(logs: seq<LogEntry>, logFilter: string, searchTerm: string)
    ensures var r := Filtered(logs, logFilter, searchTerm);
      var searching := Text.JsTrim(searchTerm) != "";
      Seqs.IsSubsequence(r, logs)
      && (forall i :: 0 <= i < |r| ==>
            r[i] in logs && LevelPasses(r[i], logFilter)
            && (searching ==> MatchesSearch(r[i], Text.ToLower(searchTerm))))
      && (forall i ::
            (0 <= i < |logs| && LevelPasses(logs[i], logFilter)
             && (searching ==> MatchesSearch(logs[i], Text.ToLower(searchTerm)))) ==> logs[i] in r)
  {
    var byLevel := if logFilter != "all" then Seqs.Filter(logs, (e: LogEntry) => e.level == logFilter) else logs;
    var search := Text.ToLower(searchTerm);
    if logFilter != "all" {
      Seqs.FilterIsSubsequence(logs, (e: LogEntry) => e.level == logFilter);
    } else {
      Seqs.SubsequenceReflexive(logs);
    }
    if Text.JsTrim(searchTerm) != "" {
      Seqs.FilterIsSubsequence(byLevel, (e: LogEntry) => MatchesSearch(e, search));
      Seqs.SubsequenceTransitive(Filtered(logs, logFilter, searchTerm), byLevel, logs);
      forall i | 0 <= i < |logs| && LevelPasses(logs[i], logFilter) && MatchesSearch(logs[i], search)
        ensures logs[i] in Filtered(logs, logFilter, searchTerm)
      {
        assert logs[i] in byLevel;
        var j :| 0 <= j < |byLevel| && byLevel[j] == logs[i];
      }
    } else {
      Seqs.SubsequenceReflexive(logs);
    }
  }

  /** One line of the export: "[time] [LEVEL] [category] message", the category part only when there is one. */
  function ExportLine(log: LogEntry, iso: int -> string): (line: string)
    ensures var head := "[" + iso(log.timestamp) + "] [" + Text.ToUpper(log.level) + "] ";
      if log.category.Some? && log.category.value != "" then line == head + "[" + log.category.value + "] " + log.message
      else line == head + log.message
  {
    "[" + iso(log.timestamp) + "] [" + Text.ToUpper(log.level) + "] "
    + (if log.category.Some? && log.category.value != "" then "[" + log.category.value + "] " else "")
    + log.message
  }

  function ExportLines(logs: seq<LogEntry>, iso: int -> string): (lines: seq<string>)
    ensures |lines| == |logs| && forall i :: 0 <= i < |logs| ==> lines[i] == ExportLine(logs[i], iso)
  {
    seq(|logs|, i requires 0 <= i < |logs| => ExportLine(logs[i], iso))
  }

  /** The exported text: one line per shown log, in order, joined with newlines. */
  function ExportText(filtered: seq<LogEntry>, iso: int -> string): string {
    Text.Join(ExportLines(filtered, iso), "\n")
  }

  /** A line starts with the bracketed time and upper-cased level, and ends with the message. */
  lemma ExportLineFrame(log: LogEntry, iso: int -> string)
    ensures var line := ExportLine(log, iso); var head := "[" + iso(log.timestamp) + "] [" + Text.ToUpper(log.level) + "] ";
      head <= line && line[|line| - |log.message|..] == log.message
      && |line| == |head| + |log.message| + (if log.category.Some? && log.category.value != "" then |log.category.value| + 3 else 0)
  {
    var line := ExportLine(log, iso);
    var head := "[" + iso(log.timestamp) + "] [" + Text.ToUpper(log.level) + "] ";
    if log.category.Some? && log.category.value != "" {
      var mid := "[" + log.category.value + "] ";
      assert line == head + (mid + log.message);
    }
  }
}
