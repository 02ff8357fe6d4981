/**
 * The backend's activity log (src/backend/services/activity_service.py): a
 * first-in first-out buffer of at most max_activities entries, read back
 * newest first, optionally filtered by category and cut to a limit.
 * The entry's timestamp (datetime.utcnow().isoformat()) is a parameter.
 */
module ActivityService {
  import opened Wrappers
  import opened Values
  import Text
  import Seqs

  /** An entry; details is None when the entry has no "details" key. */
  datatype Activity = Activity(timestamp: string, category: string, message: string, details: Option<map<string, Value>>)

  /** What deque(maxlen=capacity).append keeps: the newest `capacity` elements. */
  function Bounded<T>(s: seq<T>, capacity: nat): (r: seq<T>)
    ensures |r| == if |s| <= capacity then |s| else capacity
    ensures r == s[|s| - |r|..]
  {
    if |s| <= capacity then s else s[|s| - capacity..]
  }

  /** The entry log() builds: the category upper-cased, details only when non-empty. */
  function NewActivity(timestamp: string, category: string, message: string, details: Option<map<string, Value>>)
    : (a: Activity)
    ensures a.category == Text.ToUpper(category) && a.message == message && a.timestamp == timestamp + "Z"
    ensures a.details.Some? <==> details.Some? && details.value != map[]
    ensures a.details.Some? ==> a.details == details
  {
    Activity(timestamp + "Z", Text.ToUpper(category), message,
             if details.Some? && details.value != map[] then details else None)
  }

  /** The test of the comprehension `if a["category"] == category`. */
  function IsOf(category: string): Activity -> bool {
    (a: Activity) => a.category == category
  }

  /** The entries of the given category, in their order. */
  function OfCategory(s: seq<Activity>, category: string): (r: seq<Activity>)
    ensures |r| <= |s|
    ensures forall i :: 0 <= i < |r| ==> r[i].category == category
    ensures Seqs.IsSubsequence(r, s)
  {
    Seqs.FilterIsSubsequence(s, IsOf(category));
    Seqs.Filter(s, IsOf(category))
  }

  /**
   * No entry of the category is dropped and none is repeated: OfCategory keeps
   * every entry of that category as often as the log holds it, and no other.
   */
  lemma OfCategoryExact(s: seq<Activity>, category: string, a: Activity)
    ensures multiset(OfCategory(s, category))[a] == if a.category == category then multiset(s)[a] else 0
    ensures a in OfCategory(s, category) <==> a in s && a.category == category
  {
    Seqs.FilterMultiset(s, IsOf(category), a);
  }

  /** The sequence back to front. */
  function Reverse<T>(s: seq<T>): (r: seq<T>)
    ensures |r| == |s| && forall i :: 0 <= i < |s| ==> r[i] == s[|s| - 1 - i]
  {
    if s == [] then [] else [s[|s| - 1]] + Reverse(s[..|s| - 1])
  }

  /** What get_activities returns for the stored log: `if category:` and `if limit:` test truthiness. */
  function Newest(log: seq<Activity>, limit: Option<int>, category: Option<string>): seq<Activity> {
    var kept := if category.Some? && category.value != "" then OfCategory(log, Text.ToUpper(category.value)) else log;
    var newestFirst := Reverse(kept);
    if limit.Some? && limit.value != 0 then Text.SliceTo(newestFirst, limit.value) else newestFirst
  }

  /**
   * The entries come newest first, only of the requested category when one
   * is given, and a limit of None or 0 returns them all.
   */
  lemma NewestProperties(log: seq<Activity>, limit: Option<int>, category: Option<string>)
    ensures var r := Newest(log, limit, category);
      var kept := if category.Some? && category.value != "" then OfCategory(log, Text.ToUpper(category.value)) else log;
      r <= Reverse(kept)
      && (category.Some? && category.value != "" ==>
            forall i :: 0 <= i < |r| ==> r[i].category == Text.ToUpper(category.value))
      && (limit == None || limit == Some(0) ==> r == Reverse(kept))
      && (limit.Some? && limit.value > 0 ==> |r| == if limit.value <= |kept| then limit.value else |kept|)
      && (forall i :: 0 <= i < |r| ==> r[i] == kept[|kept| - 1 - i])
  {
  }

  /** Without a category filter, the first entry returned is the latest one logged. */
  lemma NewestFirst(log: seq<Activity>, limit: Option<int>)
    requires log != [] && (limit.None? || limit.value > 0)
    ensures Newest(log, limit, None) != [] && Newest(log, limit, None)[0] == log[|log| - 1]
  {
  }

  class ActivityLoggerService {
    const maxActivities: nat
    var activities: seq<Activity>

    ghost predicate Valid()
      reads this
    {
      |activities| <= maxActivities
    }

    /** A new, empty log of the given capacity (the default is 500). */
    constructor (maxActivities: nat)
      ensures this.maxActivities == maxActivities && activities == []
      ensures Valid()
    {
      this.maxActivities := maxActivities;
      activities := [];
    }

    /** log: appends the new entry, evicting the oldest when the log is full, and returns it. */
    method Log(category: string, message: string, details: Option<map<string, Value>>, timestamp: string)
      returns (entry: Activity)
      requires Valid()
      modifies this`activities
      ensures Valid()
      ensures entry == NewActivity(timestamp, category, message, details)
      ensures activities == Bounded(old(activities) + [entry], maxActivities)
      ensures maxActivities >= 1 ==> activities != [] && activities[|activities| - 1] == entry
      ensures |old(activities)| < maxActivities ==> activities == old(activities) + [entry]
      ensures |old(activities)| == maxActivities >= 1 ==> activities == old(activities)[1..] + [entry]
    {
      entry := NewActivity(timestamp, category, message, details);
      var appended := activities + [entry];
      if |appended| > maxActivities {
        appended := appended[|appended| - maxActivities..];
      }
      activities := appended;
    }

    /** get_activities: works on a copy, filters, reverses and slices. */
    method GetActivities(limit: Option<int>, category: Option<string>) returns (r: seq<Activity>)
      ensures r == Newest(activities, limit, category)
    {
      var copy := activities;
      if category.Some? && category.value != "" {
        copy := KeepCategory(copy, Text.ToUpper(category.value));
      }
      copy := Reversed(copy);
      if limit.Some? && limit.value != 0 {
        copy := Text.SliceTo(copy, limit.value);
      }
      r := copy;
    }

    /** clear: empties the log and records that it did. */
    method Clear(timestamp: string) returns (entry: Activity)
      requires Valid()
      modifies this`activities
      ensures Valid()
      ensures entry == Activity(timestamp + "Z", "SYSTEM", "Activity logs cleared", None)
      ensures maxActivities >= 1 ==> activities == [entry]
      ensures maxActivities == 0 ==> activities == []
    {
      activities := [];
      Text.ToUpperNoLower("SYSTEM");
      entry := Log("SYSTEM", "Activity logs cleared", None, timestamp);
      assert [] + [entry] == [entry];
    }
  }

  /** The list comprehension of get_activities: the entries of one category, in order. */
  method KeepCategory(s: seq<Activity>, wanted: string) returns (filtered: seq<Activity>)
    ensures filtered == OfCategory(s, wanted)
  {
    filtered := [];
    var i := 0;
    while i < |s|
      invariant 0 <= i <= |s|
      invariant filtered == OfCategory(s[..i], wanted)
    {
      assert s[..i + 1][..i] == s[..i];
      if s[i].category == wanted {
        filtered := filtered + [s[i]];
      }
      i := i + 1;
    }
    assert s[..i] == s;
  }

  /** list.reverse() on the copy. */
  method Reversed<T>(s: seq<T>) returns (r: seq<T>)
    ensures r == Reverse(s)
  {
    r := [];
    var j := 0;
    while j < |s|
      invariant 0 <= j <= |s|
      invariant |r| == j && forall k :: 0 <= k < j ==> r[k] == s[|s| - 1 - k]
    {
      r := r + [s[|s| - 1 - j]];
      j := j + 1;
    }
  }
}
