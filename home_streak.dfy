/**
 * The activity streak of the home dashboard (app/home/main.tsx): up to seven
 * recent daily records are sorted by date, and the streak is the number of
 * active days in a row that end at the most recent record.
 */
module HomeStreak {

  /** One row of `activity_logs`; the date is its position on the calendar. */
  datatype ActivityRecord = ActivityRecord(date: int, wasActive: bool)

  predicate SortedByDate(s: seq<ActivityRecord>)
  {
    forall i, j :: 0 <= i < j < |s| ==> s[i].date <= s[j].date
  }

  /** Places `r` before the first record of `s` with a later date. */
  function Insert(r: ActivityRecord, s: seq<ActivityRecord>): (t: seq<ActivityRecord>)
    ensures |t| == |s| + 1
    decreases |s|
  {
    if s == [] then [r]
    else if r.date < s[0].date then [r] + s
    else [s[0]] + Insert(r, s[1..])
  }

  /** Inserting adds exactly `r` to the records. */
  lemma {:induction false} InsertPermutes(r: ActivityRecord, s: seq<ActivityRecord>)
    ensures multiset(Insert(r, s)) == multiset(s) + multiset{r}
    decreases |s|
  {
    if s != [] && r.date >= s[0].date {
      InsertPermutes(r, s[1..]);
      assert s == [s[0]] + s[1..];
    }
  }

  /** A date no later than `r`'s and every date of `s` is no later than any date after inserting. */
  lemma {:induction false} InsertKeepsLowerBound(r: ActivityRecord, s: seq<ActivityRecord>, lo: int)
    requires lo <= r.date
    requires forall k :: 0 <= k < |s| ==> lo <= s[k].date
    ensures forall k :: 0 <= k < |Insert(r, s)| ==> lo <= Insert(r, s)[k].date
    decreases |s|
  {
    if s != [] && r.date >= s[0].date {
      InsertKeepsLowerBound(r, s[1..], lo);
    }
  }

  /** Inserting into a sorted sequence keeps it sorted. */
  lemma {:induction false} InsertSorted(r: ActivityRecord, s: seq<ActivityRecord>)
    requires SortedByDate(s)
    ensures SortedByDate(Insert(r, s))
    decreases |s|
  {
    if s != [] && r.date >= s[0].date {
      InsertSorted(r, s[1..]);
      InsertKeepsLowerBound(r, s[1..], s[0].date);
    }
  }

  /** The ascending sort by date: an insertion sort that puts each record after those of the same date. */
  function SortByDate(s: seq<ActivityRecord>): (t: seq<ActivityRecord>)
    ensures SortedByDate(t)
    ensures multiset(t) == multiset(s)
    ensures |t| == |s|
    decreases |s|
  {
    if s == [] then []
    else
      var init := SortByDate(s[..|s| - 1]);
      SortStep(s, init);
      Insert(s[|s| - 1], init)
  }

  /** One step of the sort: inserting the last record into the sorted prefix sorts the whole. */
  lemma SortStep(s: seq<ActivityRecord>, init: seq<ActivityRecord>)
    requires s != [] && SortedByDate(init) && multiset(init) == multiset(s[..|s| - 1])
    ensures SortedByDate(Insert(s[|s| - 1], init))
    ensures multiset(Insert(s[|s| - 1], init)) == multiset(s)
  {
    InsertSorted(s[|s| - 1], init);
    InsertPermutes(s[|s| - 1], init);
    assert s == s[..|s| - 1] + [s[|s| - 1]];
  }

  /** After the sort, the last record is the most recent one. */
  lemma LastIsMostRecent(s: seq<ActivityRecord>)
    requires s != []
    ensures forall k :: 0 <= k < |s| ==> s[k].date <= SortByDate(s)[|s| - 1].date
  {
    var t := SortByDate(s);
    forall k | 0 <= k < |s|
      ensures s[k].date <= t[|s| - 1].date
    {
      assert s[k] in multiset(s);
      assert s[k] in multiset(t);
      var m :| 0 <= m < |t| && t[m] == s[k];
    }
  }

  /** `data.sort(...).map(entry => entry.was_active)`. */
  function ActivityLog(records: seq<ActivityRecord>): (log: seq<bool>)
    ensures |log| == |records|
  {
    var sorted := SortByDate(records);
    seq(|sorted|, i requires 0 <= i < |sorted| => sorted[i].wasActive)
  }

  /**
   * The log's last entry is the activity flag of a record of `records` whose
   * date is the latest, so a positive streak means a latest-dated record
   * was active.
   */
  lemma LogEndsWithLatestRecord(records: seq<ActivityRecord>)
    requires records != []
    ensures exists i :: 0 <= i < |records| && records[i].wasActive == ActivityLog(records)[|records| - 1]
                        && forall k :: 0 <= k < |records| ==> records[k].date <= records[i].date
    ensures TrailingRun(ActivityLog(records)) > 0 ==>
              exists i :: 0 <= i < |records| && records[i].wasActive
                          && forall k :: 0 <= k < |records| ==> records[k].date <= records[i].date
  {
    var t := SortByDate(records);
    var n := |records| - 1;
    LastIsMostRecent(records);
    assert t[n] in multiset(records);
    var i :| 0 <= i < |records| && records[i] == t[n];
    assert records[i].wasActive == ActivityLog(records)[n];
  }

  /** The length of the run of `true` that ends at the last element. */
  function TrailingRun(log: seq<bool>): (n: nat)
    ensures n <= |log|
    decreases |log|
  {
    if log == [] || !log[|log| - 1] then 0 else TrailingRun(log[..|log| - 1]) + 1
  }

  /**
   * TrailingRun(log) is the maximal trailing run: its last n elements are all
   * true, and the one before them, if any, is false.
   */
  lemma {:induction false} TrailingRunIsMaximal(log: seq<bool>)
    ensures forall k :: |log| - TrailingRun(log) <= k < |log| ==> log[k]
    ensures TrailingRun(log) < |log| ==> !log[|log| - 1 - TrailingRun(log)]
    decreases |log|
  {
    if log != [] && log[|log| - 1] {
      var init := log[..|log| - 1];
      TrailingRunIsMaximal(init);
      assert forall k :: 0 <= k < |init| ==> init[k] == log[k];
    }
  }

  /** Conversely, any n with that property is TrailingRun(log). */
  lemma {:induction false} TrailingRunUnique(log: seq<bool>, n: nat)
    requires n <= |log|
    requires forall k :: |log| - n <= k < |log| ==> log[k]
    requires n < |log| ==> !log[|log| - 1 - n]
    ensures TrailingRun(log) == n
    decreases |log|
  {
    if n > 0 {
      var init := log[..|log| - 1];
      assert forall k :: 0 <= k < |init| ==> init[k] == log[k];
      TrailingRunUnique(init, n - 1);
    }
  }

  /** All-true logs of length n give n; a most-recent false (or no record) gives 0. */
  lemma {:induction false} TrailingRunExtremes(log: seq<bool>)
    ensures (forall k :: 0 <= k < |log| ==> log[k]) ==> TrailingRun(log) == |log|
    ensures log == [] || !log[|log| - 1] ==> TrailingRun(log) == 0
  {
    if forall k :: 0 <= k < |log| ==> log[k] {
      TrailingRunUnique(log, |log|);
    }
  }

  /** A true before a false does not count: [T, F, T, T, T] gives 3; all false gives 0. */
  lemma TrailingRunExamples()
    ensures TrailingRun([true, false, true, true, true]) == 3
    ensures TrailingRun([false, false, false]) == 0
  {
    TrailingRunUnique([true, false, true, true, true], 3);
  }

  /** The backward `for` loop with its `break`. */
  method CountStreak(log: seq<bool>) returns (streakCount: nat)
    ensures streakCount == TrailingRun(log)
    ensures streakCount <= |log|
  {
    streakCount := 0;
    var i := |log| - 1;
    assert log[..i + 1] == log;
    while i >= 0
      invariant -1 <= i < |log|
      invariant streakCount + i + 1 == |log|
      invariant TrailingRun(log) == streakCount + TrailingRun(log[..i + 1])
      decreases i
    {
      if log[i] {
        assert log[..i + 1][..i] == log[..i];
        streakCount := streakCount + 1;
      } else {
        break;
      }
      i := i - 1;
    }
  }

  /** What the fetch of recent activity yields: no user, a query error, or the rows. */
  datatype ActivityFetch = NoUser | QueryError | Rows(records: seq<ActivityRecord>)

  class MainScreen {
    var streak: int

    constructor ()
      ensures streak == 0
    {
      streak := 0;
    }

    /**
     * `fetchActivity`: with no user or a query error the streak is left as
     * it was; otherwise it becomes the trailing run of the sorted log.
     */
    method FetchActivity(fetch: ActivityFetch)
      modifies this
      ensures !fetch.Rows? ==> streak == old(streak)
      ensures fetch.Rows? ==> streak == TrailingRun(ActivityLog(fetch.records))
      ensures fetch.Rows? ==> 0 <= streak <= |fetch.records|
    {
      if !fetch.Rows? {
        return;
      }
      var activityLog := ActivityLog(fetch.records);
      var streakCount := CountStreak(activityLog);
      streak := streakCount;
    }
  }
}
