/**
 * Check-in days, streaks and nudges (src/growth/engagementEngine.js).
 * A day is an integer day number of the calendar; the current day is a
 * parameter. The stored `YYYY-MM-DD` strings sort in the same order as their
 * day numbers. Two clocks are involved: a check-in stores the UTC date
 * (`toISOString`), while the streak counts back from local midnight and reads
 * every stored date as a local one.
 */
module Engagement {
  import opened JsValues

  // ------------------------------------------------------------------
  // Sorted, duplicate-free day lists
  // ------------------------------------------------------------------

  predicate Increasing(s: seq<int>)
  {
    forall i, j :: 0 <= i < j < |s| ==> s[i] < s[j]
  }

  /** The elements of a list, as a set. */
  function Elements(s: seq<int>): set<int>
  {
    set x | x in s
  }

  /** Adds `x` to an increasing list, keeping it increasing and free of duplicates. */
  function Insert(s: seq<int>, x: int): (r: seq<int>)
    requires Increasing(s)
    ensures Increasing(r)
    ensures forall y :: y in r <==> y in s || y == x
    ensures |r| == if x in s then |s| else |s| + 1
    decreases |s|
  {
    if s == [] then [x]
    else if x < s[0] then [x] + s
    else if x == s[0] then s
    else
      TailAbove(s);
      var rest := Insert(s[1..], x);
      assert forall k :: 0 <= k < |rest| ==> rest[k] in rest;
      [s[0]] + rest
  }

  /** Helper of Insert: everything after the head of an increasing list is above the head. */
  lemma {:induction false} TailAbove(s: seq<int>)
    requires Increasing(s) && s != []
    ensures forall y :: y in s[1..] ==> s[0] < y
  {
    forall y | y in s[1..] ensures s[0] < y {
      var j :| 0 <= j < |s[1..]| && s[1..][j] == y;
      assert s[j + 1] == y;
    }
  }

  /** `[...new Set(days)].sort()`: the distinct days in increasing order. */
  function UniqueDays(days: seq<int>): (r: seq<int>)
    ensures Increasing(r)
    ensures forall x :: x in r <==> x in days
    decreases |days|
  {
    if days == [] then [] else Insert(UniqueDays(days[..|days| - 1]), days[|days| - 1])
  }

  /** Two increasing lists with the same elements are the same list. */
  lemma {:induction false} IncreasingUnique(a: seq<int>, b: seq<int>)
    requires Increasing(a) && Increasing(b)
    requires forall x :: x in a <==> x in b
    ensures a == b
    decreases |a|
  {
    assert a != [] ==> a[0] in a;
    assert b != [] ==> b[0] in b;
    if a != [] && b != [] {
      assert a[0] == b[0] by {
        assert a[0] in a && b[0] in b;
        assert a[0] in b && b[0] in a;
      }
      forall x ensures x in a[1..] <==> x in b[1..] {
        if x in a[1..] {
          var j :| 1 <= j < |a| && a[j] == x;
          assert a[0] < x;
          assert x in b;
          var k :| 0 <= k < |b| && b[k] == x;
          assert k != 0;
          assert b[k] == b[1..][k - 1];
        }
        if x in b[1..] {
          var j :| 1 <= j < |b| && b[j] == x;
          assert b[0] < x;
          assert x in a;
          var k :| 0 <= k < |a| && a[k] == x;
          assert k != 0;
          assert a[k] == a[1..][k - 1];
        }
      }
      IncreasingUnique(a[1..], b[1..]);
      assert a == [a[0]] + a[1..] && b == [b[0]] + b[1..];
    }
  }

  /** Only the set of days matters: lists with the same days give the same unique list. */
  lemma {:induction false} UniqueDaysOfSameElements(a: seq<int>, b: seq<int>)
    requires forall x :: x in a <==> x in b
    ensures UniqueDays(a) == UniqueDays(b)
  {
    IncreasingUnique(UniqueDays(a), UniqueDays(b));
  }

  /** An already sorted, duplicate-free list is returned as it is. */
  lemma {:induction false} UniqueDaysOfIncreasing(days: seq<int>)
    requires Increasing(days)
    ensures UniqueDays(days) == days
  {
    IncreasingUnique(UniqueDays(days), days);
  }

  /** `uniqueDays` is idempotent. */
  lemma {:induction false} UniqueDaysIdempotent(days: seq<int>)
    ensures UniqueDays(UniqueDays(days)) == UniqueDays(days)
  {
    UniqueDaysOfIncreasing(UniqueDays(days));
  }

  /** An increasing list has as many entries as distinct elements. */
  lemma {:induction false} IncreasingLength(s: seq<int>)
    requires Increasing(s)
    ensures |Elements(s)| == |s|
    decreases |s|
  {
    if s != [] {
      var t := s[1..];
      IncreasingLength(t);
      assert Elements(s) == Elements(t) + {s[0]};
      TailAbove(s);
    }
  }

  // ------------------------------------------------------------------
  // Stored state and check-ins
  // ------------------------------------------------------------------

  /** The engagement state as stored; `None` when nothing readable is stored. */
  class EngagementStore {
    var stored: Option<seq<int>>

    constructor ()
      ensures stored == None
    {
      stored := None;
    }

    /** `loadEngagementState().checkInDays`: the stored days made unique, or none. */
    function Load(): (days: seq<int>)
      reads this
      ensures Increasing(days)
    {
      match stored
      case Some(d) => UniqueDays(d)
      case None => []
    }

    /** `recordCheckIn`: load, add the current UTC date, make unique, store and return. */
    method RecordCheckIn(utcDay: int) returns (next: seq<int>)
      modifies this
      ensures next == CheckInUpdate(old(Load()), utcDay)
      ensures stored == Some(next)
    {
      var state := Load();
      next := UniqueDays(state + [utcDay]);
      stored := Some(next);
    }
  }

  /** The list a check-in on `today` stores, given the loaded list. */
  function CheckInUpdate(days: seq<int>, today: int): (r: seq<int>)
  {
    UniqueDays(days + [today])
  }

  /**
   * A check-in keeps every earlier day, adds today, and (on a loaded,
   * sorted list) grows the list by one exactly when today is new.
   */
  lemma {:induction false} CheckInFacts(days: seq<int>, today: int)
    requires Increasing(days)
    ensures today in CheckInUpdate(days, today)
    ensures forall d :: d in days ==> d in CheckInUpdate(days, today)
    ensures |CheckInUpdate(days, today)| == if today in days then |days| else |days| + 1
    ensures today in days ==> CheckInUpdate(days, today) == days
  {
    var r := CheckInUpdate(days, today);
    assert today in days + [today];
    forall d | d in days ensures d in r {
      assert d in days + [today];
    }
    var ins := Insert(days, today);
    forall x ensures x in r <==> x in ins {
      assert x in days + [today] <==> x in days || x == today;
    }
    IncreasingUnique(r, ins);
    if today in days {
      IncreasingUnique(ins, days);
    }
  }

  // ------------------------------------------------------------------
  // Streaks
  // ------------------------------------------------------------------

  /** Days `start`, `start - 1`, ..., `start - n + 1` are all check-in days. */
  predicate ConsecutiveFrom(days: set<int>, start: int, n: nat)
  {
    forall d :: start - n < d <= start ==> d in days
  }

  /** The length of the run of consecutive check-in days ending at `start`. */
  function Run(days: set<int>, start: int): nat
    decreases |days|
  {
    if start in days then 1 + Run(days - {start}, start - 1) else 0
  }

  /** The run is as long as it can be: all its days are present and the day before it is not. */
  lemma {:induction false} RunIsMaximal(days: set<int>, start: int)
    ensures ConsecutiveFrom(days, start, Run(days, start))
    ensures start - Run(days, start) !in days
    ensures Run(days, start) <= |days|
    decreases |days|
  {
    if start in days {
      var rest := days - {start};
      RunIsMaximal(rest, start - 1);
      var m := Run(rest, start - 1);
      forall d | start - (m + 1) < d <= start ensures d in days {
        if d < start { assert d in rest; }
      }
    }
  }

  /** A run of exactly `n` days ending at `start` has length `n`. */
  lemma {:induction false} RunExact(days: set<int>, start: int, n: nat)
    requires ConsecutiveFrom(days, start, n) && start - n !in days
    ensures Run(days, start) == n
    decreases n
  {
    if n > 0 {
      assert start in days;
      var rest := days - {start};
      forall d | (start - 1) - (n - 1) < d <= start - 1 ensures d in rest {
        assert d in days;
      }
      RunExact(rest, start - 1, n - 1);
    }
  }

  /** Some check-in day lies after today. */
  predicate HasFutureDay(days: set<int>, today: int)
  {
    exists d :: d in days && d > today
  }

  /**
   * The streak `calculateStreak` reports: 0 when a day lies in the future;
   * else the run ending today, or if today is absent the run ending yesterday.
   */
  function Streak(checkInDays: seq<int>, today: int): nat
  {
    var days := Elements(checkInDays);
    if HasFutureDay(days, today) then 0
    else if today in days then Run(days, today)
    else Run(days, today - 1)
  }

  /** The streak never exceeds the number of distinct check-in days. */
  lemma {:induction false} StreakBound(checkInDays: seq<int>, today: int)
    ensures Streak(checkInDays, today) <= |UniqueDays(checkInDays)|
  {
    var days := Elements(checkInDays);
    var u := UniqueDays(checkInDays);
    RunIsMaximal(days, today);
    RunIsMaximal(days, today - 1);
    IncreasingLength(u);
    assert Elements(u) == days;
  }

  /** Duplicated entries do not change the streak. */
  lemma {:induction false} StreakIgnoresDuplicates(a: seq<int>, b: seq<int>, today: int)
    requires forall x :: x in a <==> x in b
    ensures Streak(a, today) == Streak(b, today)
  {
    forall x ensures x in Elements(a) <==> x in Elements(b) {
      assert x in Elements(a) <==> x in a;
    }
    assert Elements(a) == Elements(b);
  }

  /** A streak of `n` ending today means today and the `n - 1` days before it were all check-ins. */
  lemma {:induction false} StreakMeaning(checkInDays: seq<int>, today: int)
    ensures var days := Elements(checkInDays); var n := Streak(checkInDays, today);
      && (HasFutureDay(days, today) ==> n == 0)
      && (!HasFutureDay(days, today) && today in days ==> ConsecutiveFrom(days, today, n) && today - n !in days)
      && (!HasFutureDay(days, today) && today !in days ==> ConsecutiveFrom(days, today - 1, n) && today - 1 - n !in days)
  {
    RunIsMaximal(Elements(checkInDays), today);
    RunIsMaximal(Elements(checkInDays), today - 1);
  }

  /** `[...].reverse()`. */
  function Reverse(s: seq<int>): (r: seq<int>)
    ensures |r| == |s| && forall i :: 0 <= i < |s| ==> r[i] == s[|s| - 1 - i]
    decreases |s|
  {
    if s == [] then [] else [s[|s| - 1]] + Reverse(s[..|s| - 1])
  }

  /** The days newer than the first `i` entries of a descending list are exactly those entries. */
  lemma {:induction false} DescendingRun(sorted: seq<int>, i: nat)
    requires 0 < i <= |sorted|
    requires forall a, b :: 0 <= a < b < |sorted| ==> sorted[a] > sorted[b]
    requires forall k :: 0 <= k < i ==> sorted[k] == sorted[0] - k
    requires i < |sorted| ==> sorted[i] != sorted[0] - i
    ensures Run(Elements(sorted), sorted[0]) == i
  {
    var days := Elements(sorted);
    var start := sorted[0];
    forall d | start - i < d <= start ensures d in days {
      var k := start - d;
      assert sorted[k] == d;
    }
    forall j | 0 <= j < |sorted| ensures sorted[j] != start - i {
      if j < i {
        assert sorted[j] == start - j;
      } else if j > i {
        assert sorted[i - 1] > sorted[i] > sorted[j];
      }
    }
    assert start - i !in days;
    RunExact(days, start, i);
  }

  /** Strictly decreasing: newest first, no day twice. */
  predicate Descending(s: seq<int>)
  {
    forall a, b :: 0 <= a < b < |s| ==> s[a] > s[b]
  }

  /** Reversal keeps the days. */
  lemma {:induction false} ReverseElements(u: seq<int>)
    ensures Elements(Reverse(u)) == Elements(u)
  {
    var r := Reverse(u);
    forall x | x in u ensures x in r {
      var j :| 0 <= j < |u| && u[j] == x;
      assert r[|u| - 1 - j] == x;
    }
    forall x | x in r ensures x in u {
      var j :| 0 <= j < |r| && r[j] == x;
      assert u[|u| - 1 - j] == x;
    }
  }

  /** Reversal turns increasing into descending. */
  lemma {:induction false} ReverseDescending(u: seq<int>)
    requires Increasing(u)
    ensures Descending(Reverse(u))
  {
    var r := Reverse(u);
    forall a, b | 0 <= a < b < |r| ensures r[a] > r[b] {
      assert r[a] == u[|u| - 1 - a] && r[b] == u[|u| - 1 - b];
    }
  }

  /** The unique days reversed hold the same days, newest first. */
  lemma {:induction false} NewestFirst(checkInDays: seq<int>)
    ensures var sorted := Reverse(UniqueDays(checkInDays));
      && Elements(sorted) == Elements(checkInDays) && Descending(sorted)
      && |sorted| == |UniqueDays(checkInDays)|
      && (checkInDays != [] ==> sorted != [])
  {
    var u := UniqueDays(checkInDays);
    ReverseElements(u);
    ReverseDescending(u);
    assert Elements(u) == Elements(checkInDays);
    if checkInDays != [] {
      assert checkInDays[0] in u;
    }
  }

  /**
   * Where the scan of `calculateStreak` stops decides the streak: it stops
   * at once when the newest day is neither today nor yesterday, and
   * otherwise after the `i` consecutive days that follow the newest.
   */
  lemma {:induction false} StreakOfScan(checkInDays: seq<int>, today: int, sorted: seq<int>, i: nat)
    requires Elements(sorted) == Elements(checkInDays) && Descending(sorted) && sorted != []
    requires i <= |sorted|
    requires i == 0 ==> sorted[0] != today && sorted[0] != today - 1
    requires i > 0 ==> (sorted[0] == today || sorted[0] == today - 1)
    requires forall k :: 0 <= k < i ==> sorted[k] == sorted[0] - k
    requires 0 < i < |sorted| ==> sorted[i] != sorted[0] - i
    ensures Streak(checkInDays, today) == i
  {
    var days := Elements(checkInDays);
    forall x | x in days ensures x <= sorted[0] {
      assert x in Elements(sorted);
      var j :| 0 <= j < |sorted| && sorted[j] == x;
      assert j > 0 ==> sorted[0] > sorted[j];
    }
    assert sorted[0] in days;
    if i == 0 {
      if sorted[0] > today {
        assert HasFutureDay(days, today);
      } else {
        assert today !in days && today - 1 !in days;
        RunExact(days, today, 0);
        RunExact(days, today - 1, 0);
      }
    } else {
      DescendingRun(sorted, i);
      assert !HasFutureDay(days, today);
      if sorted[0] == today - 1 {
        assert today !in days;
      }
    }
  }

  /**
   * The loop of `calculateStreak` over the distinct days, newest first: it
   * counts while each day is the one the cursor expects, starting from
   * today or, for the first day only, yesterday. It stops at once when the
   * newest day is neither, and otherwise after consecutive days from the
   * newest.
   */
  method ScanNewestFirst(sorted: seq<int>, today: int) returns (streak: nat)
    requires sorted != []
    ensures streak <= |sorted|
    ensures streak == 0 ==> sorted[0] != today && sorted[0] != today - 1
    ensures streak > 0 ==> (sorted[0] == today || sorted[0] == today - 1)
    ensures forall k :: 0 <= k < streak ==> sorted[k] == sorted[0] - k
    ensures 0 < streak < |sorted| ==> sorted[streak] != sorted[0] - streak
  {
    streak := 0;
    var cursor := today;
    var i := 0;
    while i < |sorted|
      invariant 0 <= i <= |sorted| && streak == i
      invariant i == 0 ==> cursor == today
      invariant i > 0 ==> (sorted[0] == today || sorted[0] == today - 1) && cursor == sorted[0] - i
      invariant forall k :: 0 <= k < i ==> sorted[k] == sorted[0] - k
    {
      var current := sorted[i];
      var diff := cursor - current;
      if diff == 0 {
        streak := streak + 1;
        cursor := cursor - 1;
      } else if diff == 1 && streak == 0 {
        cursor := current;
        streak := streak + 1;
        cursor := cursor - 1;
      } else {
        break;
      }
      i := i + 1;
    }
  }

  /**
   * `calculateStreak`: no days give 0; otherwise the distinct days are
   * scanned from newest to oldest, counting back from the local date.
   */
  method CalculateStreak(checkInDays: seq<int>, localToday: int) returns (streak: nat)
    ensures streak == Streak(checkInDays, localToday)
    ensures streak <= |UniqueDays(checkInDays)|
  {
    if |checkInDays| == 0 {
      StreakBound(checkInDays, localToday);
      return 0;
    }
    var sorted := Reverse(UniqueDays(checkInDays));
    NewestFirst(checkInDays);
    streak := ScanNewestFirst(sorted, localToday);
    StreakOfScan(checkInDays, localToday, sorted, streak);
    StreakBound(checkInDays, localToday);
  }

  /**
   * A check-in stores the UTC date and the streak counts back from the local
   * date; the two lie at most a day apart. When the UTC date is ahead (an
   * evening west of Greenwich) the fresh check-in is a future day and the
   * streak reads 0; when the dates agree, or the UTC date is behind, the
   * fresh check-in counts and the streak is at least 1.
   */
  lemma {:induction false} StreakAfterCheckIn(days: seq<int>, utcDay: int, localToday: int)
    requires localToday - 1 <= utcDay <= localToday + 1
    requires !HasFutureDay(Elements(days), localToday)
    ensures utcDay == localToday + 1 ==> Streak(CheckInUpdate(days, utcDay), localToday) == 0
    ensures utcDay <= localToday ==> Streak(CheckInUpdate(days, utcDay), localToday) >= 1
  {
    var r := CheckInUpdate(days, utcDay);
    var e := Elements(r);
    assert utcDay in days + [utcDay];
    assert utcDay in e;
    if utcDay == localToday + 1 {
      assert HasFutureDay(e, localToday);
    } else {
      forall x | x in e ensures x <= localToday {
        assert x in days + [utcDay];
        if x != utcDay {
          assert x in Elements(days);
        }
      }
      assert !HasFutureDay(e, localToday);
    }
  }

  // ------------------------------------------------------------------
  // Nudges
  // ------------------------------------------------------------------

  const HighRiskNudge := "High-risk signals detected. Prioritize immediate support and a trusted-contact check-in now."
  const ModerateStreakNudge := "Great consistency. Keep the streak with a 10-minute walk and early wind-down tonight."
  const ModerateStartNudge := "Build momentum with one check-in daily this week and a short activity break today."
  const LowStreakNudge := "Strong adherence streak. Reinforce it by protecting sleep timing tonight."
  const LowStartNudge := "You are on track. A quick daily reflection helps lock in healthy habits."

  /** `getNudgeForRiskTier`: tier 2 and above always the high-risk nudge; tier 1 praises a streak of 3, other tiers one of 5. */
  function GetNudgeForRiskTier(tier: int, streak: int): (nudge: string)
    ensures tier >= 2 ==> nudge == HighRiskNudge
    ensures tier == 1 ==> nudge == (if streak >= 3 then ModerateStreakNudge else ModerateStartNudge)
    ensures tier < 1 ==> nudge == (if streak >= 5 then LowStreakNudge else LowStartNudge)
  {
    if tier >= 2 then HighRiskNudge
    else if tier == 1 then (if streak >= 3 then ModerateStreakNudge else ModerateStartNudge)
    else if streak >= 5 then LowStreakNudge
    else LowStartNudge
  }

  /** A nudge that praises a streak is only given for a streak of at least 3 days, and never at tier 2 or above. */
  lemma {:induction false} StreakNudgeNeedsStreak(tier: int, streak: int)
    requires GetNudgeForRiskTier(tier, streak) in {ModerateStreakNudge, LowStreakNudge}
    ensures streak >= 3 && tier < 2
  {
    assert HighRiskNudge != ModerateStreakNudge && HighRiskNudge != LowStreakNudge;
    assert ModerateStartNudge != ModerateStreakNudge && ModerateStartNudge != LowStreakNudge;
    assert LowStartNudge != ModerateStreakNudge && LowStartNudge != LowStreakNudge;
  }
}
