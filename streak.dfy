/** The adherence streak: consecutive days of training, walking back from today, where
    a day with no plan scheduled on its weekday is a rest day and only a scheduled day
    that was missed before today ends the chain.

    Calendar days are integers counted from 1970-01-01, which was a Thursday. */
module StreakCalculator {
  import opened KotlinText
  import opened TrainingModels

  const MillisPerDay: int := 86_400_000

  /** How many days the walk looks at, today included. */
  const WalkLength: nat := 365

  /** The calendar day a point in time (epoch milliseconds) falls on: the time truncated
      to midnight. */
  function DayOf(millis: int): int {
    millis / MillisPerDay
  }

  /** `Calendar.get(Calendar.DAY_OF_WEEK)` of a day: 1 for Sunday up to 7 for Saturday. */
  function CalendarDayOfWeek(day: int): (c: int)
    ensures 1 <= c <= 7
  {
    (day + 4) % 7 + 1
  }

  /** `calendarDayToDayOfWeek`: maps the `Calendar` weekday constants onto `DayOfWeek`;
      any other number falls back to Sunday. */
  function CalendarDayToDayOfWeek(calendarDay: int): DayOfWeek {
    match calendarDay
    case 2 => Monday
    case 3 => Tuesday
    case 4 => Wednesday
    case 5 => Thursday
    case 6 => Friday
    case 7 => Saturday
    case 1 => Sunday
    case _ => Sunday
  }

  /** The `Calendar` constant of a weekday. */
  function DayOfWeekToCalendarDay(d: DayOfWeek): int {
    match d
    case Sunday => 1
    case Monday => 2
    case Tuesday => 3
    case Wednesday => 4
    case Thursday => 5
    case Friday => 6
    case Saturday => 7
  }

  /** The two mappings are inverse on the seven `Calendar` weekday constants. */
  lemma CalendarDayMappingRoundTrip(d: DayOfWeek, c: int)
    ensures CalendarDayToDayOfWeek(DayOfWeekToCalendarDay(d)) == d
    ensures 1 <= c <= 7 ==> DayOfWeekToCalendarDay(CalendarDayToDayOfWeek(c)) == c
  {
  }

  /** The weekday of a day number, as the walk reads it from `Calendar`. */
  function Weekday(day: int): DayOfWeek {
    CalendarDayToDayOfWeek(CalendarDayOfWeek(day))
  }

  /** `completedDatesSet`: the days on which some completed record with a completion
      date was finished. */
  function CompletedDays(ws: seq<Workout>): (days: set<int>)
    ensures forall d :: d in days <==>
      exists w :: w in ws && w.isCompleted && w.completionDate.Some? && DayOf(w.completionDate.value) == d
  {
    set w | w in ws && w.isCompleted && w.completionDate.Some? :: DayOf(w.completionDate.value)
  }

  /** `allScheduledDays`: the union of every record's scheduled weekdays. */
  function ScheduledWeekdays(ws: seq<Workout>): (days: set<DayOfWeek>)
    ensures forall d :: d in days <==> exists w :: w in ws && d in w.scheduledDays
  {
    set w, d | w in ws && d in w.scheduledDays :: d
  }

  /** The day `offset` days before today is missed: its weekday is scheduled and
      nothing was completed on it. */
  predicate MissedAt(completed: set<int>, scheduled: set<DayOfWeek>, today: int, offset: int) {
    today - offset !in completed && Weekday(today - offset) in scheduled
  }

  /** The first offset from `from` on where the walk stops: a missed day, or the end of
      the 365-day window. */
  function FirstMiss(completed: set<int>, scheduled: set<DayOfWeek>, today: int, from: nat): (m: nat)
    requires from <= WalkLength
    ensures from <= m <= WalkLength
    ensures m < WalkLength ==> MissedAt(completed, scheduled, today, m)
    ensures forall j :: from <= j < m ==> !MissedAt(completed, scheduled, today, j)
    decreases WalkLength - from
  {
    if from == WalkLength then WalkLength
    else if MissedAt(completed, scheduled, today, from) then from
    else FirstMiss(completed, scheduled, today, from + 1)
  }

  /** The number of completed days among the `n` days ending today. */
  function CompletedWithin(completed: set<int>, today: int, n: nat): (count: nat)
    ensures count <= n
  {
    if n == 0 then 0
    else CompletedWithin(completed, today, n - 1) + (if today - (n - 1) in completed then 1 else 0)
  }

  /** The streak: the completed days from today back to, not including, the latest
      missed day before today, within the 365 days ending today. Today itself never
      stops the walk, so the search for a missed day starts one day back. */
  function Streak(ws: seq<Workout>, now: int): (streak: nat)
    ensures streak <= WalkLength
  {
    var completed := CompletedDays(ws);
    var today := DayOf(now);
    CompletedWithin(completed, today, FirstMiss(completed, ScheduledWeekdays(ws), today, 1))
  }

  /** `calculateStreak`: the source's walk, one day back per step, with its early
      return when nothing is scheduled and nothing is completed. */
  method CalculateStreak(ws: seq<Workout>, now: int) returns (streak: int)
    ensures streak == Streak(ws, now)
  {
    var completedDates := CompletedDays(ws);
    var allScheduledDays := ScheduledWeekdays(ws);
    if allScheduledDays == {} && completedDates == {} {
      NothingCompletedNoStreak(ws, now);
      return 0;
    }
    streak := 0;
    var today := DayOf(now);
    var day := today;
    for i := 0 to WalkLength
      invariant day == today - i
      invariant streak == CompletedWithin(completedDates, today, i)
      invariant forall j :: 1 <= j < i ==> !MissedAt(completedDates, allScheduledDays, today, j)
    {
      var isScheduled := Weekday(day) in allScheduledDays;
      var isCompleted := day in completedDates;
      if isCompleted {
        streak := streak + 1;
      } else if isScheduled {
        if i > 0 {
          FirstMissIs(completedDates, allScheduledDays, today, i);
          return;
        }
      }
      day := day - 1;
    }
    FirstMissIs(completedDates, allScheduledDays, today, WalkLength);
  }

  /** The walk's stopping offset is pinned down by the days it passes and the day it
      stops at. */
  lemma FirstMissIs(completed: set<int>, scheduled: set<DayOfWeek>, today: int, m: nat)
    requires 1 <= m <= WalkLength
    requires m < WalkLength ==> MissedAt(completed, scheduled, today, m)
    requires forall j :: 1 <= j < m ==> !MissedAt(completed, scheduled, today, j)
    ensures FirstMiss(completed, scheduled, today, 1) == m
  {
  }

  lemma {:induction false} NoneCompletedWithin(completed: set<int>, today: int, n: nat)
    requires forall d :: today - n < d <= today ==> d !in completed
    ensures CompletedWithin(completed, today, n) == 0
  {
    if n > 0 {
      NoneCompletedWithin(completed, today, n - 1);
    }
  }

  /** With no completed record the streak is 0, scheduled days or not; in particular
      the source's early return gives the same 0 the walk would. */
  lemma NothingCompletedNoStreak(ws: seq<Workout>, now: int)
    requires CompletedDays(ws) == {}
    ensures Streak(ws, now) == 0
  {
    var completed := CompletedDays(ws);
    var today := DayOf(now);
    NoneCompletedWithin(completed, today, FirstMiss(completed, ScheduledWeekdays(ws), today, 1));
  }

  lemma {:induction false} CompletedWithinIsCardinality(completed: set<int>, today: int, n: nat)
    ensures CompletedWithin(completed, today, n) == |set d | d in completed && today - n < d <= today|
  {
    if n > 0 {
      CompletedWithinIsCardinality(completed, today, n - 1);
      var older := set d | d in completed && today - (n - 1) < d <= today;
      var all := set d | d in completed && today - n < d <= today;
      if today - (n - 1) in completed {
        assert all == older + {today - (n - 1)};
      } else {
        assert all == older;
      }
    }
  }

  /** What the walk computes, stated without the walk: if the day `stop` days back is
      the latest missed day before today (or `stop` is 365 and none of the last 364
      days was missed), the streak is the number of distinct completed days after it,
      up to and including today. */
  lemma StreakCountsCompletedDaysSinceLastMiss(ws: seq<Workout>, now: int, stop: nat)
    requires 1 <= stop <= WalkLength
    requires stop < WalkLength ==> MissedAt(CompletedDays(ws), ScheduledWeekdays(ws), DayOf(now), stop)
    requires forall j :: 1 <= j < stop ==> !MissedAt(CompletedDays(ws), ScheduledWeekdays(ws), DayOf(now), j)
    ensures Streak(ws, now) == |set d | d in CompletedDays(ws) && DayOf(now) - stop < d <= DayOf(now)|
  {
    var completed := CompletedDays(ws);
    var today := DayOf(now);
    var m := FirstMiss(completed, ScheduledWeekdays(ws), today, 1);
    assert m == stop;
    CompletedWithinIsCardinality(completed, today, stop);
  }

  lemma {:induction false} AllCompletedWithin(completed: set<int>, today: int, n: nat)
    requires forall d :: today - n < d <= today ==> d in completed
    ensures CompletedWithin(completed, today, n) == n
  {
    if n > 0 {
      AllCompletedWithin(completed, today, n - 1);
    }
  }

  lemma {:induction false} CompletedWithinGrows(completed: set<int>, today: int, n: nat, m: nat)
    requires n <= m
    ensures CompletedWithin(completed, today, n) <= CompletedWithin(completed, today, m)
    decreases m - n
  {
    if n < m {
      CompletedWithinGrows(completed, today, n, m - 1);
    }
  }

  /** A completed day never stops the walk, scheduled or not: `n` completed days in a
      row ending today give a streak of at least `n`. */
  lemma ConsecutiveCompletionsCount(ws: seq<Workout>, now: int, n: nat)
    requires n <= WalkLength
    requires forall d :: DayOf(now) - n < d <= DayOf(now) ==> d in CompletedDays(ws)
    ensures Streak(ws, now) >= n
  {
    var completed := CompletedDays(ws);
    var today := DayOf(now);
    var m := FirstMiss(completed, ScheduledWeekdays(ws), today, 1);
    if m < n {
      assert false;
    }
    AllCompletedWithin(completed, today, n);
    CompletedWithinGrows(completed, today, n, m);
  }

  /** Today being due and not yet done does not end the walk: a completed yesterday
      still counts. */
  lemma PendingTodayKeepsYesterday(ws: seq<Workout>, now: int)
    requires DayOf(now) - 1 in CompletedDays(ws)
    ensures Streak(ws, now) >= 1
  {
    var completed := CompletedDays(ws);
    var today := DayOf(now);
    var m := FirstMiss(completed, ScheduledWeekdays(ws), today, 1);
    if m == 1 {
      assert false;
    }
    CompletedWithinGrows(completed, today, 2, m);
    assert CompletedWithin(completed, today, 2) >= 1;
  }

  /** A further record finished on an already completed day, whose weekdays are already
      scheduled, changes nothing: several completions on one day count once. */
  lemma SameDayCompletionCountsOnce(ws: seq<Workout>, w: Workout, now: int)
    requires w.isCompleted && w.completionDate.Some?
    requires DayOf(w.completionDate.value) in CompletedDays(ws)
    requires forall d :: d in w.scheduledDays ==> d in ScheduledWeekdays(ws)
    ensures Streak(ws + [w], now) == Streak(ws, now)
  {
    var more := ws + [w];
    assert CompletedDays(more) == CompletedDays(ws) by {
      forall d | d in CompletedDays(more) ensures d in CompletedDays(ws) {
        var x :| x in more && x.isCompleted && x.completionDate.Some? && DayOf(x.completionDate.value) == d;
        if x != w {
          assert x in ws;
        }
      }
    }
    assert ScheduledWeekdays(more) == ScheduledWeekdays(ws) by {
      forall d | d in ScheduledWeekdays(more) ensures d in ScheduledWeekdays(ws) {
        var x :| x in more && d in x.scheduledDays;
        if x != w {
          assert x in ws;
        }
      }
    }
  }

  /** 2023-10-23, a Monday, as a day number. */
  const Oct23: int := 19653

  /** A plan scheduled on the given weekdays, finished at the given time. */
  function CompletedPlan(id: Id, days: seq<DayOfWeek>, at: int): Workout {
    NewWorkout(id, "Test Plan", "", days).(isCompleted := true, completionDate := Some(at))
  }

  lemma DayOfWithinDay(day: int, time: int)
    requires 0 <= time < MillisPerDay
    ensures DayOf(day * MillisPerDay + time) == day
  {
  }

  /** The history of the rest-day scenario: a plan for Monday, Wednesday and Friday,
      done on Monday 2023-10-23 and on Wednesday 2023-10-25 at the given times of day. */
  function RestDayHistory(monday: int, wednesday: int): seq<Workout> {
    var days := [Monday, Wednesday, Friday];
    [CompletedPlan(0, days, Oct23 * MillisPerDay + monday),
     CompletedPlan(1, days, (Oct23 + 2) * MillisPerDay + wednesday)]
  }

  lemma RestDayHistoryDays(monday: int, wednesday: int)
    requires 0 <= monday < MillisPerDay && 0 <= wednesday < MillisPerDay
    ensures CompletedDays(RestDayHistory(monday, wednesday)) == {Oct23, Oct23 + 2}
    ensures ScheduledWeekdays(RestDayHistory(monday, wednesday)) == {Monday, Wednesday, Friday}
  {
    var ws := RestDayHistory(monday, wednesday);
    DayOfWithinDay(Oct23, monday);
    DayOfWithinDay(Oct23 + 2, wednesday);
    assert ws[0] in ws && ws[1] in ws;
    assert Monday in ws[0].scheduledDays && Wednesday in ws[0].scheduledDays && Friday in ws[0].scheduledDays;
  }

  /** Monday, Wednesday and Friday scheduled, Monday and Wednesday done, today is the
      Thursday after: the streak is 2, whatever the times of day. */
  lemma RestDayKeepsStreak(monday: int, wednesday: int, thursday: int)
    requires 0 <= monday < MillisPerDay && 0 <= wednesday < MillisPerDay && 0 <= thursday < MillisPerDay
    ensures Streak(RestDayHistory(monday, wednesday), (Oct23 + 3) * MillisPerDay + thursday) == 2
  {
    RestDayHistoryDays(monday, wednesday);
    DayOfWithinDay(Oct23 + 3, thursday);
    var ws := RestDayHistory(monday, wednesday);
    RestDayWalk(CompletedDays(ws), ScheduledWeekdays(ws), Oct23 + 3);
  }

  /** The walk of the rest-day scenario, on its day sets: it stops at the Friday six
      days back, having passed two completed days. */
  lemma RestDayWalk(completed: set<int>, scheduled: set<DayOfWeek>, today: int)
    requires completed == {Oct23, Oct23 + 2} && scheduled == {Monday, Wednesday, Friday}
    requires today == Oct23 + 3
    ensures CompletedWithin(completed, today, FirstMiss(completed, scheduled, today, 1)) == 2
  {
    assert MissedAt(completed, scheduled, today, 6);
    assert FirstMiss(completed, scheduled, today, 6) == 6;
    assert !MissedAt(completed, scheduled, today, 5);
    assert FirstMiss(completed, scheduled, today, 5) == 6;
    assert !MissedAt(completed, scheduled, today, 4);
    assert FirstMiss(completed, scheduled, today, 4) == 6;
    assert !MissedAt(completed, scheduled, today, 3);
    assert FirstMiss(completed, scheduled, today, 3) == 6;
    assert !MissedAt(completed, scheduled, today, 2);
    assert FirstMiss(completed, scheduled, today, 2) == 6;
    assert !MissedAt(completed, scheduled, today, 1);
    assert FirstMiss(completed, scheduled, today, 1) == 6;
    assert CompletedWithin(completed, today, 2) == 1;
    assert CompletedWithin(completed, today, 4) == 2;
    assert CompletedWithin(completed, today, 6) == 2;
  }

  /** Monday and Wednesday scheduled, only Monday done, today is the Thursday after: the
      missed Wednesday ends the walk before Monday, and the streak is 0. */
  lemma MissedDayBreaksStreak(monday: int, thursday: int)
    requires 0 <= monday < MillisPerDay && 0 <= thursday < MillisPerDay
    ensures
      var ws := [CompletedPlan(0, [Monday, Wednesday], Oct23 * MillisPerDay + monday)];
      Streak(ws, (Oct23 + 3) * MillisPerDay + thursday) == 0
  {
    var ws := [CompletedPlan(0, [Monday, Wednesday], Oct23 * MillisPerDay + monday)];
    var today := Oct23 + 3;
    DayOfWithinDay(Oct23, monday);
    DayOfWithinDay(today, thursday);
    var completed := CompletedDays(ws);
    assert completed == {Oct23} by {
      assert ws[0] in ws;
    }
    var scheduled := ScheduledWeekdays(ws);
    assert Wednesday in scheduled by {
      assert ws[0] in ws && Wednesday in ws[0].scheduledDays;
    }
    assert MissedAt(completed, scheduled, today, 1);
    StreakCountsCompletedDaysSinceLastMiss(ws, (Oct23 + 3) * MillisPerDay + thursday, 1);
    assert (set d | d in completed && today - 1 < d <= today) == {};
  }
}
