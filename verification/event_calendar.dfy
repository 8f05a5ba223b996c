/**
 * The calendar predicates of the event store: `isToday`, `isThisWeekend`,
 * `isUpcoming`, and the end-of-today bound of the upcoming list.
 *
 * A timestamp is a count of local wall-clock milliseconds (a fixed offset,
 * no daylight-saving jumps). Day 0 is the day that starts at timestamp 0,
 * a Thursday, as 1 January 1970 was. `now` is a parameter.
 */
module EventCalendar {

  const MsPerDay: int := 86_400_000

  /** The calendar day a timestamp falls on (floor division: Dafny's `/` never rounds up for a positive divisor). */
  function DayIndex(t: int): int { t / MsPerDay }

  /** 00:00:00.000 of the day of `t` (`setHours(0, 0, 0, 0)`). */
  function StartOfDay(t: int): int { DayIndex(t) * MsPerDay }

  /** 23:59:59.999 of the day of `t` (`setHours(23, 59, 59, 999)`). */
  function EndOfDay(t: int): int { StartOfDay(t) + MsPerDay - 1 }

  /** `getDay()`: 0 is Sunday, 6 is Saturday. */
  function DayOfWeek(t: int): (r: int)
    ensures 0 <= r < 7
  {
    (DayIndex(t) + 4) % 7
  }

  /** `isToday`: same date, month and year as `now`, that is the same calendar day. */
  predicate IsToday(now: int, t: int) { DayIndex(t) == DayIndex(now) }

  function DaysUntilFriday(dayOfWeek: int): int { if dayOfWeek <= 5 then 5 - dayOfWeek else 0 }

  function DaysUntilSunday(dayOfWeek: int): int { if dayOfWeek <= 0 then 0 else 7 - dayOfWeek }

  /** `nextFriday`: 00:00 of the day `DaysUntilFriday` days after today. */
  function WeekendStart(now: int): int {
    StartOfDay(now) + DaysUntilFriday(DayOfWeek(now)) * MsPerDay
  }

  /** `nextSunday`: 23:59:59.999 of the day `DaysUntilSunday` days after today. */
  function WeekendEnd(now: int): int {
    StartOfDay(now) + DaysUntilSunday(DayOfWeek(now)) * MsPerDay + MsPerDay - 1
  }

  /** `isThisWeekend`: both bounds inclusive. */
  predicate IsThisWeekend(now: int, t: int) { WeekendStart(now) <= t <= WeekendEnd(now) }

  /** `isUpcoming`: strictly after 00:00 of today. */
  predicate IsUpcoming(now: int, t: int) { t > StartOfDay(now) }

  /** The bound of the upcoming list: strictly after 23:59:59.999 of today. */
  predicate IsAfterToday(now: int, t: int) { t > EndOfDay(now) }

  /** A day index is determined by any timestamp inside that day. */
  lemma DayIndexOf(k: int, r: int)
    requires 0 <= r < MsPerDay
    ensures DayIndex(k * MsPerDay + r) == k
  {
  }

  /** Every timestamp lies between the start and the end of its own day. */
  lemma DayBounds(t: int)
    ensures StartOfDay(t) <= t <= EndOfDay(t)
  {
  }

  /** Shifting by whole days shifts the day index and the weekday by the same count. */
  lemma {:induction false} ShiftDays(now: int, k: int, r: int)
    requires 0 <= r < MsPerDay
    ensures DayIndex(StartOfDay(now) + k * MsPerDay + r) == DayIndex(now) + k
    ensures DayOfWeek(StartOfDay(now) + k * MsPerDay + r) == (DayOfWeek(now) + k) % 7
  {
    assert StartOfDay(now) + k * MsPerDay + r == (DayIndex(now) + k) * MsPerDay + r;
    DayIndexOf(DayIndex(now) + k, r);
  }

  /** `isToday` holds exactly from 00:00:00.000 to 23:59:59.999 of today. */
  lemma {:induction false} TodayIsOneDay(now: int, t: int)
    ensures IsToday(now, t) <==> StartOfDay(now) <= t <= EndOfDay(now)
  {
    DayBounds(t);
    DayBounds(now);
    if StartOfDay(now) <= t <= EndOfDay(now) {
      DayIndexOf(DayIndex(now), t - StartOfDay(now));
    }
  }

  /** A timestamp is after today exactly when it falls on a later calendar day. */
  lemma {:induction false} AfterTodayIsLaterDay(now: int, t: int)
    ensures IsAfterToday(now, t) <==> DayIndex(t) > DayIndex(now)
  {
    DayBounds(t);
    DayBounds(now);
    if DayIndex(t) > DayIndex(now) {
      assert StartOfDay(t) >= StartOfDay(now) + MsPerDay;
    }
  }

  /** `isUpcoming` also holds for events earlier today, as long as they are not exactly at midnight. */
  lemma {:induction false} UpcomingIncludesRestOfToday(now: int, t: int)
    requires IsToday(now, t) && t != StartOfDay(now)
    ensures IsUpcoming(now, t)
  {
    TodayIsOneDay(now, t);
  }

  /** Every event after today is upcoming, but not conversely. */
  lemma AfterTodayIsUpcoming(now: int, t: int)
    requires IsAfterToday(now, t)
    ensures IsUpcoming(now, t)
  {
  }

  /** On a Sunday the window starts five days after it ends, so no timestamp is "this weekend". */
  lemma {:induction false} SundayWindowIsEmpty(now: int, t: int)
    requires DayOfWeek(now) == 0
    ensures WeekendEnd(now) < WeekendStart(now)
    ensures !IsThisWeekend(now, t)
  {
  }

  /**
   * On any other day the window is the run of whole days from the coming
   * Friday (or today, on a Saturday) to the coming Sunday, both included.
   */
  lemma {:induction false} WeekendWindowDays(now: int, t: int)
    requires DayOfWeek(now) != 0
    ensures IsThisWeekend(now, t) <==>
      DaysUntilFriday(DayOfWeek(now)) <= DayIndex(t) - DayIndex(now) <= 7 - DayOfWeek(now)
  {
    var k := DayIndex(t) - DayIndex(now);
    var r := t - StartOfDay(t);
    DayBounds(t);
    assert t - StartOfDay(now) == k * MsPerDay + r;
    CompareWholeDays(k, r, DaysUntilFriday(DayOfWeek(now)));
    CompareWholeDays(k, r, DaysUntilSunday(DayOfWeek(now)));
  }

  /** An offset of `k` whole days plus `r` milliseconds into the day compares with whole days `f` as `k` does. */
  lemma CompareWholeDays(k: int, r: int, f: int)
    requires 0 <= r < MsPerDay
    ensures k * MsPerDay + r >= f * MsPerDay <==> k >= f
    ensures k * MsPerDay + r <= f * MsPerDay + MsPerDay - 1 <==> k <= f
  {
  }

  /** Outside Sunday the window is non-empty, starts on a Friday (a Saturday when today is Saturday) and ends on a Sunday. */
  lemma {:induction false} WeekendWindowShape(now: int)
    requires DayOfWeek(now) != 0
    ensures WeekendStart(now) <= WeekendEnd(now)
    ensures DayOfWeek(WeekendStart(now)) == if DayOfWeek(now) == 6 then 6 else 5
    ensures DayOfWeek(WeekendEnd(now)) == 0
    ensures WeekendStart(now) == StartOfDay(WeekendStart(now))
    ensures WeekendEnd(now) == EndOfDay(WeekendEnd(now))
  {
    var dow := DayOfWeek(now);
    ShiftDays(now, DaysUntilFriday(dow), 0);
    ShiftDays(now, DaysUntilSunday(dow), MsPerDay - 1);
  }

  /** Every timestamp in the window falls on a Friday, a Saturday or a Sunday. */
  lemma {:induction false} WeekendIsFridayToSunday(now: int, t: int)
    requires IsThisWeekend(now, t)
    ensures DayOfWeek(t) in {5, 6, 0}
  {
    if DayOfWeek(now) == 0 {
      SundayWindowIsEmpty(now, t);
    } else {
      WeekendWindowDays(now, t);
      var k := DayIndex(t) - DayIndex(now);
      assert DayOfWeek(t) == (DayOfWeek(now) + k) % 7;
    }
  }
}
