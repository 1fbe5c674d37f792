/** ratings.py: the start of the rolling rating window. */
module RatingWindow {

  const RATING_WINDOW_MONTHS := 18

  datatype Date = Date(year: int, month: int, day: int)

  predicate IsLeap(year: int) {
    year % 4 == 0 && (year % 100 != 0 || year % 400 == 0)
  }

  function DaysIn(year: int, month: int): (days: int)
    ensures 28 <= days <= 31
  {
    if month == 2 then (if IsLeap(year) then 29 else 28)
    else if month in {4, 6, 9, 11} then 30
    else 31
  }

  predicate IsDate(d: Date) {
    1 <= d.month <= 12 && 1 <= d.day <= DaysIn(d.year, d.month)
  }

  /** Months since the beginning of year 0. */
  function MonthIndex(d: Date): int {
    12 * d.year + d.month - 1
  }

  /** The same day 18 calendar months back, or the last day of that month. */
  ghost predicate IsWindowStart(start: Date, now: Date) {
    && IsDate(start)
    && MonthIndex(start) == MonthIndex(now) - 18
    && start.day <= now.day
    && (start.day == now.day || start.day == DaysIn(start.year, start.month))
  }

  method WindowStart(now: Date) returns (start: Date)
    requires IsDate(now)
    ensures IsWindowStart(start, now)
  {
    var y, m := now.year, now.month - RATING_WINDOW_MONTHS;
    while m <= 0
      invariant 12 * y + m == 12 * now.year + now.month - RATING_WINDOW_MONTHS
      invariant m <= 12
    {
      y := y - 1;
      m := m + 12;
    }
    var maxDay := DaysIn(y, m);
    start := Date(y, m, if now.day < maxDay then now.day else maxDay);
  }

  predicate NotAfter(a: Date, b: Date) {
    MonthIndex(a) < MonthIndex(b) || (MonthIndex(a) == MonthIndex(b) && a.day <= b.day)
  }

  /** The window never reopens: a later day has a start no earlier. */
  lemma WindowMovesForward(now: Date, later: Date, start: Date, laterStart: Date)
    requires IsDate(now) && IsDate(later) && NotAfter(now, later)
    requires IsWindowStart(start, now) && IsWindowStart(laterStart, later)
    ensures NotAfter(start, laterStart)
  {
    if MonthIndex(now) == MonthIndex(later) {
      assert start.year == laterStart.year && start.month == laterStart.month;
    }
  }

  /** The Gregorian day number: the years begin in March, so that a leap day ends one, and months
      run in fives of 153 days. */
  function DayNumber(d: Date): int {
    var y, m := if d.month > 2 then d.year else d.year - 1, if d.month > 2 then d.month - 3 else d.month + 9;
    365 * y + y / 4 - y / 100 + y / 400 + (153 * m + 2) / 5 + d.day
  }

  /** The months are as long as the calendar has them: the day after the last of one is the first
      of the next. */
  lemma MonthsFollowEachOther(year: int, month: int)
    requires 1 <= month <= 12
    ensures var next := if month < 12 then Date(year, month + 1, 1) else Date(year + 1, 1, 1);
            DayNumber(next) == DayNumber(Date(year, month, DaysIn(year, month))) + 1
  {
    if month == 2 {
      LeapDay(year - 1);
    }
  }

  lemma LeapDay(y: int)
    ensures (y + 1) / 4 - y / 4 == if (y + 1) % 4 == 0 then 1 else 0
    ensures (y + 1) / 100 - y / 100 == if (y + 1) % 100 == 0 then 1 else 0
    ensures (y + 1) / 400 - y / 400 == if (y + 1) % 400 == 0 then 1 else 0
    ensures (y + 1) % 400 == 0 ==> (y + 1) % 100 == 0
    ensures (y + 1) % 100 == 0 ==> (y + 1) % 4 == 0
  {
  }
}
