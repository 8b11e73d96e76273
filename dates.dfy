/** Calendar dates as Python's `datetime.date` represents them: a proleptic
    Gregorian (year, month, day) triple, numbered by ordinal (0001-01-01 is
    day 1) and given a weekday 0 = Monday .. 6 = Sunday. */
module Dates {

  datatype CalendarDate = CalendarDate(year: int, month: int, day: int)

  predicate IsLeapYear(y: int) {
    y % 4 == 0 && (y % 100 != 0 || y % 400 == 0)
  }

  function DaysInYear(y: int): int {
    if IsLeapYear(y) then 366 else 365
  }

  function DaysInMonth(y: int, m: int): int {
    if m == 2 then (if IsLeapYear(y) then 29 else 28)
    else if m == 4 || m == 6 || m == 9 || m == 11 then 30
    else 31
  }

  /** The range Python's `date` constructor accepts (MINYEAR = 1, MAXYEAR = 9999). */
  predicate Valid(d: CalendarDate) {
    1 <= d.year <= 9999 && 1 <= d.month <= 12 && 1 <= d.day <= DaysInMonth(d.year, d.month)
  }

  /** Days in the years before `y`. */
  function DaysBeforeYear(y: int): int {
    var y1 := y - 1;
    y1 * 365 + y1 / 4 - y1 / 100 + y1 / 400
  }

  /** Days in the months of year `y` before month `m`. */
  function DaysBeforeMonth(y: int, m: int): int {
    var common :=
      if m <= 1 then 0 else if m == 2 then 31 else if m == 3 then 59
      else if m == 4 then 90 else if m == 5 then 120 else if m == 6 then 151
      else if m == 7 then 181 else if m == 8 then 212 else if m == 9 then 243
      else if m == 10 then 273 else if m == 11 then 304 else 334;
    common + (if m > 2 && IsLeapYear(y) then 1 else 0)
  }

  /** `date.toordinal()`. */
  function Ordinal(d: CalendarDate): (n: int)
    ensures d == CalendarDate(1, 1, 1) ==> n == 1
  {
    DaysBeforeYear(d.year) + DaysBeforeMonth(d.year, d.month) + d.day
  }

  /** `date.weekday()`: 0 = Monday, 6 = Sunday; 0001-01-01 (ordinal 1) is a Monday. */
  function Weekday(d: CalendarDate): (w: int)
    ensures 0 <= w <= 6
  {
    (Ordinal(d) + 6) % 7
  }

  /** Calendar order: earlier year, then earlier month, then earlier day. */
  predicate Before(a: CalendarDate, b: CalendarDate) {
    a.year < b.year
    || (a.year == b.year && a.month < b.month)
    || (a.year == b.year && a.month == b.month && a.day < b.day)
  }

  lemma DivStep4(y: int)
    ensures y / 4 - (y - 1) / 4 == (if y % 4 == 0 then 1 else 0)
  {
  }

  lemma DivStep100(y: int)
    ensures y / 100 - (y - 1) / 100 == (if y % 100 == 0 then 1 else 0)
  {
  }

  lemma DivStep400(y: int)
    ensures y / 400 - (y - 1) / 400 == (if y % 400 == 0 then 1 else 0)
  {
  }

  /** A multiple of 400 is a multiple of 100. */
  lemma Multiple400(y: int)
    requires y % 400 == 0
    ensures y % 100 == 0
  {
    var k := 4 * (y / 400);
    assert y == 100 * k;
  }

  /** A multiple of 100 is a multiple of 4. */
  lemma Multiple100(y: int)
    requires y % 100 == 0
    ensures y % 4 == 0
  {
    var k := 25 * (y / 100);
    assert y == 4 * k;
  }

  /** The leap-day count of year `y` is the change in the three quotients. */
  lemma LeapDays(y: int)
    ensures (y / 4 - (y - 1) / 4) - (y / 100 - (y - 1) / 100) + (y / 400 - (y - 1) / 400)
         == (if IsLeapYear(y) then 1 else 0)
  {
    DivStep4(y);
    DivStep100(y);
    DivStep400(y);
    if y % 400 == 0 {
      Multiple400(y);
    }
    if y % 100 == 0 {
      Multiple100(y);
    }
  }

  /** A year's ordinals end where the next year's begin. */
  lemma {:induction false} NextYear(y: int)
    ensures DaysBeforeYear(y + 1) == DaysBeforeYear(y) + DaysInYear(y)
  {
    LeapDays(y);
    assert DaysBeforeYear(y + 1) - DaysBeforeYear(y)
        == 365 + (y / 4 - (y - 1) / 4) - (y / 100 - (y - 1) / 100) + (y / 400 - (y - 1) / 400);
  }

  lemma {:induction false} DaysBeforeYearGrows(y1: int, y2: int)
    requires 1 <= y1 < y2
    ensures DaysBeforeYear(y1) + DaysInYear(y1) <= DaysBeforeYear(y2)
    decreases y2 - y1
  {
    NextYear(y1);
    if y1 + 1 < y2 {
      DaysBeforeYearGrows(y1 + 1, y2);
    }
  }

  /** A month's days end where the next month's begin. */
  lemma {:induction false} MonthsFit(y: int, m1: int, m2: int)
    requires 1 <= m1 < m2 <= 12
    ensures DaysBeforeMonth(y, m1) + DaysInMonth(y, m1) <= DaysBeforeMonth(y, m2)
  {
  }

  lemma {:induction false} OrdinalWithinYear(d: CalendarDate)
    requires Valid(d)
    ensures DaysBeforeYear(d.year) < Ordinal(d) <= DaysBeforeYear(d.year) + DaysInYear(d.year)
  {
    if d.month < 12 {
      MonthsFit(d.year, d.month, 12);
    }
  }

  /** Ordinals follow calendar order, so comparing ordinals compares dates. */
  lemma {:induction false} OrdinalStrictlyMonotone(a: CalendarDate, b: CalendarDate)
    requires Valid(a) && Valid(b)
    requires Before(a, b)
    ensures Ordinal(a) < Ordinal(b)
  {
    if a.year < b.year {
      OrdinalWithinYear(a);
      OrdinalWithinYear(b);
      DaysBeforeYearGrows(a.year, b.year);
    } else if a.month < b.month {
      MonthsFit(a.year, a.month, b.month);
    }
  }

  /** Two valid dates compare as their ordinals do, and share an ordinal only when equal. */
  lemma {:induction false} OrdinalOrderIsCalendarOrder(a: CalendarDate, b: CalendarDate)
    requires Valid(a) && Valid(b)
    ensures Ordinal(a) < Ordinal(b) <==> Before(a, b)
    ensures Ordinal(a) == Ordinal(b) <==> a == b
  {
    if Before(a, b) {
      OrdinalStrictlyMonotone(a, b);
    } else if Before(b, a) {
      OrdinalStrictlyMonotone(b, a);
    }
  }

  /** The calendar day after `d`: the next day of the month, else the first
      of the next month, else New Year's Day. */
  function NextDay(d: CalendarDate): CalendarDate {
    if d.day < DaysInMonth(d.year, d.month) then CalendarDate(d.year, d.month, d.day + 1)
    else if d.month < 12 then CalendarDate(d.year, d.month + 1, 1)
    else CalendarDate(d.year + 1, 1, 1)
  }

  /** Ordinals count days: the next calendar day has the next ordinal. With
      0001-01-01 as day 1 this fixes `Ordinal` as `toordinal()`. */
  lemma {:induction false} OrdinalCountsDays(d: CalendarDate)
    requires Valid(d)
    ensures Ordinal(NextDay(d)) == Ordinal(d) + 1
  {
    if d.day == DaysInMonth(d.year, d.month) && d.month == 12 {
      NextYear(d.year);
    }
  }

  /** The weekday advances by one, cyclically, from each day to the next; with
      one known weekday (13 February 2026 is a Friday, see `Scenarios`) this
      fixes `Weekday` as `weekday()`. */
  lemma {:induction false} WeekdayOfNextDay(d: CalendarDate)
    requires Valid(d)
    ensures Weekday(NextDay(d)) == (Weekday(d) + 1) % 7
  {
    var n := Ordinal(d);
    OrdinalCountsDays(d);
    assert Weekday(NextDay(d)) == (n + 6 + 1) % 7;
    assert Weekday(d) == (n + 6) % 7;
    ModSeven(n + 6);
  }

  lemma ModSeven(n: int)
    ensures (n + 1) % 7 == (n % 7 + 1) % 7
  {
    var q, r := n / 7, n % 7;
    assert n == 7 * q + r && 0 <= r < 7;
    if r < 6 {
      assert n + 1 == 7 * q + (r + 1);
    } else {
      assert n + 1 == 7 * (q + 1);
    }
  }
}
