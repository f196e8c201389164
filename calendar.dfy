/** Calendar dates as day numbers.

    A date is an integer counting days from 0000-01-01 of the proleptic
    Gregorian calendar (negative before it). Adding days is then integer
    addition, which rolls over months and years and knows nothing of time
    zones or daylight-saving time. */
module Calendar {

  /** `addDays(date, days)`: the date `days` calendar days after `date`. */
  function AddDays(date: int, days: int): int
  {
    date + days
  }

  predicate IsLeapYear(year: int) {
    year % 4 == 0 && (year % 100 != 0 || year % 400 == 0)
  }

  function DaysInYear(year: int): int {
    if IsLeapYear(year) then 366 else 365
  }

  function DaysInMonth(year: int, month: int): (r: int)
    requires 1 <= month <= 12
    ensures 28 <= r <= 31
    ensures r == 29 <==> month == 2 && IsLeapYear(year)
  {
    if month == 2 then (if IsLeapYear(year) then 29 else 28)
    else if month == 4 || month == 6 || month == 9 || month == 11 then 30
    else 31
  }

  /** Days of the given year that precede the first of `month`. */
  function DaysBeforeMonth(year: int, month: int): int
    requires 1 <= month <= 12
  {
    var leapDay := if month > 2 && IsLeapYear(year) then 1 else 0;
    [0, 31, 59, 90, 120, 151, 181, 212, 243, 273, 304, 334][month - 1] + leapDay
  }

  /** The day number of January 1st of `year`: 365 days per year plus one
      for each leap year from year 0 up to (not including) `year`. */
  function DaysBeforeYear(year: int): int {
    365 * year + (year + 3) / 4 - (year + 99) / 100 + (year + 399) / 400
  }

  /** The day number of year-month-day, for a day within the month. */
  function DayNumber(year: int, month: int, day: int): int
    requires 1 <= month <= 12
  {
    DaysBeforeYear(year) + DaysBeforeMonth(year, month) + day - 1
  }

  /** A month number outside 1..12 moves into a neighbouring year, as the
      JavaScript Date constructor does: these two give the year and month
      that `new Date(year, month - 1, ...)` ends up in. */
  function NormalYear(year: int, month: int): int {
    (year * 12 + month - 1) / 12
  }

  function NormalMonth(year: int, month: int): (r: int)
    ensures 1 <= r <= 12
  {
    (year * 12 + month - 1) % 12 + 1
  }

  /** The year the Date constructor works in: a year from 0 to 99 is read
      as 1900 + year, before the month is normalised. */
  function ConstructorYear(year: int): int {
    if 0 <= year <= 99 then 1900 + year else year
  }

  /** `new Date(year, month - 1, 1)`: the first day of the month. */
  function MonthStart(year: int, month: int): int {
    var y := ConstructorYear(year);
    DayNumber(NormalYear(y, month), NormalMonth(y, month), 1)
  }

  /** `new Date(year, month, 0)`: day zero of the following month, which is
      the last day of this one. */
  function MonthEnd(year: int, month: int): int {
    AddDays(MonthStart(year, month + 1), -1)
  }

  /** Each of the three leap-year terms of `DaysBeforeYear` grows by one
      from `year` to `year + 1` exactly when `year` is a multiple of its
      divisor. */
  lemma StepFloor4(year: int)
    ensures (year + 4) / 4 - (year + 3) / 4 == if year % 4 == 0 then 1 else 0
  {
    var q, r := year / 4, year % 4;
    assert year == 4 * q + r && 0 <= r < 4;
    assert (year + 4) / 4 == q + 1;
    assert (year + 3) / 4 == q + (if r == 0 then 0 else 1);
  }

  lemma StepFloor100(year: int)
    ensures (year + 100) / 100 - (year + 99) / 100 == if year % 100 == 0 then 1 else 0
  {
    var q, r := year / 100, year % 100;
    assert year == 100 * q + r && 0 <= r < 100;
    assert (year + 100) / 100 == q + 1;
    assert (year + 99) / 100 == q + (if r == 0 then 0 else 1);
  }

  lemma StepFloor400(year: int)
    ensures (year + 400) / 400 - (year + 399) / 400 == if year % 400 == 0 then 1 else 0
  {
    var q, r := year / 400, year % 400;
    assert year == 400 * q + r && 0 <= r < 400;
    assert (year + 400) / 400 == q + 1;
    assert (year + 399) / 400 == q + (if r == 0 then 0 else 1);
  }

  /** A year is as long as the calendar says it is. */
  lemma YearLength(year: int)
    ensures DaysBeforeYear(year + 1) - DaysBeforeYear(year) == DaysInYear(year)
  {
    StepFloor4(year);
    StepFloor100(year);
    StepFloor400(year);
  }

  /** The month after (year, month) in normalised form. */
  lemma NextMonth(year: int, month: int)
    ensures NormalMonth(year, month) < 12 ==>
              NormalYear(year, month + 1) == NormalYear(year, month) &&
              NormalMonth(year, month + 1) == NormalMonth(year, month) + 1
    ensures NormalMonth(year, month) == 12 ==>
              NormalYear(year, month + 1) == NormalYear(year, month) + 1 &&
              NormalMonth(year, month + 1) == 1
  {
  }

  /** The month `[MonthStart, MonthEnd]` holds exactly the days of the
      (normalised) month: at least 28 of them, and the day after its end is
      the first of the next month. */
  lemma MonthSpan(year: int, month: int)
    ensures var y := ConstructorYear(year);
      MonthEnd(year, month) - MonthStart(year, month) + 1 == DaysInMonth(NormalYear(y, month), NormalMonth(y, month))
    ensures MonthStart(year, month) + 27 <= MonthEnd(year, month)
    ensures AddDays(MonthEnd(year, month), 1) == MonthStart(year, month + 1)
  {
    var y := ConstructorYear(year);
    NextMonth(y, month);
    if NormalMonth(y, month) == 12 {
      YearLength(NormalYear(y, month));
    }
  }

  /** For a month number from 1 to 12, `new Date(year, month - 1, 1)` is the
      first and `new Date(year, month, 0)` the last day of that month of the
      constructor's year. */
  lemma MonthBounds(year: int, month: int)
    requires 1 <= month <= 12
    ensures var y := ConstructorYear(year);
      && MonthStart(year, month) == DayNumber(y, month, 1)
      && MonthEnd(year, month) == DayNumber(y, month, DaysInMonth(y, month))
  {
    var y := ConstructorYear(year);
    assert NormalYear(y, month) == y && NormalMonth(y, month) == month;
    MonthSpan(year, month);
  }

  /** A two-digit year names a year of the 1900s: month 4 of year 24 is
      April 1924. */
  lemma TwoDigitYear()
    ensures MonthStart(24, 4) == DayNumber(1924, 4, 1)
    ensures MonthEnd(24, 4) == DayNumber(1924, 4, 30)
  {
    MonthBounds(24, 4);
  }

  /** `setDate(getDate() + 1)`: the next day of the month, the first of the
      next month after a month's last day, and January 1st after
      December 31st. */
  lemma AddDaysNextDay(year: int, month: int, day: int)
    requires 1 <= month <= 12 && 1 <= day <= DaysInMonth(year, month)
    ensures AddDays(DayNumber(year, month, day), 1) ==
              if day < DaysInMonth(year, month) then DayNumber(year, month, day + 1)
              else if month < 12 then DayNumber(year, month + 1, 1)
              else DayNumber(year + 1, 1, 1)
  {
    if day == DaysInMonth(year, month) && month == 12 {
      YearLength(year);
    }
  }
}
