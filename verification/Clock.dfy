/**
 * Instants are nanoseconds on the UTC+8 wall clock, counted from local midnight of 1970-01-01.
 * The offset never changes, so adding a calendar day is adding twenty-four hours.
 */
module Clock {
  const SECOND: int := 1_000_000_000
  const MINUTE: int := 60_000_000_000
  const FIVE_MINUTES: int := 300_000_000_000
  const HOUR: int := 3_600_000_000_000
  const DAY: int := 86_400_000_000_000

  /** Go's zero time, 0001-01-01T00:00:00Z, on this scale. */
  const ZERO_TIME: int := -62_135_568_000_000_000_000

  function Truncate(t: int, unit: int): int
    requires unit > 0
  {
    t - t % unit
  }

  function Midnight(t: int): int { t - t % DAY }

  function DayNumber(t: int): int { t / DAY }

  predicate IsMidnight(t: int) { t % DAY == 0 }

  // ---- Gregorian months, numbered from January 1970 ----

  predicate IsLeap(year: int) { year % 4 == 0 && (year % 100 != 0 || year % 400 == 0) }

  function MonthLength(month: int): (days: int)
    ensures 28 <= days <= 31
  {
    var year, m := 1970 + month / 12, month % 12;
    if m == 1 then (if IsLeap(year) then 29 else 28)
    else if m == 3 || m == 5 || m == 8 || m == 10 then 30
    else 31
  }

  /** Day number of the first day of a month. */
  function MonthStartDay(month: int): int
    decreases if month < 0 then -month else month
  {
    if month == 0 then 0
    else if month > 0 then MonthStartDay(month - 1) + MonthLength(month - 1)
    else MonthStartDay(month + 1) - MonthLength(month)
  }

  lemma MonthStep(month: int)
    ensures MonthStartDay(month + 1) == MonthStartDay(month) + MonthLength(month)
  {
  }

  lemma StartsIncrease(month: int)
    ensures MonthStartDay(month - 1) < MonthStartDay(month) < MonthStartDay(month + 1) < MonthStartDay(month + 2)
  {
    MonthStep(month - 1);
    MonthStep(month);
    MonthStep(month + 1);
  }

  lemma {:induction false} MonthStartMonotone(a: int, b: int)
    requires a < b
    ensures MonthStartDay(a) + 28 * (b - a) <= MonthStartDay(b)
    decreases b - a
  {
    MonthStep(b - 1);
    if a < b - 1 {
      MonthStartMonotone(a, b - 1);
    }
  }

  /** The month a day belongs to, searched from a starting month. */
  function MonthFrom(day: int, month: int): (m: int)
    ensures MonthStartDay(m) <= day < MonthStartDay(m + 1)
    decreases if day < MonthStartDay(month) then MonthStartDay(month) - day else 0,
              if day >= MonthStartDay(month + 1) then day - MonthStartDay(month + 1) + 1 else 0
  {
    StartsIncrease(month);
    if day < MonthStartDay(month) then MonthFrom(day, month - 1)
    else if day >= MonthStartDay(month + 1) then MonthFrom(day, month + 1)
    else month
  }

  function MonthOf(day: int): (m: int)
    ensures MonthStartDay(m) <= day < MonthStartDay(m + 1)
  {
    MonthFrom(day, 0)
  }

  lemma MonthOfUnique(day: int, month: int)
    requires MonthStartDay(month) <= day < MonthStartDay(month + 1)
    ensures MonthOf(day) == month
  {
    var m := MonthOf(day);
    if m < month {
      if m + 1 < month { MonthStartMonotone(m + 1, month); }
    } else if m > month {
      if month + 1 < m { MonthStartMonotone(month + 1, m); }
    }
  }

  /** Later days never lie in earlier months. */
  lemma MonthOfMonotone(a: int, b: int)
    requires a <= b
    ensures MonthOf(a) <= MonthOf(b)
  {
    var m, n := MonthOf(a), MonthOf(b);
    if n < m {
      if n + 1 < m { MonthStartMonotone(n + 1, m); }
    }
  }

  /** One-based day of the month. */
  function DayOfMonth(day: int): (d: int)
    ensures 1 <= d <= 31
  {
    MonthStep(MonthOf(day));
    day - MonthStartDay(MonthOf(day)) + 1
  }

  /** Midnight of the first day of the month containing t. */
  function MonthStart(t: int): int { MonthStartDay(MonthOf(DayNumber(t))) * DAY }

  lemma MonthStartProperties(t: int)
    requires IsMidnight(t)
    ensures IsMidnight(MonthStart(t)) && MonthStart(t) <= t <= MonthStart(t) + 30 * DAY
    ensures MonthStart(t) == t - (DayOfMonth(DayNumber(t)) - 1) * DAY
  {
    MonthStep(MonthOf(DayNumber(t)));
    assert t == DayNumber(t) * DAY;
  }

  // ---- The calendar against its closed form ----

  /** Leap days from the year 1 to the end of the year before: every fourth year, but of the centuries only every fourth. */
  function LeapDaysBefore(year: int): int { (year - 1) / 4 - (year - 1) / 100 + (year - 1) / 400 }

  const LENGTHS: seq<int> := [31, 28, 31, 30, 31, 30, 31, 31, 30, 31, 30, 31]

  /** The twelve months of a year, February one day longer in a leap year. */
  lemma MonthTable(year: int, j: nat)
    requires j < 12
    ensures MonthLength(12 * (year - 1970) + j) == LENGTHS[j] + if j == 1 && IsLeap(year) then 1 else 0
  {
    assert (12 * (year - 1970) + j) / 12 == year - 1970 && (12 * (year - 1970) + j) % 12 == j;
  }

  lemma YearLength(year: int)
    ensures var first := 12 * (year - 1970); MonthStartDay(first + 12) == MonthStartDay(first) + 365 + if IsLeap(year) then 1 else 0
  {
    var first := 12 * (year - 1970);
    hide MonthLength;
    for j := 0 to 12
      invariant MonthStartDay(first + j) == MonthStartDay(first) + DaysOfMonths(year, j)
    {
      MonthTable(year, j);
      MonthStep(first + j);
    }
    assert DaysOfMonths(year, 12) == 365 + if IsLeap(year) then 1 else 0 by { TwelveMonths(year); }
  }

  /** The days of the first j months of a year. */
  function DaysOfMonths(year: int, j: nat): int
    requires j <= 12
  {
    if j == 0 then 0 else DaysOfMonths(year, j - 1) + LENGTHS[j - 1] + if j == 2 && IsLeap(year) then 1 else 0
  }

  lemma TwelveMonths(year: int)
    ensures DaysOfMonths(year, 12) == 365 + if IsLeap(year) then 1 else 0
  {
    hide IsLeap;
    var leap := if IsLeap(year) then 1 else 0;
    assert DaysOfMonths(year, 1) == 31;
    assert DaysOfMonths(year, 2) == 59 + leap;
    assert DaysOfMonths(year, 3) == 90 + leap;
    assert DaysOfMonths(year, 4) == 120 + leap;
    assert DaysOfMonths(year, 5) == 151 + leap;
    assert DaysOfMonths(year, 6) == 181 + leap;
    assert DaysOfMonths(year, 7) == 212 + leap;
    assert DaysOfMonths(year, 8) == 243 + leap;
    assert DaysOfMonths(year, 9) == 273 + leap;
    assert DaysOfMonths(year, 10) == 304 + leap;
    assert DaysOfMonths(year, 11) == 334 + leap;
  }

  lemma LeapDayStep(year: int)
    ensures LeapDaysBefore(year + 1) == LeapDaysBefore(year) + if IsLeap(year) then 1 else 0
  {
    FourthYear(year);
    HundredthYear(year);
    FourHundredthYear(year);
  }

  lemma FourthYear(year: int)
    ensures year / 4 == (year - 1) / 4 + if year % 4 == 0 then 1 else 0
  {
  }

  lemma HundredthYear(year: int)
    ensures year / 100 == (year - 1) / 100 + if year % 100 == 0 then 1 else 0
    ensures year % 100 == 0 ==> year % 4 == 0
  {
  }

  lemma FourHundredthYear(year: int)
    ensures year / 400 == (year - 1) / 400 + if year % 400 == 0 then 1 else 0
    ensures year % 400 == 0 ==> year % 100 == 0
  {
  }

  /** Main law of the calendar: a year starts 365 days a year and its leap days after the first of January 1970. */
  lemma {:induction false} CalendarIsGregorian(year: int)
    ensures MonthStartDay(12 * (year - 1970)) == 365 * (year - 1970) + LeapDaysBefore(year) - 477
    decreases if year < 1970 then 1970 - year else year - 1970
  {
    hide LeapDaysBefore, MonthStartDay;
    if year == 1970 {
      Epoch();
    } else if year > 1970 {
      CalendarIsGregorian(year - 1);
      YearLength(year - 1);
      LeapDayStep(year - 1);
    } else {
      CalendarIsGregorian(year + 1);
      YearLength(year);
      LeapDayStep(year);
    }
  }

  /** Go's zero time is midnight UTC of the first day of the year 1, eight hours later on this clock. */
  lemma ZeroTimeIsYearOne()
    ensures ZERO_TIME == MonthStartDay(12 * (1 - 1970)) * DAY + 8 * HOUR
  {
    CalendarIsGregorian(1);
  }

  lemma Epoch()
    ensures LeapDaysBefore(1970) == 477 && MonthStartDay(0) == 0
  {
  }
}
