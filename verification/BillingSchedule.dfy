/** Finance periods by the UTC+8 calendar (internal/qiniu/billing/schedule.go). */
module BillingSchedule {
  import opened Core
  import opened Clock

  datatype Period = Period(start: int, end: int)

  /** Months are counted from January 1970. */
  function MonthPeriod(month: int): Period { Period(MonthStartDay(month) * DAY, MonthStartDay(month + 1) * DAY) }

  function CurrentMonth(now: int): int { MonthOf(DayNumber(now)) }

  /** The latest month expected to be final: not the preceding one before the fifth. */
  function FinalizedMonth(now: int): int {
    if DayOfMonth(DayNumber(now)) <= 4 then CurrentMonth(now) - 2 else CurrentMonth(now) - 1
  }

  const READY: int := 8 * HOUR + 15 * MINUTE

  datatype Selection = Selection(snapshotDay: Option<int>, finalized: Period)

  function SelectPeriods(now: int): Selection {
    var today := DayNumber(now);
    Selection(
      if now >= today * DAY + READY then Some(today) else if DayOfMonth(today) > 1 then Some(today - 1) else None,
      MonthPeriod(FinalizedMonth(now)))
  }

  /** The snapshot day is today or yesterday, never in another month, and its data had until 08:15 of that day or the next. */
  lemma SnapshotDayIsCurrent(now: int)
    requires SelectPeriods(now).snapshotDay.Some?
    ensures var day := SelectPeriods(now).snapshotDay.value;
      MonthOf(day) == CurrentMonth(now) && day * DAY + READY <= now && DayNumber(now) - 1 <= day <= DayNumber(now)
  {
    var day := SelectPeriods(now).snapshotDay.value;
    MonthStep(CurrentMonth(now));
    MonthOfUnique(day, CurrentMonth(now));
  }

  /** A finalized month ended at least four full days ago, and is the newest such month the calendar rule allows. */
  lemma FinalizedHasSettled(now: int)
    ensures SelectPeriods(now).finalized.end + 4 * DAY <= now
    ensures DayOfMonth(DayNumber(now)) > 4 ==> SelectPeriods(now).finalized.end == MonthStartDay(CurrentMonth(now)) * DAY
  {
    var today, month := DayNumber(now), CurrentMonth(now);
    MonthStep(month);
    MonthStep(month - 1);
    assert today * DAY <= now;
  }

  /** From 08:15 on today is selected; before, yesterday, or nothing on the first of the month. */
  lemma SnapshotDayIs(now: int)
    ensures var selected, today, timeOfDay := SelectPeriods(now).snapshotDay, DayNumber(now), now % 86_400_000_000_000;
      && (selected == Some(today) <==> timeOfDay >= 29_700_000_000_000)
      && (selected == Some(today - 1) <==> timeOfDay < 29_700_000_000_000 && now / 86_400_000_000_000 > MonthStartDay(CurrentMonth(now)))
      && (selected == None <==> timeOfDay < 29_700_000_000_000 && now / 86_400_000_000_000 == MonthStartDay(CurrentMonth(now)))
  {
    assert now == DayNumber(now) * DAY + now % DAY;
  }

  /** A month is among the finalized ones exactly when at least four full days have passed since its end. */
  lemma FinalizedExactly(now: int, month: int)
    ensures month <= FinalizedMonth(now) <==> MonthStartDay(month + 1) + 4 <= DayNumber(now)
    ensures SelectPeriods(now).finalized == MonthPeriod(FinalizedMonth(now))
  {
    var current, today := CurrentMonth(now), DayNumber(now);
    MonthStep(current - 1);
    MonthStep(current);
    if month + 1 < current { MonthStartMonotone(month + 1, current); }
    if month + 1 > current { StartsAtLeast(current + 1, month + 2); }
    if month + 1 == current + 1 {
    } else if month + 1 > current + 1 {
      MonthStartMonotone(current + 1, month + 1);
    }
  }

  lemma StartsAtLeast(a: int, b: int)
    requires a <= b
    ensures MonthStartDay(a) <= MonthStartDay(b)
  {
    if a < b { MonthStartMonotone(a, b); }
  }

  /** Time never un-finalizes a month. */
  lemma FinalizedMonotone(a: int, b: int)
    requires a <= b
    ensures FinalizedMonth(a) <= FinalizedMonth(b)
  {
    assert DayNumber(a) <= DayNumber(b);
    MonthOfMonotone(DayNumber(a), DayNumber(b));
    hide MonthOf;
  }

  /** The source's loop from eleven months before the latest. */
  method Last12FinalizedPeriods(now: int) returns (periods: seq<Period>)
    ensures periods == seq(12, i => MonthPeriod(FinalizedMonth(now) - 11 + i))
  {
    var latest := FinalizedMonth(now);
    periods := [];
    var month := latest - 11;
    while MonthPeriod(month).start <= MonthPeriod(latest).start
      invariant latest - 11 <= month <= latest + 1
      invariant periods == seq(month - (latest - 11), i => MonthPeriod(latest - 11 + i))
      decreases latest + 1 - month
    {
      if month > latest {
        MonthStartMonotone(latest, month);
        assert false;
      }
      periods := periods + [MonthPeriod(month)];
      month := month + 1;
    }
    if month <= latest {
      StartsInOrder(month, latest);
      assert false;
    }
  }

  lemma StartsInOrder(a: int, b: int)
    requires a <= b
    ensures MonthPeriod(a).start <= MonthPeriod(b).start
  {
    if a < b {
      MonthStartMonotone(a, b);
    }
  }

  /** Go's AddDate(0, 1, 0) on the first of a month. */
  function NextMonthStart(start: int): int { MonthStartDay(MonthOf(DayNumber(start)) + 1) * DAY }

  predicate IsFirstMidnight(t: int) { t == Midnight(t) && DayOfMonth(DayNumber(t)) == 1 }

  predicate ValidMonthlyPeriod(p: Period) {
    IsFirstMidnight(p.start) && IsFirstMidnight(p.end) && p.end == NextMonthStart(p.start)
  }

  lemma FirstOfMonth(month: int)
    ensures MonthOf(MonthStartDay(month)) == month && IsFirstMidnight(MonthStartDay(month) * DAY)
  {
    MonthStep(month);
    MonthOfUnique(MonthStartDay(month), month);
    assert DayNumber(MonthStartDay(month) * DAY) == MonthStartDay(month);
  }

  /** The validator accepts exactly the calendar months. */
  lemma ValidMeansMonth(p: Period)
    ensures ValidMonthlyPeriod(p) <==> p == MonthPeriod(MonthOf(DayNumber(p.start)))
  {
    var month := MonthOf(DayNumber(p.start));
    FirstOfMonth(month);
    FirstOfMonth(month + 1);
    assert p.start == Midnight(p.start) ==> p.start == DayNumber(p.start) * DAY;
  }

  /** The twelve periods are valid, consecutive, and end with the latest finalized month. */
  lemma TwelveConsecutiveMonths(now: int, i: int)
    requires 0 <= i < 12
    ensures var month := FinalizedMonth(now) - 11 + i;
      ValidMonthlyPeriod(MonthPeriod(month)) && (i < 11 ==> MonthPeriod(month).end == MonthPeriod(month + 1).start)
      && (i == 11 ==> MonthPeriod(month) == SelectPeriods(now).finalized)
  {
    var month := FinalizedMonth(now) - 11 + i;
    FirstOfMonth(month);
    assert DayNumber(MonthPeriod(month).start) == MonthStartDay(month);
    ValidMeansMonth(MonthPeriod(month));
  }
}
