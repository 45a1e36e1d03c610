/**
 * The periods a budget recurs over: where the next period starts, where a
 * period ends, and the start of the k-th period from a first start.
 * Contracts here speak of calendar order (`Before`); the day counts are
 * in separate lemmas, so that reasoning about sequences of periods never
 * has to unfold the day count.
 */
module BudgetPeriods {
  import opened Dates
  import opened Budgets

  /** A day number clamped to a month's length. */
  function Clamp(day: int, y: int, m: int): int
    requires 1 <= m <= 12
  {
    if day <= DaysInMonth(y, m) then day else DaysInMonth(y, m)
  }

  /**
   * `get_next_period_start`: a week later, a month later or a year later,
   * the day clamped to the length of the target month; any other period
   * leaves the date as it is.
   */
  function NextPeriodStart(d: CalDate, p: Period): (r: CalDate)
    ensures p == Monthly ==> r.year * 12 + r.month == d.year * 12 + d.month + 1 && r.day == Clamp(d.day, r.year, r.month)
    ensures p == Yearly ==> r.year == d.year + 1 && r.month == d.month && r.day == Clamp(d.day, r.year, r.month)
    ensures p == Custom ==> r == d
    ensures p != Custom ==> Before(d, r)
  {
    match p
    case Weekly => WeekLater(d)
    case Monthly => MonthLater(d)
    case Yearly => YearLater(d)
    case Custom => d
  }

  /** A weekly period starts seven days after the previous one. */
  lemma WeeklyStartsSevenDaysApart(d: CalDate)
    ensures ToDays(NextPeriodStart(d, Weekly)) == ToDays(d) + 7
  {
    WeekLaterCount(d);
  }

  /**
   * `get_period_end`: six days after a weekly start, the day before the next
   * monthly start, 31 December of a yearly start's year, and the start
   * itself otherwise. The end is never before the start, and a recurring
   * period ends before the next one starts.
   */
  function PeriodEnd(start: CalDate, p: Period): (e: CalDate)
    ensures p == Yearly ==> e == Date(start.year, 12, 31)
    ensures p == Custom ==> e == start
    ensures !Before(e, start)
    ensures p != Custom ==> Before(e, NextPeriodStart(start, p))
  {
    match p
    case Weekly =>
      var e := PrevDay(WeekLater(start));
      WeekLaterCount(start);
      PrevDayCount(WeekLater(start));
      BeforeIffFewerDays(e, start);
      e
    case Monthly => PrevDay(MonthLater(start))
    case Yearly => Date(start.year, 12, 31)
    case Custom => start
  }

  /**
   * Weekly and monthly periods tile the calendar: each ends the day before
   * the next starts, and a weekly one covers seven days.
   */
  lemma PeriodEndMeetsNextStart(start: CalDate, p: Period)
    requires p == Weekly || p == Monthly
    ensures ToDays(PeriodEnd(start, p)) + 1 == ToDays(NextPeriodStart(start, p))
    ensures p == Weekly ==> ToDays(PeriodEnd(start, p)) == ToDays(start) + 6
  {
    var next := NextPeriodStart(start, p);
    PrevDayCount(next);
    if p == Weekly {
      WeekLaterCount(start);
    }
  }

  /**
   * A yearly period ends on 31 December whatever its start, so consecutive
   * yearly periods meet only when they start on 1 January; from any other
   * start they leave a gap.
   */
  lemma YearlyTilesOnlyFromJanuaryFirst(s: CalDate)
    ensures ToDays(NextPeriodStart(s, Yearly)) == ToDays(PeriodEnd(s, Yearly)) + 1 <==> s.month == 1 && s.day == 1
  {
    var next := NextPeriodStart(s, Yearly);
    var jan1 := Jan1(s.year + 1);
    DaysBeforeYearStep(s.year);
    assert ToDays(PeriodEnd(s, Yearly)) + 1 == ToDays(jan1);
    if s.month == 1 && s.day == 1 {
      assert next == jan1;
    } else if ToDays(next) == ToDays(jan1) {
      ToDaysInjective(next, jan1);
      assert false;
    }
  }

  /** The start of the k-th period counting from `first`. */
  function StartAt(first: CalDate, p: Period, k: nat): CalDate {
    if k == 0 then first else NextPeriodStart(StartAt(first, p, k - 1), p)
  }

  /** Period starts strictly increase, so no two generated periods share a start. */
  lemma StartsIncrease(first: CalDate, p: Period, i: nat, j: nat)
    requires p != Custom && i < j
    ensures Before(StartAt(first, p, i), StartAt(first, p, j))
  {
    var start := (k: nat) => StartAt(first, p, k);
    forall k: nat ensures Before(start(k), start(k + 1)) {
      assert start(k + 1) == NextPeriodStart(start(k), p);
    }
    RisingChain(start, i, j);
  }

  /** No period start comes before the first. */
  lemma StartsNotBefore(first: CalDate, p: Period, k: nat)
    requires p != Custom
    ensures !Before(StartAt(first, p, k), first)
  {
    if k > 0 {
      StartsIncrease(first, p, 0, k);
    }
  }

  /** Counting from the next period is counting one period further. */
  lemma {:induction false} StartAtShift(first: CalDate, p: Period, k: nat)
    ensures StartAt(NextPeriodStart(first, p), p, k) == StartAt(first, p, k + 1)
  {
    if k > 0 {
      var next := NextPeriodStart(first, p);
      StartAtShift(first, p, k - 1);
      assert StartAt(next, p, k) == NextPeriodStart(StartAt(next, p, k - 1), p);
    }
  }
}
