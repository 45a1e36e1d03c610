/**
 * The preview of a recurring budget: the periods it would cover from its
 * start date, or from the start of the current period.
 */
module BudgetPreview {
  import opened Wrappers
  import opened Dates
  import opened Budgets
  import opened BudgetPeriods
  import opened RecurringBudgets

  /**
   * Where a preview starts: the budget's start date, else the start of the
   * current period (first of the month, 1 January, or Monday of this week),
   * which is the period that contains today.
   */
  function PreviewStart(b: Budget, today: CalDate): (r: CalDate)
    ensures b.startDate.Some? ==> r == b.startDate.value
    ensures b.startDate.None? && b.period != Custom ==> !Before(today, r) && !Before(PeriodEnd(r, b.period), today)
  {
    if b.startDate.Some? then b.startDate.value
    else
      match b.period
      case Monthly => FirstOfMonth(today)
      case Yearly => Date(today.year, 1, 1)
      case Weekly =>
        var r := MondayOf(today);
        PeriodEndMeetsNextStart(r, Weekly);
        BeforeIffFewerDays(today, r);
        BeforeIffFewerDays(PeriodEnd(r, Weekly), today);
        r
      case Custom => today
  }

  /** `num_periods or recurrence_count or 3`: zero and absent both fall through. */
  function PreviewCount(numPeriods: Option<int>, recurrenceCount: Option<int>): int {
    if numPeriods.Some? && numPeriods.value != 0 then numPeriods.value
    else if recurrenceCount.Some? && recurrenceCount.value != 0 then recurrenceCount.value
    else 3
  }

  datatype PreviewPeriod = PreviewPeriod(start: CalDate, end: CalDate, name: string)

  /** The preview of the period starting at s: its end, and the budget's name followed by the start month in brackets. */
  function PreviewEntry(b: Budget, s: CalDate): PreviewPeriod {
    PreviewPeriod(s, PeriodEnd(s, b.period), b.name + " (" + MonthYear(s) + ")")
  }

  /** The previews of the first n periods from `first`, in order. */
  function PreviewList(b: Budget, first: CalDate, n: nat): (r: seq<PreviewPeriod>)
    ensures |r| == n
  {
    if n == 0 then [] else PreviewList(b, first, n - 1) + [PreviewEntry(b, StartAt(first, b.period, n - 1))]
  }

  /** The k-th preview is that of the k-th period. */
  lemma {:induction false} PreviewListAt(b: Budget, first: CalDate, n: nat)
    ensures forall k :: 0 <= k < n ==> PreviewList(b, first, n)[k] == PreviewEntry(b, StartAt(first, b.period, k))
  {
    if n > 0 {
      PreviewListAt(b, first, n - 1);
      var prev := PreviewList(b, first, n - 1);
      assert forall k :: 0 <= k < n - 1 ==> PreviewList(b, first, n)[k] == prev[k];
    }
  }

  /**
   * `preview_recurring_budget_periods`: nothing for a budget that is not
   * recurring or is custom; otherwise the count's consecutive periods from
   * the preview start (none for a negative count), each named after the
   * budget and its start month.
   */
  method PreviewRecurringBudgetPeriods(b: Budget, numPeriods: Option<int>, today: CalDate) returns (periods: seq<PreviewPeriod>)
    ensures !b.isRecurring || b.period == Custom ==> periods == []
    ensures b.isRecurring && b.period != Custom ==>
      var count := PreviewCount(numPeriods, b.recurrenceCount);
      periods == PreviewList(b, PreviewStart(b, today), if count > 0 then count else 0)
  {
    if !b.isRecurring || b.period == Custom {
      return [];
    }
    var count := PreviewCount(numPeriods, b.recurrenceCount);
    var first := PreviewStart(b, today);
    var current := first;
    periods := [];
    for k := 0 to if count > 0 then count else 0
      invariant current == StartAt(first, b.period, k)
      invariant periods == PreviewList(b, first, k)
    {
      periods := periods + [PreviewEntry(b, current)];
      current := NextPeriodStart(current, b.period);
    }
  }

  /** The previewed periods follow one another in calendar order, the first containing today when the budget has no start date. */
  lemma PreviewInOrder(b: Budget, today: CalDate, i: nat, j: nat)
    requires b.period != Custom && i < j
    ensures Before(StartAt(PreviewStart(b, today), b.period, i), StartAt(PreviewStart(b, today), b.period, j))
  {
    StartsIncrease(PreviewStart(b, today), b.period, i, j);
  }

  /**
   * For a budget with a start date that has not generated yet, the periods
   * a run generates are the preview's periods after the first, which the
   * budget itself covers.
   */
  lemma GenerationFollowsPreview(b: Budget, today: CalDate, k: nat)
    requires b.lastGenerated.None? && b.startDate.Some?
    ensures StartAt(FirstStart(b), b.period, k) == StartAt(PreviewStart(b, today), b.period, k + 1)
  {
    StartAtShift(b.startDate.value, b.period, k);
  }
}
