/**
 * Budgets: the period a budget covers on a given day, how much of it has
 * been spent, and the organization summary ordered by how much of each
 * budget is used.
 */
module Budgets {
  import opened Wrappers
  import opened Strings
  import opened Dates
  import opened Ledger

  datatype Period = Weekly | Monthly | Yearly | Custom

  /** The label the period choice displays. */
  function PeriodLabel(p: Period): string {
    match p
    case Weekly => "Weekly"
    case Monthly => "Monthly"
    case Yearly => "Yearly"
    case Custom => "Custom"
  }

  /**
   * A budget: an amount in pence for a period, tracking spending by labels
   * (ids) or, failing those, by a category name. The recurrence fields say
   * how many future periods to generate and the start of the last one
   * generated.
   */
  datatype Budget = Budget(
    user: nat,
    org: Option<nat>,
    name: string,
    amount: int,
    period: Period,
    category: string,
    labels: set<nat>,
    startDate: Option<CalDate>,
    endDate: Option<CalDate>,
    active: bool,
    isRecurring: bool,
    recurrenceCount: Option<int>,
    lastGenerated: Option<CalDate>,
    createdAt: CalDate,
    groupId: Option<string>)

  /** The budget has both custom dates, which then bound its custom period. */
  predicate HasOwnDates(budget: Option<Budget>) {
    budget.Some? && budget.value.startDate.Some? && budget.value.endDate.Some?
  }

  /**
   * `get_period_dates`: a custom period uses the budget's own dates when both
   * are set. Otherwise the period is the one containing today: the
   * Monday-to-Sunday week, the calendar year, or (monthly, and custom
   * without dates) the calendar month.
   */
  function PeriodDates(p: Period, budget: Option<Budget>, today: CalDate): (r: (CalDate, CalDate))
    ensures p == Custom && HasOwnDates(budget) ==> r == (budget.value.startDate.value, budget.value.endDate.value)
    ensures !(p == Custom && HasOwnDates(budget)) ==> ToDays(r.0) <= ToDays(today) <= ToDays(r.1)
    ensures p == Weekly ==> Weekday(r.0) == 0 && ToDays(r.1) == ToDays(r.0) + 6
    ensures p == Yearly ==> r.0 == Date(today.year, 1, 1) && r.1 == Date(today.year, 12, 31)
    ensures p == Monthly || (p == Custom && !HasOwnDates(budget)) ==>
      r.0 == Date(today.year, today.month, 1) && r.1 == Date(today.year, today.month, DaysInMonth(today.year, today.month))
  {
    if p == Custom && HasOwnDates(budget) then (budget.value.startDate.value, budget.value.endDate.value)
    else if p == Weekly then
      var start := MondayOf(today);
      (start, AddDays(start, 6))
    else if p == Yearly then
      DayOfYearBounds(today);
      DaysBeforeYearStep(today.year);
      (Jan1(today.year), Dec31(today.year))
    else (FirstOfMonth(today), LastOfMonth(today))
  }

  /**
   * A transaction the budget tracks in the period: an outflow of the
   * budget's organization dated within the period, carrying one of the
   * budget's labels, or, for a budget without labels, its non-empty category.
   */
  predicate Counted(b: Budget, t: Transaction, start: CalDate, end: CalDate) {
    t.org == b.org && t.direction == Outflow && !Before(t.date, start) && !Before(end, t.date)
    && (if |b.labels| > 0 then t.labelId.Some? && t.labelId.value in b.labels
        else b.category != "" && t.category == b.category)
  }

  /** The sum of the amounts of the tracked transactions (`Sum('amount') or 0`). */
  function Spent(b: Budget, txs: seq<Transaction>, start: CalDate, end: CalDate): int {
    if |txs| == 0 then 0
    else
      var t := txs[|txs| - 1];
      Spent(b, txs[..|txs| - 1], start, end) + (if Counted(b, t, start, end) then t.amount else 0)
  }

  /** A budget with neither labels nor a category tracks nothing: it has spent 0. */
  lemma {:induction false} SpentUntracked(b: Budget, txs: seq<Transaction>, start: CalDate, end: CalDate)
    requires |b.labels| == 0 && b.category == ""
    ensures Spent(b, txs, start, end) == 0
  {
    if |txs| > 0 {
      SpentUntracked(b, txs[..|txs| - 1], start, end);
    }
  }

  /** Stored amounts are never negative, and so neither is what a budget has spent. */
  lemma {:induction false} SpentNonNegative(b: Budget, txs: seq<Transaction>, start: CalDate, end: CalDate)
    requires forall t :: t in txs ==> t.amount >= 0
    ensures Spent(b, txs, start, end) >= 0
  {
    if |txs| > 0 {
      assert txs[|txs| - 1] in txs;
      SpentNonNegative(b, txs[..|txs| - 1], start, end);
    }
  }

  /** What `calculate_budget_usage` reports; `percentUsed` is exact (the rounding to one place is not modelled). */
  datatype Usage = Usage(spent: int, remaining: int, percentUsed: real, isOver: bool, amount: int, start: CalDate, end: CalDate)

  /**
   * `calculate_budget_usage`: the spending tracked in the budget's current
   * period, what is left of the amount, the percentage used (0 for an amount
   * that is not positive) and whether spending exceeds the amount.
   */
  function BudgetUsage(b: Budget, txs: seq<Transaction>, today: CalDate): (u: Usage)
    ensures (u.start, u.end) == PeriodDates(b.period, Some(b), today)
    ensures u.spent == Spent(b, txs, u.start, u.end)
    ensures u.amount == b.amount && u.spent + u.remaining == b.amount
    ensures u.isOver <==> u.remaining < 0
    ensures b.amount > 0 ==> IsPercent(u.percentUsed, u.spent, b.amount)
    ensures b.amount > 0 ==> (u.isOver <==> u.percentUsed > 100.0)
    ensures b.amount <= 0 ==> u.percentUsed == 0.0
  {
    var (start, end) := PeriodDates(b.period, Some(b), today);
    UsageOf(Spent(b, txs, start, end), b.amount, start, end)
  }

  /** The usage figures for what was spent against an amount in a period. */
  function UsageOf(spent: int, amount: int, start: CalDate, end: CalDate): (u: Usage)
    ensures u.spent == spent && u.amount == amount && u.start == start && u.end == end
    ensures u.spent + u.remaining == amount
    ensures u.isOver <==> u.remaining < 0
    ensures amount > 0 ==> IsPercent(u.percentUsed, spent, amount)
    ensures amount > 0 ==> (u.isOver <==> u.percentUsed > 100.0)
    ensures amount <= 0 ==> u.percentUsed == 0.0
  {
    Usage(spent, amount - spent, PercentUsed(spent, amount), spent > amount, amount, start, end)
  }

  /** p is `part` as a percentage of `whole`: p x whole = part x 100. */
  predicate IsPercent(p: real, part: int, whole: int) {
    p * whole as real == part as real * 100.0
  }

  /** The percentage used: exact for a positive amount, 0 otherwise. */
  function PercentUsed(spent: int, amount: int): (p: real)
    ensures amount > 0 ==> IsPercent(p, spent, amount)
    ensures amount > 0 ==> (spent > amount <==> p > 100.0)
    ensures amount <= 0 ==> p == 0.0
  {
    if amount > 0 then
      PercentAboveHundred(spent, amount);
      Percent(spent, amount)
    else 0.0
  }

  /** `spent / amount * 100`, exact. */
  function Percent(spent: int, amount: int): real
    requires amount > 0
  {
    spent as real / amount as real * 100.0
  }

  lemma PercentAboveHundred(spent: int, amount: int)
    requires amount > 0
    ensures Percent(spent, amount) * amount as real == spent as real * 100.0
    ensures spent > amount <==> Percent(spent, amount) > 100.0
  {
    var q := spent as real / amount as real;
    assert q * amount as real == spent as real;
    assert Percent(spent, amount) == q * 100.0;
    if spent > amount {
      assert q > 1.0;
    } else {
      assert q <= 1.0;
    }
  }

  /**
   * The period shown in the summary: a custom budget with both dates shows
   * its month as "Mon YYYY" when it starts on the 1st and ends on the last
   * day of its start month's length, and its range "Mon DD - Mon DD"
   * otherwise; every other budget shows its period's label.
   */
  function PeriodDisplay(b: Budget): (r: string)
    ensures !(b.period == Custom && b.startDate.Some? && b.endDate.Some?) ==> r == PeriodLabel(b.period)
    ensures b.period == Custom && b.startDate.Some? && b.endDate.Some? ==>
      var s, e := b.startDate.value, b.endDate.value;
      (r == MonthYear(s) <==> s.day == 1 && e.day == DaysInMonth(s.year, s.month))
      && (r != MonthYear(s) ==> r == MonthDay(s) + " - " + MonthDay(e))
  {
    if b.period == Custom && b.startDate.Some? && b.endDate.Some? then
      var s, e := b.startDate.value, b.endDate.value;
      MonthYearIsNotRange(s, e);
      if s.day == 1 && e.day == DaysInMonth(s.year, s.month) then MonthYear(s)
      else MonthDay(s) + " - " + MonthDay(e)
    else PeriodLabel(b.period)
  }

  /** The two custom renderings never coincide: a range has a space at index 6, a month never does. */
  lemma MonthYearIsNotRange(s: CalDate, e: CalDate)
    ensures MonthYear(s) != MonthDay(s) + " - " + MonthDay(e)
  {
    var range := MonthDay(s) + " - " + MonthDay(e);
    var y := IntToString(s.year);
    assert range[6] == ' ';
    if |MonthYear(s)| == |range| {
      assert MonthYear(s)[6] == y[2];
      if s.year < 0 {
        assert y[2] == NatToString(-s.year)[1];
      } else {
        assert y[2] == NatToString(s.year)[2];
      }
    }
  }

  /** The month test reads only the start's month: a range ending on that day number of a later month shows as the start month. */
  lemma EndMonthNotChecked(b: Budget)
    requires b.period == Custom && b.startDate.Some? && b.endDate.Some?
    requires b.startDate.value.day == 1
    requires b.endDate.value.day == DaysInMonth(b.startDate.value.year, b.startDate.value.month)
    ensures PeriodDisplay(b) == MonthYear(b.startDate.value)
  {
  }

  /** One summary row: the fields of the budget the summary repeats, with its usage. */
  datatype SummaryEntry = SummaryEntry(name: string, category: string, period: string, periodValue: Period,
                                       groupId: Option<string>, usage: Usage)

  function Entry(b: Budget, txs: seq<Transaction>, today: CalDate): SummaryEntry {
    SummaryEntry(b.name, b.category, PeriodDisplay(b), b.period, b.groupId, BudgetUsage(b, txs, today))
  }

  predicate Listed(b: Budget, org: Option<nat>) {
    b.org == org && b.active
  }

  /** The rows of the organization's active budgets, in the order given. */
  function Entries(org: Option<nat>, budgets: seq<Budget>, txs: seq<Transaction>, today: CalDate): (r: seq<SummaryEntry>)
    ensures |r| <= |budgets|
    ensures forall e :: e in r ==> exists b :: b in budgets && Listed(b, org) && e == Entry(b, txs, today)
  {
    if |budgets| == 0 then []
    else
      var b := budgets[|budgets| - 1];
      var init := budgets[..|budgets| - 1];
      var r := Entries(org, init, txs, today) + (if Listed(b, org) then [Entry(b, txs, today)] else []);
      assert forall x :: x in init ==> x in budgets;
      r
  }

  /** Every active budget of the organization has its row in the summary. */
  lemma {:induction false} EntriesComplete(org: Option<nat>, budgets: seq<Budget>, txs: seq<Transaction>, today: CalDate, b: Budget)
    requires b in budgets && Listed(b, org)
    ensures Entry(b, txs, today) in Entries(org, budgets, txs, today)
    decreases |budgets|
  {
    var init := budgets[..|budgets| - 1];
    assert budgets == init + [budgets[|budgets| - 1]];
    if b != budgets[|budgets| - 1] {
      EntriesComplete(org, init, txs, today, b);
    }
  }

  /** The rows of two runs of budgets are the first run's rows followed by the second's. */
  lemma {:induction false} EntriesAppend(org: Option<nat>, xs: seq<Budget>, ys: seq<Budget>, txs: seq<Transaction>, today: CalDate)
    ensures Entries(org, xs + ys, txs, today) == Entries(org, xs, txs, today) + Entries(org, ys, txs, today)
    decreases |ys|
  {
    if |ys| > 0 {
      var last := ys[|ys| - 1];
      var init := ys[..|ys| - 1];
      assert (xs + ys)[..|xs + ys| - 1] == xs + init;
      assert (xs + ys)[|xs + ys| - 1] == last;
      EntriesAppend(org, xs, init, txs, today);
    } else {
      assert xs + ys == xs;
    }
  }

  predicate SortedByUsage(xs: seq<SummaryEntry>) {
    forall i, j :: 0 <= i < j < |xs| ==> xs[j].usage.percentUsed <= xs[i].usage.percentUsed
  }

  /** x goes in front of the first entry using no more than it: ahead of the entries it ties with. */
  function InsertByUsage(x: SummaryEntry, ys: seq<SummaryEntry>): (r: seq<SummaryEntry>)
    ensures multiset(r) == multiset(ys) + multiset{x}
  {
    if |ys| == 0 then [x]
    else if ys[0].usage.percentUsed <= x.usage.percentUsed then [x] + ys
    else
      assert ys == [ys[0]] + ys[1..];
      [ys[0]] + InsertByUsage(x, ys[1..])
  }

  /** The inserted list is one longer and starts with x or with the old head. */
  lemma InsertHead(x: SummaryEntry, ys: seq<SummaryEntry>)
    ensures |InsertByUsage(x, ys)| == |ys| + 1
    ensures InsertByUsage(x, ys)[0] == x || (|ys| > 0 && InsertByUsage(x, ys)[0] == ys[0])
  {
  }

  lemma {:induction false} InsertKeepsSorted(x: SummaryEntry, ys: seq<SummaryEntry>)
    requires SortedByUsage(ys)
    ensures SortedByUsage(InsertByUsage(x, ys))
  {
    if |ys| > 0 && x.usage.percentUsed < ys[0].usage.percentUsed {
      var rest := InsertByUsage(x, ys[1..]);
      InsertKeepsSorted(x, ys[1..]);
      InsertHead(x, ys[1..]);
      var top := ys[0].usage.percentUsed;
      assert rest[0].usage.percentUsed <= top;
      var r := [ys[0]] + rest;
      forall i, j | 0 <= i < j < |r|
        ensures r[j].usage.percentUsed <= r[i].usage.percentUsed
      {
        assert r[j] == rest[j - 1];
        if i > 0 {
          assert r[i] == rest[i - 1];
        } else if j > 1 {
          assert rest[j - 1].usage.percentUsed <= rest[0].usage.percentUsed;
        }
      }
    }
  }

  /**
   * `summary.sort(key=percent_used, reverse=True)`: a stable sort, highest
   * usage first.
   */
  function SortByUsage(xs: seq<SummaryEntry>): (r: seq<SummaryEntry>)
    ensures multiset(r) == multiset(xs)
    ensures SortedByUsage(r)
  {
    if |xs| == 0 then []
    else
      assert xs == [xs[0]] + xs[1..];
      InsertKeepsSorted(xs[0], SortByUsage(xs[1..]));
      InsertByUsage(xs[0], SortByUsage(xs[1..]))
  }

  /** The entries using exactly p percent, in order. */
  function WithUsage(xs: seq<SummaryEntry>, p: real): seq<SummaryEntry> {
    if |xs| == 0 then []
    else (if xs[0].usage.percentUsed == p then [xs[0]] else []) + WithUsage(xs[1..], p)
  }

  lemma {:induction false} InsertKeepsTies(x: SummaryEntry, ys: seq<SummaryEntry>, p: real)
    ensures WithUsage(InsertByUsage(x, ys), p) == (if x.usage.percentUsed == p then [x] else []) + WithUsage(ys, p)
  {
    if |ys| > 0 {
      if ys[0].usage.percentUsed <= x.usage.percentUsed {
        assert ([x] + ys)[1..] == ys;
      } else {
        InsertKeepsTies(x, ys[1..], p);
        InsertBehindHead(x, ys, p);
      }
    } else {
      assert [x][1..] == [];
    }
  }

  /** The step of InsertKeepsTies where x goes behind the head of ys, which uses more than x. */
  lemma InsertBehindHead(x: SummaryEntry, ys: seq<SummaryEntry>, p: real)
    requires |ys| > 0 && x.usage.percentUsed < ys[0].usage.percentUsed
    requires WithUsage(InsertByUsage(x, ys[1..]), p) == (if x.usage.percentUsed == p then [x] else []) + WithUsage(ys[1..], p)
    ensures WithUsage(InsertByUsage(x, ys), p) == (if x.usage.percentUsed == p then [x] else []) + WithUsage(ys, p)
  {
    var rest := InsertByUsage(x, ys[1..]);
    assert InsertByUsage(x, ys) == [ys[0]] + rest;
    assert ([ys[0]] + rest)[1..] == rest;
    if x.usage.percentUsed == p {
      assert WithUsage(ys, p) == WithUsage(ys[1..], p);
      assert WithUsage([ys[0]] + rest, p) == WithUsage(rest, p);
    } else {
      assert WithUsage(rest, p) == WithUsage(ys[1..], p);
    }
  }

  /** The sort is stable: entries with equal usage keep their relative order (the name order of the query). */
  lemma {:induction false} SortIsStable(xs: seq<SummaryEntry>, p: real)
    ensures WithUsage(SortByUsage(xs), p) == WithUsage(xs, p)
  {
    if |xs| > 0 {
      SortIsStable(xs[1..], p);
      InsertKeepsTies(xs[0], SortByUsage(xs[1..]), p);
    }
  }

  /**
   * `get_budget_summary`: one row per active budget of the organization, in
   * the order of `budgets` (the query's name order), then sorted by usage,
   * highest first, ties keeping that order.
   */
  method GetBudgetSummary(org: Option<nat>, budgets: seq<Budget>, txs: seq<Transaction>, today: CalDate)
    returns (summary: seq<SummaryEntry>)
    ensures multiset(summary) == multiset(Entries(org, budgets, txs, today))
    ensures SortedByUsage(summary)
    ensures forall p :: WithUsage(summary, p) == WithUsage(Entries(org, budgets, txs, today), p)
  {
    summary := [];
    for i := 0 to |budgets|
      invariant summary == Entries(org, budgets[..i], txs, today)
    {
      var b := budgets[i];
      assert budgets[..i + 1][..i] == budgets[..i];
      if Listed(b, org) {
        summary := summary + [Entry(b, txs, today)];
      }
    }
    assert budgets[..|budgets|] == budgets;
    var rows := summary;
    summary := SortByUsage(rows);
    forall p
      ensures WithUsage(summary, p) == WithUsage(rows, p)
    {
      SortIsStable(rows, p);
    }
  }
}
