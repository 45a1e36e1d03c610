/**
 * The arithmetic of the dashboard's widget-data endpoint: the preset date
 * ranges, the choice between a custom range and a preset with its 400 and
 * 404 refusals, the previous-period window and change percentage of the
 * KPI widgets, the burn rate, the day series of the trend line, the
 * budget alert thresholds and the pie-chart colour fallback.
 *
 * Money is integer pence; the quotients the endpoint returns as floats
 * are exact reals here. The transactions handed to the widget functions
 * are the organisation's, already filtered to the date range by the
 * caller where the code filters by range.
 */
module DashboardViews {
  import opened Wrappers
  import opened Dates
  import opened Ledger
  import opened DashboardWidgets

  // ---------------------------------------------------------------- date ranges

  /** The keys `parse_date_range` knows. */
  const PresetKeys: set<string> := {"last7days", "last30days", "last90days", "thisMonth", "lastMonth", "thisYear"}

  /** The whole previous month: from its first to its last day. */
  function LastMonth(today: CalDate): (r: (CalDate, CalDate))
    ensures r.0.day == 1 && r.0.year == r.1.year && r.0.month == r.1.month
    ensures r.1.day == DaysInMonth(r.1.year, r.1.month)
    ensures r.1.year * 12 + r.1.month + 1 == today.year * 12 + today.month
    ensures ToDays(r.1) + 1 == ToDays(FirstOfMonth(today))
  {
    var first := FirstOfMonth(today);
    var end := AddDays(first, -1);
    assert end == PrevDay(first);
    PrevDayCount(first);
    (FirstOfMonth(end), end)
  }

  /**
   * `parse_date_range`: the last 7, 30 or 90 days up to today, this month
   * or this year so far, or the whole previous month; any other key gives
   * the last 30 days.
   */
  function ParseDateRange(key: string, today: CalDate): (r: (CalDate, CalDate))
    ensures key in {"last7days", "last30days", "last90days", "thisMonth", "thisYear"} ==> r.1 == today
    ensures key == "last7days" ==> ToDays(r.0) == ToDays(today) - 7
    ensures key == "last90days" ==> ToDays(r.0) == ToDays(today) - 90
    ensures key == "thisMonth" ==> r.0 == FirstOfMonth(today)
    ensures key == "thisYear" ==> r.0 == Jan1(today.year)
    ensures key == "lastMonth" ==> r == LastMonth(today)
    ensures key !in PresetKeys || key == "last30days" ==> ToDays(r.0) == ToDays(today) - 30 && r.1 == today
    ensures ToDays(r.0) <= ToDays(r.1) < ToDays(today) + 1
  {
    if key == "last7days" then (AddDays(today, -7), today)
    else if key == "last90days" then (AddDays(today, -90), today)
    else if key == "thisMonth" then (FirstOfMonth(today), today)
    else if key == "lastMonth" then
      var m := LastMonth(today);
      assert ToDays(m.0) == ToDays(m.1) - (m.1.day - 1);
      m
    else if key == "thisYear" then
      DayOfYearBounds(today);
      (Jan1(today.year), today)
    else (AddDays(today, -30), today)
  }

  /** The widget ids the endpoint routes to a data function. */
  const WidgetIds: set<string> := {
    "kpi-total-income", "kpi-total-expenses", "kpi-net-cash-flow", "kpi-avg-transaction",
    "kpi-transaction-count", "kpi-budget-progress", "kpi-burn-rate", "kpi-active-projects",
    "kpi-pending-invoices", "kpi-overdue-invoices",
    "chart-revenue-expense", "chart-expense-pie", "chart-income-pie", "chart-trend-line",
    "chart-waterfall", "chart-budget-performance", "chart-category-heatmap", "chart-money-flow-sankey",
    "list-recent-transactions", "list-upcoming-bills", "list-budget-alerts", "list-recent-invoices",
    "summary-financial", "summary-month-comparison"}

  /** Every widget the front-end catalog offers has a data function, and no other id has one. */
  lemma WidgetIdsAreCatalog()
    ensures WidgetIds == Catalog.Keys
  {
  }

  /** The query parameters of a widget-data request; an absent parameter is "". */
  datatype WidgetQuery = WidgetQuery(start: string, end: string, dateRange: Option<string>)

  /** Both custom bounds are given (non-empty), so the preset is ignored. */
  predicate CustomRange(q: WidgetQuery) {
    q.start != "" && q.end != ""
  }

  /**
   * `get_widget_data` before the data function runs: with both custom
   * bounds, each must read as YYYY-MM-DD, else 400; without them the
   * preset (default `last30days`) gives the range. Only then is an unknown
   * widget id refused with 404.
   */
  function WidgetRange(q: WidgetQuery, widgetId: string, today: CalDate): (r: Result<(CalDate, CalDate), int>)
    ensures r.Err? ==> r.error == 400 || r.error == 404
    ensures r.Err? && r.error == 400 <==> CustomRange(q) && (ParseIso(q.start).None? || ParseIso(q.end).None?)
    ensures r.Err? && r.error == 404 <==>
      !(CustomRange(q) && (ParseIso(q.start).None? || ParseIso(q.end).None?)) && widgetId !in Catalog
    ensures r.Ok? && CustomRange(q) ==> r.value == (ParseIso(q.start).value, ParseIso(q.end).value)
    ensures r.Ok? && !CustomRange(q) ==> r.value == ParseDateRange(q.dateRange.GetOr("last30days"), today)
  {
    WidgetIdsAreCatalog();
    var range: Result<(CalDate, CalDate), int> :=
      if CustomRange(q) then
        var s, e := ParseIso(q.start), ParseIso(q.end);
        if s.None? || e.None? then Err(400) else Ok((s.value, e.value))
      else Ok(ParseDateRange(q.dateRange.GetOr("last30days"), today));
    if range.Err? then range
    else if widgetId !in WidgetIds then Err(404)
    else range
  }

  // ---------------------------------------------------------------- KPI arithmetic

  /**
   * The comparison window of the KPI widgets: it ends the day before the
   * range starts and begins `(end - start).days` days before the start,
   * so it is one day shorter than the inclusive range itself.
   */
  function PreviousPeriod(start: CalDate, end: CalDate): (r: (CalDate, CalDate))
    ensures ToDays(r.1) + 1 == ToDays(start)
    ensures ToDays(r.1) - ToDays(r.0) + 1 == DaysBetween(start, end)
  {
    var daysDiff := DaysBetween(start, end);
    (AddDays(start, -daysDiff), AddDays(start, -1))
  }

  /** The change against the previous period in percent; 0 when the previous total is zero. */
  function ChangePct(total: int, prev: int): (pct: real)
    ensures prev == 0 ==> pct == 0.0
    ensures prev != 0 ==> pct * prev as real == (total - prev) as real * 100.0
  {
    if prev != 0 then (total - prev) as real / prev as real * 100.0 else 0.0
  }

  /** Against a positive previous total the change has the sign of the difference. */
  lemma ChangePctSign(total: int, prev: int)
    requires prev > 0
    ensures ChangePct(total, prev) > 0.0 <==> total > prev
    ensures ChangePct(total, prev) == 0.0 <==> total == prev
    ensures ChangePct(total, prev) < 0.0 <==> total < prev
  {
    var pct := ChangePct(total, prev);
    var d := (total - prev) as real * 100.0;
    assert pct * prev as real == d;
    if pct > 0.0 {
      assert pct * prev as real > 0.0;
    } else if pct < 0.0 {
      assert pct * prev as real < 0.0;
    }
  }

  /** The days the burn rate divides by: `(end - start).days`, or 1 when that is 0 (a negative span is kept). */
  function BurnDays(start: CalDate, end: CalDate): (days: int)
    ensures days != 0
    ensures DaysBetween(start, end) != 0 ==> days == DaysBetween(start, end)
  {
    if DaysBetween(start, end) != 0 then DaysBetween(start, end) else 1
  }

  /** `get_kpi_burn_rate`: the spending in the range per day of `BurnDays`. */
  function BurnRate(totalExpenses: int, start: CalDate, end: CalDate): (rate: real)
    ensures rate * BurnDays(start, end) as real == totalExpenses as real
  {
    totalExpenses as real / BurnDays(start, end) as real
  }

  // ---------------------------------------------------------------- trend line

  /**
   * The date loop of `get_chart_trend_line`: every day from start to end
   * inclusive, ascending, one per day; none when the end is before the
   * start.
   */
  method TrendDates(start: CalDate, end: CalDate) returns (dates: seq<CalDate>)
    ensures |dates| == if ToDays(start) <= ToDays(end) then DaysBetween(start, end) + 1 else 0
    ensures forall k :: 0 <= k < |dates| ==> ToDays(dates[k]) == ToDays(start) + k
  {
    dates := [];
    var current := start;
    BeforeIffFewerDays(end, current);
    while !Before(end, current)
      invariant ToDays(current) == ToDays(start) + |dates|
      invariant ToDays(start) <= ToDays(end) ==> ToDays(current) <= ToDays(end) + 1
      invariant ToDays(start) > ToDays(end) ==> dates == []
      invariant Before(end, current) <==> ToDays(end) < ToDays(current)
      invariant forall k :: 0 <= k < |dates| ==> ToDays(dates[k]) == ToDays(start) + k
      decreases ToDays(end) - ToDays(current)
    {
      dates := dates + [current];
      NextDayCount(current);
      current := AddDays(current, 1);
      BeforeIffFewerDays(end, current);
    }
  }

  /** Every day of the range is on the trend line, at its offset from the start. */
  lemma TrendDatesCoverRange(start: CalDate, end: CalDate, dates: seq<CalDate>, d: CalDate)
    requires |dates| == if ToDays(start) <= ToDays(end) then DaysBetween(start, end) + 1 else 0
    requires forall k :: 0 <= k < |dates| ==> ToDays(dates[k]) == ToDays(start) + k
    requires ToDays(start) <= ToDays(d) <= ToDays(end)
    ensures dates[DaysBetween(start, d)] == d
  {
    ToDaysInjective(dates[DaysBetween(start, d)], d);
  }

  /** The amount of the transactions on day d: inflows when `inflow`, everything else otherwise. */
  function DayTotal(txns: seq<Transaction>, d: CalDate, inflow: bool): int {
    if txns == [] then 0
    else
      var t := txns[|txns| - 1];
      DayTotal(txns[..|txns| - 1], d, inflow) + (if t.date == d && (t.direction == Inflow) == inflow then t.amount else 0)
  }

  /** Income less expense on day d. */
  function NetOn(txns: seq<Transaction>, d: CalDate): int {
    DayTotal(txns, d, true) - DayTotal(txns, d, false)
  }

  /** `net_data`: income less expense for each date of the series. */
  function NetSeries(txns: seq<Transaction>, dates: seq<CalDate>): (net: seq<int>)
    ensures |net| == |dates|
  {
    if dates == [] then [] else NetSeries(txns, dates[..|dates| - 1]) + [NetOn(txns, dates[|dates| - 1])]
  }

  /** The series holds each date's net at the date's own position. */
  lemma {:induction false} NetSeriesAt(txns: seq<Transaction>, dates: seq<CalDate>, k: int)
    requires 0 <= k < |dates|
    ensures NetSeries(txns, dates)[k] == NetOn(txns, dates[k])
  {
    if k < |dates| - 1 {
      NetSeriesAt(txns, dates[..|dates| - 1], k);
    }
  }

  function Sum(xs: seq<int>): int {
    if xs == [] then 0 else Sum(xs[..|xs| - 1]) + xs[|xs| - 1]
  }

  lemma SumAppend(xs: seq<int>, x: int)
    ensures Sum(xs + [x]) == Sum(xs) + x
  {
    assert (xs + [x])[..|xs|] == xs;
  }

  /** Income counts positively and everything else negatively. */
  function Signed(t: Transaction): int {
    if t.direction == Inflow then t.amount else -t.amount
  }

  /** The net of a whole list of transactions. */
  function NetOf(txns: seq<Transaction>): int {
    if txns == [] then 0 else NetOf(txns[..|txns| - 1]) + Signed(txns[|txns| - 1])
  }

  /** How often d occurs among the dates. */
  function Occurrences(dates: seq<CalDate>, d: CalDate): nat {
    if dates == [] then 0 else Occurrences(dates[..|dates| - 1], d) + (if dates[|dates| - 1] == d then 1 else 0)
  }

  /** One more transaction changes the net of its own date by its signed amount and no other date's. */
  lemma NetOnAppend(txns: seq<Transaction>, t: Transaction, d: CalDate)
    ensures NetOn(txns + [t], d) == NetOn(txns, d) + (if t.date == d then Signed(t) else 0)
  {
    assert (txns + [t])[..|txns|] == txns;
  }

  /** One more transaction moves the net series' total by its signed amount once for each time its date occurs. */
  lemma {:induction false} NetSeriesStep(txns: seq<Transaction>, t: Transaction, dates: seq<CalDate>)
    ensures Sum(NetSeries(txns + [t], dates)) == Sum(NetSeries(txns, dates)) + Signed(t) * Occurrences(dates, t.date)
  {
    if dates != [] {
      var init, last := dates[..|dates| - 1], dates[|dates| - 1];
      var b := if last == t.date then 1 else 0;
      assert Occurrences(dates, t.date) == Occurrences(init, t.date) + b;
      NetSeriesStep(txns, t, init);
      SumAppend(NetSeries(txns + [t], init), NetOn(txns + [t], last));
      SumAppend(NetSeries(txns, init), NetOn(txns, last));
      NetOnAppend(txns, t, last);
      Distribute(Signed(t), Occurrences(init, t.date), b);
    }
  }

  lemma Distribute(s: int, n: int, b: int)
    ensures s * (n + b) == s * n + s * b
  {
  }

  /** Dates that occur once each: a strictly rising day count. */
  lemma {:induction false} RisingOccursOnce(dates: seq<CalDate>, start: CalDate, d: CalDate)
    requires forall k :: 0 <= k < |dates| ==> ToDays(dates[k]) == ToDays(start) + k
    ensures Occurrences(dates, d) == if ToDays(start) <= ToDays(d) < ToDays(start) + |dates| then 1 else 0
  {
    if dates != [] {
      var init := dates[..|dates| - 1];
      RisingOccursOnce(init, start, d);
      var last := dates[|dates| - 1];
      if last == d {
        assert ToDays(d) == ToDays(start) + |dates| - 1;
      } else if ToDays(d) == ToDays(start) + |dates| - 1 {
        ToDaysInjective(last, d);
      }
    }
  }

  /**
   * The trend line loses nothing: over a series holding each day of the
   * range once, the net series adds up to the net of the transactions
   * dated within the range.
   */
  lemma {:induction false} TrendNetConserved(txns: seq<Transaction>, dates: seq<CalDate>, start: CalDate)
    requires forall k :: 0 <= k < |dates| ==> ToDays(dates[k]) == ToDays(start) + k
    requires forall i :: 0 <= i < |txns| ==> ToDays(start) <= ToDays(txns[i].date) < ToDays(start) + |dates|
    ensures Sum(NetSeries(txns, dates)) == NetOf(txns)
  {
    if txns == [] {
      ZeroSeries(dates);
    } else {
      var init, t := txns[..|txns| - 1], txns[|txns| - 1];
      TrendNetConserved(init, dates, start);
      NetSeriesStep(init, t, dates);
      RisingOccursOnce(dates, start, t.date);
      assert init + [t] == txns;
    }
  }

  lemma {:induction false} ZeroSeries(dates: seq<CalDate>)
    ensures Sum(NetSeries([], dates)) == 0
  {
    if dates != [] {
      ZeroSeries(dates[..|dates| - 1]);
      SumAppend(NetSeries([], dates[..|dates| - 1]), 0);
    }
  }

  // ---------------------------------------------------------------- budget alerts

  datatype AlertStatus = Danger | Warning | Fine

  /** The spent share of a budget in percent; 0 for a zero budget. */
  function BudgetPct(spent: int, amount: int): (pct: real)
    ensures amount == 0 ==> pct == 0.0
    ensures amount != 0 ==> pct * amount as real == spent as real * 100.0
  {
    if amount != 0 then spent as real / amount as real * 100.0 else 0.0
  }

  /** Danger from 100 percent, warning from 80, ok (`Fine`) below. */
  function StatusOf(pct: real): AlertStatus {
    if pct >= 100.0 then Danger else if pct >= 80.0 then Warning else Fine
  }

  /** For a positive budget: danger exactly when the spending reaches it, warning from four fifths of it. */
  lemma AlertThresholds(spent: int, amount: int)
    requires amount > 0
    ensures StatusOf(BudgetPct(spent, amount)) == Danger <==> spent >= amount
    ensures StatusOf(BudgetPct(spent, amount)) == Warning <==> 5 * spent >= 4 * amount && spent < amount
    ensures StatusOf(BudgetPct(spent, amount)) == Fine <==> 5 * spent < 4 * amount
  {
    var pct := BudgetPct(spent, amount);
    ScaleAtLeast(pct, 100.0, amount as real);
    ScaleAtLeast(pct, 80.0, amount as real);
  }

  /** Comparing after scaling by a positive factor compares the unscaled values. */
  lemma ScaleAtLeast(x: real, y: real, a: real)
    requires a > 0.0
    ensures x * a >= y * a <==> x >= y
  {
    if x >= y {
      assert x * a - y * a == (x - y) * a;
    } else {
      assert y * a - x * a == (y - x) * a;
    }
  }

  /** An active budget, its labels, and its spending over those labels in the range. */
  datatype AlertBudget = AlertBudget(name: string, amount: int, labels: set<nat>, spent: int)

  datatype Alert = Alert(name: string, amount: int, spent: int, pct: real, status: AlertStatus)

  function AlertFor(b: AlertBudget): Alert {
    var pct := BudgetPct(b.spent, b.amount);
    Alert(b.name, b.amount, b.spent, pct, StatusOf(pct))
  }

  /** The alerts of `get_list_budget_alerts`: one per budget that has labels, in order, whatever its status. */
  function AlertsOf(budgets: seq<AlertBudget>): seq<Alert> {
    if budgets == [] then []
    else
      var b := budgets[|budgets| - 1];
      AlertsOf(budgets[..|budgets| - 1]) + (if b.labels != {} then [AlertFor(b)] else [])
  }

  /** The alerts loop. */
  method BudgetAlerts(budgets: seq<AlertBudget>) returns (alerts: seq<Alert>)
    ensures alerts == AlertsOf(budgets)
  {
    alerts := [];
    for i := 0 to |budgets|
      invariant alerts == AlertsOf(budgets[..i])
    {
      assert budgets[..i + 1][..i] == budgets[..i];
      if budgets[i].labels != {} {
        alerts := alerts + [AlertFor(budgets[i])];
      }
    }
    assert budgets[..|budgets|] == budgets;
  }

  /** Every budget with labels gets an alert, and there are no more alerts than budgets. */
  lemma {:induction false} AlertsOfExactly(budgets: seq<AlertBudget>, b: AlertBudget)
    ensures AlertFor(b) in AlertsOf(budgets) <== b in budgets && b.labels != {}
    ensures |AlertsOf(budgets)| <= |budgets|
  {
    if budgets != [] {
      var init := budgets[..|budgets| - 1];
      AlertsOfExactly(init, b);
      if b in budgets && b != budgets[|budgets| - 1] {
        assert b in init;
      }
    }
  }

  /** Every alert comes from a budget that has labels. */
  lemma {:induction false} AlertsOnlyForLabelled(budgets: seq<AlertBudget>, a: Alert)
    requires a in AlertsOf(budgets)
    ensures exists b :: b in budgets && b.labels != {} && a == AlertFor(b)
  {
    var init := budgets[..|budgets| - 1];
    var last := budgets[|budgets| - 1];
    if a in AlertsOf(init) {
      AlertsOnlyForLabelled(init, a);
      var b :| b in init && b.labels != {} && a == AlertFor(b);
      assert b in budgets;
    } else {
      assert last in budgets;
    }
  }

  // ---------------------------------------------------------------- pie colours

  const ExpensePalette: seq<string> := [
    "#ef4444", "#f59e0b", "#10b981", "#3b82f6", "#8b5cf6", "#ec4899", "#06b6d4",
    "#84cc16", "#f97316", "#6366f1", "#14b8a6", "#a855f7", "#f43f5e", "#eab308"]

  const IncomePalette: seq<string> := [
    "#10b981", "#3b82f6", "#8b5cf6", "#06b6d4", "#84cc16", "#14b8a6", "#6366f1",
    "#22c55e", "#0ea5e9", "#a855f7", "#2dd4bf", "#60a5fa", "#34d399", "#38bdf8"]

  /** The colour loop of the pie charts: a label's own colour when it has one, else the palette entry at the slice's index (wrapping). */
  method PieColours(labelColours: seq<string>, palette: seq<string>) returns (colours: seq<string>)
    requires |palette| > 0
    ensures |colours| == |labelColours|
    ensures forall i :: 0 <= i < |colours| ==>
      colours[i] == if labelColours[i] != "" then labelColours[i] else palette[i % |palette|]
  {
    colours := [];
    for i := 0 to |labelColours|
      invariant |colours| == i
      invariant forall k :: 0 <= k < i ==>
        colours[k] == if labelColours[k] != "" then labelColours[k] else palette[k % |palette|]
    {
      if labelColours[i] != "" {
        colours := colours + [labelColours[i]];
      } else {
        colours := colours + [palette[i % |palette|]];
      }
    }
  }

  /** The pies show at most ten slices, fewer than either palette holds, so fallback colours never repeat. */
  lemma PaletteNeverWraps(palette: seq<string>, i: int, j: int)
    requires palette == ExpensePalette || palette == IncomePalette
    requires 0 <= i < j < 10
    ensures palette[i % |palette|] != palette[j % |palette|]
  {
  }
}
