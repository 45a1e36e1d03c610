/**
 * Recurring budgets: a budget marked recurring generates custom-period
 * copies of itself for the next periods, remembering the start of the last
 * period it generated.
 */
module RecurringBudgets {
  import opened Wrappers
  import opened Dates
  import opened Budgets
  import opened BudgetPeriods

  /** The budgets a run processes: active, recurring, of the given user if any, not custom, with a positive count. */
  predicate Eligible(b: Budget, user: Option<nat>) {
    b.isRecurring && b.active && (user.None? || b.user == user.value)
    && b.period != Custom && b.recurrenceCount.Some? && b.recurrenceCount.value > 0
  }

  /**
   * Where a run starts generating: one period after the last generated
   * start, else one period after the budget's start date, else at the first
   * month, year or Monday-week boundary after the day it was created.
   */
  function FirstStart(b: Budget): (r: CalDate)
    ensures b.period != Custom && b.lastGenerated.Some? ==> Before(b.lastGenerated.value, r)
    ensures b.period != Custom && b.lastGenerated.None? && b.startDate.Some? ==> Before(b.startDate.value, r)
    ensures b.period != Custom && b.lastGenerated.None? && b.startDate.None? ==> Before(b.createdAt, r)
    ensures b.lastGenerated.None? && b.startDate.None? ==>
      match b.period
      case Monthly => r.day == 1 && r.year * 12 + r.month == b.createdAt.year * 12 + b.createdAt.month + 1
      case Yearly => r == Date(b.createdAt.year + 1, 1, 1)
      case Weekly => true
      case Custom => r == b.createdAt
  {
    if b.lastGenerated.Some? then NextPeriodStart(b.lastGenerated.value, b.period)
    else if b.startDate.Some? then NextPeriodStart(b.startDate.value, b.period)
    else
      var today := b.createdAt;
      match b.period
      case Monthly => MonthLater(FirstOfMonth(today))
      case Yearly => Date(today.year + 1, 1, 1)
      case Weekly =>
        var monday := MondayOf(today);
        var r := WeekLater(monday);
        WeekLaterCount(monday);
        BeforeIffFewerDays(today, r);
        r
      case Custom => today
  }

  /** A weekly budget with no dates starts generating on the first Monday after the day it was created. */
  lemma FirstWeeklyStartIsNextMonday(b: Budget)
    requires b.period == Weekly && b.lastGenerated.None? && b.startDate.None?
    ensures Weekday(FirstStart(b)) == 0
    ensures 0 < ToDays(FirstStart(b)) - ToDays(b.createdAt) <= 7
  {
    var monday := MondayOf(b.createdAt);
    WeekLaterCount(monday);
    assert ToDays(FirstStart(b)) % 7 == (ToDays(monday) + 7) % 7;
  }

  /** The fields the duplicate check compares: user, name, period and both dates. */
  predicate Matches(x: Budget, b: Budget, start: CalDate, end: CalDate) {
    x.user == b.user && x.name == b.name && x.period == b.period
    && x.startDate == Some(start) && x.endDate == Some(end)
  }

  predicate ExistsFor(rows: seq<Budget>, b: Budget, start: CalDate, end: CalDate) {
    exists x :: x in rows && Matches(x, b, start, end)
  }

  /** The copy generated for one period: active, custom, not recurring, with no organization and no category. */
  function Copy(b: Budget, start: CalDate, end: CalDate, now: CalDate): Budget {
    Budget(b.user, None, b.name, b.amount, Custom, "", b.labels, Some(start), Some(end),
           true, false, None, None, now, b.groupId)
  }

  /**
   * The duplicate check compares the template's own period, and copies are
   * custom: a copy for exactly the period being generated does not count
   * as existing.
   */
  lemma CheckIgnoresCopies(b: Budget, start: CalDate, now: CalDate)
    requires b.period != Custom
    ensures !ExistsFor([Copy(b, start, PeriodEnd(start, b.period), now)], b, start, PeriodEnd(start, b.period))
  {
  }

  /**
   * What a generated copy is: a copy of template b for a period that no
   * matching budget of `rows` covers, with that period's end.
   */
  predicate IsCopy(c: Budget, rows: seq<Budget>, b: Budget) {
    c.period == Custom && c.active && !c.isRecurring && c.org.None? && c.category == ""
    && c.user == b.user && c.name == b.name && c.amount == b.amount && c.labels == b.labels && c.groupId == b.groupId
    && c.startDate.Some? && c.endDate == Some(PeriodEnd(c.startDate.value, b.period))
    && !ExistsFor(rows, b, c.startDate.value, c.endDate.value)
  }

  /** The starts of the first n periods from `first`, in order. */
  function Starts(first: CalDate, p: Period, n: nat): (ss: seq<CalDate>)
    ensures |ss| == n
  {
    seq(n, k requires 0 <= k < n => StartAt(first, p, k))
  }

  /** The copy for the period starting at `start`, or nothing when a matching budget covers that period. */
  function CopyUnlessCovered(rows: seq<Budget>, b: Budget, start: CalDate, now: CalDate): (r: seq<Budget>)
    ensures |r| <= 1
  {
    var end := PeriodEnd(start, b.period);
    if ExistsFor(rows, b, start, end) then [] else [Copy(b, start, end, now)]
  }

  /** The copies for the periods starting at ss, in the order of ss. */
  function CopiesOver(rows: seq<Budget>, b: Budget, ss: seq<CalDate>, now: CalDate): (r: seq<Budget>)
    ensures |r| <= |ss|
    ensures forall c :: c in r ==> c.period == Custom && c.startDate.Some?
  {
    if |ss| == 0 then []
    else CopiesOver(rows, b, ss[..|ss| - 1], now) + CopyUnlessCovered(rows, b, ss[|ss| - 1], now)
  }

  /**
   * The copies a budget generates for its first n periods from `first`: one
   * for each period no matching budget of `rows` covers, in period order;
   * so at most one per period.
   */
  function CopiesFor(rows: seq<Budget>, b: Budget, first: CalDate, n: nat, now: CalDate): (r: seq<Budget>)
    ensures |r| <= n
  {
    CopiesOver(rows, b, Starts(first, b.period, n), now)
  }

  /** One more period adds that period's copy, if any, at the end. */
  lemma CopiesForStep(rows: seq<Budget>, b: Budget, first: CalDate, n: nat, now: CalDate)
    ensures CopiesFor(rows, b, first, n + 1, now)
      == CopiesFor(rows, b, first, n, now) + CopyUnlessCovered(rows, b, StartAt(first, b.period, n), now)
  {
    var ss := Starts(first, b.period, n + 1);
    assert ss[..n] == Starts(first, b.period, n);
  }

  /** Every copy starts at one of the given period starts. */
  lemma {:induction false} CopiesFromStarts(rows: seq<Budget>, b: Budget, ss: seq<CalDate>, now: CalDate)
    ensures forall c :: c in CopiesOver(rows, b, ss, now) ==> c.startDate.value in ss
  {
    if |ss| > 0 {
      var init := ss[..|ss| - 1];
      CopiesFromStarts(rows, b, init, now);
      forall c | c in CopiesOver(rows, b, ss, now)
        ensures c.startDate.value in ss
      {
        if c in CopiesOver(rows, b, init, now) {
          var k :| 0 <= k < |init| && init[k] == c.startDate.value;
          assert ss[k] == init[k];
        } else {
          assert c in CopyUnlessCovered(rows, b, ss[|ss| - 1], now);
        }
      }
    }
  }

  /** Every budget generated for a template is a copy of it for a period nothing in the table covers. */
  lemma {:induction false} CopiesAreCopies(rows: seq<Budget>, b: Budget, ss: seq<CalDate>, now: CalDate)
    ensures forall c :: c in CopiesOver(rows, b, ss, now) ==> IsCopy(c, rows, b)
  {
    if |ss| > 0 {
      var init := ss[..|ss| - 1];
      CopiesAreCopies(rows, b, init, now);
      forall c | c in CopiesOver(rows, b, ss, now)
        ensures IsCopy(c, rows, b)
      {
        if c !in CopiesOver(rows, b, init, now) {
          assert c in CopyUnlessCovered(rows, b, ss[|ss| - 1], now);
        }
      }
    }
  }

  /** The copies' periods lie within the n periods from `first`. */
  lemma CopiesWithinPeriods(rows: seq<Budget>, b: Budget, first: CalDate, n: nat, now: CalDate)
    requires b.period != Custom
    ensures forall c :: c in CopiesFor(rows, b, first, n, now) ==>
      !Before(c.startDate.value, first) && Before(c.startDate.value, StartAt(first, b.period, n))
  {
    var p := b.period;
    var ss := Starts(first, p, n);
    CopiesFromStarts(rows, b, ss, now);
    forall c | c in CopiesOver(rows, b, ss, now)
      ensures !Before(c.startDate.value, first) && Before(c.startDate.value, StartAt(first, p, n))
    {
      var k :| 0 <= k < n && ss[k] == c.startDate.value;
      StartsNotBefore(first, p, k);
      StartsIncrease(first, p, k, n);
    }
  }

  /** Every row has a start date, each strictly before the next row's. */
  predicate StartsAscending(r: seq<Budget>) {
    forall i, j :: 0 <= i < j < |r| ==>
      r[i].startDate.Some? && r[j].startDate.Some? && Before(r[i].startDate.value, r[j].startDate.value)
  }

  /** Each date strictly before the next. */
  predicate Ascending(ss: seq<CalDate>) {
    forall i, j :: 0 <= i < j < |ss| ==> Before(ss[i], ss[j])
  }

  lemma AppendKeepsAscending(prev: seq<Budget>, x: Budget)
    requires StartsAscending(prev) && x.startDate.Some?
    requires forall c :: c in prev ==> c.startDate.Some? && Before(c.startDate.value, x.startDate.value)
    ensures StartsAscending(prev + [x])
  {
    var r := prev + [x];
    forall i, j | 0 <= i < j < |r|
      ensures r[i].startDate.Some? && r[j].startDate.Some? && Before(r[i].startDate.value, r[j].startDate.value)
    {
      assert r[i] == prev[i] && prev[i] in prev;
      if j < |prev| {
        assert r[j] == prev[j];
      }
    }
  }

  /** Copies for ascending starts come in the same order. */
  lemma {:induction false} CopiesOverInOrder(rows: seq<Budget>, b: Budget, ss: seq<CalDate>, now: CalDate)
    requires Ascending(ss)
    ensures StartsAscending(CopiesOver(rows, b, ss, now))
  {
    if |ss| > 0 {
      var init, s := ss[..|ss| - 1], ss[|ss| - 1];
      var prev := CopiesOver(rows, b, init, now);
      var tail := CopyUnlessCovered(rows, b, s, now);
      assert Ascending(init) by {
        forall i, j | 0 <= i < j < |init| ensures Before(init[i], init[j]) {
          assert init[i] == ss[i] && init[j] == ss[j];
        }
      }
      CopiesOverInOrder(rows, b, init, now);
      if tail != [] {
        CopiesFromStarts(rows, b, init, now);
        forall c | c in prev
          ensures c.startDate.Some? && Before(c.startDate.value, s)
        {
          var k :| 0 <= k < |init| && init[k] == c.startDate.value;
          assert init[k] == ss[k];
        }
        assert tail == [tail[0]];
        AppendKeepsAscending(prev, tail[0]);
      }
    }
  }

  /** The copies come in strictly increasing period order, so no two of one run cover the same period. */
  lemma CopiesInOrder(rows: seq<Budget>, b: Budget, first: CalDate, n: nat, now: CalDate)
    requires b.period != Custom
    ensures StartsAscending(CopiesFor(rows, b, first, n, now))
  {
    var ss := Starts(first, b.period, n);
    forall i, j | 0 <= i < j < |ss|
      ensures Before(ss[i], ss[j])
    {
      StartsIncrease(first, b.period, i, j);
    }
    CopiesOverInOrder(rows, b, ss, now);
  }

  lemma AppendRegroup<T>(a: seq<T>, b: seq<T>, c: seq<T>)
    ensures (a + b) + c == a + (b + c)
  {
  }

  /**
   * A processed budget after the run: its last generated start is that of
   * the last period visited, so the next run resumes with the period after
   * it; nothing the duplicate check compares changes, and a budget the run
   * skips is left as it was.
   */
  function Advanced(b: Budget, user: Option<nat>): (r: Budget)
    ensures Eligible(b, user) ==>
      var visited := Starts(FirstStart(b), b.period, b.recurrenceCount.value);
      r.lastGenerated == Some(visited[|visited| - 1])
    ensures Eligible(b, user) ==> FirstStart(r) == StartAt(FirstStart(b), b.period, b.recurrenceCount.value)
    ensures SameKeys(r, b) && r.(lastGenerated := b.lastGenerated) == b
    ensures !Eligible(b, user) ==> r == b
  {
    if Eligible(b, user) then b.(lastGenerated := Some(StartAt(FirstStart(b), b.period, b.recurrenceCount.value - 1)))
    else b
  }

  /** All copies a run creates for the first k budgets, in table order. */
  function AllCopies(rows: seq<Budget>, user: Option<nat>, k: nat, now: CalDate): (r: seq<Budget>)
    requires k <= |rows|
    ensures forall c :: c in r ==> c.period == Custom
  {
    if k == 0 then []
    else
      var b := rows[k - 1];
      AllCopies(rows, user, k - 1, now)
        + (if Eligible(b, user) then CopiesFor(rows, b, FirstStart(b), b.recurrenceCount.value, now) else [])
  }

  /** Two rows the duplicate check cannot tell apart: they agree on everything it compares. */
  predicate SameKeys(x: Budget, y: Budget) {
    x.user == y.user && x.name == y.name && x.period == y.period
    && x.startDate == y.startDate && x.endDate == y.endDate
  }

  /**
   * A table whose original rows changed only in what the check does not
   * compare, followed by custom copies, answers the check as the original
   * rows do.
   */
  lemma ExistsIgnoresAdded(updated: seq<Budget>, added: seq<Budget>, rows: seq<Budget>, b: Budget, start: CalDate, end: CalDate)
    requires |updated| == |rows|
    requires forall k :: 0 <= k < |rows| ==> SameKeys(updated[k], rows[k])
    requires forall c :: c in added ==> c.period == Custom
    requires b.period != Custom
    ensures ExistsFor(updated + added, b, start, end) <==> ExistsFor(rows, b, start, end)
  {
    if ExistsFor(updated + added, b, start, end) {
      var x :| x in updated + added && Matches(x, b, start, end);
      if x !in added {
        var k :| 0 <= k < |updated| && updated[k] == x;
        assert Matches(rows[k], b, start, end);
      }
    }
    if ExistsFor(rows, b, start, end) {
      var x :| x in rows && Matches(x, b, start, end);
      var k :| 0 <= k < |rows| && rows[k] == x;
      assert Matches(updated[k], b, start, end);
      assert updated[k] in updated + added;
    }
  }

  /**
   * One template's part of the run: `recurrence_count` consecutive periods
   * from its first start, a copy for each period without a matching
   * budget, and the template's last generated start moved to each visited
   * period in turn.
   */
  method GenerateFor(updated: seq<Budget>, added: seq<Budget>, rows: seq<Budget>, i: nat, user: Option<nat>, now: CalDate)
    returns (updated': seq<Budget>, added': seq<Budget>, made: nat)
    requires i < |rows| == |updated| && Eligible(rows[i], user)
    requires forall k :: 0 <= k < |rows| ==> SameKeys(updated[k], rows[k])
    requires forall c :: c in added ==> c.period == Custom
    ensures updated' == updated[i := Advanced(rows[i], user)]
    ensures added' == added + CopiesFor(rows, rows[i], FirstStart(rows[i]), rows[i].recurrenceCount.value, now)
    ensures made == |added'| - |added|
  {
    updated', added' := VisitPeriods(updated, added, rows, i, FirstStart(rows[i]), rows[i].recurrenceCount.value, now);
    made := |added'| - |added|;
  }

  /**
   * The loop over a template's n periods from `first`. The template's last
   * generated start is kept in `last` and written to its row after the
   * loop; the duplicate check does not compare it.
   */
  method VisitPeriods(updated: seq<Budget>, added: seq<Budget>, rows: seq<Budget>, i: nat, first: CalDate, n: nat, now: CalDate)
    returns (updated': seq<Budget>, added': seq<Budget>)
    requires i < |rows| == |updated| && rows[i].period != Custom && n > 0
    requires forall k :: 0 <= k < |rows| ==> SameKeys(updated[k], rows[k])
    requires forall c :: c in added ==> c.period == Custom
    ensures updated' == updated[i := rows[i].(lastGenerated := Some(StartAt(first, rows[i].period, n - 1)))]
    ensures added' == added + CopiesFor(rows, rows[i], first, n, now)
  {
    var p := rows[i].period;
    var current, last := first, first;
    added' := added;
    for j := 0 to n
      invariant current == StartAt(first, p, j)
      invariant 0 < j ==> last == StartAt(first, p, j - 1)
      invariant added' == added + CopiesFor(rows, rows[i], first, j, now)
      invariant forall c :: c in added' ==> c.period == Custom
    {
      var before := added';
      added' := VisitPeriod(updated, added', rows, i, current, now);
      CopiesForStep(rows, rows[i], first, j, now);
      AppendRegroup(added, CopiesFor(rows, rows[i], first, j, now), CopyUnlessCovered(rows, rows[i], current, now));
      last := current;
      current := NextPeriodStart(current, p);
    }
    updated' := updated[i := rows[i].(lastGenerated := Some(last))];
  }

  /**
   * One period of a template's run: the duplicate check against the table
   * as it stands, and a copy when nothing matches.
   */
  method VisitPeriod(updated: seq<Budget>, added: seq<Budget>, rows: seq<Budget>, i: nat, start: CalDate, now: CalDate)
    returns (added': seq<Budget>)
    requires i < |rows| == |updated| && rows[i].period != Custom
    requires forall k :: 0 <= k < |rows| ==> SameKeys(updated[k], rows[k])
    requires forall c :: c in added ==> c.period == Custom
    ensures added' == added + CopyUnlessCovered(rows, rows[i], start, now)
  {
    var b := rows[i];
    var end := PeriodEnd(start, b.period);
    ExistsIgnoresAdded(updated, added, rows, b, start, end);
    var existing := ExistsFor(updated + added, b, start, end);
    added' := added;
    if !existing {
      added' := added + [Copy(b, start, end, now)];
    }
  }

  /**
   * `generate_recurring_budgets`: every eligible budget, in table order,
   * gets its copies and its new last generated start; the other budgets are
   * untouched. `added` holds the created budgets and `created` counts them.
   */
  method GenerateRecurringBudgets(rows: seq<Budget>, user: Option<nat>, now: CalDate)
    returns (updated: seq<Budget>, added: seq<Budget>, created: nat)
    ensures updated == AdvancedUpTo(rows, user, |rows|)
    ensures added == AllCopies(rows, user, |rows|, now)
    ensures created == |added|
  {
    updated, added, created := rows, [], 0;
    assert updated == AdvancedUpTo(rows, user, 0);
    for i := 0 to |rows|
      invariant updated == AdvancedUpTo(rows, user, i)
      invariant added == AllCopies(rows, user, i, now)
      invariant created == |added|
    {
      if Eligible(rows[i], user) {
        AdvancedKeepsKeys(rows, user, i);
        var made;
        updated, added, made := GenerateFor(updated, added, rows, i, user, now);
        created := created + made;
      }
      AdvancedStep(rows, user, i);
    }
  }

  /** The table after the first i budgets are processed. */
  function AdvancedUpTo(rows: seq<Budget>, user: Option<nat>, i: nat): (r: seq<Budget>)
    ensures |r| == |rows|
  {
    seq(|rows|, k requires 0 <= k < |rows| => if k < i then Advanced(rows[k], user) else rows[k])
  }

  lemma AdvancedStep(rows: seq<Budget>, user: Option<nat>, i: nat)
    requires i < |rows|
    ensures AdvancedUpTo(rows, user, i)[i := Advanced(rows[i], user)] == AdvancedUpTo(rows, user, i + 1)
    ensures !Eligible(rows[i], user) ==> AdvancedUpTo(rows, user, i) == AdvancedUpTo(rows, user, i + 1)
  {
  }

  lemma AdvancedKeepsKeys(rows: seq<Budget>, user: Option<nat>, i: nat)
    ensures forall k :: 0 <= k < |rows| ==> SameKeys(AdvancedUpTo(rows, user, i)[k], rows[k])
  {
  }
}
