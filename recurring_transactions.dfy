/**
 * Recurring transactions: a template that, once a day or on demand, creates
 * the ledger transactions falling due up to a horizon, remembering the last
 * date it reached; and a preview of its next dates.
 *
 * The dates one run visits are specified by `Occurrences`, the created rows
 * by `Emit`; the methods are proved against them, and the order, bounds and
 * duplicate behaviour are lemmas about the two functions.
 */
module RecurringTransactions {
  import opened Wrappers
  import opened Dates
  import opened Ledger

  /** The template's frequency; `Unknown` is any other stored value. */
  datatype Frequency = Daily | Weekly | Monthly | Yearly | Unknown(name: string)

  predicate Known(f: Frequency) { !f.Unknown? }

  /** The label a template carries, with the name the category falls back to. */
  datatype LabelRef = LabelRef(id: nat, name: string)

  datatype Template = Template(
    user: nat,
    description: string,
    amount: int,
    direction: Direction,
    labelRef: Option<LabelRef>,
    category: string,
    subcategory: string,
    account: string,
    frequency: Frequency,
    startDate: CalDate,
    endDate: Option<CalDate>,
    lastGenerated: Option<CalDate>,
    active: bool)

  /**
   * `get_next_occurrence_date`: a day, a week, a calendar month (the day
   * clamped to the month's length) or a calendar year on; an unknown
   * frequency leaves the date where it is.
   */
  function NextOccurrence(d: CalDate, f: Frequency): (r: CalDate)
    ensures Known(f) ==> Before(d, r)
    ensures !Known(f) ==> r == d
  {
    match f
    case Daily => NextDay(d)
    case Weekly => WeekLater(d)
    case Monthly => MonthLater(d)
    case Yearly => YearLater(d)
    case Unknown(_) => d
  }

  /**
   * The step of each frequency: one day, seven days, the next calendar
   * month and the next calendar year, the day of month clamped to the
   * target month's length.
   */
  lemma OccurrenceSteps(d: CalDate)
    ensures ToDays(NextOccurrence(d, Daily)) == ToDays(d) + 1
    ensures ToDays(NextOccurrence(d, Weekly)) == ToDays(d) + 7
    ensures var r := NextOccurrence(d, Monthly);
      r.year * 12 + r.month == d.year * 12 + d.month + 1
      && r.day == (if d.day <= DaysInMonth(r.year, r.month) then d.day else DaysInMonth(r.year, r.month))
    ensures var r := NextOccurrence(d, Yearly);
      r.year == d.year + 1 && r.month == d.month
      && r.day == (if d.day <= DaysInMonth(r.year, r.month) then d.day else DaysInMonth(r.year, r.month))
  {
    NextDayCount(d);
    WeekLaterCount(d);
  }

  /** The first date a run or a preview looks at: the occurrence after the last generated date, else the start date. */
  function FirstCandidate(t: Template): (r: CalDate)
    ensures t.lastGenerated.None? ==> r == t.startDate
    ensures t.lastGenerated.Some? && Known(t.frequency) ==> Before(t.lastGenerated.value, r)
  {
    if t.lastGenerated.Some? then NextOccurrence(t.lastGenerated.value, t.frequency) else t.startDate
  }

  /** The last date a run may generate: `daysAhead` days after today, or the template's end date when that is earlier. */
  function MaxDate(t: Template, today: CalDate, daysAhead: int): (r: CalDate)
    ensures !Before(AddDays(today, daysAhead), r)
    ensures t.endDate.Some? ==> !Before(t.endDate.value, r)
    ensures r == AddDays(today, daysAhead) || (t.endDate.Some? && r == t.endDate.value)
  {
    var horizon := AddDays(today, daysAhead);
    if t.endDate.Some? && Before(t.endDate.value, horizon) then t.endDate.value else horizon
  }

  /** The k-th occurrence counting from `first`. */
  function OccurrenceAt(first: CalDate, f: Frequency, k: nat): CalDate {
    if k == 0 then first else NextOccurrence(OccurrenceAt(first, f, k - 1), f)
  }

  /** Counting from the next occurrence is counting one further. */
  lemma {:induction false} OccurrenceAtShift(first: CalDate, f: Frequency, k: nat)
    ensures OccurrenceAt(NextOccurrence(first, f), f, k) == OccurrenceAt(first, f, k + 1)
  {
    if k > 0 {
      OccurrenceAtShift(first, f, k - 1);
    }
  }

  /** With a known frequency, occurrences strictly increase. */
  lemma OccurrencesIncrease(first: CalDate, f: Frequency, i: nat, j: nat)
    requires Known(f) && i < j
    ensures Before(OccurrenceAt(first, f, i), OccurrenceAt(first, f, j))
  {
    var at := (k: nat) => OccurrenceAt(first, f, k);
    forall k: nat ensures Before(at(k), at(k + 1)) {
      assert at(k + 1) == NextOccurrence(at(k), f);
    }
    RisingChain(at, i, j);
  }

  /**
   * The dates of the `while next_date <= max_date` loop from `d`. With an
   * unknown frequency the loop never moves, so it is defined only when it
   * does not start at all.
   */
  function Occurrences(d: CalDate, f: Frequency, max: CalDate): (r: seq<CalDate>)
    requires Known(f) || Before(max, d)
    ensures forall x :: x in r ==> !Before(max, x) && !Before(x, d)
    decreases ToDays(max) - ToDays(d)
  {
    if Before(max, d) then []
    else
      var next := NextOccurrence(d, f);
      BeforeIffFewerDays(d, next);
      BeforeIffFewerDays(max, d);
      [d] + Occurrences(next, f, max)
  }

  /**
   * The loop visits exactly the occurrences that do not pass `max`: the
   * k-th date is the k-th occurrence, and the occurrence after the last one
   * visited is past `max`.
   */
  lemma {:induction false} OccurrencesAreChainPrefix(d: CalDate, f: Frequency, max: CalDate)
    requires Known(f) || Before(max, d)
    ensures forall k :: 0 <= k < |Occurrences(d, f, max)| ==> Occurrences(d, f, max)[k] == OccurrenceAt(d, f, k)
    ensures Before(max, OccurrenceAt(d, f, |Occurrences(d, f, max)|))
    decreases ToDays(max) - ToDays(d)
  {
    if !Before(max, d) {
      var next := NextOccurrence(d, f);
      BeforeIffFewerDays(d, next);
      BeforeIffFewerDays(max, d);
      OccurrencesAreChainPrefix(next, f, max);
      var rest := Occurrences(next, f, max);
      forall k | 0 <= k <= |rest| ensures OccurrenceAt(next, f, k) == OccurrenceAt(d, f, k + 1) {
        OccurrenceAtShift(d, f, k);
      }
    }
  }

  /** Strict calendar order along a sequence of dates. */
  predicate Ascending(s: seq<CalDate>) {
    forall i, j :: 0 <= i < j < |s| ==> Before(s[i], s[j])
  }

  /** A run's dates strictly increase, so it never visits a date twice. */
  lemma OccurrencesAscending(d: CalDate, f: Frequency, max: CalDate)
    requires Known(f) || Before(max, d)
    ensures Ascending(Occurrences(d, f, max))
  {
    OccurrencesAreChainPrefix(d, f, max);
    var r := Occurrences(d, f, max);
    forall i, j | 0 <= i < j < |r| ensures Before(r[i], r[j]) {
      OccurrencesIncrease(d, f, i, j);
    }
  }

  /** A run of the loop can end: the frequency is known, or the first candidate is already past the last date. */
  predicate Terminates(t: Template, today: CalDate, daysAhead: int) {
    Known(t.frequency) || Before(MaxDate(t, today, daysAhead), FirstCandidate(t))
  }

  /** The dates one run of the template visits. */
  function Run(t: Template, today: CalDate, daysAhead: int): (r: seq<CalDate>)
    requires Terminates(t, today, daysAhead)
  {
    Occurrences(FirstCandidate(t), t.frequency, MaxDate(t, today, daysAhead))
  }

  /** Every date a run visits lies between the first candidate and both today plus `daysAhead` and the end date. */
  lemma RunWithinHorizon(t: Template, today: CalDate, daysAhead: int, x: CalDate)
    requires Terminates(t, today, daysAhead) && x in Run(t, today, daysAhead)
    ensures !Before(x, FirstCandidate(t))
    ensures !Before(AddDays(today, daysAhead), x)
    ensures t.endDate.Some? ==> !Before(t.endDate.value, x)
  {
    var max := MaxDate(t, today, daysAhead);
    assert !Before(max, x);
    if t.endDate.Some? {
      assert !Before(t.endDate.value, max);
    }
  }

  /**
   * The category a created transaction gets: the template's own when it has
   * one, else its label's name. It is empty exactly when the template has
   * no category and no label with a name.
   */
  function CategoryFor(t: Template): (r: string)
    ensures t.category != "" ==> r == t.category
    ensures r == t.category || (t.labelRef.Some? && r == t.labelRef.value.name)
    ensures r == "" <==> t.category == "" && (t.labelRef.None? || t.labelRef.value.name == "")
  {
    if t.category != "" then t.category
    else if t.labelRef.Some? then t.labelRef.value.name
    else ""
  }

  /** The transaction created for date `d`, with source `recurring` and no organisation. */
  function NewTx(t: Template, d: CalDate): Transaction {
    Transaction(t.user, None, d, t.description, t.amount, t.direction,
      if t.labelRef.Some? then Some(t.labelRef.value.id) else None,
      CategoryFor(t), t.subcategory, t.account, "recurring")
  }

  /** The duplicate check: a recurring transaction of the same user, date, description, amount and direction. */
  predicate ExistsTx(txs: seq<Transaction>, t: Template, d: CalDate) {
    exists x :: x in txs && x.user == t.user && x.date == d && x.description == t.description
      && x.amount == t.amount && x.direction == t.direction && x.source == "recurring"
  }

  /**
   * The table after visiting `dates` in order: a date gets a new
   * transaction unless the table, including what earlier dates added,
   * already holds a matching one. Rows are only appended, each one the
   * template's transaction for one of the dates.
   */
  function Emit(txs: seq<Transaction>, t: Template, dates: seq<CalDate>): (r: seq<Transaction>)
    ensures txs <= r && |r| <= |txs| + |dates|
    ensures forall k :: |txs| <= k < |r| ==> r[k] == NewTx(t, r[k].date) && r[k].date in dates
    decreases |dates|
  {
    if dates == [] then txs
    else
      var prev := Emit(txs, t, dates[..|dates| - 1]);
      var d := dates[|dates| - 1];
      if ExistsTx(prev, t, d) then prev else prev + [NewTx(t, d)]
  }

  /** A row that matches stays matched as the table grows. */
  lemma ExistsTxGrows(txs: seq<Transaction>, more: seq<Transaction>, t: Template, d: CalDate)
    requires txs <= more && ExistsTx(txs, t, d)
    ensures ExistsTx(more, t, d)
  {
    var x :| x in txs && x.user == t.user && x.date == d && x.description == t.description
      && x.amount == t.amount && x.direction == t.direction && x.source == "recurring";
    var i :| 0 <= i < |txs| && txs[i] == x;
    assert more[i] == x;
  }

  /** After a run every visited date has a matching transaction, created or already there. */
  lemma {:induction false} EmitCovers(txs: seq<Transaction>, t: Template, dates: seq<CalDate>)
    ensures forall d :: d in dates ==> ExistsTx(Emit(txs, t, dates), t, d)
    decreases |dates|
  {
    if dates != [] {
      var init := dates[..|dates| - 1];
      var prev := Emit(txs, t, init);
      var last := dates[|dates| - 1];
      EmitCovers(txs, t, init);
      var r := Emit(txs, t, dates);
      forall d | d in dates ensures ExistsTx(r, t, d) {
        if d == last {
          if !ExistsTx(prev, t, d) {
            assert r[|prev|] == NewTx(t, d);
            assert r[|prev|] in r;
          }
        } else {
          assert d in init by {
            var k :| 0 <= k < |dates| && dates[k] == d;
            assert k < |init| && init[k] == d;
          }
          ExistsTxGrows(prev, r, t, d);
        }
      }
    }
  }

  /** No transaction is created for a date that already has a matching one. */
  lemma {:induction false} EmitSkipsExisting(txs: seq<Transaction>, t: Template, dates: seq<CalDate>)
    requires forall d :: d in dates ==> ExistsTx(txs, t, d)
    ensures Emit(txs, t, dates) == txs
    decreases |dates|
  {
    if dates != [] {
      var init := dates[..|dates| - 1];
      assert forall d :: d in init ==> d in dates;
      EmitSkipsExisting(txs, t, init);
    }
  }

  /** Visiting the same dates again creates nothing. */
  lemma EmitIdempotent(txs: seq<Transaction>, t: Template, dates: seq<CalDate>)
    ensures Emit(Emit(txs, t, dates), t, dates) == Emit(txs, t, dates)
  {
    EmitCovers(txs, t, dates);
    EmitSkipsExisting(Emit(txs, t, dates), t, dates);
  }

  /** The last generated date after visiting `dates`: the last of them, or unchanged when there were none. */
  function LastVisited(t: Template, dates: seq<CalDate>): Option<CalDate> {
    if dates == [] then t.lastGenerated else Some(dates[|dates| - 1])
  }

  /** Whether the template is still active after a run: it is switched off once its end date is before today. */
  function StillActive(t: Template, today: CalDate): (r: bool)
    ensures r <==> t.active && !(t.endDate.Some? && Before(t.endDate.value, today))
  {
    if t.endDate.Some? && Before(t.endDate.value, today) then false else t.active
  }

  /** The template after a run. */
  function Processed(t: Template, today: CalDate, daysAhead: int): Template
    requires Terminates(t, today, daysAhead)
  {
    t.(lastGenerated := LastVisited(t, Run(t, today, daysAhead)), active := StillActive(t, today))
  }

  /**
   * A second run on the same day with the same horizon visits nothing: the
   * last generated date now points past the horizon.
   */
  lemma SecondRunVisitsNothing(t: Template, today: CalDate, daysAhead: int)
    requires Terminates(t, today, daysAhead)
    ensures Terminates(Processed(t, today, daysAhead), today, daysAhead)
    ensures Run(Processed(t, today, daysAhead), today, daysAhead) == []
  {
    var run := Run(t, today, daysAhead);
    var first := FirstCandidate(t);
    var max := MaxDate(t, today, daysAhead);
    var t' := Processed(t, today, daysAhead);
    assert MaxDate(t', today, daysAhead) == max;
    OccurrencesAreChainPrefix(first, t.frequency, max);
    if run != [] {
      assert run[|run| - 1] == OccurrenceAt(first, t.frequency, |run| - 1);
      assert FirstCandidate(t') == OccurrenceAt(first, t.frequency, |run|);
    } else {
      assert FirstCandidate(t') == first;
    }
  }

  /** A date not past the last one is visited, then the loop goes on from the next occurrence. */
  lemma OccurrencesStep(d: CalDate, f: Frequency, max: CalDate)
    requires Known(f) && !Before(max, d)
    ensures Occurrences(d, f, max) == [d] + Occurrences(NextOccurrence(d, f), f, max)
  {
  }

  lemma AppendRegroup<T>(a: seq<T>, x: T, b: seq<T>)
    ensures a + ([x] + b) == (a + [x]) + b
  {
  }

  /**
   * One template's run: visits the dates of `Run`, records the last one,
   * and switches the template off when its end date has passed. `made`
   * counts the created rows.
   */
  method GenerateFor(t: Template, txs: seq<Transaction>, today: CalDate, daysAhead: int)
    returns (t': Template, txs': seq<Transaction>, made: nat)
    requires Terminates(t, today, daysAhead)
    ensures t' == Processed(t, today, daysAhead)
    ensures txs' == Emit(txs, t, Run(t, today, daysAhead))
    ensures made == |txs'| - |txs|
  {
    t', txs', made := VisitDates(t, txs, FirstCandidate(t), MaxDate(t, today, daysAhead));
    if t.endDate.Some? && Before(t.endDate.value, today) {
      t' := t'.(active := false);
    }
  }

  /**
   * The `while next_date <= max_date` loop: each date gets the duplicate
   * check against the table as it stands, a transaction when nothing
   * matches, and becomes the template's last generated date either way.
   */
  method VisitDates(t: Template, txs: seq<Transaction>, first: CalDate, max: CalDate)
    returns (t': Template, txs': seq<Transaction>, made: nat)
    requires Known(t.frequency) || Before(max, first)
    ensures t' == t.(lastGenerated := LastVisited(t, Occurrences(first, t.frequency, max)))
    ensures txs' == Emit(txs, t, Occurrences(first, t.frequency, max))
    ensures made == |txs'| - |txs|
  {
    var f := t.frequency;
    var next := first;
    ghost var visited: seq<CalDate> := [];
    t', txs', made := t, txs, 0;
    while !Before(max, next)
      invariant Known(f) || Before(max, next)
      invariant Occurrences(first, f, max) == visited + Occurrences(next, f, max)
      invariant txs' == Emit(txs, t, visited) && made == |txs'| - |txs|
      invariant t' == t.(lastGenerated := LastVisited(t, visited))
      decreases |Occurrences(next, f, max)|
    {
      var existing := ExistsTx(txs', t, next);
      if !existing {
        txs' := txs' + [NewTx(t, next)];
        made := made + 1;
      }
      t' := t'.(lastGenerated := Some(next));
      assert (visited + [next])[..|visited|] == visited;
      OccurrencesStep(next, f, max);
      AppendRegroup(visited, next, Occurrences(NextOccurrence(next, f), f, max));
      visited := visited + [next];
      next := NextOccurrence(next, f);
    }
    assert Occurrences(next, f, max) == [];
    assert visited == Occurrences(first, f, max);
  }

  /** The templates a run processes: the active ones, of the given user if any. */
  predicate Selected(t: Template, user: Option<nat>) {
    t.active && (user.None? || t.user == user.value)
  }

  /** Every selected template's loop can end. */
  predicate AllTerminate(templates: seq<Template>, user: Option<nat>, today: CalDate, daysAhead: int) {
    forall i :: 0 <= i < |templates| && Selected(templates[i], user) ==> Terminates(templates[i], today, daysAhead)
  }

  /** The transaction table after the first k templates have run. */
  function AllGenerated(templates: seq<Template>, txs: seq<Transaction>, user: Option<nat>, today: CalDate, daysAhead: int, k: nat)
    : (r: seq<Transaction>)
    requires k <= |templates| && AllTerminate(templates, user, today, daysAhead)
    ensures txs <= r
  {
    if k == 0 then txs
    else
      var prev := AllGenerated(templates, txs, user, today, daysAhead, k - 1);
      var t := templates[k - 1];
      if Selected(t, user) then Emit(prev, t, Run(t, today, daysAhead)) else prev
  }

  /**
   * `generate_recurring_transactions`: every selected template, in table
   * order, runs against the table as the earlier ones left it; the others
   * are untouched. `created` counts the new transactions.
   */
  method GenerateRecurringTransactions(templates: seq<Template>, txs: seq<Transaction>, user: Option<nat>, today: CalDate, daysAhead: int)
    returns (templates': seq<Template>, txs': seq<Transaction>, created: nat)
    requires AllTerminate(templates, user, today, daysAhead)
    ensures |templates'| == |templates|
    ensures forall k :: 0 <= k < |templates| ==>
      templates'[k] == if Selected(templates[k], user) then Processed(templates[k], today, daysAhead) else templates[k]
    ensures txs' == AllGenerated(templates, txs, user, today, daysAhead, |templates|)
    ensures created == |txs'| - |txs|
  {
    templates', txs', created := templates, txs, 0;
    for i := 0 to |templates|
      invariant templates' == ProcessedUpTo(templates, user, today, daysAhead, i)
      invariant txs' == AllGenerated(templates, txs, user, today, daysAhead, i)
      invariant created == |txs'| - |txs|
    {
      AllGeneratedStep(templates, txs, user, today, daysAhead, i);
      ProcessedStep(templates, user, today, daysAhead, i);
      if Selected(templates[i], user) {
        var t, made;
        t, txs', made := GenerateFor(templates[i], txs', today, daysAhead);
        templates' := templates'[i := t];
        created := created + made;
      }
    }
  }

  /** The templates after the first i have been processed. */
  function ProcessedUpTo(templates: seq<Template>, user: Option<nat>, today: CalDate, daysAhead: int, i: nat): (r: seq<Template>)
    requires AllTerminate(templates, user, today, daysAhead)
    ensures |r| == |templates|
  {
    seq(|templates|, k requires 0 <= k < |templates| =>
      if k < i && Selected(templates[k], user) then Processed(templates[k], today, daysAhead) else templates[k])
  }

  lemma ProcessedStep(templates: seq<Template>, user: Option<nat>, today: CalDate, daysAhead: int, i: nat)
    requires i < |templates| && AllTerminate(templates, user, today, daysAhead)
    ensures ProcessedUpTo(templates, user, today, daysAhead, i + 1)
      == if Selected(templates[i], user)
         then ProcessedUpTo(templates, user, today, daysAhead, i)[i := Processed(templates[i], today, daysAhead)]
         else ProcessedUpTo(templates, user, today, daysAhead, i)
  {
  }

  lemma AllGeneratedStep(templates: seq<Template>, txs: seq<Transaction>, user: Option<nat>, today: CalDate, daysAhead: int, i: nat)
    requires i < |templates| && AllTerminate(templates, user, today, daysAhead)
    ensures var prev := AllGenerated(templates, txs, user, today, daysAhead, i);
      AllGenerated(templates, txs, user, today, daysAhead, i + 1)
        == if Selected(templates[i], user) then Emit(prev, templates[i], Run(templates[i], today, daysAhead)) else prev
  {
  }

  /**
   * The preview from `d`: up to n occurrences, stopping at the first one
   * past the end date.
   */
  function PreviewFrom(d: CalDate, f: Frequency, end: Option<CalDate>, n: int): (r: seq<CalDate>)
    ensures |r| <= (if n > 0 then n else 0)
    ensures forall x :: x in r && end.Some? ==> !Before(end.value, x)
    decreases n
  {
    if n <= 0 || (end.Some? && Before(end.value, d)) then []
    else [d] + PreviewFrom(NextOccurrence(d, f), f, end, n - 1)
  }

  /** The preview lists consecutive occurrences. */
  lemma {:induction false} PreviewIsChainPrefix(d: CalDate, f: Frequency, end: Option<CalDate>, n: int)
    ensures forall k :: 0 <= k < |PreviewFrom(d, f, end, n)| ==> PreviewFrom(d, f, end, n)[k] == OccurrenceAt(d, f, k)
    decreases n
  {
    if !(n <= 0 || (end.Some? && Before(end.value, d))) {
      var next := NextOccurrence(d, f);
      var r := PreviewFrom(d, f, end, n);
      var rest := PreviewFrom(next, f, end, n - 1);
      assert r == [d] + rest;
      PreviewIsChainPrefix(next, f, end, n - 1);
      forall k | 0 < k < |r| ensures r[k] == OccurrenceAt(d, f, k) {
        OccurrenceAtShift(d, f, k - 1);
      }
    }
  }

  /** The preview stops early only at the first occurrence past the end date. */
  lemma {:induction false} PreviewStopsPastEnd(d: CalDate, f: Frequency, end: Option<CalDate>, n: int)
    ensures var m := |PreviewFrom(d, f, end, n)|;
      m < n ==> end.Some? && Before(end.value, OccurrenceAt(d, f, m))
    decreases n
  {
    var m := |PreviewFrom(d, f, end, n)|;
    if n <= 0 {
    } else if end.Some? && Before(end.value, d) {
      assert m == 0 && OccurrenceAt(d, f, 0) == d;
    } else {
      var next := NextOccurrence(d, f);
      var m' := |PreviewFrom(next, f, end, n - 1)|;
      assert m == m' + 1;
      PreviewStopsPastEnd(next, f, end, n - 1);
      OccurrenceAtShift(d, f, m');
    }
  }

  /** With an end date and a known frequency, the preview is a prefix of what runs up to the end date would generate. */
  lemma {:induction false} PreviewPrefixOfOccurrences(d: CalDate, f: Frequency, end: CalDate, n: int)
    requires Known(f)
    ensures PreviewFrom(d, f, Some(end), n) <= Occurrences(d, f, end)
    decreases n
  {
    if !(n <= 0 || Before(end, d)) {
      PreviewPrefixOfOccurrences(NextOccurrence(d, f), f, end, n - 1);
    }
  }

  /** With an unknown frequency the preview repeats the first date. */
  lemma {:induction false} UnknownFrequencyPreviewRepeats(d: CalDate, f: Frequency, end: Option<CalDate>, n: int)
    requires !Known(f)
    ensures forall x :: x in PreviewFrom(d, f, end, n) ==> x == d
    decreases n
  {
    if !(n <= 0 || (end.Some? && Before(end.value, d))) {
      UnknownFrequencyPreviewRepeats(d, f, end, n - 1);
    }
  }

  /** `preview_recurring_occurrences`: the next `num` dates from the first candidate, up to the end date. */
  method PreviewRecurringOccurrences(t: Template, num: int) returns (occurrences: seq<CalDate>)
    ensures occurrences == PreviewFrom(FirstCandidate(t), t.frequency, t.endDate, num)
  {
    var current := FirstCandidate(t);
    occurrences := [];
    var i := 0;
    while i < num
      invariant i <= num || i == 0
      invariant occurrences + PreviewFrom(current, t.frequency, t.endDate, num - i) == PreviewFrom(FirstCandidate(t), t.frequency, t.endDate, num)
    {
      if t.endDate.Some? && Before(t.endDate.value, current) {
        assert PreviewFrom(current, t.frequency, t.endDate, num - i) == [];
        break;
      }
      PreviewStep(current, t.frequency, t.endDate, num - i);
      AppendRegroup(occurrences, current, PreviewFrom(NextOccurrence(current, t.frequency), t.frequency, t.endDate, num - i - 1));
      occurrences := occurrences + [current];
      current := NextOccurrence(current, t.frequency);
      i := i + 1;
    }
  }

  lemma PreviewStep(d: CalDate, f: Frequency, end: Option<CalDate>, n: int)
    requires n > 0 && !(end.Some? && Before(end.value, d))
    ensures PreviewFrom(d, f, end, n) == [d] + PreviewFrom(NextOccurrence(d, f), f, end, n - 1)
  {
  }
}
