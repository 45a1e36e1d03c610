/**
 * The budgets page script: the label pills that mirror a hidden multi-select,
 * the card filter and the re-ordering of the visible cards, the status
 * classes a budget card gets when its figures refresh, and the single/bulk
 * delete state behind the confirmation dialog.
 */
module BudgetsPage {
  import opened Wrappers
  import opened Strings

  // ---------------------------------------------------------------------------
  // Label pills and the hidden select
  // ---------------------------------------------------------------------------

  /** A label pill: the label id it stands for and whether it has the `selected` class. */
  datatype Pill = Pill(labelId: string, selected: bool)

  /** An option of the hidden multi-select. */
  datatype SelectOption = SelectOption(value: string, selected: bool)

  /** The index of the first pill for the label (what `querySelector` returns), or -1. */
  function FirstPill(pills: seq<Pill>, id: string): (k: int)
    ensures -1 <= k < |pills|
    ensures k == -1 <==> forall i :: 0 <= i < |pills| ==> pills[i].labelId != id
    ensures k >= 0 ==> pills[k].labelId == id && forall i :: 0 <= i < k ==> pills[i].labelId != id
  {
    if pills == [] then -1
    else if pills[0].labelId == id then 0
    else
      var k := FirstPill(pills[1..], id);
      assert forall i :: 1 <= i < |pills| ==> pills[i] == pills[1..][i - 1];
      if k == -1 then -1 else k + 1
  }

  /** Every option of a label that has a pill carries that pill's state. */
  predicate Synced(pills: seq<Pill>, options: seq<SelectOption>) {
    forall j :: 0 <= j < |options| && FirstPill(pills, options[j].value) >= 0 ==>
      options[j].selected == pills[FirstPill(pills, options[j].value)].selected
  }

  class LabelSelector {
    var pills: seq<Pill>
    var options: seq<SelectOption>

    /**
     * `renderLabels`: one pill per option with a non-empty value, in option
     * order, selected when that value is among the pre-selected options.
     */
    constructor (options: seq<SelectOption>)
      ensures this.options == options
      ensures pills == PillsFor(options, options)
    {
      this.options := options;
      pills := PillsFor(options, options);
    }

    /**
     * `toggleLabel`: an unknown id changes nothing; otherwise the first pill
     * for the id flips and every option with that value takes its new state.
     */
    method ToggleLabel(id: string)
      modifies this`pills, this`options
      ensures FirstPill(old(pills), id) == -1 ==> pills == old(pills) && options == old(options)
      ensures FirstPill(old(pills), id) >= 0 ==>
                pills == old(pills)[FirstPill(old(pills), id) := Pill(id, !old(pills)[FirstPill(old(pills), id)].selected)]
      ensures |options| == |old(options)|
      ensures forall j :: 0 <= j < |options| ==> options[j].value == old(options)[j].value
      ensures forall j :: 0 <= j < |options| ==>
                options[j].selected == if FirstPill(old(pills), id) >= 0 && options[j].value == id then !old(pills)[FirstPill(old(pills), id)].selected else old(options)[j].selected
      ensures Synced(old(pills), old(options)) ==> Synced(pills, options)
    {
      var k := FirstPill(pills, id);
      if k == -1 {
        return;
      }
      var state := !pills[k].selected;
      var newPills := pills[k := Pill(id, state)];
      FirstPillAfterFlip(pills, k, id, state);
      var opts, newOptions := options, options;
      for j := 0 to |opts|
        invariant |newOptions| == |opts|
        invariant forall i :: 0 <= i < |opts| ==> newOptions[i].value == opts[i].value
        invariant forall i :: 0 <= i < j ==> newOptions[i].selected == if opts[i].value == id then state else opts[i].selected
        invariant forall i :: j <= i < |opts| ==> newOptions[i] == opts[i]
      {
        if newOptions[j].value == id {
          newOptions := newOptions[j := newOptions[j].(selected := state)];
        }
      }
      ToggleKeepsSync(pills, newPills, opts, newOptions, k, id, state);
      pills, options := newPills, newOptions;
    }
  }

  /** The pills for the options with a non-empty value; a pill is selected when its value is among the selected options. */
  function PillsFor(options: seq<SelectOption>, all: seq<SelectOption>): seq<Pill> {
    if options == [] then []
    else if options[0].value == "" then PillsFor(options[1..], all)
    else [Pill(options[0].value, IsPreselected(all, options[0].value))] + PillsFor(options[1..], all)
  }

  predicate IsPreselected(options: seq<SelectOption>, value: string) {
    exists j :: 0 <= j < |options| && options[j].selected && options[j].value == value
  }

  /** Flipping the first pill for `id` leaves the first-pill lookup of every id unchanged. */
  lemma FirstPillAfterFlip(pills: seq<Pill>, k: int, id: string, state: bool)
    requires 0 <= k < |pills| && FirstPill(pills, id) == k
    ensures forall v :: FirstPill(pills[k := Pill(id, state)], v) == FirstPill(pills, v)
  {
    var flipped := pills[k := Pill(id, state)];
    forall v
      ensures FirstPill(flipped, v) == FirstPill(pills, v)
    {
      assert forall i :: 0 <= i < |pills| ==> flipped[i].labelId == pills[i].labelId;
      FirstPillSameIds(pills, flipped, v);
    }
  }

  lemma {:induction false} FirstPillSameIds(a: seq<Pill>, b: seq<Pill>, v: string)
    requires |a| == |b| && forall i :: 0 <= i < |a| ==> a[i].labelId == b[i].labelId
    ensures FirstPill(a, v) == FirstPill(b, v)
  {
    if a != [] {
      FirstPillSameIds(a[1..], b[1..], v);
    }
  }

  lemma ToggleKeepsSync(before: seq<Pill>, after: seq<Pill>, opts: seq<SelectOption>, options: seq<SelectOption>, k: int, id: string, state: bool)
    requires 0 <= k < |before| && FirstPill(before, id) == k
    requires after == before[k := Pill(id, state)]
    requires forall v :: FirstPill(after, v) == FirstPill(before, v)
    requires |options| == |opts|
    requires forall i :: 0 <= i < |opts| ==> options[i].value == opts[i].value
    requires forall i :: 0 <= i < |opts| ==> options[i].selected == if opts[i].value == id then state else opts[i].selected
    ensures Synced(before, opts) ==> Synced(after, options)
  {
    if Synced(before, opts) {
      forall j | 0 <= j < |options| && FirstPill(after, options[j].value) >= 0
        ensures options[j].selected == after[FirstPill(after, options[j].value)].selected
      {
        var v := options[j].value;
        assert FirstPill(after, v) == FirstPill(before, v);
        if v != id {
          assert FirstPill(before, v) != k;
        }
      }
    }
  }

  // ---------------------------------------------------------------------------
  // filterBudgets
  // ---------------------------------------------------------------------------

  /** The budget status class a card carries. */
  datatype Status = OverStatus | WarningStatus | OkStatus

  /**
   * A budget card as the filter reads it: whether it carries data-inactive,
   * data-period, its status class, the category name, data-amount and
   * data-usage (as parsed numbers), and its display.
   */
  datatype BudgetCard = BudgetCard(inactive: bool, period: string, status: Status, name: string, amount: real, usage: real, displayed: bool)

  datatype SortKey = ByName | ByAmount | ByUsage

  /** The status, period, usage and sort selects. */
  datatype BudgetFilter = BudgetFilter(status: string, period: string, usage: string, sort: string)

  /** 'name' and 'amount' pick those orders; any other value sorts by usage. */
  function SortKeyOf(sort: string): SortKey {
    if sort == "name" then ByName else if sort == "amount" then ByAmount else ByUsage
  }

  /** A card passes when the status, period and usage filters all do; an unrecognised value does not filter. */
  predicate Shows(f: BudgetFilter, c: BudgetCard) {
    (if f.status == "active" then !c.inactive else if f.status == "inactive" then c.inactive else true)
    && (f.period == "all" || c.period == f.period)
    && (if f.usage == "over" then c.status == OverStatus
        else if f.usage == "warning" then c.status == WarningStatus
        else if f.usage == "ok" then c.status == OkStatus
        else true)
  }

  /** a may stay ahead of b: names ascending, amounts descending, usage descending. */
  predicate InOrder(key: SortKey, a: BudgetCard, b: BudgetCard) {
    match key
    case ByName => !LexLess(b.name, a.name)
    case ByAmount => a.amount >= b.amount
    case ByUsage => a.usage >= b.usage
  }

  lemma InOrderTotal(key: SortKey, a: BudgetCard, b: BudgetCard)
    ensures InOrder(key, a, b) || InOrder(key, b, a)
  {
    if key == ByName {
      LexLessTotal(a.name, b.name);
    }
  }

  predicate Sorted(key: SortKey, xs: seq<BudgetCard>) {
    forall i :: 0 <= i < |xs| - 1 ==> InOrder(key, xs[i], xs[i + 1])
  }

  /** Insertion of one card ahead of the first card it may precede. */
  function Insert(key: SortKey, x: BudgetCard, xs: seq<BudgetCard>): (r: seq<BudgetCard>)
    ensures multiset(r) == multiset(xs) + multiset{x}
    ensures |r| == |xs| + 1
    ensures r[0] == x || (xs != [] && r[0] == xs[0])
  {
    if xs == [] then [x]
    else if InOrder(key, x, xs[0]) then [x] + xs
    else
      assert xs == [xs[0]] + xs[1..];
      [xs[0]] + Insert(key, x, xs[1..])
  }

  lemma {:induction false} InsertSorted(key: SortKey, x: BudgetCard, xs: seq<BudgetCard>)
    requires Sorted(key, xs)
    ensures Sorted(key, Insert(key, x, xs))
  {
    if xs != [] && !InOrder(key, x, xs[0]) {
      InOrderTotal(key, x, xs[0]);
      assert Sorted(key, xs[1..]) by {
        forall i | 0 <= i < |xs[1..]| - 1
          ensures InOrder(key, xs[1..][i], xs[1..][i + 1])
        {
          assert xs[1..][i] == xs[i + 1] && xs[1..][i + 1] == xs[i + 2];
        }
      }
      InsertSorted(key, x, xs[1..]);
    }
  }

  /** The visible cards in the comparator's order. */
  function SortBy(key: SortKey, xs: seq<BudgetCard>): (r: seq<BudgetCard>)
    ensures multiset(r) == multiset(xs)
  {
    if xs == [] then []
    else
      assert xs == [xs[0]] + xs[1..];
      Insert(key, xs[0], SortBy(key, xs[1..]))
  }

  /** The comparator's order holds between neighbours of the sorted cards. */
  lemma {:induction false} SortBySorted(key: SortKey, xs: seq<BudgetCard>)
    ensures Sorted(key, SortBy(key, xs))
  {
    if xs != [] {
      SortBySorted(key, xs[1..]);
      InsertSorted(key, xs[0], SortBy(key, xs[1..]));
    }
  }

  /** The cards with the filter's display applied. */
  function Displayed(f: BudgetFilter, cards: seq<BudgetCard>): (r: seq<BudgetCard>)
    ensures |r| == |cards|
  {
    if cards == [] then [] else [cards[0].(displayed := Shows(f, cards[0]))] + Displayed(f, cards[1..])
  }

  /** The cards with the given display, in page order. */
  function WithDisplay(cards: seq<BudgetCard>, shown: bool): seq<BudgetCard> {
    if cards == [] then []
    else if cards[0].displayed == shown then [cards[0]] + WithDisplay(cards[1..], shown)
    else WithDisplay(cards[1..], shown)
  }

  lemma {:induction false} WithDisplaySplits(cards: seq<BudgetCard>)
    ensures multiset(WithDisplay(cards, false)) + multiset(WithDisplay(cards, true)) == multiset(cards)
  {
    if cards != [] {
      WithDisplaySplits(cards[1..]);
      assert cards == [cards[0]] + cards[1..];
    }
  }

  lemma {:induction false} WithDisplayMembers(cards: seq<BudgetCard>, shown: bool)
    ensures forall c :: c in WithDisplay(cards, shown) ==> c.displayed == shown && c in cards
  {
    if cards != [] {
      WithDisplayMembers(cards[1..], shown);
    }
  }

  /** The display loop of `filterBudgets`. */
  method ApplyDisplay(cards: seq<BudgetCard>, f: BudgetFilter) returns (shown: seq<BudgetCard>)
    ensures shown == Displayed(f, cards)
  {
    shown := [];
    for i := 0 to |cards|
      invariant shown == Displayed(f, cards[..i])
    {
      DisplayedAppend(f, cards[..i], cards[i]);
      assert cards[..i + 1] == cards[..i] + [cards[i]];
      shown := shown + [cards[i].(displayed := Shows(f, cards[i]))];
    }
    assert cards[..|cards|] == cards;
  }

  /** `visibleCards.forEach(card => grid.appendChild(card))`: each card moves to the end, in turn. */
  method AppendAll(grid: seq<BudgetCard>, moved: seq<BudgetCard>) returns (out: seq<BudgetCard>)
    ensures out == grid + moved
  {
    out := grid;
    for i := 0 to |moved|
      invariant out == grid + moved[..i]
    {
      assert moved[..i + 1] == moved[..i] + [moved[i]];
      out := out + [moved[i]];
    }
    assert moved[..|moved|] == moved;
  }

  /**
   * `filterBudgets`: every card's display is set, then the visible cards are
   * sorted and appended to the grid in that order, which moves them after
   * the hidden ones.
   */
  method FilterBudgets(cards: seq<BudgetCard>, f: BudgetFilter) returns (grid: seq<BudgetCard>)
    ensures grid == WithDisplay(Displayed(f, cards), false) + SortBy(SortKeyOf(f.sort), WithDisplay(Displayed(f, cards), true))
  {
    var shown := ApplyDisplay(cards, f);
    var sorted := SortBy(SortKeyOf(f.sort), WithDisplay(shown, true));
    grid := AppendAll(WithDisplay(shown, false), sorted);
  }

  lemma {:induction false} DisplayedAppend(f: BudgetFilter, a: seq<BudgetCard>, c: BudgetCard)
    ensures Displayed(f, a + [c]) == Displayed(f, a) + [c.(displayed := Shows(f, c))]
  {
    if a != [] {
      assert (a + [c])[1..] == a[1..] + [c];
      DisplayedAppend(f, a[1..], c);
    } else {
      assert a + [c] == [c];
    }
  }

  /**
   * The re-ordered grid still holds every card exactly once, the visible
   * cards come last in the comparator's order, and each visible card passes
   * the filter.
   */
  lemma FilterBudgetsKeepsCards(f: BudgetFilter, cards: seq<BudgetCard>)
    ensures var d := Displayed(f, cards);
      multiset(WithDisplay(d, false) + SortBy(SortKeyOf(f.sort), WithDisplay(d, true))) == multiset(d)
    ensures Sorted(SortKeyOf(f.sort), SortBy(SortKeyOf(f.sort), WithDisplay(Displayed(f, cards), true)))
    ensures forall c :: c in SortBy(SortKeyOf(f.sort), WithDisplay(Displayed(f, cards), true)) ==> c.displayed
  {
    var d := Displayed(f, cards);
    WithDisplaySplits(d);
    SortBySorted(SortKeyOf(f.sort), WithDisplay(d, true));
    var s := SortBy(SortKeyOf(f.sort), WithDisplay(d, true));
    WithDisplayMembers(d, true);
    forall c | c in s
      ensures c.displayed
    {
      assert c in multiset(s);
    }
  }

  /** A displayed card passes the filter, and a hidden one fails it. */
  lemma {:induction false} DisplayMeansPasses(f: BudgetFilter, cards: seq<BudgetCard>, i: int)
    requires 0 <= i < |cards|
    ensures Displayed(f, cards)[i] == cards[i].(displayed := Shows(f, cards[i]))
    ensures Displayed(f, cards)[i].displayed <==> Shows(f, cards[i])
  {
    if i > 0 {
      DisplayMeansPasses(f, cards[1..], i - 1);
    }
  }

  // ---------------------------------------------------------------------------
  // updateBudgetCard
  // ---------------------------------------------------------------------------

  /** The figures a refresh delivers for one budget. */
  datatype BudgetData = BudgetData(isOver: bool, percentUsed: real, remaining: real)

  /** over-budget when over, else warning from 80 per cent up, else ok; the bar and the colour follow the same rule. */
  function StatusOf(d: BudgetData): (s: Status)
    ensures s == OverStatus <==> d.isOver
    ensures s == WarningStatus <==> !d.isOver && d.percentUsed >= 80.0
  {
    if d.isOver then OverStatus else if d.percentUsed >= 80.0 then WarningStatus else OkStatus
  }

  function BarClass(s: Status): string {
    match s
    case OverStatus => "over"
    case WarningStatus => "warning"
    case OkStatus => "ok"
  }

  function PercentColor(s: Status): string {
    match s
    case OverStatus => "#ef4444"
    case WarningStatus => "#f59e0b"
    case OkStatus => "#16a34a"
  }

  /** The bar width: the percentage, capped at 100. */
  function Width(pct: real): (w: real)
    ensures w <= 100.0 && w <= pct && (w == pct || w == 100.0)
  {
    if pct > 100.0 then 100.0 else pct
  }

  /** The parts of a card that a refresh rewrites. */
  class BudgetCardView {
    var status: Status
    var barWidth: real
    var barClass: string
    var percentColor: string
    var spentOver: bool
    var remainingOk: bool

    constructor ()
      ensures status == OkStatus && barWidth == 0.0 && barClass == "ok" && percentColor == PercentColor(OkStatus) && !spentOver && remainingOk
    {
      status, barWidth, barClass, percentColor := OkStatus, 0.0, "ok", PercentColor(OkStatus);
      spentOver, remainingOk := false, true;
    }

    /** `updateBudgetCard`: exactly one status class, the bar and colour by the same rule, spent over iff over, remaining ok iff not negative. */
    method UpdateBudgetCard(d: BudgetData)
      modifies this
      ensures status == StatusOf(d) && barClass == BarClass(status) && percentColor == PercentColor(status)
      ensures barWidth == Width(d.percentUsed)
      ensures spentOver == d.isOver
      ensures remainingOk <==> d.remaining >= 0.0
    {
      if d.isOver {
        status := OverStatus;
      } else if d.percentUsed >= 80.0 {
        status := WarningStatus;
      } else {
        status := OkStatus;
      }
      barWidth := if d.percentUsed > 100.0 then 100.0 else d.percentUsed;
      barClass := BarClass(status);
      percentColor := PercentColor(status);
      spentOver := d.isOver;
      remainingOk := d.remaining >= 0.0;
    }
  }

  /**
   * The status follows `is_over` before the percentage: an over-budget flag
   * wins at any percentage, and without it 80 per cent is already a warning.
   */
  lemma StatusPrecedence(pct: real, remaining: real)
    ensures StatusOf(BudgetData(true, pct, remaining)) == OverStatus
    ensures StatusOf(BudgetData(false, 80.0, remaining)) == WarningStatus
    ensures pct < 80.0 ==> StatusOf(BudgetData(false, pct, remaining)) == OkStatus
  {
  }

  /** The three renderings of the status never disagree: bar class and colour determine the status. */
  lemma RenderingsAgree(a: Status, b: Status)
    ensures BarClass(a) == BarClass(b) <==> a == b
    ensures PercentColor(a) == PercentColor(b) <==> a == b
  {
  }

  // ---------------------------------------------------------------------------
  // Delete dialog state
  // ---------------------------------------------------------------------------

  /** The form `deleteBudget` submits, if any. */
  datatype Submission = NoSubmit | BulkDelete(budgetIds: string) | SingleDelete(budgetId: int)

  class DeleteDialog {
    /** currentDeleteId: None for null; 0 is falsy and deletes nothing. */
    var currentDeleteId: Option<int>
    var currentDeleteIds: seq<string>

    constructor ()
      ensures currentDeleteId == None && currentDeleteIds == []
    {
      currentDeleteId := None;
      currentDeleteIds := [];
    }

    /** `confirmDelete`: a single budget is pending and any bulk selection is dropped. */
    method ConfirmDelete(budgetId: int)
      modifies this
      ensures currentDeleteId == Some(budgetId) && currentDeleteIds == []
    {
      currentDeleteId := Some(budgetId);
      currentDeleteIds := [];
    }

    /** `confirmBulkDelete`: with nothing checked nothing changes; otherwise the checked ids are pending and the single id is dropped. */
    method ConfirmBulkDelete(checkedIds: seq<string>)
      modifies this
      ensures checkedIds == [] ==> currentDeleteId == old(currentDeleteId) && currentDeleteIds == old(currentDeleteIds)
      ensures checkedIds != [] ==> currentDeleteId == None && currentDeleteIds == checkedIds
    {
      if checkedIds == [] {
        return;
      }
      currentDeleteIds := checkedIds;
      currentDeleteId := None;
    }

    /** `closeDeleteModal`: both pending selections are cleared. */
    method CloseDeleteModal()
      modifies this
      ensures currentDeleteId == None && currentDeleteIds == []
    {
      currentDeleteId := None;
      currentDeleteIds := [];
    }

    /** `deleteBudget`: bulk when ids are pending, else single when the id is truthy, else nothing. */
    method DeleteBudget() returns (s: Submission)
      ensures currentDeleteIds != [] ==> s == BulkDelete(Join(currentDeleteIds, ","))
      ensures currentDeleteIds == [] && currentDeleteId.Some? && currentDeleteId.value != 0 ==> s == SingleDelete(currentDeleteId.value)
      ensures currentDeleteIds == [] && (currentDeleteId.None? || currentDeleteId.value == 0) ==> s == NoSubmit
    {
      if |currentDeleteIds| > 0 {
        s := BulkDelete(Join(currentDeleteIds, ","));
      } else if currentDeleteId.Some? && currentDeleteId.value != 0 {
        s := SingleDelete(currentDeleteId.value);
      } else {
        s := NoSubmit;
      }
    }
  }

  /** Confirming one budget after a bulk selection deletes only that budget. */
  method SingleAfterBulk(dialog: DeleteDialog, checkedIds: seq<string>, budgetId: int) returns (s: Submission)
    requires budgetId != 0
    modifies dialog
    ensures s == SingleDelete(budgetId)
  {
    dialog.ConfirmBulkDelete(checkedIds);
    dialog.ConfirmDelete(budgetId);
    s := dialog.DeleteBudget();
  }

  /** Confirming a bulk selection after a single budget deletes the selection, not the single budget. */
  method BulkAfterSingle(dialog: DeleteDialog, budgetId: int, checkedIds: seq<string>) returns (s: Submission)
    requires checkedIds != []
    modifies dialog
    ensures s == BulkDelete(Join(checkedIds, ","))
  {
    dialog.ConfirmDelete(budgetId);
    dialog.ConfirmBulkDelete(checkedIds);
    s := dialog.DeleteBudget();
  }
}
