/**
 * Projects (cost centres) and their money: what a project takes in and
 * pays out, from transactions allotted to it by hand and transactions
 * carrying one of its labels, rolled up over its sub-projects; budget
 * variance, schedule progress, milestone and budget-category figures; the
 * profit and loss grouped by label; and milestone status upkeep.
 *
 * The transaction table is a sequence whose positions are the transaction
 * ids. Amounts are pence; allotted shares of an amount are reals.
 */
module Projects {
  import opened Wrappers
  import opened Dates
  import opened Ledger
  import opened Money

  /** Money in and money out. */
  datatype Flow = Flow(inflow: real, outflow: real)

  const NoFlow := Flow(0.0, 0.0)

  function Plus(a: Flow, b: Flow): Flow {
    Flow(a.inflow + b.inflow, a.outflow + b.outflow)
  }

  /** An amount counted as inflow or as outflow according to the direction. */
  function Directed(d: Direction, amount: real): Flow {
    if d == Inflow then Flow(amount, 0.0) else Flow(0.0, amount)
  }

  /** A manual allocation of a share (in percent) of transaction `tx` to a project. */
  datatype Allocation = Allocation(project: nat, tx: nat, pct: real)

  /** Every allocation refers to a transaction of the table. */
  predicate Linked(allocs: seq<Allocation>, txs: seq<Transaction>) {
    forall i :: 0 <= i < |allocs| ==> allocs[i].tx < |txs|
  }

  datatype MilestoneStatus = MilestonePending | MilestoneCompleted | MilestoneOverdue | MilestoneOther(name: string)

  /** A budget category of a project: an allotted amount and the labels whose spending it tracks. */
  datatype Category = Category(id: nat, name: string, allotted: real, labels: set<nat>)

  datatype Project = Project(
    id: nat,
    user: nat,
    labels: set<nat>,
    start: Option<CalDate>,
    end: Option<CalDate>,
    budget: Option<real>,
    milestones: seq<MilestoneStatus>,
    categories: seq<Category>,
    subs: seq<Project>)

  /** The project's optional date bounds, both inclusive. */
  predicate InWindow(d: CalDate, start: Option<CalDate>, end: Option<CalDate>) {
    (start.None? || !Before(d, start.value)) && (end.None? || !Before(end.value, d))
  }

  /** The share of each allocation to project `pid`, by direction. */
  function ManualFlow(allocs: seq<Allocation>, txs: seq<Transaction>, pid: nat): Flow
    requires Linked(allocs, txs)
  {
    if allocs == [] then NoFlow
    else
      var a := allocs[|allocs| - 1];
      var rest := ManualFlow(allocs[..|allocs| - 1], txs, pid);
      if a.project == pid then Plus(rest, Directed(txs[a.tx].direction, txs[a.tx].amount as real * (a.pct / 100.0)))
      else rest
  }

  /** The transactions allotted to project `pid` by hand. */
  function AllocatedTo(allocs: seq<Allocation>, pid: nat): set<nat> {
    set a | a in allocs && a.project == pid :: a.tx
  }

  /**
   * A transaction counted for the project through its labels: the
   * project's owner, one of the project's labels, within the project's
   * dates, and not allotted by hand.
   */
  predicate AutoMatch(p: Project, t: Transaction, id: nat, allotted: set<nat>) {
    t.user == p.user && t.labelId.Some? && t.labelId.value in p.labels
    && id !in allotted && InWindow(t.date, p.start, p.end)
  }

  /** The full amounts of the label-matched transactions among the first k. */
  function AutoFlow(p: Project, txs: seq<Transaction>, allotted: set<nat>, k: nat): Flow
    requires k <= |txs|
  {
    if k == 0 then NoFlow
    else
      var rest := AutoFlow(p, txs, allotted, k - 1);
      if AutoMatch(p, txs[k - 1], k - 1, allotted) then Plus(rest, Directed(txs[k - 1].direction, txs[k - 1].amount as real))
      else rest
  }

  /** A project's own flow: its allocations plus its label-matched transactions. */
  function OwnFlow(p: Project, allocs: seq<Allocation>, txs: seq<Transaction>): Flow
    requires Linked(allocs, txs)
  {
    Plus(ManualFlow(allocs, txs, p.id), AutoFlow(p, txs, AllocatedTo(allocs, p.id), |txs|))
  }

  /** The flow of a project with all its sub-projects: its own plus each sub-project's, recursively. */
  function TreeFlow(p: Project, allocs: seq<Allocation>, txs: seq<Transaction>): Flow
    requires Linked(allocs, txs)
    decreases p, 1
  {
    Plus(OwnFlow(p, allocs, txs), ChildrenFlow(p, allocs, txs, |p.subs|))
  }

  /** The flows of the first k sub-projects. */
  function ChildrenFlow(p: Project, allocs: seq<Allocation>, txs: seq<Transaction>, k: nat): Flow
    requires Linked(allocs, txs) && k <= |p.subs|
    decreases p, 0, k
  {
    if k == 0 then NoFlow
    else Plus(ChildrenFlow(p, allocs, txs, k - 1), TreeFlow(p.subs[k - 1], allocs, txs))
  }

  /** The project and its descendants, parent first, sub-projects in order. */
  function Flatten(p: Project): (r: seq<Project>)
    ensures |r| > 0 && r[0] == p
    decreases p, 1
  {
    [p] + FlattenChildren(p, |p.subs|)
  }

  function FlattenChildren(p: Project, k: nat): seq<Project>
    requires k <= |p.subs|
    decreases p, 0, k
  {
    if k == 0 then [] else FlattenChildren(p, k - 1) + Flatten(p.subs[k - 1])
  }

  /** The own flows of a list of projects, added up. */
  function SumOwn(ps: seq<Project>, allocs: seq<Allocation>, txs: seq<Transaction>): Flow
    requires Linked(allocs, txs)
  {
    if ps == [] then NoFlow else Plus(SumOwn(ps[..|ps| - 1], allocs, txs), OwnFlow(ps[|ps| - 1], allocs, txs))
  }

  lemma {:induction false} SumOwnConcat(a: seq<Project>, b: seq<Project>, allocs: seq<Allocation>, txs: seq<Transaction>)
    requires Linked(allocs, txs)
    ensures SumOwn(a + b, allocs, txs) == Plus(SumOwn(a, allocs, txs), SumOwn(b, allocs, txs))
    decreases |b|
  {
    if b != [] {
      assert (a + b)[..|a + b| - 1] == a + b[..|b| - 1];
      SumOwnConcat(a, b[..|b| - 1], allocs, txs);
    } else {
      assert a + b == a;
    }
  }

  /** The rolled-up flow is the sum of the own flows of the project and every descendant. */
  lemma {:induction false} TreeFlowSumsSubtree(p: Project, allocs: seq<Allocation>, txs: seq<Transaction>)
    requires Linked(allocs, txs)
    ensures TreeFlow(p, allocs, txs) == SumOwn(Flatten(p), allocs, txs)
    decreases p, 1
  {
    var kids := FlattenChildren(p, |p.subs|);
    ChildrenFlowSums(p, allocs, txs, |p.subs|);
    SumOwnConcat([p], kids, allocs, txs);
    assert SumOwn([p], allocs, txs) == Plus(NoFlow, OwnFlow(p, allocs, txs));
  }

  lemma {:induction false} ChildrenFlowSums(p: Project, allocs: seq<Allocation>, txs: seq<Transaction>, k: nat)
    requires Linked(allocs, txs) && k <= |p.subs|
    ensures ChildrenFlow(p, allocs, txs, k) == SumOwn(FlattenChildren(p, k), allocs, txs)
    decreases p, 0, k
  {
    if k > 0 {
      ChildrenFlowSums(p, allocs, txs, k - 1);
      TreeFlowSumsSubtree(p.subs[k - 1], allocs, txs);
      SumOwnConcat(FlattenChildren(p, k - 1), Flatten(p.subs[k - 1]), allocs, txs);
    }
  }

  /** Budget variance, its absolute value, and the share of the budget used. */
  datatype BudgetFigures = BudgetFigures(variance: Option<real>, varianceAbs: Option<real>, usagePct: Option<real>)

  /**
   * No figures without a budget or with a zero one; otherwise the variance
   * budget − outflow and its absolute value, and for a positive budget the
   * outflow as a percentage of it.
   */
  function Figures(budget: Option<real>, outflow: real): (r: BudgetFigures)
    ensures budget.None? || budget.value == 0.0 ==> r == BudgetFigures(None, None, None)
    ensures budget.Some? && budget.value != 0.0 ==>
      r.variance == Some(budget.value - outflow) && r.varianceAbs == Some(Abs(budget.value - outflow))
    ensures r.usagePct.Some? <==> budget.Some? && budget.value > 0.0
    ensures r.usagePct.Some? ==> r.usagePct.value * budget.value == outflow * 100.0
  {
    if budget.None? || budget.value == 0.0 then BudgetFigures(None, None, None)
    else
      var v := budget.value - outflow;
      BudgetFigures(Some(v), Some(if v < 0.0 then -v else v),
        if budget.value > 0.0 then Some(outflow / budget.value * 100.0) else None)
  }

  /** Schedule progress in percent and the days left until the end date. */
  datatype Schedule = Schedule(progress: int, daysRemaining: int, daysRemainingAbs: int)

  /**
   * Only a project with both dates has a schedule. Progress is 0 before
   * the start, 100 after the end, and in between the floor of the elapsed
   * share of the inclusive span, below 100. The days remaining are the days
   * from today to the end date, negative once the end has passed. When
   * the end date lies before the start, a day before the start counts as
   * 0 even though it is past the end.
   */
  function ScheduleOf(start: Option<CalDate>, end: Option<CalDate>, today: CalDate): (r: Option<Schedule>)
    ensures r.Some? <==> start.Some? && end.Some?
    ensures r.Some? ==> 0 <= r.value.progress <= 100
    ensures r.Some? && r.value.progress == 100 ==> Before(end.value, today)
    ensures r.Some? && !Before(end.value, start.value) ==> (r.value.progress == 100 <==> Before(end.value, today))
    ensures r.Some? && Before(today, start.value) ==> r.value.progress == 0
    ensures r.Some? ==> r.value.daysRemaining == DaysBetween(today, end.value)
    ensures r.Some? ==> (r.value.daysRemaining < 0 <==> Before(end.value, today))
    ensures r.Some? ==> r.value.daysRemainingAbs == (if r.value.daysRemaining < 0 then -r.value.daysRemaining else r.value.daysRemaining)
  {
    if start.None? || end.None? then None
    else
      var s, e := start.value, end.value;
      BeforeIffFewerDays(e, today);
      BeforeIffFewerDays(today, s);
      BeforeIffFewerDays(e, s);
      var total := DaysBetween(s, e) + 1;
      if Before(today, s) then
        var left := DaysBetween(today, e);
        Some(Schedule(0, left, if left < 0 then -left else left))
      else if Before(e, today) then
        var left := DaysBetween(e, today) * -1;
        Some(Schedule(100, left, if left < 0 then -left else left))
      else
        var elapsed := DaysBetween(s, today);
        var left := DaysBetween(today, e);
        PercentOf(elapsed, total);
        Some(Schedule(if total > 0 then elapsed * 100 / total else 0, left, if left < 0 then -left else left))
  }

  function CountCompleted(ms: seq<MilestoneStatus>): (n: nat)
    ensures n <= |ms|
  {
    if ms == [] then 0 else CountCompleted(ms[..|ms| - 1]) + (if ms[|ms| - 1] == MilestoneCompleted then 1 else 0)
  }

  /** Milestone progress: none without milestones, else the floor of the completed share in percent. */
  function MilestoneProgress(ms: seq<MilestoneStatus>): (r: Option<int>)
    ensures r.None? <==> ms == []
    ensures r.Some? ==> 0 <= r.value <= 100 && (r.value == 100 <==> CountCompleted(ms) == |ms|)
  {
    if ms == [] then None
    else
      PercentOf(CountCompleted(ms), |ms|);
      Some(CountCompleted(ms) * 100 / |ms|)
  }

  /** A transaction a budget category spends: the project owner's outflow, with one of the category's labels, within the project's dates. */
  predicate Spends(p: Project, c: Category, t: Transaction) {
    t.user == p.user && t.labelId.Some? && t.labelId.value in c.labels
    && t.direction == Outflow && InWindow(t.date, p.start, p.end)
  }

  /** The pence spent by a category among the first k transactions. */
  function CategorySpent(p: Project, c: Category, txs: seq<Transaction>, k: nat): int
    requires k <= |txs|
  {
    if k == 0 then 0
    else CategorySpent(p, c, txs, k - 1) + (if Spends(p, c, txs[k - 1]) then txs[k - 1].amount else 0)
  }

  /** A category without labels spends nothing. */
  lemma {:induction false} UnlabelledCategorySpendsNothing(p: Project, c: Category, txs: seq<Transaction>, k: nat)
    requires c.labels == {} && k <= |txs|
    ensures CategorySpent(p, c, txs, k) == 0
  {
    if k > 0 {
      UnlabelledCategorySpendsNothing(p, c, txs, k - 1);
    }
  }

  /** `_calculate_category_spending`: the amounts of the transactions the category spends. */
  method CalculateCategorySpending(p: Project, c: Category, txs: seq<Transaction>) returns (spent: int)
    ensures spent == CategorySpent(p, c, txs, |txs|)
  {
    if c.labels == {} {
      UnlabelledCategorySpendsNothing(p, c, txs, |txs|);
      return 0;
    }
    spent := 0;
    for k := 0 to |txs|
      invariant spent == CategorySpent(p, c, txs, k)
    {
      if Spends(p, c, txs[k]) {
        spent := spent + txs[k].amount;
      }
    }
  }

  /** What a project listing shows for one budget category. */
  datatype CategoryData = CategoryData(id: nat, name: string, allotted: real, spent: real, remaining: real, usagePct: real)

  /** The remaining amount is allotted − spent; usage is the spent share in percent, 0 without a positive allocation. */
  function CategoryFigures(c: Category, spent: real): (r: CategoryData)
    ensures r.remaining + r.spent == r.allotted && r.spent == spent
    ensures c.allotted > 0.0 ==> r.usagePct * c.allotted == spent * 100.0
    ensures c.allotted <= 0.0 ==> r.usagePct == 0.0
  {
    CategoryData(c.id, c.name, c.allotted, spent, c.allotted - spent,
      if c.allotted > 0.0 then spent / c.allotted * 100.0 else 0.0)
  }

  /** What a project listing shows for one project. */
  datatype ProjectData = ProjectData(
    id: nat,
    flow: Flow,
    net: real,
    figures: BudgetFigures,
    schedule: Option<Schedule>,
    milestoneProgress: Option<int>,
    milestonesCompleted: nat,
    milestonesTotal: nat,
    categories: seq<CategoryData>,
    subs: seq<ProjectData>)

  /** The own flow of a project: the allocation loop, then the label loop. */
  method OwnTotals(p: Project, allocs: seq<Allocation>, txs: seq<Transaction>) returns (f: Flow)
    requires Linked(allocs, txs)
    ensures f == OwnFlow(p, allocs, txs)
  {
    var manual := NoFlow;
    for k := 0 to |allocs|
      invariant manual == ManualFlow(allocs[..k], txs, p.id)
    {
      var a := allocs[k];
      assert allocs[..k + 1][..k] == allocs[..k];
      if a.project == p.id {
        var t := txs[a.tx];
        manual := Plus(manual, Directed(t.direction, t.amount as real * (a.pct / 100.0)));
      }
    }
    assert allocs[..|allocs|] == allocs;
    var allotted := AllocatedTo(allocs, p.id);
    var auto := NoFlow;
    if p.labels != {} {
      for k := 0 to |txs|
        invariant auto == AutoFlow(p, txs, allotted, k)
      {
        if AutoMatch(p, txs[k], k, allotted) {
          auto := Plus(auto, Directed(txs[k].direction, txs[k].amount as real));
        }
      }
    } else {
      NoLabelsNoAutoFlow(p, txs, allotted, |txs|);
    }
    f := Plus(manual, auto);
  }

  lemma {:induction false} NoLabelsNoAutoFlow(p: Project, txs: seq<Transaction>, allotted: set<nat>, k: nat)
    requires p.labels == {} && k <= |txs|
    ensures AutoFlow(p, txs, allotted, k) == NoFlow
  {
    if k > 0 {
      NoLabelsNoAutoFlow(p, txs, allotted, k - 1);
    }
  }

  /** The category figures of a project, in category order. */
  method CategoriesOf(p: Project, txs: seq<Transaction>) returns (cs: seq<CategoryData>)
    ensures |cs| == |p.categories|
    ensures forall i :: 0 <= i < |cs| ==>
      cs[i] == CategoryFigures(p.categories[i], CategorySpent(p, p.categories[i], txs, |txs|) as real)
  {
    cs := [];
    for i := 0 to |p.categories|
      invariant |cs| == i
      invariant forall j :: 0 <= j < i ==>
        cs[j] == CategoryFigures(p.categories[j], CategorySpent(p, p.categories[j], txs, |txs|) as real)
    {
      var spent := CalculateCategorySpending(p, p.categories[i], txs);
      cs := cs + [CategoryFigures(p.categories[i], spent as real)];
    }
  }

  /**
   * `_calculate_project_data`: the own flow, plus with sub-projects each
   * sub-project's rolled-up data; then the net, the budget figures, the
   * schedule, the milestone and category figures.
   */
  method CalculateProjectData(p: Project, allocs: seq<Allocation>, txs: seq<Transaction>, includeSubs: bool, today: CalDate)
    returns (d: ProjectData)
    requires Linked(allocs, txs)
    ensures d.id == p.id
    ensures d.flow == if includeSubs then TreeFlow(p, allocs, txs) else OwnFlow(p, allocs, txs)
    ensures d.net == d.flow.inflow - d.flow.outflow
    ensures d.figures == Figures(p.budget, d.flow.outflow)
    ensures d.schedule == ScheduleOf(p.start, p.end, today)
    ensures d.milestoneProgress == MilestoneProgress(p.milestones)
    ensures d.milestonesCompleted == CountCompleted(p.milestones) && d.milestonesTotal == |p.milestones|
    ensures |d.categories| == |p.categories|
    ensures |d.subs| == if includeSubs then |p.subs| else 0
    ensures forall i :: 0 <= i < |d.subs| ==> d.subs[i].id == p.subs[i].id && d.subs[i].flow == TreeFlow(p.subs[i], allocs, txs)
    decreases p
  {
    var flow := OwnTotals(p, allocs, txs);
    var subs: seq<ProjectData> := [];
    if includeSubs {
      for i := 0 to |p.subs|
        invariant flow == Plus(OwnFlow(p, allocs, txs), ChildrenFlow(p, allocs, txs, i))
        invariant |subs| == i
        invariant forall j :: 0 <= j < i ==> subs[j].id == p.subs[j].id && subs[j].flow == TreeFlow(p.subs[j], allocs, txs)
      {
        var sub := CalculateProjectData(p.subs[i], allocs, txs, true, today);
        subs := subs + [sub];
        flow := Plus(flow, sub.flow);
      }
    }
    var categories := CategoriesOf(p, txs);
    d := ProjectData(p.id, flow, flow.inflow - flow.outflow, Figures(p.budget, flow.outflow),
      ScheduleOf(p.start, p.end, today), MilestoneProgress(p.milestones),
      if p.milestones == [] then 0 else CountCompleted(p.milestones), |p.milestones|, categories, subs);
  }

  /** The ids of a project and all its descendants. */
  function SubtreeIds(p: Project): set<nat>
    decreases p, 1
  {
    {p.id} + ChildrenIds(p, |p.subs|)
  }

  function ChildrenIds(p: Project, k: nat): set<nat>
    requires k <= |p.subs|
    decreases p, 0, k
  {
    if k == 0 then {} else ChildrenIds(p, k - 1) + SubtreeIds(p.subs[k - 1])
  }

  /** Carries one of the project's own labels, belongs to its owner and falls within its dates. */
  predicate LabelledFor(p: Project, t: Transaction) {
    t.user == p.user && t.labelId.Some? && t.labelId.value in p.labels && InWindow(t.date, p.start, p.end)
  }

  /**
   * `get_project_transactions`: the transactions allotted by hand to the
   * project or any descendant, and those matched through the project's own
   * labels that are not already among them.
   */
  function ProjectTransactionIds(p: Project, allocs: seq<Allocation>, txs: seq<Transaction>): (r: set<nat>)
    ensures forall i :: i in r <==>
      (exists a :: a in allocs && a.project in SubtreeIds(p) && a.tx == i)
      || (0 <= i < |txs| && LabelledFor(p, txs[i]))
  {
    var ids := SubtreeIds(p);
    var allotted := set a | a in allocs && a.project in ids :: a.tx;
    if p.labels != {} then
      allotted + set i | 0 <= i < |txs| && LabelledFor(p, txs[i]) && i !in allotted
    else allotted
  }

  /** One label's total in a profit and loss statement. */
  datatype Group = Group(name: string, total: real)

  function Names(gs: seq<Group>): seq<string> {
    if gs == [] then [] else Names(gs[..|gs| - 1]) + [gs[|gs| - 1].name]
  }

  /** `d[name] = d.get(name, 0) + amount` on an insertion-ordered dict. */
  function Bump(gs: seq<Group>, name: string, amount: real): (r: seq<Group>)
    ensures |r| == |gs| || |r| == |gs| + 1
  {
    if gs == [] then [Group(name, amount)]
    else if gs[0].name == name then [Group(name, gs[0].total + amount)] + gs[1..]
    else [gs[0]] + Bump(gs[1..], name, amount)
  }

  function GroupsTotal(gs: seq<Group>): real {
    if gs == [] then 0.0 else gs[0].total + GroupsTotal(gs[1..])
  }

  predicate DistinctNames(gs: seq<Group>) {
    forall i, j :: 0 <= i < j < |gs| ==> gs[i].name != gs[j].name
  }

  /** Bumping a group adds the amount to the grand total and keeps one group per name. */
  lemma {:induction false} BumpAdds(gs: seq<Group>, name: string, amount: real)
    ensures GroupsTotal(Bump(gs, name, amount)) == GroupsTotal(gs) + amount
    ensures DistinctNames(gs) ==> DistinctNames(Bump(gs, name, amount))
    ensures forall g :: g in Bump(gs, name, amount) ==> g.name == name || g.name in NamesOf(gs)
  {
    if gs != [] && gs[0].name != name {
      BumpAdds(gs[1..], name, amount);
      var r := Bump(gs, name, amount);
      assert r == [gs[0]] + Bump(gs[1..], name, amount);
      forall g | g in Bump(gs[1..], name, amount) ensures g.name == name || g.name in NamesOf(gs) {
      }
    }
  }

  function NamesOf(gs: seq<Group>): set<string> {
    set g | g in gs :: g.name
  }

  /** The label name a transaction is grouped under. */
  function LabelName(t: Transaction, names: nat -> string): string {
    if t.labelId.Some? then names(t.labelId.value) else "Uncategorized"
  }

  /** The groups of the rows with direction `dir`, in order of first appearance. */
  function GroupsOf(rows: seq<Transaction>, dir: Direction, names: nat -> string): seq<Group> {
    if rows == [] then []
    else
      var last := rows[|rows| - 1];
      var rest := GroupsOf(rows[..|rows| - 1], dir, names);
      if last.direction == dir then Bump(rest, LabelName(last, names), last.amount as real) else rest
  }

  /** The amounts of the rows with direction `dir`, added up. */
  function DirectedTotal(rows: seq<Transaction>, dir: Direction): real {
    if rows == [] then 0.0
    else DirectedTotal(rows[..|rows| - 1], dir) + (if rows[|rows| - 1].direction == dir then rows[|rows| - 1].amount as real else 0.0)
  }

  /** The groups add up to the direction's total, and each label has one group. */
  lemma {:induction false} GroupsSumToTotal(rows: seq<Transaction>, dir: Direction, names: nat -> string)
    ensures GroupsTotal(GroupsOf(rows, dir, names)) == DirectedTotal(rows, dir)
    ensures DistinctNames(GroupsOf(rows, dir, names))
  {
    if rows != [] {
      var last := rows[|rows| - 1];
      GroupsSumToTotal(rows[..|rows| - 1], dir, names);
      if last.direction == dir {
        BumpAdds(GroupsOf(rows[..|rows| - 1], dir, names), LabelName(last, names), last.amount as real);
      }
    }
  }

  /** A profit and loss statement. */
  datatype ProfitAndLoss = ProfitAndLoss(
    inflowByLabel: seq<Group>,
    outflowByLabel: seq<Group>,
    totalInflow: real,
    totalOutflow: real,
    netProfit: real,
    marginPct: real)

  /** The margin: net profit as a percentage of inflow, 0 without positive inflow. */
  function Margin(net: real, inflow: real): (m: real)
    ensures inflow > 0.0 ==> m * inflow == net * 100.0
    ensures inflow <= 0.0 ==> m == 0.0
  {
    if inflow > 0.0 then net / inflow * 100.0 else 0.0
  }

  /**
   * `calculate_project_pl` over the project's transactions as listed
   * (most recent first): inflows and outflows grouped by label name,
   * 'Uncategorized' without a label; the totals are the group sums.
   */
  method CalculateProjectPl(rows: seq<Transaction>, names: nat -> string) returns (pl: ProfitAndLoss)
    ensures pl.inflowByLabel == GroupsOf(rows, Inflow, names)
    ensures pl.outflowByLabel == GroupsOf(rows, Outflow, names)
    ensures pl.totalInflow == DirectedTotal(rows, Inflow) && pl.totalOutflow == DirectedTotal(rows, Outflow)
    ensures pl.netProfit == pl.totalInflow - pl.totalOutflow
    ensures pl.marginPct == Margin(pl.netProfit, pl.totalInflow)
  {
    var inflows: seq<Group> := [];
    var outflows: seq<Group> := [];
    for k := 0 to |rows|
      invariant inflows == GroupsOf(rows[..k], Inflow, names)
      invariant outflows == GroupsOf(rows[..k], Outflow, names)
    {
      var t := rows[k];
      assert rows[..k + 1][..k] == rows[..k];
      if t.direction == Inflow {
        inflows := Bump(inflows, LabelName(t, names), t.amount as real);
      } else {
        outflows := Bump(outflows, LabelName(t, names), t.amount as real);
      }
    }
    assert rows[..|rows|] == rows;
    GroupsSumToTotal(rows, Inflow, names);
    GroupsSumToTotal(rows, Outflow, names);
    var totalIn := GroupsTotal(inflows);
    var totalOut := GroupsTotal(outflows);
    pl := ProfitAndLoss(inflows, outflows, totalIn, totalOut, totalIn - totalOut, Margin(totalIn - totalOut, totalIn));
  }

  /**
   * The milestone's status after `update_milestone_status`. It ends completed
   * exactly when it has a completion date or was completed with its due date
   * not yet passed, and overdue exactly when it has no completion date and
   * its due date has passed or it was already overdue. Without a completion
   * date and before the due date has passed the status does not move.
   */
  function StatusAfterUpdate(s: MilestoneStatus, completed: Option<CalDate>, due: CalDate, today: CalDate): (r: MilestoneStatus)
    ensures r == MilestoneCompleted <==> completed.Some? || (s == MilestoneCompleted && !Before(due, today))
    ensures r == MilestoneOverdue <==> completed.None? && (Before(due, today) || s == MilestoneOverdue)
    ensures completed.None? && !Before(due, today) ==> r == s
  {
    if completed.Some? then MilestoneCompleted
    else if Before(due, today) then MilestoneOverdue
    else s
  }

  /** Updating a milestone a second time on the same day changes nothing more. */
  lemma MilestoneUpdateIdempotent(s: MilestoneStatus, completed: Option<CalDate>, due: CalDate, today: CalDate)
    ensures var r := StatusAfterUpdate(s, completed, due, today);
      StatusAfterUpdate(r, completed, due, today) == r
  {
  }

  /** A milestone marked completed without a completion date turns overdue once its due date has passed. */
  lemma CompletedWithoutDateTurnsOverdue(due: CalDate, today: CalDate)
    requires Before(due, today)
    ensures StatusAfterUpdate(MilestoneCompleted, None, due, today) == MilestoneOverdue
  {
  }

  /** A project milestone whose status the update keeps in line with its dates. */
  class Milestone {
    var status: MilestoneStatus
    var due: CalDate
    var completed: Option<CalDate>

    constructor(status: MilestoneStatus, due: CalDate, completed: Option<CalDate>)
      ensures this.status == status && this.due == due && this.completed == completed
    {
      this.status := status;
      this.due := due;
      this.completed := completed;
    }

    /** `update_milestone_status`: only the status changes. */
    method UpdateStatus(today: CalDate)
      modifies this
      ensures status == StatusAfterUpdate(old(status), completed, due, today)
      ensures due == old(due) && completed == old(completed)
    {
      if completed.Some? {
        status := MilestoneCompleted;
      } else if Before(due, today) {
        status := MilestoneOverdue;
      }
    }
  }
}
