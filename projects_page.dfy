/**
 * The projects page script: the project tree received as JSON, searched by
 * id and rendered either as a flat grid of cards (parent first, then its
 * sub-projects, siblings in order) or as an indented tree; the level and
 * budget classes of a card; the three-way card filter; the relative-time
 * labels of the activity feed; and the grid/tree toggle.
 *
 * The HTML markup itself is not modelled: a rendering is the sequence of
 * projects whose cards it holds, and `CardOf` gives the classes of one card.
 */
module ProjectsPage {
  import opened Wrappers
  import opened Strings

  /**
   * A project as the page receives it; absent sub_projects are the empty
   * sequence, and `hasBudget` says whether `budget` is truthy (set and non-zero).
   */
  datatype ProjectJson = ProjectJson(
    id: int,
    name: string,
    description: string,
    status: string,
    level: int,
    hasBudget: bool,
    usagePct: Option<real>,
    subs: seq<ProjectJson>)

  /** The projects of a forest in depth-first pre-order: each root, its sub-projects, then the next root. */
  function Flatten(ps: seq<ProjectJson>): seq<ProjectJson> {
    if ps == [] then [] else [ps[0]] + Flatten(ps[0].subs) + Flatten(ps[1..])
  }

  lemma {:induction false} FlattenAppend(a: seq<ProjectJson>, b: seq<ProjectJson>)
    ensures Flatten(a + b) == Flatten(a) + Flatten(b)
  {
    if a != [] {
      assert (a + b)[0] == a[0];
      assert (a + b)[1..] == a[1..] + b;
      FlattenAppend(a[1..], b);
    } else {
      assert a + b == b;
    }
  }

  // ---------------------------------------------------------------------------
  // findProjectById
  // ---------------------------------------------------------------------------

  /** `findProjectById`: each project is tested before its sub-projects, and a hit below a project ends the search. */
  function FindProjectById(id: int, ps: seq<ProjectJson>): Option<ProjectJson> {
    if ps == [] then None
    else if ps[0].id == id then Some(ps[0])
    else match FindProjectById(id, ps[0].subs)
      case Some(found) => Some(found)
      case None => FindProjectById(id, ps[1..])
  }

  /** The first project of a flat list carrying the id. */
  function FirstWithId(xs: seq<ProjectJson>, id: int): Option<ProjectJson> {
    if xs == [] then None
    else if xs[0].id == id then Some(xs[0])
    else FirstWithId(xs[1..], id)
  }

  lemma {:induction false} FirstWithIdAppend(a: seq<ProjectJson>, b: seq<ProjectJson>, id: int)
    ensures FirstWithId(a + b, id) == if FirstWithId(a, id).Some? then FirstWithId(a, id) else FirstWithId(b, id)
  {
    if a != [] {
      assert (a + b)[0] == a[0];
      assert (a + b)[1..] == a[1..] + b;
      FirstWithIdAppend(a[1..], b, id);
    } else {
      assert a + b == b;
    }
  }

  /** A flat search finds nothing exactly when no project carries the id, and what it finds carries it and is listed. */
  lemma {:induction false} FirstWithIdMeaning(xs: seq<ProjectJson>, id: int)
    ensures FirstWithId(xs, id).None? <==> forall i :: 0 <= i < |xs| ==> xs[i].id != id
    ensures FirstWithId(xs, id).Some? ==> FirstWithId(xs, id).value.id == id && FirstWithId(xs, id).value in xs
  {
    if xs != [] {
      FirstWithIdMeaning(xs[1..], id);
      assert forall i :: 1 <= i < |xs| ==> xs[i] == xs[1..][i - 1];
    }
  }

  /** The recursive search returns the first project carrying the id in the grid's pre-order. */
  lemma {:induction false} FindFollowsPreOrder(id: int, ps: seq<ProjectJson>)
    ensures FindProjectById(id, ps) == FirstWithId(Flatten(ps), id)
  {
    if ps != [] {
      var p := ps[0];
      FindFollowsPreOrder(id, p.subs);
      FindFollowsPreOrder(id, ps[1..]);
      FirstWithIdAppend([p] + Flatten(p.subs), Flatten(ps[1..]), id);
      FirstWithIdAppend([p], Flatten(p.subs), id);
    }
  }

  /** null exactly when no project anywhere in the tree has the id; otherwise a project of the tree with that id. */
  lemma FindProjectByIdMeaning(id: int, ps: seq<ProjectJson>)
    ensures FindProjectById(id, ps).None? <==> forall i :: 0 <= i < |Flatten(ps)| ==> Flatten(ps)[i].id != id
    ensures FindProjectById(id, ps).Some? ==> FindProjectById(id, ps).value.id == id && FindProjectById(id, ps).value in Flatten(ps)
  {
    FindFollowsPreOrder(id, ps);
    FirstWithIdMeaning(Flatten(ps), id);
  }

  // ---------------------------------------------------------------------------
  // Card classes
  // ---------------------------------------------------------------------------

  /** Level 0 is a parent, level 1 a sub-project, anything else a task. */
  function LevelClass(level: int): string {
    if level == 0 then "level-parent" else if level == 1 then "level-sub" else "level-task"
  }

  /** The add-sub-project button is offered below level 2. */
  predicate CanAddSub(level: int) { level < 2 }

  /** `budget_usage_pct || 0`: a missing (or zero) percentage counts as 0. */
  function UsagePct(p: ProjectJson): real {
    if p.usagePct.Some? then p.usagePct.value else 0.0
  }

  datatype Severity = OnTrack | NearLimit | OverBudget

  /** Over budget above 100 per cent, near the limit above 80, otherwise on track. */
  function BudgetSeverity(pct: real): Severity {
    if pct > 100.0 then OverBudget else if pct > 80.0 then NearLimit else OnTrack
  }

  function Rank(s: Severity): int {
    match s
    case OnTrack => 0
    case NearLimit => 1
    case OverBudget => 2
  }

  /** The fill class of a grid card's budget bar: empty when on track. */
  function FillClass(s: Severity): string {
    match s
    case OverBudget => "over-budget"
    case NearLimit => "near-limit"
    case OnTrack => ""
  }

  /** The class of a compact (tree) card's spending figure: on-track when on track. */
  function CompactClass(s: Severity): string {
    match s
    case OverBudget => "over-budget"
    case NearLimit => "near-limit"
    case OnTrack => "on-track"
  }

  /** The width of the budget bar: the percentage, capped at 100. */
  function BarWidth(pct: real): (w: real)
    ensures w <= 100.0 && w <= pct
    ensures w == pct || w == 100.0
  {
    if pct < 100.0 then pct else 100.0
  }

  /** A higher percentage never gets a milder class. */
  lemma SeverityMonotone(a: real, b: real)
    requires a <= b
    ensures Rank(BudgetSeverity(a)) <= Rank(BudgetSeverity(b))
  {
  }

  /** The grid and tree cards agree on the class except for the on-track case, which the grid leaves blank. */
  lemma FillAndCompactAgree(s: Severity)
    ensures FillClass(s) == (if s == OnTrack then "" else CompactClass(s))
    ensures CompactClass(s) != CompactClass(OnTrack) <==> FillClass(s) != ""
  {
  }

  /** The budget bar of a card: its fill class and width. */
  datatype BudgetBar = BudgetBar(fillClass: string, width: real)

  /** The classes of one grid card; only a project with a (truthy) budget gets a bar. */
  datatype Card = Card(id: int, indentLevel: int, levelClass: string, addSubButton: bool, bar: Option<BudgetBar>)

  function CardOf(p: ProjectJson): Card {
    var pct := UsagePct(p);
    var bar := if p.hasBudget then Some(BudgetBar(FillClass(BudgetSeverity(pct)), BarWidth(pct))) else None;
    Card(p.id, p.level, LevelClass(p.level), CanAddSub(p.level), bar)
  }

  /**
   * For non-negative levels a card offers a sub-project exactly when it is not
   * labelled a task, a bar is drawn exactly for a project with a budget, and
   * an over-budget bar is drawn full width.
   */
  lemma CardConsistent(p: ProjectJson)
    requires p.level >= 0
    ensures CardOf(p).addSubButton <==> CardOf(p).levelClass != "level-task"
    ensures CardOf(p).bar.Some? <==> p.hasBudget
    ensures CardOf(p).bar.Some? && CardOf(p).bar.value.fillClass == "over-budget" ==> CardOf(p).bar.value.width == 100.0
    ensures CardOf(p).bar.Some? && CardOf(p).bar.value.width < 100.0 ==> CardOf(p).bar.value.width == UsagePct(p)
  {
  }

  // ---------------------------------------------------------------------------
  // Grid and tree rendering
  // ---------------------------------------------------------------------------

  /** `renderProject`: the project's card, then its sub-projects' cards, appended to the markup built so far. */
  method RenderProject(p: ProjectJson, html: seq<ProjectJson>) returns (out: seq<ProjectJson>)
    ensures out == html + Flatten([p])
    decreases p
  {
    out := html + [p];
    for i := 0 to |p.subs|
      invariant out == html + [p] + Flatten(p.subs[..i])
    {
      out := RenderProject(p.subs[i], out);
      FlattenAppend(p.subs[..i], [p.subs[i]]);
      assert p.subs[..i + 1] == p.subs[..i] + [p.subs[i]];
    }
    assert p.subs[..|p.subs|] == p.subs;
    assert Flatten([p]) == [p] + Flatten(p.subs) + Flatten([]);
  }

  /** `renderGridView`: every root rendered in turn; the cards come out in pre-order. */
  method RenderGridView(projects: seq<ProjectJson>) returns (html: seq<ProjectJson>)
    ensures html == Flatten(projects)
  {
    html := [];
    for i := 0 to |projects|
      invariant html == Flatten(projects[..i])
    {
      html := RenderProject(projects[i], html);
      FlattenAppend(projects[..i], [projects[i]]);
      assert projects[..i + 1] == projects[..i] + [projects[i]];
    }
    assert projects[..|projects|] == projects;
  }

  /** The number of projects in a forest. */
  function Size(ps: seq<ProjectJson>): nat {
    if ps == [] then 0 else 1 + Size(ps[0].subs) + Size(ps[1..])
  }

  /** The grid holds one card per project of the tree: every project once, none twice. */
  lemma {:induction false} GridHoldsEveryProjectOnce(ps: seq<ProjectJson>)
    ensures |Flatten(ps)| == Size(ps)
  {
    if ps != [] {
      GridHoldsEveryProjectOnce(ps[0].subs);
      GridHoldsEveryProjectOnce(ps[1..]);
    }
  }

  /**
   * Sub-projects follow their parent: the i-th root's card comes after the
   * cards of the roots before it and is directly followed by its sub-projects' cards.
   */
  lemma ParentBeforeSubProjects(ps: seq<ProjectJson>, i: int)
    requires 0 <= i < |ps|
    ensures |Flatten(ps[..i])| + 1 + |Flatten(ps[i].subs)| <= |Flatten(ps)|
    ensures Flatten(ps)[|Flatten(ps[..i])|] == ps[i]
    ensures Flatten(ps)[|Flatten(ps[..i])| + 1..|Flatten(ps[..i])| + 1 + |Flatten(ps[i].subs)|] == Flatten(ps[i].subs)
  {
    FlattenAppend(ps[..i], ps[i..]);
    assert ps == ps[..i] + ps[i..];
    var before, subs := Flatten(ps[..i]), Flatten(ps[i].subs);
    assert Flatten(ps[i..]) == [ps[i]] + subs + Flatten(ps[i + 1..]);
    assert Flatten(ps) == before + [ps[i]] + subs + Flatten(ps[i + 1..]);
  }

  /** A node of the tree view: the project, its depth in the tree and whether it has children. */
  datatype TreeNode = TreeNode(project: ProjectJson, depth: int, hasChildren: bool)

  /** `renderProjectNode` over a forest: each node at its depth, children one level deeper. */
  function TreeNodes(ps: seq<ProjectJson>, depth: int): seq<TreeNode> {
    if ps == [] then []
    else [TreeNode(ps[0], depth, |ps[0].subs| > 0)] + TreeNodes(ps[0].subs, depth + 1) + TreeNodes(ps[1..], depth)
  }

  /** The projects of a sequence of tree nodes. */
  function NodeProjects(ns: seq<TreeNode>): (r: seq<ProjectJson>)
    ensures |r| == |ns|
  {
    if ns == [] then [] else [ns[0].project] + NodeProjects(ns[1..])
  }

  lemma {:induction false} NodeProjectsAppend(a: seq<TreeNode>, b: seq<TreeNode>)
    ensures NodeProjects(a + b) == NodeProjects(a) + NodeProjects(b)
  {
    if a != [] {
      assert (a + b)[1..] == a[1..] + b;
      NodeProjectsAppend(a[1..], b);
    } else {
      assert a + b == b;
    }
  }

  /** The tree view visits the same projects as the grid, in the same order. */
  lemma {:induction false} TreeFollowsGrid(ps: seq<ProjectJson>, depth: int)
    ensures NodeProjects(TreeNodes(ps, depth)) == Flatten(ps)
  {
    if ps != [] {
      var head := [TreeNode(ps[0], depth, |ps[0].subs| > 0)];
      TreeFollowsGrid(ps[0].subs, depth + 1);
      TreeFollowsGrid(ps[1..], depth);
      NodeProjectsAppend(head + TreeNodes(ps[0].subs, depth + 1), TreeNodes(ps[1..], depth));
      NodeProjectsAppend(head, TreeNodes(ps[0].subs, depth + 1));
    }
  }

  /** Every project of the forest sits at the given level and its sub-projects one level lower. */
  predicate LevelsFrom(ps: seq<ProjectJson>, level: int) {
    forall i :: 0 <= i < |ps| ==> ps[i].level == level && LevelsFrom(ps[i].subs, level + 1)
  }

  /**
   * When the stored levels match the tree (roots at 0), the tree view's depth is
   * each project's level, so both views give a project the same level class.
   */
  lemma {:induction false} TreeDepthIsLevel(ps: seq<ProjectJson>, depth: int)
    requires LevelsFrom(ps, depth)
    ensures forall n :: n in TreeNodes(ps, depth) ==> n.depth == n.project.level
  {
    if ps != [] {
      assert ps[0] == ps[0];
      TreeDepthIsLevel(ps[0].subs, depth + 1);
      assert LevelsFrom(ps[1..], depth) by {
        forall i | 0 <= i < |ps[1..]|
          ensures ps[1..][i].level == depth && LevelsFrom(ps[1..][i].subs, depth + 1)
        {
          assert ps[1..][i] == ps[i + 1];
        }
      }
      TreeDepthIsLevel(ps[1..], depth);
    }
  }

  // ---------------------------------------------------------------------------
  // filterProjects
  // ---------------------------------------------------------------------------

  /** A grid card as the filter reads it: data-status, data-level, the name and description texts, and its display. */
  datatype CardView = CardView(status: string, level: string, name: string, description: string, displayed: bool)

  /** The status and level selects ('all' or a value) and the search box. */
  datatype ProjectFilter = ProjectFilter(status: string, level: string, query: string)

  /** A card is shown when status, level and the case-insensitive search all pass. */
  predicate Shows(f: ProjectFilter, c: CardView) {
    var q := Lower(f.query);
    (f.status == "all" || c.status == f.status)
    && (f.level == "all" || c.level == f.level)
    && (q == "" || Contains(Lower(c.name), q) || Contains(Lower(c.description), q))
  }

  /** `filterProjects`: every card's display is set from the filter; nothing else about a card changes. */
  method FilterProjects(cards: array<CardView>, f: ProjectFilter)
    modifies cards
    ensures forall i :: 0 <= i < cards.Length ==> cards[i] == old(cards[i]).(displayed := Shows(f, old(cards[i])))
  {
    for i := 0 to cards.Length
      invariant forall j :: 0 <= j < i ==> cards[j] == old(cards[j]).(displayed := Shows(f, old(cards[j])))
      invariant forall j :: i <= j < cards.Length ==> cards[j] == old(cards[j])
    {
      cards[i] := cards[i].(displayed := Shows(f, cards[i]));
    }
  }

  /** With both selects on 'all' and an empty search every card is shown. */
  lemma NoFilterShowsAll(c: CardView)
    ensures Shows(ProjectFilter("all", "all", ""), c)
  {
    assert Lower("") == "";
  }

  lemma LowerIdempotent(s: string)
    ensures Lower(Lower(s)) == Lower(s)
  {
    assert forall i :: 0 <= i < |s| ==> Lower(Lower(s))[i] == Lower(s)[i];
  }

  /** The search ignores the case of the query. */
  lemma SearchIgnoresCase(f: ProjectFilter, c: CardView)
    ensures Shows(f, c) == Shows(f.(query := Lower(f.query)), c)
  {
    LowerIdempotent(f.query);
  }

  /** A card whose name contains the query, in any case, passes the search. */
  lemma NameMatchPasses(f: ProjectFilter, c: CardView)
    requires f.status == "all" && f.level == "all"
    requires Contains(Lower(c.name), Lower(f.query))
    ensures Shows(f, c)
  {
  }

  // ---------------------------------------------------------------------------
  // Activity feed labels
  // ---------------------------------------------------------------------------

  const ActivityIcons: map<string, string> := map[
    "created" := "Created",
    "updated" := "Updated",
    "deleted" := "Deleted",
    "status_changed" := "Status",
    "budget_changed" := "Budget",
    "milestone_added" := "Milestone",
    "milestone_completed" := "Complete",
    "sub_project_added" := "Sub-Project",
    "transaction_added" := "Transaction"]

  /**
   * `getActivityIcon`: `icons[action] || 'Activity'`. Every known label is
   * non-empty and none is 'Activity', so the fallback shows exactly for the
   * actions the table does not know, and a known action shows its own label.
   */
  function ActivityIcon(action: string): (r: string)
    ensures r != ""
    ensures r == "Activity" <==> action !in ActivityIcons
    ensures action in ActivityIcons ==> r == ActivityIcons[action]
  {
    if action in ActivityIcons && ActivityIcons[action] != "" then ActivityIcons[action] else "Activity"
  }

  /** How long ago an activity happened, as `formatRelativeTime` buckets it. */
  datatype Elapsed = JustNow | Minutes(n: int) | Hours(n: int) | Days(n: int) | Older

  const MinuteMs := 60000
  const HourMs := 3600000
  const DayMs := 86400000

  /**
   * The bucket of an elapsed time in milliseconds (now minus the activity's
   * time; negative for a time in the future). Each count is the floor of the
   * elapsed time in its unit, so it never overstates the time passed.
   */
  function Bucket(diffMs: int): (e: Elapsed)
    ensures e == JustNow <==> diffMs < MinuteMs
    ensures e.Minutes? ==> 1 <= e.n < 60 && e.n * MinuteMs <= diffMs < (e.n + 1) * MinuteMs
    ensures e.Hours? ==> 1 <= e.n < 24 && e.n * HourMs <= diffMs < (e.n + 1) * HourMs
    ensures e.Days? ==> 1 <= e.n < 7 && e.n * DayMs <= diffMs < (e.n + 1) * DayMs
    ensures e == Older <==> diffMs >= 7 * DayMs
  {
    var mins, hours, days := diffMs / MinuteMs, diffMs / HourMs, diffMs / DayMs;
    if mins < 1 then JustNow
    else if mins < 60 then Minutes(mins)
    else if hours < 24 then Hours(hours)
    else if days < 7 then Days(days)
    else Older
  }

  /** "N unit ago", with the plural 's' only when N > 1. */
  function Ago(n: int, unit: string): string {
    IntToString(n) + " " + unit + (if n > 1 then "s" else "") + " ago"
  }

  /** `formatRelativeTime`; the locale date string of an older activity is a parameter. */
  function FormatRelativeTime(diffMs: int, localeDate: string): string {
    match Bucket(diffMs)
    case JustNow => "Just now"
    case Minutes(n) => Ago(n, "minute")
    case Hours(n) => Ago(n, "hour")
    case Days(n) => Ago(n, "day")
    case Older => localeDate
  }

  /** Exactly one minute reads "1 minute ago" (no plural); two hours read "2 hours ago"; the future reads "Just now". */
  lemma RelativeTimeExamples(localeDate: string)
    ensures FormatRelativeTime(MinuteMs, localeDate) == "1 minute ago"
    ensures FormatRelativeTime(2 * HourMs, localeDate) == "2 hours ago"
    ensures FormatRelativeTime(-5000, localeDate) == "Just now"
  {
    assert Bucket(MinuteMs) == Minutes(1);
    assert Bucket(2 * HourMs) == Hours(2);
    assert IntToString(1) == "1" && IntToString(2) == "2";
  }

  // ---------------------------------------------------------------------------
  // Page state: the current view and the toggle
  // ---------------------------------------------------------------------------

  datatype View = Grid | Tree

  /** What the container shows: nothing (empty state), the grid cards in order, or the tree nodes in order. */
  datatype Rendering = EmptyState | GridCards(cards: seq<ProjectJson>) | TreeView(nodes: seq<TreeNode>)

  /** `renderProjects`: an empty list shows the empty state, otherwise the current view. */
  function RenderFor(view: View, projects: seq<ProjectJson>): Rendering {
    if projects == [] then EmptyState
    else if view == Tree then TreeView(TreeNodes(projects, 0))
    else GridCards(Flatten(projects))
  }

  /** The label of the toggle button: the view it switches to. */
  function ButtonLabel(view: View): string {
    if view == Tree then "Grid View" else "Tree View"
  }

  class ProjectsPageState {
    var projects: seq<ProjectJson>
    var currentView: View
    /** The toggle button's text, None when the page has no such button. */
    var buttonText: Option<string>
    var rendered: Rendering

    constructor (projects: seq<ProjectJson>, hasButton: bool)
      ensures this.projects == projects && currentView == Grid
      ensures buttonText == (if hasButton then Some(ButtonLabel(Grid)) else None)
      ensures rendered == RenderFor(Grid, projects)
    {
      this.projects := projects;
      currentView := Grid;
      buttonText := if hasButton then Some(ButtonLabel(Grid)) else None;
      rendered := RenderFor(Grid, projects);
    }

    /** `renderProjects`. */
    method RenderProjects()
      modifies this`rendered
      ensures rendered == RenderFor(currentView, projects)
    {
      if projects == [] {
        rendered := EmptyState;
      } else if currentView == Tree {
        rendered := TreeView(TreeNodes(projects, 0));
      } else {
        var cards := RenderGridView(projects);
        rendered := GridCards(cards);
      }
    }

    /** `toggleView`: grid and tree alternate, the button names the other view, and the page is re-rendered. */
    method ToggleView()
      modifies this`currentView, this`buttonText, this`rendered
      ensures currentView != old(currentView)
      ensures buttonText == (if old(buttonText).None? then None else Some(ButtonLabel(currentView)))
      ensures rendered == RenderFor(currentView, projects)
    {
      currentView := if currentView == Grid then Tree else Grid;
      if buttonText.Some? {
        buttonText := Some(ButtonLabel(currentView));
      }
      RenderProjects();
    }
  }

  /** Toggling twice comes back to the same view and the same rendering. */
  method ToggleTwice(page: ProjectsPageState)
    modifies page
    ensures page.currentView == old(page.currentView)
    ensures page.rendered == RenderFor(old(page.currentView), page.projects)
  {
    page.ToggleView();
    page.ToggleView();
  }
}
