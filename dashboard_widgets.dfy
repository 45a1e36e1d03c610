/**
 * The customizable dashboard of the web front end: a fixed catalog of widget
 * kinds, a 12-column grid whose new widgets are placed first-fit, loading a
 * saved layout (or the built-in defaults), adding and removing widgets, and
 * saving the layout immediately or after a single pending 2000 ms timer.
 *
 * The grid library's own engine (collision resolution, dragging, resizing) is
 * not modelled: a node added to the grid keeps the rectangle it was given.
 */
module DashboardWidgets {
  import opened Wrappers

  datatype Kind = Kpi | Chart | List | Summary

  /** A catalog entry: title, default size, kind and minimum size. */
  datatype Meta = Meta(title: string, w: int, h: int, kind: Kind, minW: int, minH: int)

  const Columns := 12
  const ScanRows := 20
  const SaveDelayMs := 2000

  const Catalog: map<string, Meta> := map[
    "kpi-total-income" := Meta("Total Income", 2, 2, Kpi, 2, 1),
    "kpi-total-expenses" := Meta("Total Expenses", 2, 2, Kpi, 2, 1),
    "kpi-net-cash-flow" := Meta("Net Cash Flow", 2, 2, Kpi, 2, 1),
    "kpi-avg-transaction" := Meta("Avg Transaction", 2, 2, Kpi, 2, 1),
    "kpi-transaction-count" := Meta("Transaction Count", 2, 2, Kpi, 2, 1),
    "kpi-budget-progress" := Meta("Budget Progress", 2, 2, Kpi, 2, 1),
    "kpi-burn-rate" := Meta("Burn Rate", 2, 2, Kpi, 2, 1),
    "kpi-active-projects" := Meta("Active Projects", 2, 2, Kpi, 2, 1),
    "kpi-pending-invoices" := Meta("Pending Invoices", 2, 2, Kpi, 2, 1),
    "kpi-overdue-invoices" := Meta("Overdue Invoices", 2, 2, Kpi, 2, 1),
    "chart-revenue-expense" := Meta("Revenue vs Expenses", 6, 4, Chart, 4, 3),
    "chart-expense-pie" := Meta("Expense Breakdown", 6, 4, Chart, 3, 3),
    "chart-income-pie" := Meta("Income Breakdown", 6, 4, Chart, 3, 3),
    "chart-trend-line" := Meta("Trend Line", 6, 4, Chart, 4, 3),
    "chart-waterfall" := Meta("Cash Flow Waterfall", 6, 4, Chart, 4, 3),
    "chart-budget-performance" := Meta("Budget Performance", 6, 4, Chart, 4, 3),
    "chart-category-heatmap" := Meta("Category Heatmap", 6, 4, Chart, 3, 3),
    "chart-money-flow-sankey" := Meta("Money Flow", 6, 4, Chart, 3, 3),
    "list-recent-transactions" := Meta("Recent Transactions", 4, 4, List, 3, 2),
    "list-upcoming-bills" := Meta("Upcoming Bills", 4, 4, List, 3, 2),
    "list-budget-alerts" := Meta("Budget Alerts", 4, 4, List, 3, 2),
    "list-recent-invoices" := Meta("Recent Invoices", 4, 4, List, 3, 2),
    "summary-financial" := Meta("Financial Summary", 4, 3, Summary, 3, 2),
    "summary-month-comparison" := Meta("Month Comparison", 4, 3, Summary, 3, 2)
  ]

  /** Every catalog kind has a positive default size that fits the grid and meets its minimum. */
  lemma CatalogSizesSound(id: string)
    requires id in Catalog
    ensures var m := Catalog[id]; 0 < m.minW <= m.w <= Columns && 0 < m.minH <= m.h
  {
  }

  /** A grid rectangle in cells: column x, row y, width w, height h. */
  datatype Rect = Rect(x: int, y: int, w: int, h: int)

  /** Overlap by the separating-axis rule: neither rectangle lies wholly left of, right of, above or below the other. */
  predicate Conflicts(a: Rect, b: Rect) {
    !(a.x + a.w <= b.x || a.x >= b.x + b.w || a.y + a.h <= b.y || a.y >= b.y + b.h)
  }

  /** Cell (i, j) lies inside r; the edges are half-open. */
  predicate Covers(r: Rect, i: int, j: int) {
    r.x <= i < r.x + r.w && r.y <= j < r.y + r.h
  }

  /** For non-empty rectangles the axis test is exactly "some cell lies in both". */
  lemma ConflictsIffSharedCell(a: Rect, b: Rect)
    requires a.w > 0 && a.h > 0 && b.w > 0 && b.h > 0
    ensures Conflicts(a, b) <==> exists i, j :: Covers(a, i, j) && Covers(b, i, j)
  {
    if Conflicts(a, b) {
      var i := if a.x < b.x then b.x else a.x;
      var j := if a.y < b.y then b.y else a.y;
      assert Covers(a, i, j) && Covers(b, i, j);
    }
  }

  /** One node of the grid: the element handle, the widget id it carries and its rectangle. */
  datatype Node = Node(el: nat, id: string, rect: Rect)

  /**
   * One entry of a saved layout, `{id, x, y, w, h}`, or a null entry. A missing
   * id reads as "" and a missing number as 0: the code treats both alike.
   */
  datatype Entry = NullEntry | Entry(id: string, x: int, y: int, w: int, h: int)

  predicate Fits(nodes: seq<Node>, r: Rect) {
    forall i :: 0 <= i < |nodes| ==> !Conflicts(r, nodes[i].rect)
  }

  /** (x, y) is one of the positions the first-fit scan tries for width w. */
  predicate Candidate(w: int, x: int, y: int) {
    0 <= y < ScanRows && 0 <= x <= Columns - w
  }

  /**
   * (x, y) is the first free candidate in row-major order, or, when no
   * candidate is free, the origin.
   */
  ghost predicate IsFirstFit(nodes: seq<Node>, w: int, h: int, x: int, y: int) {
    (Candidate(w, x, y) && Fits(nodes, Rect(x, y, w, h))
     && forall ty, tx :: Candidate(w, tx, ty) && (ty < y || (ty == y && tx < x)) ==> !Fits(nodes, Rect(tx, ty, w, h)))
    || (x == 0 && y == 0 && forall ty, tx :: Candidate(w, tx, ty) ==> !Fits(nodes, Rect(tx, ty, w, h)))
  }

  /** The first-fit specification determines the position. */
  lemma FirstFitUnique(nodes: seq<Node>, w: int, h: int, x1: int, y1: int, x2: int, y2: int)
    requires IsFirstFit(nodes, w, h, x1, y1) && IsFirstFit(nodes, w, h, x2, y2)
    ensures x1 == x2 && y1 == y2
  {
  }

  /** The overlap loop of the placement scan: can r go where no node is? */
  method CanFit(nodes: seq<Node>, r: Rect) returns (canFit: bool)
    ensures canFit <==> Fits(nodes, r)
  {
    canFit := true;
    var k := 0;
    while k < |nodes|
      invariant 0 <= k <= |nodes|
      invariant forall i :: 0 <= i < k ==> !Conflicts(r, nodes[i].rect)
    {
      var node := nodes[k];
      var nodeRight, nodeBottom := node.rect.x + node.rect.w, node.rect.y + node.rect.h;
      var testRight, testBottom := r.x + r.w, r.y + r.h;
      if !(testRight <= node.rect.x || r.x >= nodeRight || testBottom <= node.rect.y || r.y >= nodeBottom) {
        canFit := false;
        break;
      }
      k := k + 1;
    }
  }

  /**
   * The first-fit scan of `addWidget`: rows 0 to 19, then columns 0 to 12 - w,
   * the first position where a w-by-h widget overlaps no node; (0, 0) when none.
   */
  method FindPosition(nodes: seq<Node>, w: int, h: int) returns (x: int, y: int, found: bool)
    ensures found ==> Candidate(w, x, y) && Fits(nodes, Rect(x, y, w, h))
    ensures !found ==> x == 0 && y == 0
    ensures IsFirstFit(nodes, w, h, x, y)
  {
    x, y, found := 0, 0, false;
    var testY := 0;
    while testY < ScanRows
      invariant 0 <= testY <= ScanRows
      invariant x == 0 && y == 0 && !found
      invariant forall ty, tx :: 0 <= ty < testY && Candidate(w, tx, ty) ==> !Fits(nodes, Rect(tx, ty, w, h))
    {
      var testX := 0;
      while testX <= Columns - w
        invariant testX >= 0 && (testX == 0 || testX <= Columns - w + 1)
        invariant x == 0 && y == 0 && !found
        invariant forall tx :: 0 <= tx < testX ==> !Fits(nodes, Rect(tx, testY, w, h))
      {
        var canFit := CanFit(nodes, Rect(testX, testY, w, h));
        if canFit {
          x, y, found := testX, testY, true;
          break;
        }
        testX := testX + 1;
      }
      if found {
        break;
      }
      testY := testY + 1;
    }
  }

  function OrDefault(v: int, d: int): int { if v != 0 then v else d }

  /** The rectangle `addWidgetToGrid` gives an entry: missing or zero sizes fall back to the catalog's, positions to 0. */
  function PlacedRect(catalog: map<string, Meta>, e: Entry): Rect
    requires e.Entry? && e.id in catalog
  {
    Rect(OrDefault(e.x, 0), OrDefault(e.y, 0), OrDefault(e.w, catalog[e.id].w), OrDefault(e.h, catalog[e.id].h))
  }

  function ToEntry(n: Node): Entry {
    Entry(n.id, n.rect.x, n.rect.y, n.rect.w, n.rect.h)
  }

  /** A loadable entry with its defaults filled in: what the grid node it becomes serialises back to. */
  function Filled(catalog: map<string, Meta>, e: Entry): Entry
    requires e.Entry? && e.id in catalog
  {
    var r := PlacedRect(catalog, e);
    Entry(e.id, r.x, r.y, r.w, r.h)
  }

  /** `saveLayout`'s body: one `{id, x, y, w, h}` per grid node, in node order. */
  function Serialise(nodes: seq<Node>): seq<Entry> {
    seq(|nodes|, i requires 0 <= i < |nodes| => ToEntry(nodes[i]))
  }

  /** A prefix one longer is the prefix followed by the next element. */
  lemma PrefixStep<T>(s: seq<T>, i: nat)
    requires i < |s|
    ensures s[..i + 1] == s[..i] + [s[i]]
  {
  }

  lemma SerialiseAppend(nodes: seq<Node>, n: Node)
    ensures Serialise(nodes + [n]) == Serialise(nodes) + [ToEntry(n)]
  {
  }

  /** An entry `loadLayout` passes on: not null, with a non-empty id the catalog knows. */
  predicate Loadable(catalog: map<string, Meta>, e: Entry) {
    e.Entry? && e.id != "" && e.id in catalog
  }

  /** The layout `loadLayout` builds from saved entries: the loadable ones, in order, with defaults filled in. */
  function Loaded(catalog: map<string, Meta>, entries: seq<Entry>): (r: seq<Entry>)
    ensures |r| <= |entries|
    ensures forall k :: 0 <= k < |r| ==> Loadable(catalog, r[k])
  {
    if entries == [] then []
    else
      var e := entries[|entries| - 1];
      var prefix := Loaded(catalog, entries[..|entries| - 1]);
      if Loadable(catalog, e) then prefix + [Filled(catalog, e)] else prefix
  }

  lemma LoadedStep(catalog: map<string, Meta>, entries: seq<Entry>, i: nat)
    requires i < |entries|
    ensures Loaded(catalog, entries[..i + 1]) ==
      if Loadable(catalog, entries[i]) then Loaded(catalog, entries[..i]) + [Filled(catalog, entries[i])]
      else Loaded(catalog, entries[..i])
  {
    assert entries[..i + 1][..i] == entries[..i];
  }

  /** A loadable entry that names both sizes: loading keeps it as it is. */
  predicate Complete(catalog: map<string, Meta>, e: Entry) {
    Loadable(catalog, e) && e.w != 0 && e.h != 0
  }

  lemma {:induction false} LoadedOfComplete(catalog: map<string, Meta>, entries: seq<Entry>)
    requires forall k :: 0 <= k < |entries| ==> Complete(catalog, entries[k])
    ensures Loaded(catalog, entries) == entries
  {
    if entries != [] {
      var init := entries[..|entries| - 1];
      LoadedOfComplete(catalog, init);
      assert entries == init + [entries[|entries| - 1]];
    }
  }

  /** Saving and loading back restores the grid, as long as every node is a catalog widget of non-zero size. */
  lemma LoadSavedRoundTrip(nodes: seq<Node>)
    requires forall k :: 0 <= k < |nodes| ==> nodes[k].id in Catalog && nodes[k].rect.w != 0 && nodes[k].rect.h != 0
    ensures Loaded(Catalog, Serialise(nodes)) == Serialise(nodes)
  {
    assert "" !in Catalog;
    LoadedOfComplete(Catalog, Serialise(nodes));
  }

  function Ids(nodes: seq<Node>): set<string> {
    set n | n in nodes :: n.id
  }

  lemma IdsAppend(nodes: seq<Node>, n: Node)
    ensures Ids(nodes + [n]) == Ids(nodes) + {n.id}
  {
    assert forall m :: m in nodes + [n] <==> m in nodes || m == n;
  }

  /** The four widgets the front end falls back to when no saved layout can be read. */
  const DefaultWidgets: seq<Entry> := [
    Entry("kpi-total-income", 0, 0, 2, 2),
    Entry("kpi-total-expenses", 2, 0, 2, 2),
    Entry("kpi-net-cash-flow", 4, 0, 2, 2),
    Entry("chart-revenue-expense", 0, 2, 6, 4)
  ]

  /** The catalog knows every default widget, at a non-zero size. */
  predicate KnowsDefaults(catalog: map<string, Meta>) {
    forall k :: 0 <= k < |DefaultWidgets| ==> Complete(catalog, DefaultWidgets[k])
  }

  lemma DefaultWidgetsComplete()
    ensures KnowsDefaults(Catalog)
  {
    assert "kpi-total-income" in Catalog && "kpi-total-expenses" in Catalog;
    assert "kpi-net-cash-flow" in Catalog && "chart-revenue-expense" in Catalog;
  }

  /** What the layout request produced: a thrown fetch, a reply without a layout, or the saved entries. */
  datatype LayoutResponse = FetchFailed | NoSavedLayout | SavedLayout(entries: seq<Entry>)

  datatype AddOutcome = AlreadyAdded | UnknownWidget | Added(at: Rect)

  predicate HasNode(nodes: seq<Node>, el: nat, id: string) {
    exists n :: n in nodes && n.el == el && n.id == id
  }

  predicate DistinctEls(nodes: seq<Node>) {
    forall i, j :: 0 <= i < j < |nodes| ==> nodes[i].el != nodes[j].el
  }

  /** The grid without the node of element el. */
  function Without(nodes: seq<Node>, el: nat): seq<Node> {
    if nodes == [] then []
    else if nodes[0].el == el then Without(nodes[1..], el)
    else [nodes[0]] + Without(nodes[1..], el)
  }

  /** Removal keeps exactly the nodes of other elements, and keeps handles distinct. */
  lemma {:induction false} WithoutMembers(nodes: seq<Node>, el: nat)
    ensures forall n :: n in Without(nodes, el) <==> n in nodes && n.el != el
    ensures DistinctEls(nodes) ==> DistinctEls(Without(nodes, el))
  {
    if nodes != [] {
      var rest := Without(nodes[1..], el);
      WithoutMembers(nodes[1..], el);
      assert nodes == [nodes[0]] + nodes[1..];
      if nodes[0].el != el && DistinctEls(nodes) {
        forall n | n in rest ensures n.el != nodes[0].el {
          var k :| 0 <= k < |nodes[1..]| && nodes[1..][k] == n;
          assert nodes[k + 1] == n;
        }
        assert DistinctEls(nodes[1..]);
      }
    }
  }

  lemma {:induction false} WithoutAbsent(nodes: seq<Node>, el: nat)
    requires forall n :: n in nodes ==> n.el != el
    ensures Without(nodes, el) == nodes
  {
    if nodes != [] {
      WithoutAbsent(nodes[1..], el);
    }
  }

  /** Removing a present element from a grid of distinct elements removes exactly one node. */
  lemma {:induction false} WithoutRemovesOne(nodes: seq<Node>, el: nat)
    requires DistinctEls(nodes)
    requires exists n :: n in nodes && n.el == el
    ensures |Without(nodes, el)| == |nodes| - 1
  {
    if nodes[0].el == el {
      forall n | n in nodes[1..] ensures n.el != el {
        var k :| 0 <= k < |nodes[1..]| && nodes[1..][k] == n;
        assert nodes[k + 1] == n;
      }
      WithoutAbsent(nodes[1..], el);
    } else {
      var n :| n in nodes && n.el == el;
      assert n in nodes[1..];
      assert DistinctEls(nodes[1..]);
      WithoutRemovesOne(nodes[1..], el);
    }
  }

  /**
   * Taking the node of one widget off a grid of distinct elements leaves
   * every other widget's node, and no handle beyond the bound appears.
   */
  lemma WithoutKeepsOthers(nodes: seq<Node>, widgets: map<string, nat>, id: string, bound: nat)
    requires DistinctEls(nodes) && id in widgets
    requires forall w :: w in widgets ==> HasNode(nodes, widgets[w], w)
    requires forall i :: 0 <= i < |nodes| ==> nodes[i].el < bound
    ensures forall w :: w in widgets && w != id ==> HasNode(Without(nodes, widgets[id]), widgets[w], w)
    ensures forall i :: 0 <= i < |Without(nodes, widgets[id])| ==> Without(nodes, widgets[id])[i].el < bound
    ensures DistinctEls(Without(nodes, widgets[id]))
  {
    var el := widgets[id];
    var rest := Without(nodes, el);
    WithoutMembers(nodes, el);
    forall w | w in widgets && w != id ensures HasNode(rest, widgets[w], w) {
      var m :| m in nodes && m.el == widgets[w] && m.id == w;
      var n :| n in nodes && n.el == el && n.id == id;
      assert m in rest;
    }
    forall i | 0 <= i < |rest| ensures rest[i].el < bound {
      assert rest[i] in nodes;
    }
  }

  /** The dashboard state: the widget map, the grid's node list, and the save outbox and timer. */
  class DashboardEngine {
    /** `widgets`: widget id to the element that shows it. */
    var widgets: map<string, nat>
    /** `grid.engine.nodes`, in order. */
    var nodes: seq<Node>
    /** The widget catalog the dashboard offers. */
    const catalog: map<string, Meta>
    /** The next fresh element handle. */
    var nextEl: nat
    /** The layouts posted to the save endpoint, oldest first. */
    var saves: seq<seq<Entry>>
    /** The due time of the one pending debounced save, if any. */
    var pendingDue: Option<int>

    /** Element handles are fresh and distinct; each widget maps to a node carrying its id. */
    ghost predicate Valid()
      reads this`widgets, this`nodes, this`nextEl
    {
      KnowsDefaults(catalog)
      && (forall i :: 0 <= i < |nodes| ==> nodes[i].el < nextEl)
      && DistinctEls(nodes)
      && (forall id :: id in widgets ==> id in catalog && HasNode(nodes, widgets[id], id))
    }

    constructor ()
      ensures Valid()
      ensures catalog == Catalog
      ensures widgets == map[] && nodes == [] && saves == [] && pendingDue == None
    {
      catalog := Catalog;
      DefaultWidgetsComplete();
      widgets, nodes, nextEl, saves, pendingDue := map[], [], 0, [], None;
    }

    /** `addWidgetToGrid`: a catalog widget becomes a new grid node and the map points its id at it. */
    method AddWidgetToGrid(e: Entry)
      requires Valid() && e.Entry?
      modifies this
      ensures Valid()
      ensures e.id !in catalog ==> nodes == old(nodes) && widgets == old(widgets) && nextEl == old(nextEl)
      ensures e.id in catalog ==>
        nodes == old(nodes) + [Node(old(nextEl), e.id, PlacedRect(catalog, e))]
        && widgets == old(widgets)[e.id := old(nextEl)] && nextEl == old(nextEl) + 1
      ensures e.id in catalog ==>
        Serialise(nodes) == Serialise(old(nodes)) + [Filled(catalog, e)] && Ids(nodes) == Ids(old(nodes)) + {e.id}
      ensures saves == old(saves) && pendingDue == old(pendingDue)
    {
      if e.id !in catalog {
        return;
      }
      var n := Node(nextEl, e.id, PlacedRect(catalog, e));
      forall id | id in widgets ensures HasNode(nodes + [n], widgets[id], id) {
        var m :| m in nodes && m.el == widgets[id] && m.id == id;
        assert m in nodes + [n];
      }
      assert n in nodes + [n];
      SerialiseAppend(nodes, n);
      IdsAppend(nodes, n);
      nodes := nodes + [n];
      widgets := widgets[e.id := nextEl];
      nextEl := nextEl + 1;
    }

    /** `saveLayout`: post the current grid, one entry per node, in node order. */
    method SaveLayout()
      modifies this`saves
      ensures saves == old(saves) + [Serialise(nodes)]
    {
      saves := saves + [Serialise(nodes)];
    }

    /** `debouncedSaveLayout`, run on every grid change: any pending save is replaced by one due 2000 ms from now. */
    method DebouncedSaveLayout(now: int)
      modifies this`pendingDue
      ensures pendingDue == Some(now + SaveDelayMs)
    {
      pendingDue := Some(now + SaveDelayMs);
    }

    /** The clock reaching `now`: a pending save that is due runs and is no longer pending. */
    method Tick(now: int)
      modifies this`saves, this`pendingDue
      ensures old(pendingDue).Some? && now >= old(pendingDue).value ==>
        saves == old(saves) + [Serialise(nodes)] && pendingDue == None
      ensures !(old(pendingDue).Some? && now >= old(pendingDue).value) ==>
        saves == old(saves) && pendingDue == old(pendingDue)
    {
      if pendingDue.Some? && now >= pendingDue.value {
        pendingDue := None;
        SaveLayout();
      }
    }

    /**
     * `loadLayout`: a saved layout replaces the grid with its loadable entries
     * (an empty or fully filtered list leaves the grid empty); a failed fetch or
     * a reply without a layout adds the four defaults. Nothing is saved.
     */
    method LoadLayout(response: LayoutResponse)
      requires Valid()
      modifies this
      ensures Valid()
      ensures response.SavedLayout? ==>
        Serialise(nodes) == Loaded(catalog, response.entries)
        && widgets.Keys == Ids(nodes)
      ensures !response.SavedLayout? ==> Serialise(nodes) == Serialise(old(nodes)) + DefaultWidgets
      ensures saves == old(saves) && pendingDue == old(pendingDue)
    {
      if response.SavedLayout? {
        var entries := response.entries;
        nodes, widgets := [], map[];
        var i := 0;
        while i < |entries|
          invariant 0 <= i <= |entries|
          invariant Valid()
          invariant Serialise(nodes) == Loaded(catalog, entries[..i])
          invariant widgets.Keys == Ids(nodes)
          invariant saves == old(saves) && pendingDue == old(pendingDue)
        {
          var e := entries[i];
          LoadedStep(catalog, entries, i);
          if Loadable(catalog, e) {
            AddWidgetToGrid(e);
          }
          i := i + 1;
        }
        assert entries[..|entries|] == entries;
      } else {
        LoadDefaultWidgets();
      }
    }

    /** `loadDefaultWidgets`: the four defaults are added to the grid in order. */
    method LoadDefaultWidgets()
      requires Valid()
      modifies this
      ensures Valid()
      ensures Serialise(nodes) == Serialise(old(nodes)) + DefaultWidgets
      ensures saves == old(saves) && pendingDue == old(pendingDue)
    {
      var i := 0;
      while i < |DefaultWidgets|
        invariant 0 <= i <= |DefaultWidgets|
        invariant Valid()
        invariant Serialise(nodes) == Serialise(old(nodes)) + DefaultWidgets[..i]
        invariant saves == old(saves) && pendingDue == old(pendingDue)
      {
        var e := DefaultWidgets[i];
        assert Complete(catalog, e);
        AddWidgetToGrid(e);
        PrefixStep(DefaultWidgets, i);
        i := i + 1;
      }
      assert DefaultWidgets[..i] == DefaultWidgets;
    }

    /**
     * `addWidget`: an id already on the dashboard, or unknown to the catalog,
     * changes nothing; otherwise the widget takes its catalog size at the
     * first-fit position and the layout is saved at once.
     */
    method AddWidget(id: string) returns (outcome: AddOutcome)
      requires Valid()
      modifies this
      ensures Valid()
      ensures id in old(widgets) ==> outcome == AlreadyAdded
      ensures id !in old(widgets) && id !in catalog ==> outcome == UnknownWidget
      ensures outcome.AlreadyAdded? || outcome.UnknownWidget? ==>
        nodes == old(nodes) && widgets == old(widgets) && saves == old(saves)
      ensures id !in old(widgets) && id in catalog ==>
        outcome.Added?
        && outcome.at.w == catalog[id].w && outcome.at.h == catalog[id].h
        && IsFirstFit(old(nodes), outcome.at.w, outcome.at.h, outcome.at.x, outcome.at.y)
        && nodes == old(nodes) + [Node(old(nextEl), id, outcome.at)]
        && widgets == old(widgets)[id := old(nextEl)]
        && saves == old(saves) + [Serialise(nodes)]
      ensures pendingDue == old(pendingDue)
    {
      if id in widgets {
        return AlreadyAdded;
      }
      if id !in catalog {
        return UnknownWidget;
      }
      var meta := catalog[id];
      var x, y, found := FindPosition(nodes, meta.w, meta.h);
      var config := Entry(id, x, y, meta.w, meta.h);
      assert PlacedRect(catalog, config) == Rect(x, y, meta.w, meta.h);
      AddWidgetToGrid(config);
      SaveLayout();
      outcome := Added(Rect(x, y, meta.w, meta.h));
    }

    /**
     * `removeWidget`: an id not on the dashboard changes nothing; otherwise its
     * node leaves the grid, the id leaves the map, every other entry is
     * untouched, and the layout is saved at once.
     */
    method RemoveWidget(id: string)
      requires Valid()
      modifies this
      ensures Valid()
      ensures id !in old(widgets) ==> nodes == old(nodes) && widgets == old(widgets) && saves == old(saves)
      ensures id in old(widgets) ==>
        widgets == old(widgets) - {id}
        && nodes == Without(old(nodes), old(widgets)[id])
        && |nodes| == |old(nodes)| - 1
        && saves == old(saves) + [Serialise(nodes)]
      ensures pendingDue == old(pendingDue) && nextEl == old(nextEl)
    {
      if id !in widgets {
        return;
      }
      var el := widgets[id];
      WithoutRemovesOne(nodes, el);
      WithoutKeepsOthers(nodes, widgets, id, nextEl);
      nodes := Without(nodes, el);
      widgets := widgets - {id};
      SaveLayout();
    }
  }
}
