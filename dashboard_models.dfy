/**
 * The stored dashboard layout of the Python side: the built-in default layout
 * and the get-or-create lookup keyed by (user, organization).
 */
module DashboardModels {
  import opened DashboardWidgets

  /** A stored `layout_config`: the widget entries, the density and the auto-refresh period in seconds. */
  datatype LayoutConfig = LayoutConfig(widgets: seq<Entry>, density: string, autoRefresh: int)

  const DefaultEntries: seq<Entry> := [
    Entry("kpi-total-income", 0, 0, 2, 1),
    Entry("kpi-total-expenses", 2, 0, 2, 1),
    Entry("kpi-net-cash-flow", 4, 0, 2, 1),
    Entry("kpi-budget-progress", 6, 0, 2, 1),
    Entry("kpi-burn-rate", 8, 0, 2, 1),
    Entry("kpi-active-projects", 10, 0, 2, 1),
    Entry("chart-revenue-expense", 0, 1, 6, 3),
    Entry("chart-trend-line", 6, 1, 6, 3),
    Entry("chart-expense-pie", 0, 4, 4, 3),
    Entry("chart-budget-performance", 4, 4, 4, 3),
    Entry("list-recent-transactions", 8, 4, 4, 3)
  ]

  /** `get_default_layout`: eleven widgets in three rows, comfortable density, 30-second refresh. */
  function GetDefaultLayout(): (c: LayoutConfig)
    ensures |c.widgets| == 11
    ensures forall k :: 0 <= k < |c.widgets| ==> c.widgets[k].Entry?
  {
    LayoutConfig(DefaultEntries, "comfortable", 30)
  }

  function RectOf(e: Entry): Rect
    requires e.Entry?
  {
    Rect(e.x, e.y, e.w, e.h)
  }

  /** Every default widget has a positive size and lies inside the 12 columns. */
  lemma DefaultLayoutWithinGrid()
    ensures forall k :: 0 <= k < |GetDefaultLayout().widgets| ==>
      var e := GetDefaultLayout().widgets[k];
      0 <= e.x && e.x + e.w <= Columns && 0 <= e.y && e.w > 0 && e.h > 0
  {
  }

  /** No two default widgets overlap under the grid's separating-axis test. */
  lemma DefaultLayoutDisjoint()
    ensures forall i, j :: 0 <= i < j < |GetDefaultLayout().widgets| ==>
      !Conflicts(RectOf(GetDefaultLayout().widgets[i]), RectOf(GetDefaultLayout().widgets[j]))
  {
  }

  /** The default ids are distinct. */
  lemma DefaultLayoutIdsDistinct()
    ensures forall i, j :: 0 <= i < j < |GetDefaultLayout().widgets| ==>
      GetDefaultLayout().widgets[i].id != GetDefaultLayout().widgets[j].id
  {
  }

  lemma DefaultKpisInCatalog()
    ensures forall k :: 0 <= k < 6 ==>
      var e := DefaultEntries[k]; e.id in Catalog && Catalog[e.id].minW == 2 && Catalog[e.id].minH == 1
  {
    FirstKpisInCatalog();
    LastKpisInCatalog();
  }

  lemma FirstKpisInCatalog()
    ensures forall k :: 0 <= k < 3 ==>
      var e := DefaultEntries[k]; e.id in Catalog && Catalog[e.id].minW == 2 && Catalog[e.id].minH == 1
  {
    assert "kpi-total-income" in Catalog && "kpi-total-expenses" in Catalog && "kpi-net-cash-flow" in Catalog;
  }

  lemma LastKpisInCatalog()
    ensures forall k :: 3 <= k < 6 ==>
      var e := DefaultEntries[k]; e.id in Catalog && Catalog[e.id].minW == 2 && Catalog[e.id].minH == 1
  {
    assert "kpi-budget-progress" in Catalog && "kpi-burn-rate" in Catalog && "kpi-active-projects" in Catalog;
  }

  lemma DefaultChartsInCatalog()
    ensures forall k :: 6 <= k < 11 ==>
      var e := DefaultEntries[k]; e.id in Catalog && Catalog[e.id].minW <= 4 && Catalog[e.id].minH <= 3
  {
    assert "chart-revenue-expense" in Catalog && "chart-trend-line" in Catalog && "chart-expense-pie" in Catalog;
    assert "chart-budget-performance" in Catalog && "list-recent-transactions" in Catalog;
  }

  /** Each default id is a catalog id, and each widget meets its kind's minimum size. */
  lemma DefaultLayoutInCatalog()
    ensures forall k :: 0 <= k < |GetDefaultLayout().widgets| ==>
      var e := GetDefaultLayout().widgets[k];
      e.id in Catalog && e.w >= Catalog[e.id].minW && e.h >= Catalog[e.id].minH
  {
    DefaultKpisInCatalog();
    DefaultChartsInCatalog();
  }

  /** The six KPI widgets of row 0 tile columns 0 to 12 edge to edge, with no gap. */
  lemma KpiRowTiles()
    ensures var ws := GetDefaultLayout().widgets;
      ws[0].x == 0 && ws[5].x + ws[5].w == Columns
      && (forall k :: 0 <= k < 6 ==> ws[k].y == 0)
      && (forall k :: 0 <= k < 5 ==> ws[k].x + ws[k].w == ws[k + 1].x)
  {
  }

  /** The stored layouts, one per (user, organization). */
  type Store = map<(nat, nat), LayoutConfig>

  /**
   * `get_or_create_default`: an existing layout is returned as it is and the
   * store is unchanged; otherwise the default is stored for the pair and
   * returned. No other pair's layout changes.
   */
  function GetOrCreateDefault(store: Store, user: nat, org: nat): (r: (LayoutConfig, Store))
    ensures (user, org) in r.1 && r.1[(user, org)] == r.0
    ensures r.1.Keys == store.Keys + {(user, org)}
    ensures forall k :: k in store ==> r.1[k] == store[k]
    ensures (user, org) !in store ==> r.0 == GetDefaultLayout()
  {
    if (user, org) in store then (store[(user, org)], store)
    else (GetDefaultLayout(), store[(user, org) := GetDefaultLayout()])
  }

  /** A second lookup for the same pair finds what the first stored and changes nothing. */
  lemma GetOrCreateIdempotent(store: Store, user: nat, org: nat)
    ensures var (c1, s1) := GetOrCreateDefault(store, user, org);
      GetOrCreateDefault(s1, user, org) == (c1, s1)
  {
  }
}
