# Finance insights: a Dafny model of the application core

This project models the core of a small multi-organisation finance application.
The application has a Django back end and a set of JavaScript pages.

The back end covers:
- a ledger of transactions, imported from CSV or Excel uploads;
- budgets, including recurring ones, and recurring transactions;
- invoices with numbering, a state machine, templates and recurring copies;
- currency conversion;
- projects and tasks;
- team membership with roles, temporary permission requests and an audit trail;
- a configurable dashboard of widgets.

The JavaScript pages hold the client-side logic for the dashboard grid, projects, tasks, the task roadmap, budgets, invoices, invoice templates and clients.

The Dafny modules follow the source files:
- `Ledger`: the transaction direction of `app_core/models.py`.
- `Ingest`, `UploadForm`: upload validation and the import of uploaded rows (`app_core/ingest.py`, `app_web/forms.py`).
- `Budgets`, `BudgetPeriods`, `RecurringBudgets`, `BudgetPreview`: budget usage and alerts, and recurring budget periods, generation and preview (`app_core/budgets.py`, `app_core/recurring_budgets.py`).
- `RecurringTransactions`: generation of recurring transactions (`app_core/recurring.py`).
- `Invoicing`: invoice numbering, totals, the status machine, invoices built from templates, and recurring copies (`app_core/invoicing.py`).
- `CurrencyService`, `CurrencyTags`: exchange rates with their cache and fallbacks, and the currency template filters.
- `Projects`, `TaskModels`: project trees, budgets and allocations, and task status and progress.
- `TeamModels`, `Permissions`, `TeamViews`, `Middleware`: organisations, memberships, roles, permission requests, the guards and team views, and the organisation middleware.
- `DashboardModels`, `DashboardViews`, `DashboardWidgets`: the stored layout, the dashboard data views, and the widget grid page.
- `WebViews`: the transaction list, its filters and sort, and the add-transaction form.
- `ProjectsPage`, `TasksPage`, `RoadmapPage`, `BudgetsPage`, `InvoicesPage`, `TemplatesPage`, `ClientsPage`: the client-side logic of those pages.

Several modules share a few helpers:
- `Wrappers`: Option and Result.
- `Strings`: ASCII stripping, case folding, splitting and digit strings.
- `Dates`: the proleptic Gregorian calendar, day steps, and month and year arithmetic.
- `Money`: integer pence, half-even quantization and `{:,.2f}` rendering.
- `Cookies`: the `getCookie` helper. The invoices, templates and clients pages each carry an identical copy.
- `SaveUrls`: the create-or-edit URL of a modal form.

The model follows these conventions:
- The current date and time are always parameters.
- Money is integer pence. Exchange rates, tax rates and JavaScript numbers are reals.
- An `Option` stands for an absent value, a `null`, or a JavaScript `NaN`.
- Every date is in a single time zone.
- The database is a set of sequences and maps held by a class, or passed as values.
- State that the source changes in place is modelled by classes with `modifies` clauses. Examples are the dashboard grid, the state of each page, the team records and permission requests, and the rate cache. Their methods are proved against specification functions.

## Model

| member | source | states |
|---|---|---|
| Invoicing.WithPrefix | app_core/invoicing.py:20-22 | keeps exactly the numbers that start with the prefix, in their order |
| Invoicing.FormatSequence | app_core/invoicing.py:34 | `{n:04d}`: at least four characters, all of them digits |
| Invoicing.Sequence | app_core/invoicing.py:26-30 | the suffix after the last dash read as an integer, absent when it does not parse; a suffix that parses is never negative |
| Invoicing.NextSequence | app_core/invoicing.py:20-32 | at least 1: one more than the suffix of the greatest number of the year in string order, or 1 |
| Invoicing.GenerateInvoiceNumber | app_core/invoicing.py:12-34 | the number generated as written always carries the year's prefix |
| Invoicing.SequenceOfNumber | app_core/invoicing.py:27-34 | the suffix of a generated number reads back as the sequence it was built from |
| Invoicing.GeneratedFollowsGreatest | app_core/invoicing.py:20-32 | the generated suffix is one more than the suffix of the greatest existing number in string order, or 1 when that does not parse or none exists |
| Invoicing.GreatestIsLexMax | app_core/invoicing.py:23 | a number no other exceeds in string order is what `order_by('-invoice_number').first()` picks |
| Invoicing.FirstNumberOfYear | app_core/invoicing.py:31-34 | with no number of the year yet the first one is INV-YYYY-0001 |
| Invoicing.NumberRepeatsAfter9999 | app_core/invoicing.py:20-34 | as written, with INV-2024-9999 and INV-2024-10000 on file the number generated is one that already exists |
| Invoicing.MaxSequence | app_core/invoicing.py:27 | no parsable suffix of the list exceeds it |
| Invoicing.GenerateFreshInvoiceNumber | app_core/invoicing.py:12-34 | numbering as intended: the number carries the year's prefix and is not among the existing numbers |
| Invoicing.FreshNumberExceedsAll | app_core/invoicing.py:27-28 | the fresh number's suffix exceeds every parsable suffix of the year compared as numbers |
| Invoicing.NewInvoiceNumber | app_core/invoicing.py:12-34 | the number chosen at creation time carries the year's prefix and is new (corrected: see ## Findings) |
| Invoicing.SumAmountsAppend | app_core/invoicing.py:42 | the subtotal of two runs of items is the sum of their subtotals |
| Invoicing.TaxRounded | app_core/invoicing.py:43 | the stored tax is within half a penny of subtotal x rate / 100, and an exact half penny goes to the even penny |
| Invoicing.TaxMonotone | app_core/invoicing.py:43 | at a nonnegative rate a larger subtotal never carries less tax |
| Invoicing.TaxExactOnPounds | app_core/invoicing.py:43 | a whole-percent rate on whole pounds is taxed exactly |
| Invoicing.StatusUpdateIdempotent | app_core/invoicing.py:49-76 | a second status update with the same payments on the same day changes neither the status nor the paid date |
| Invoicing.CancelledIsFinal | app_core/invoicing.py:53-54 | the status ends cancelled exactly when it was cancelled |
| Invoicing.PaymentsDecide | app_core/invoicing.py:61-67 | with a positive amount paid, the status is paid exactly when it covers the total and partially paid exactly when it does not |
| Invoicing.OverdueExactly | app_core/invoicing.py:68-71 | the status becomes overdue exactly when it is neither draft nor cancelled, nothing is paid, the total is not covered and the due date has passed |
| Invoicing.PaidDateOnFullPayment | app_core/invoicing.py:61-64 | a full payment always leaves a paid date, keeping the first one |
| Invoicing.Invoice.constructor | app_core/invoicing.py:90-101 | the new invoice holds the given fields, no items or payments and zero amounts |
| Invoicing.Invoice.CalculateTotals | app_core/invoicing.py:37-46 | subtotal = sum of the item amounts, tax = the rounded rate on it, total = subtotal + tax - discount |
| Invoicing.Invoice.UpdateStatus | app_core/invoicing.py:49-76 | a cancelled invoice is left alone; otherwise paid amount = sum of the payments, and status and paid date follow the payment and date rules |
| Invoicing.Invoice.RecordPayment | app_core/invoicing.py:120-137 | the payment is appended and the status and paid date are brought up to date over all payments |
| Invoicing.ItemFromTemplate | app_core/invoicing.py:105-112 | the invoice item keeps the template item's description, quantity, unit price and order |
| Invoicing.CreateInvoiceFromTemplate | app_core/invoicing.py:79-117 | a fresh draft for the client with a new prefixed number, dated the given day or today, due on the given day or 30 days later, with the template's rate, one item per template item in order, and totals computed over them; the number is new (corrected: see ## Findings) |
| Invoicing.CopyTemplateItems | app_core/invoicing.py:104-112 | one invoice item per template item, in order |
| Invoicing.RecurrenceDays | app_core/invoicing.py:193-200 | monthly, quarterly and yearly recur after 30, 90 and 365 days; any other frequency is skipped |
| Invoicing.Rows | app_core/invoicing.py:179-183 | one row per invoice, in order |
| Invoicing.CopyRow | app_core/invoicing.py:212-232 | the new row is the recurring copy of the original under the given number: a draft dated the next date, due 30 days later, with the original's amounts and group |
| Invoicing.CreateRecurringInvoices | app_core/invoicing.py:170-247 | every copy is a fresh invoice from a paid recurring invoice due on the check date (today by default), no copy repeats a group and date already present, numbers are new, and afterwards every due invoice's group has an invoice on its next date; the numbers are new (corrected: see ## Findings) |
| Invoicing.PlanCopies | app_core/invoicing.py:187-245 | the copies the loop decides on keep the loop facts over the whole table and cover every due invoice; their numbers are new (corrected: see ## Findings) |
| Invoicing.CreateRows | app_core/invoicing.py:212-232 | one fresh invoice per planned row, in order |
| Invoicing.DueCovered | app_core/invoicing.py:203-210 | every due invoice ends with an invoice of its group on its next date, existing or created |
| Invoicing.GetCurrencySymbol | app_core/invoicing.py:268-279 | the symbol of one of the eight known codes; the result equals the code exactly when the code is unknown or is CHF |
| DashboardModels.GetDefaultLayout | app_core/dashboard_models.py:47-70 | the default layout has eleven widget entries |
| DashboardModels.DefaultLayoutWithinGrid | app_core/dashboard_models.py:50-67 | every default widget has positive size and lies within the 12-column grid |
| DashboardModels.DefaultLayoutDisjoint | app_core/dashboard_models.py:50-67 | no two default widgets overlap |
| DashboardModels.DefaultLayoutIdsDistinct | app_core/dashboard_models.py:52-66 | no two default widgets share an id |
| DashboardModels.DefaultLayoutInCatalog | app_core/dashboard_models.py:52-66 | every default widget is in the client-side catalog and meets its minimum width and height |
| DashboardModels.KpiRowTiles | app_core/dashboard_models.py:51-57 | the six KPI tiles fill the first row edge to edge, left to right |
| DashboardModels.GetOrCreateDefault | app_core/dashboard_models.py:72-79 | an existing layout is returned and the store unchanged; otherwise the default is stored for the pair; no other pair changes |
| DashboardModels.GetOrCreateIdempotent | app_core/dashboard_models.py:72-79 | a second lookup returns the same layout and changes nothing |
| DashboardWidgets.CatalogSizesSound | app_web/static/app_web/dashboard_widgets.js:18-50 | every catalog kind has a positive default size that fits the 12 columns and meets its minimum width and height |
| DashboardWidgets.ConflictsIffSharedCell | app_web/static/app_web/dashboard_widgets.js:1024-1031 | for non-empty rectangles the separating-axis test reports a conflict exactly when some grid cell lies in both; touching edges do not conflict |
| DashboardWidgets.FirstFitUnique | app_web/static/app_web/dashboard_widgets.js:1014-1044 | the first-fit rule determines the position uniquely |
| DashboardWidgets.CanFit | app_web/static/app_web/dashboard_widgets.js:1022-1035 | the overlap loop answers yes exactly when the rectangle conflicts with no node |
| DashboardWidgets.FindPosition | app_web/static/app_web/dashboard_widgets.js:1014-1044 | a position found is a scan candidate that overlaps no node and is the first such in row-major order; when none exists in 20 rows the widget goes to (0, 0) |
| DashboardWidgets.SerialiseAppend | app_web/static/app_web/dashboard_widgets.js:1108-1114 | one more node adds its own entry at the end of the saved list |
| DashboardWidgets.Loaded | app_web/static/app_web/dashboard_widgets.js:257-282 | loading keeps no more entries than were saved, and only entries with a non-empty id the catalog knows |
| DashboardWidgets.LoadedStep | app_web/static/app_web/dashboard_widgets.js:268-282 | loading one more entry appends it, defaults filled in, exactly when it is loadable |
| DashboardWidgets.LoadedOfComplete | app_web/static/app_web/dashboard_widgets.js:306-323 | a list of loadable entries that name their sizes loads back unchanged |
| DashboardWidgets.LoadSavedRoundTrip | app_web/static/app_web/dashboard_widgets.js:1104-1118 | loading what was saved restores the grid when every node is a catalog widget of non-zero size |
| DashboardWidgets.IdsAppend | app_web/static/app_web/dashboard_widgets.js:344 | one more node adds its id to the ids on the grid |
| DashboardWidgets.DefaultWidgetsComplete | app_web/static/app_web/dashboard_widgets.js:290-302 | the catalog knows each of the four default widgets at a non-zero size |
| DashboardWidgets.WithoutMembers | app_web/static/app_web/dashboard_widgets.js:1064-1066 | removing a node keeps exactly the nodes of other elements, and keeps element handles distinct |
| DashboardWidgets.WithoutAbsent | app_web/static/app_web/dashboard_widgets.js:1064-1066 | removing an element with no node changes nothing |
| DashboardWidgets.WithoutRemovesOne | app_web/static/app_web/dashboard_widgets.js:1064-1066 | removing a present element from a grid of distinct elements removes exactly one node |
| DashboardWidgets.WithoutKeepsOthers | app_web/static/app_web/dashboard_widgets.js:1059-1074 | removing one widget's node leaves every other widget's node in place |
| DashboardWidgets.DashboardEngine.constructor | app_web/static/app_web/dashboard_widgets.js:100-132 | the engine starts with an empty grid, no widgets, no saves and no pending save |
| DashboardWidgets.DashboardEngine.AddWidgetToGrid | app_web/static/app_web/dashboard_widgets.js:304-348 | an id unknown to the catalog changes nothing; otherwise one node is appended with sizes and position defaulted from the catalog, and the map points the id at it |
| DashboardWidgets.DashboardEngine.SaveLayout | app_web/static/app_web/dashboard_widgets.js:1104-1150 | posts one `{id, x, y, w, h}` per grid node, in node order |
| DashboardWidgets.DashboardEngine.DebouncedSaveLayout | app_web/static/app_web/dashboard_widgets.js:1152-1157 | exactly one save is pending afterwards, due 2000 ms from now, replacing any earlier one |
| DashboardWidgets.DashboardEngine.Tick | app_web/static/app_web/dashboard_widgets.js:1152-1157 | a pending save that has fallen due runs once and is cleared; otherwise nothing changes |
| DashboardWidgets.DashboardEngine.LoadLayout | app_web/static/app_web/dashboard_widgets.js:252-288 | a saved layout makes the grid exactly its loadable entries, in order, defaults filled in, even when that leaves it empty; a failed fetch or a reply without a layout adds the defaults |
| DashboardWidgets.DashboardEngine.LoadDefaultWidgets | app_web/static/app_web/dashboard_widgets.js:290-302 | the four defaults are appended to the grid in order |
| DashboardWidgets.DashboardEngine.AddWidget | app_web/static/app_web/dashboard_widgets.js:1003-1057 | an id already on the dashboard or unknown to the catalog changes nothing; otherwise the widget gets its catalog size at the first-fit position, the map points at its new node, and the layout is saved at once |
| DashboardWidgets.DashboardEngine.RemoveWidget | app_web/static/app_web/dashboard_widgets.js:1059-1074 | an id not on the dashboard changes nothing; otherwise exactly its node leaves the grid and its id the map, and the layout is saved at once |
| DashboardViews.LastMonth | app_web/dashboard_views.py:200-201 | the previous calendar month, from its first day to its last, ending the day before the first of today's month |
| DashboardViews.ParseDateRange | app_web/dashboard_views.py:191-205 | last 7/30/90 days end today and start 7/30/90 days earlier; this month and this year start on the 1st of the month or of January; last month is the whole previous month; an unknown key is the last 30 days; the start is never after the end and the end never after today |
| DashboardViews.WidgetIdsAreCatalog | app_web/dashboard_views.py:136-168 | the widget ids with a data function are exactly the ids of the front-end catalog |
| DashboardViews.WidgetRange | app_web/dashboard_views.py:115-176 | 400 exactly when both custom bounds are given and one is not YYYY-MM-DD; otherwise 404 exactly for an unknown widget id; else the custom bounds, or the preset range (default last 30 days) |
| DashboardViews.PreviousPeriod | app_web/dashboard_views.py:229-232 | the comparison window ends the day before the range starts and spans `(end - start).days` days, one fewer than the range |
| DashboardViews.ChangePct | app_web/dashboard_views.py:248-249 | 0 against a zero previous total; otherwise the change as a percentage of the previous total |
| DashboardViews.ChangePctSign | app_web/dashboard_views.py:248-249 | against a positive previous total the change percentage is positive, zero or negative exactly as the total rises, holds or falls |
| DashboardViews.BurnDays | app_web/dashboard_views.py:469 | never zero; equal to `(end - start).days` whenever that is not zero |
| DashboardViews.BurnRate | app_web/dashboard_views.py:460-477 | the burn rate times the days divided by gives the total expenses |
| DashboardViews.TrendDates | app_web/dashboard_views.py:655-660 | one date per day from start to end inclusive, in order; none when the end precedes the start |
| DashboardViews.TrendDatesCoverRange | app_web/dashboard_views.py:655-660 | every day of the range is on the trend line, at its offset from the start |
| DashboardViews.NetSeries | app_web/dashboard_views.py:664 | one net figure per date |
| DashboardViews.NetSeriesAt | app_web/dashboard_views.py:646-664 | the figure at each position is that date's income less its expense |
| DashboardViews.NetOnAppend | app_web/dashboard_views.py:649-653 | one more transaction changes only its own date's net, by its signed amount |
| DashboardViews.NetSeriesStep | app_web/dashboard_views.py:649-664 | one more transaction moves the series total by its signed amount once per occurrence of its date |
| DashboardViews.RisingOccursOnce | app_web/dashboard_views.py:655-660 | each day of the range occurs on the trend line exactly once and no other day occurs |
| DashboardViews.TrendNetConserved | app_web/dashboard_views.py:640-664 | the net series adds up to the net of the transactions in the range: no transaction is lost or counted twice |
| DashboardViews.BudgetPct | app_web/dashboard_views.py:904 | 0 for a zero budget; otherwise spent as a percentage of the budget |
| DashboardViews.AlertThresholds | app_web/dashboard_views.py:904-912 | for a positive budget: danger exactly when spending reaches it, warning exactly from four fifths of it up to it, ok below four fifths |
| DashboardViews.BudgetAlerts | app_web/dashboard_views.py:885-923 | the alerts are, in order, one per budget that has labels, whatever its status |
| DashboardViews.AlertsOfExactly | app_web/dashboard_views.py:893-921 | every budget with labels has an alert, and there are no more alerts than budgets |
| DashboardViews.AlertsOnlyForLabelled | app_web/dashboard_views.py:894-895 | every alert belongs to a budget that has labels |
| DashboardViews.PieColours | app_web/dashboard_views.py:580-585 | one colour per slice: the label's own colour, or else the palette entry at the slice's index, wrapping |
| DashboardViews.PaletteNeverWraps | app_web/dashboard_views.py:559-585 | with at most ten slices the fallback colours of a pie never repeat |
| Projects.TreeFlowSumsSubtree | app_core/projects.py:91-98 | a project's rolled-up inflow and outflow are the sums of the own flows of the project and every descendant |
| Projects.Figures | app_core/projects.py:100-110 | no budget figures without a budget or with a zero one; otherwise variance = budget - outflow and its absolute value, and for a positive budget usage = outflow / budget x 100 |
| Projects.ScheduleOf | app_core/projects.py:112-133 | a schedule exists only with both dates; progress is within 0..100, 0 before the start and 100 exactly after the end (for end >= start); days remaining is end - today, negative exactly when overdue |
| Projects.MilestoneProgress | app_core/projects.py:135-145 | none without milestones; otherwise within 0..100, 100 exactly when all are completed |
| Projects.UnlabelledCategorySpendsNothing | app_core/projects.py:200-202 | a category without labels has spent 0 |
| Projects.CalculateCategorySpending | app_core/projects.py:194-220 | the loop sums the category's labelled outflows within the project's dates |
| Projects.CategoryFigures | app_core/projects.py:147-159 | remaining + spent = allotted; usage is spent / allotted x 100, 0 without a positive allocation |
| Projects.OwnTotals | app_core/projects.py:50-89 | the allocation loop and the label loop give the project's own flow |
| Projects.NoLabelsNoAutoFlow | app_core/projects.py:67-69 | a project without labels gets no auto-assigned flow |
| Projects.CategoriesOf | app_core/projects.py:147-159 | one figures row per budget category, in order, each from its spending |
| Projects.CalculateProjectData | app_core/projects.py:44-191 | the flow is the own flow, rolled up over sub-projects when asked; net = inflow - outflow; the budget figures, schedule, milestone counts and categories are those above; one sub-project row per child |
| Projects.ProjectTransactionIds | app_core/projects.py:223-263 | a transaction belongs exactly when it is allocated to the project or a descendant, or is the owner's, carries one of the project's labels and falls within its dates |
| Projects.BumpAdds | app_core/projects.py:283-285 | adding to a label's group adds the amount to the total and keeps one group per label name |
| Projects.GroupsSumToTotal | app_core/projects.py:279-288 | the label groups add up to the direction's total, one group per name |
| Projects.Margin | app_core/projects.py:297 | the margin is net / inflow x 100, 0 without positive inflow |
| Projects.CalculateProjectPl | app_core/projects.py:266-298 | inflows and outflows grouped by label name ('Uncategorized' without a label); totals are the directions' sums; net = inflow - outflow; the margin as above |
| Projects.StatusAfterUpdate | app_core/projects.py:327-333 | the result is completed exactly when a completion date is set or it was completed and is not yet past due; overdue exactly when no completion date is set and it is past due or was overdue; otherwise unchanged |
| Projects.MilestoneUpdateIdempotent | app_core/projects.py:321-335 | updating a milestone's status a second time on the same day changes nothing more |
| Projects.CompletedWithoutDateTurnsOverdue | app_core/projects.py:327-333 | a milestone marked completed without a completion date turns overdue once its due date has passed |
| Projects.Milestone.constructor | app_core/projects.py:321 | a milestone with its status, due date and completion date |
| Projects.Milestone.UpdateStatus | app_core/projects.py:321-335 | only the status changes, to the status above |
| TaskModels.NextTaskNumber | app_core/task_models.py:131-133 | one more than the highest number in the project, 1 in an empty project: larger than every number in use |
| TaskModels.CompletionAfterSave | app_core/task_models.py:135-139 | a completion time exactly for a done task: the existing one, else now |
| TaskModels.SaveKeepsCompletion | app_core/task_models.py:135-139 | saving again later keeps the completion time the first save left |
| TaskModels.IsOverdue | app_core/task_models.py:143-148 | overdue exactly with a due date, not done, and today after it |
| TaskModels.CountDone | app_core/task_models.py:161-163 | the completed count is at most the number of sub-tasks, equal exactly when all are done |
| TaskModels.CountDoneAfterMarking | app_core/task_models.py:161-163 | marking a sub-task done raises the count by one exactly when it was not done |
| TaskModels.ProgressPercentage | app_core/task_models.py:150-158 | within 0..100; without sub-tasks 100 when done and 0 otherwise; with sub-tasks 100 exactly when all are done and 0 exactly below one per cent |
| TaskModels.CompletingSubtaskRaisesProgress | app_core/task_models.py:150-158 | completing a sub-task never lowers progress |
| TaskModels.TimeSpentPercentage | app_core/task_models.py:165-170 | none without an estimate or with a zero one; otherwise actual / estimate x 100 truncated toward zero |
| TaskModels.BookingAddsHours | app_core/task_models.py:221-223 | a booking adds its hours to its own task's total and to no other |
| TaskModels.HoursIgnoreOrder | app_core/task_models.py:221-223 | the total does not depend on the order of bookings |
| TaskModels.Task.constructor | app_core/task_models.py:29 | a new task has no number, no completion time and no hours |
| TaskModels.Task.Save | app_core/task_models.py:129-141 | a task without a number gets the next one; the completion time follows the rule above; nothing else changes |
| TaskModels.SaveTimeEntry | app_core/task_models.py:218-224 | the entry is stored and the task's actual hours become the total booked against it, then the task is saved |
| TeamModels.DefaultFlags | app_core/team_models.py:88-126 | a role created with defaults has every permission flag, true exactly for the five view flags |
| TeamModels.Attribute | app_core/team_models.py:74-179 | getattr gives a value exactly for the fields of a role: a flag's own value, the truth of a non-empty name or description; any other name gives the default |
| TeamModels.DefaultRoleGrantsViewsOnly | app_core/team_models.py:177-179 | a member with a default role holds a flag, or any name that is not a field of the role, exactly when it is one of the view permissions |
| TeamModels.UnknownNameDenied | app_core/team_models.py:177-179 | a name that is not a field of the role is never granted |
| TeamModels.NameAttributeGrants | app_core/team_models.py:177-179 | asking for the permission "name" grants it exactly when the role's name is non-empty |
| TeamModels.MemberCount | app_core/team_models.py:65-67 | the active member count is at most the number of memberships |
| TeamModels.CountZeroIffNoActive | app_core/team_models.py:65-67 | the count is 0 exactly when the organisation has no active member |
| TeamModels.CountAfterJoin | app_core/team_models.py:65-71 | one more active membership raises the count, and so what can_add_member compares, by one |
| TeamModels.CountAfterOther | app_core/team_models.py:65-67 | a membership of another organisation, or an inactive one, leaves the count alone |
| TeamModels.CountAfterDeactivate | app_core/team_models.py:65-67 | deactivating an active membership of the organisation lowers its count by one |
| TeamModels.CountAfterRoleChange | app_core/team_models.py:65-67 | a role change leaves every count alone |
| TeamModels.ActiveMember | app_core/permissions.py:33-37 | the membership found is an active one of the user in the organisation, and there is one unless none is active |
| TeamModels.PermissionRequest.constructor | app_core/team_models.py:182-224 | a new request is pending, decided by nobody |
| TeamModels.PermissionRequest.Approve | app_core/team_models.py:243-248 | approved by the approver now; afterwards active exactly on the days of its window |
| TeamModels.PermissionRequest.Reject | app_core/team_models.py:250-256 | the rejector is stored in approved_by with the time and reason; afterwards never active |
| TeamModels.AfterApprove | app_core/team_models.py:373-381 | the approver joins the set; at the quorum the approval is approved and resolved now, below it nothing else changes |
| TeamModels.AfterReject | app_core/team_models.py:383-389 | rejected by the rejector for the reason, resolved now, whatever the prior status |
| TeamModels.AfterCancel | app_core/team_models.py:391-395 | cancelled and resolved now, whatever the prior status |
| TeamModels.ApproveIdempotent | app_core/team_models.py:373-381 | the same user approving twice at once has the effect of approving once |
| TeamModels.ApproveAll | app_core/team_models.py:375 | a sequence of approvals adds exactly those users |
| TeamModels.ApprovedStaysApproved | app_core/team_models.py:378-381 | once approved, further approvals keep it approved |
| TeamModels.ShortOfQuorum | app_core/team_models.py:378 | approvals that stay short of the quorum leave the status alone |
| TeamModels.PendingUntilQuorum | app_core/team_models.py:373-381 | a pending approval ends approved exactly when the distinct approvers reach the quorum |
| TeamModels.QuorumReached | app_core/team_models.py:373-381 | from nobody, a sequence of approvals ends approved exactly when it holds at least the required number of distinct users |
| TeamModels.Approval.constructor | app_core/team_models.py:314-360 | a new approval is pending with no approvers and no resolution |
| TeamModels.Approval.Approve | app_core/team_models.py:373-381 | the state becomes the approve transition of the old state |
| TeamModels.Approval.Reject | app_core/team_models.py:383-389 | the state becomes the reject transition |
| TeamModels.Approval.Cancel | app_core/team_models.py:391-395 | the state becomes the cancel transition |
| TeamModels.ActivityLog.constructor | app_core/team_models.py:398-474 | the audit trail starts empty |
| TeamModels.JoinKeepsWellFormed | app_core/team_models.py:165-172 | a membership for a new (organisation, user) pair under the next id keeps the pair unique |
| TeamModels.ReplaceKeepsWellFormed | app_core/team_models.py:165-172 | changing a membership's role or activity keeps the pairs unique |
| TeamViews.AjaxPreamble | app_core/permissions.py:101-115 | a team view's body runs exactly for a POST by a signed-in user holding the permission; anonymous users go to login |
| TeamViews.SwitchOrganization | app_core/team_views.py:34-54 | the session's organisation changes exactly when the user has an active membership in that active organisation; the answer redirects to the referrer or the dashboard |
| TeamViews.WithEmail | app_core/team_views.py:158-166 | the users looked up are exactly those with the email |
| TeamViews.InviteRefusal | app_core/team_views.py:140-181 | an invite passes the checks only for a POST by a member manager, with an email and a role of the organisation, and exactly one user with that email |
| TeamViews.InviteWithinLimit | app_core/team_views.py:168-181 | an invite that passes the checks names a user with no membership in the organisation, active or not, and finds the organisation below its member limit |
| TeamViews.InviteMember | app_core/team_views.py:140-217 | a refused invite changes nothing; an accepted one appends one active membership under the next id, raising the count by one and never past max_users, and logs one 'invite' entry |
| TeamViews.InviteAccepted | app_core/team_views.py:183-207 | the accepted invite's membership and audit entry |
| TeamViews.MemberIndex | app_core/team_views.py:228-231 | the membership found has the id and belongs to the current organisation, or there is none |
| TeamViews.RemoveRefusal | app_core/team_views.py:220-245 | a removal passes the checks only for a POST by a member manager, on a membership of the organisation that is not the owner's and not the caller's own |
| TeamViews.DeactivatedHasNoMembership | app_core/team_views.py:247-249 | a deactivated member has no active membership left in that organisation |
| TeamViews.RemoveMember | app_core/team_views.py:220-271 | owners are never changed; a refusal changes nothing; an accepted removal deactivates exactly that membership, after which the removed user holds no permission there, and logs one entry |
| TeamViews.RemoveAccepted | app_core/team_views.py:247-267 | the accepted removal's deactivation and audit entry |
| TeamViews.ChangeRoleRefusal | app_core/team_views.py:274-298 | a role change passes the checks only for a POST by a member manager, with a role of the organisation, on a non-owner membership of it |
| TeamViews.ChangeMemberRole | app_core/team_views.py:274-322 | owners are never changed and member counts never move; an accepted change sets exactly that membership's role and logs one entry |
| TeamViews.ChangeRoleAccepted | app_core/team_views.py:300-318 | the accepted change's new role and audit entry |
| TeamViews.ApproveRequest | app_core/team_views.py:450-509 | a decided approval never changes; a refusal changes nothing; otherwise the caller's approval is added, once, through Approval.approve with the workflow's quorum, and one entry is logged |
| TeamViews.RejectRequest | app_core/team_views.py:512-566 | a decided approval never changes; otherwise the approval is rejected by the caller with the reason or 'No reason provided', and one entry is logged |
| TeamViews.OwnedIds | app_core/team_views.py:627-645 | only the listed roles and labels that belong to the organisation are attached to a workflow |
| TeamViews.CreateWorkflowRefusal | app_core/team_views.py:600-616 | a workflow is created only on a POST by an organisation manager whose data has a name and an entity type |
| TeamViews.NewWorkflow | app_core/team_views.py:612-645 | the new workflow's approver roles and labels belong to the organisation; approvals_required defaults to 1 and is_active to true |
| TeamViews.CreateWorkflow | app_core/team_views.py:600-667 | a refusal changes nothing; otherwise one new workflow under a fresh id and one audit entry |
| TeamViews.CreateAccepted | app_core/team_views.py:612-662 | the accepted creation's workflow and audit entry |
| TeamViews.DeleteWorkflowRefusal | app_core/team_views.py:670-694 | a workflow is deleted only on a POST by an organisation manager, for a workflow of the organisation with no pending approval |
| TeamViews.DeleteWorkflow | app_core/team_views.py:670-716 | pending approvals always survive; a refusal changes nothing; otherwise the workflow and exactly its approvals go, and one entry is logged |
| TeamViews.DeleteAccepted | app_core/team_views.py:696-712 | the accepted deletion's removals and audit entry |
| CurrencyTags.OrgCurrencyCode | app_core/templatetags/currency_tags.py:27-35 | the organisation's preferred currency, or GBP (a supported code whose symbol is '£') without one |
| CurrencyTags.CurrencySymbol | app_core/templatetags/currency_tags.py:15-23 | the organisation's symbol, or '£' without one |
| CurrencyTags.Render | app_core/templatetags/currency_tags.py:47-52 | a rendering starts with the symbol and ends with a point and two decimals; a negative amount, one that rounds to zero included, carries a minus sign after the symbol |
| CurrencyTags.UnreadableRendersAsZero | app_core/templatetags/currency_tags.py:50-52 | a value Decimal cannot read renders exactly as zero does |
| CurrencyTags.CurrencyFormat | app_core/templatetags/currency_tags.py:39-52 | an unknown currency code renders the amount with no symbol |
| CurrencyTags.CurrencyFormatReadsBack | app_core/templatetags/currency_tags.py:49 | a pound amount rendered by currency_format is read back by the amount cleaning of uploads and manual entry as the amount rounded half-even to the penny, within half a penny of it |
| CurrencyTags.CurrencyAmount | app_core/templatetags/currency_tags.py:56-100 | no organisation: the pound rendering; a missing original currency is the organisation's; the same currency shows the organisation's symbol; a different one the original rendering and then the converted amount in parentheses, the rate store updated as a get_rate does |
| CurrencyTags.DisplayAmountInOrgCurrency | app_core/templatetags/currency_tags.py:122-151 | no organisation: the amount behind the source currency's symbol; otherwise the amount, converted when the currencies differ, behind the organisation's symbol |
| CurrencyTags.AbsValue | app_core/templatetags/currency_tags.py:154-163 | a number becomes its magnitude; anything abs refuses comes back unchanged |
| CurrencyTags.AbsValueIdempotent | app_core/templatetags/currency_tags.py:154-163 | applying the filter twice changes nothing more |
| Ingest.NormaliseHeader | app_core/ingest.py:24 | a normalised header is no longer than the original and has no upper-case letter |
| Ingest.NormaliseHeaderIdempotent | app_core/ingest.py:24 | normalising twice gives the same header |
| Ingest.ReadAny | app_core/ingest.py:12-25 | the file is read exactly when its lower-cased name ends in .csv or .xlsx; otherwise 'Unsupported file type (expected .csv or .xlsx)' |
| Ingest.ReadAnyNormalises | app_core/ingest.py:24 | every column header comes back stripped and lower-cased, in order |
| Ingest.MissingIsSortedDifference | app_core/ingest.py:67 | the missing columns are exactly the required ones absent from the file, in sorted order |
| Ingest.ExtrasAreUnknown | app_core/ingest.py:68 | the extras are exactly the file's columns that are neither required nor optional |
| Ingest.ExtrasWarning | app_core/ingest.py:89-91 | more than ten extra columns end the warning with ' ...' |
| Ingest.CellOf | app_core/ingest.py:109-111 | a column the frame lacks reads as absent; otherwise the row's own value |
| Ingest.CoerceAmount | app_core/ingest.py:41-50 | an amount is its text with commas and '£' removed, stripped and read as a number; unreadable is NaN |
| Ingest.CoerceReadsRendered | app_core/ingest.py:41-50 | a pound amount rendered with thousands separators and two decimals is read back as exactly that amount |
| Ingest.InferredDirection | app_core/ingest.py:56 | inflow exactly for a number at or above zero; NaN and negatives are outflow |
| Ingest.CoerceRow | app_core/ingest.py:27-58 | a file without a direction column gets the inferred direction when it has amounts; a file with one keeps it |
| Ingest.CoercedAt | app_core/ingest.py:27-58 | coercion works row by row: row k of the result is the coercion of row k |
| Ingest.AnyMissingIff | app_core/ingest.py:32-52 | a coercion warning is raised exactly when some row has a NaT date (respectively a NaN amount) |
| Ingest.CoerceTypes | app_core/ingest.py:27-58 | the loop yields the coerced rows and the warnings they call for |
| Ingest.ValidateAndPreview | app_core/ingest.py:60-100 | an unreadable name raises; missing columns give ok false, one error naming them and no rows; otherwise ok true, the row count and the coercion and extras warnings |
| Ingest.RequiredColumnsSuffice | app_core/ingest.py:67-78 | a file with date, description and amount columns is never refused for missing columns |
| Ingest.OrElse | app_core/ingest.py:123-126 | `x or default`: an absent or empty cell gives the default; NaN is truthy and gives 'nan' |
| Ingest.RowTransaction | app_core/ingest.py:109-128 | a row becomes a transaction exactly when its amount and date are present; the amount is stored absolute and the description cut to 512 characters |
| Ingest.DataframeToTransactions | app_core/ingest.py:102-129 | the loop builds the rows' transactions in order, skipping incomplete rows |
| Ingest.TransactionsWellFormed | app_core/ingest.py:108-129 | one transaction per complete row, each with a non-negative amount, at most 512 characters of description, a source and the uploading user |
| Ingest.InferredDirectionAgrees | app_core/ingest.py:115 | without a direction column the saved direction follows the amount's sign |
| Middleware.Request.constructor | app_core/middleware.py:41-48 | a request carries its user, META and session, and no organisation or member yet |
| Middleware.SessionMembership | app_core/middleware.py:53-60 | the session's organisation is used only with an active membership of the user in it, and only when it is active |
| Middleware.PrimaryMember | app_core/middleware.py:66-75 | the fallback membership is an active one in an active organisation, and there is one unless the user has none |
| Middleware.ProcessRequest | app_core/middleware.py:41-87 | an organisation is set exactly when the user is signed in and has a usable membership; a valid session organisation is kept; an invalid one is removed from the session; a fallback is saved to it |
| Middleware.OrganizationRequiredAfterMiddleware | app_core/middleware.py:16-32 | after the middleware a view is entered exactly when its user is signed in with a usable membership; anonymous users go to login |
| Middleware.GetClientIp | app_core/middleware.py:105-112 | a non-empty X-Forwarded-For gives its first comma-separated field; otherwise REMOTE_ADDR, or nothing |
| Middleware.UserAgent | app_core/middleware.py:101 | the stored user agent is the header's first 512 characters, '' without one |
| Middleware.RecordRequestMetadata | app_core/middleware.py:96-103 | the request gets the IP and user agent as metadata and nothing else changes |
| Permissions.FirstActiveRequest | app_core/permissions.py:47-52 | the request consulted is the member's first approved request covering today, or none |
| Permissions.HasPermission | app_core/permissions.py:13-60 | false without a user, organisation or active membership; true when the role has the permission |
| Permissions.RoleAloneWithoutActiveRequest | app_core/permissions.py:40-57 | with none of the member's requests active today the role alone decides |
| Permissions.LaterRequestShadowed | app_core/permissions.py:47-57 | only the first active request is consulted: a later one granting the permission is not seen |
| Permissions.RequirePermissionAjax | app_core/permissions.py:91-115 | the view runs exactly with the permission; otherwise ok false with 401 for an anonymous user and 403 otherwise |
| Permissions.RequirePermission | app_core/permissions.py:63-88 | the view runs exactly with the permission; anonymous users go to login, others to the redirect URL |
| Permissions.GetUserPermissions | app_core/permissions.py:159-187 | empty without a usable membership; otherwise exactly the role's can_ fields with the role's values, each true one granted by has_permission too |
| Permissions.LogActivity | app_core/permissions.py:118-156 | nothing is logged without an organisation and a user; otherwise exactly one entry is appended, with the request's IP and user agent when it carries them |
| UploadForm.CleanFile | app_web/forms.py:12-20 | a file passes exactly when its lower-cased name ends in .csv or .xlsx and its size is at most 10 MB; a bad extension is reported before a bad size |
| UploadForm.SizeBoundary | app_web/forms.py:18 | exactly 10 MB passes and one byte more fails; a size of 0 or unknown passes |
| UploadForm.ExtensionCaseInsensitive | app_web/forms.py:14-15 | upper- and mixed-case extensions are accepted |
| CurrencyService.GetSymbol | app_core/currency_service.py:24-39 | a supported code gets its symbol from the table; the empty string comes back exactly for a code outside it |
| CurrencyService.SymbolsDistinct | app_core/currency_service.py:25-34 | no two supported currencies share a symbol |
| CurrencyService.Fetch | app_core/currency_service.py:129-148 | the API's rate is used only when present and non-zero; a missing or zero rate is a failure |
| CurrencyService.StoredOnFinds | app_core/currency_service.py:70-74 | the stored-rate query finds a rate exactly when a row has the pair and date, and then it is the first such row's |
| CurrencyService.LatestIsLatest | app_core/currency_service.py:104-107 | the fallback row is a stored rate of the pair dated no earlier than any other, and exists whenever the pair has any row |
| CurrencyService.ResolveShortcuts | app_core/currency_service.py:55-66 | the same currency gives 1.00 and a cached rate is returned as is, neither touching the store |
| CurrencyService.ResolveFallbackOrder | app_core/currency_service.py:68-126 | a stored rate for the date wins; else, for a date at most 7 days old, the API's rate, which is stored; else the pair's latest rate; the final 1.00 only for a pair with USD on one side and no rows at all |
| CurrencyService.ResolveGrowsStore | app_core/currency_service.py:76-112 | a lookup never removes a stored row or changes a cached rate, and a rate found in the store or fetched ends up cached under its key |
| CurrencyService.BridgeIsOneLevel | app_core/currency_service.py:114-120 | the USD bridge is used only when neither side is USD, and its rate is the product of two legs that are not bridged themselves |
| CurrencyService.AskingAgainGivesSameRate | app_core/currency_service.py:61-66 | asking again for the same pair and date gives the same rate, the cache answering |
| CurrencyService.Quantize6 | app_core/currency_service.py:214 | a stored reverse rate is within half a millionth of the exact reciprocal |
| CurrencyService.UpsertStores | app_core/currency_service.py:201-206 | update_or_create stores the row, keeps the rows under other keys and adds nothing else |
| CurrencyService.CombinationsMembers | app_core/currency_service.py:197 | the pairs visited are exactly the index pairs i < j, as itertools.combinations gives them |
| CurrencyService.CombinationsDistinct | app_core/currency_service.py:197 | no index pair is visited twice |
| CurrencyService.NamedPairsDiffer | app_core/currency_service.py:197 | two different index pairs over distinct codes name different currency pairs, in either orientation |
| CurrencyService.TwentyEightPairs | app_core/currency_service.py:191-197 | the refresh visits 28 pairs, each unordered pair of the eight currencies once |
| CurrencyService.RefreshPairStores | app_core/currency_service.py:198-221 | a pair the API answers gets its rate stored forward and its reciprocal, to six places, backward; a failed pair stores nothing; rows of other keys stay |
| CurrencyService.RefreshStoresBothDirections | app_core/currency_service.py:197-221 | after the loop every answered pair's rates are stored in both directions for today |
| CurrencyService.CentsWithinHalfCent | app_core/currency_service.py:168 | a converted amount is within half a cent of the exact product |
| CurrencyService.RateService.constructor | app_core/currency_service.py:17-22 | the service starts with an empty cache over the given stored rates |
| CurrencyService.RateService.GetRate | app_core/currency_service.py:42-126 | the rate returned, and the cache and rows afterwards, are those of the fallback chain for the date (today when none is given) |
| CurrencyService.RateService.Convert | app_core/currency_service.py:151-171 | the same currency returns the amount untouched; otherwise the amount times the chain's rate, rounded half-even to the cent |
| CurrencyService.RateService.RefreshRates | app_core/currency_service.py:183-224 | refreshed counts two per answered pair, errors one per failed pair, the two covering all 28 pairs; the cache is not touched |
| CurrencyService.RateService.RefreshPairs | app_core/currency_service.py:197-221 | the loop's rows are the pairs' upserts in order, with the success and error counts |
| Budgets.PeriodDates | app_core/budgets.py:12-43 | a custom budget with both dates uses them; otherwise the period holds today: Monday to Sunday for weekly, 1 January to 31 December for yearly, the whole month for monthly and for a custom budget without dates |
| Budgets.SpentUntracked | app_core/budgets.py:76-78 | a budget with neither labels nor a category has spent 0 |
| Budgets.SpentNonNegative | app_core/budgets.py:57-80 | what a budget has spent is never negative |
| Budgets.BudgetUsage | app_core/budgets.py:46-98 | the usage covers the budget's current period; spent plus remaining is the amount; over exactly when remaining is negative; the percentage is spent/amount x 100, over 100 exactly when over, and 0 for a non-positive amount |
| Budgets.PercentAboveHundred | app_core/budgets.py:84-88 | for a positive amount, spending more than it is exactly a percentage above 100 |
| Budgets.PeriodDisplay | app_core/budgets.py:117-130 | a custom budget with both dates shows 'Mon YYYY' exactly when it starts on the 1st and ends on the last day of the start month's length, else 'Mon DD - Mon DD'; others show their period's label |
| Budgets.MonthYearIsNotRange | app_core/budgets.py:125-130 | the month rendering and the range rendering never coincide |
| Budgets.EndMonthNotChecked | app_core/budgets.py:124-127 | only the start's month is checked: a range from 1 January to 31 March shows as 'Jan YYYY' |
| Budgets.Entries | app_core/budgets.py:108-141 | every summary row is the row of an active budget of the organisation, and there are no more rows than budgets |
| Budgets.EntriesComplete | app_core/budgets.py:108-141 | every active budget of the organisation has its row in the summary |
| Budgets.EntriesAppend | app_core/budgets.py:108-141 | the rows of two runs of budgets are the first run's rows followed by the second's, so the rows keep the query's order |
| Budgets.SortByUsage | app_core/budgets.py:144 | the sort is a permutation, highest usage first |
| Budgets.SortIsStable | app_core/budgets.py:144 | budgets with equal usage keep the query's name order |
| Budgets.GetBudgetSummary | app_core/budgets.py:101-146 | the summary is a permutation of the active budgets' rows, sorted by usage descending, stable on ties |
| BudgetPeriods.NextPeriodStart | app_core/recurring_budgets.py:11-21 | a week, a calendar month or a calendar year on, the day clamped to the month's length; a custom period does not move; otherwise strictly later |
| BudgetPeriods.WeeklyStartsSevenDaysApart | app_core/recurring_budgets.py:16 | weekly starts are exactly seven days apart |
| BudgetPeriods.PeriodEnd | app_core/recurring_budgets.py:24-37 | a yearly period ends on 31 December and a custom one where it starts; a period never ends before it starts, and ends before the next one starts |
| BudgetPeriods.PeriodEndMeetsNextStart | app_core/recurring_budgets.py:28-33 | weekly and monthly periods end the day before the next starts (weekly: six days after the start) |
| BudgetPeriods.YearlyTilesOnlyFromJanuaryFirst | app_core/recurring_budgets.py:34-36 | a yearly period ends the day before the next starts exactly when it starts on 1 January |
| BudgetPeriods.StartsIncrease | app_core/recurring_budgets.py:134 | successive period starts are strictly increasing |
| BudgetPeriods.StartsNotBefore | app_core/recurring_budgets.py:134 | no period start comes before the first |
| RecurringBudgets.FirstStart | app_core/recurring_budgets.py:66-90 | generation starts one period after the last generated start, else after the start date, else after the creation day: the first of next month, 1 January of next year |
| RecurringBudgets.FirstWeeklyStartIsNextMonday | app_core/recurring_budgets.py:85-88 | a weekly budget without dates starts generating on the first Monday after its creation day |
| RecurringBudgets.CheckIgnoresCopies | app_core/recurring_budgets.py:101-107 | the duplicate check compares the template's period, so an existing custom copy of exactly that period is not seen |
| RecurringBudgets.CopiesAreCopies | app_core/recurring_budgets.py:109-121 | every budget created is a custom, non-recurring copy of its template for a period no matching budget covers |
| RecurringBudgets.CopiesWithinPeriods | app_core/recurring_budgets.py:95-98 | every copy lies within the recurrence_count periods visited |
| RecurringBudgets.CopiesInOrder | app_core/recurring_budgets.py:95-134 | a run's copies come in strictly increasing period order, so no two cover the same period |
| RecurringBudgets.Advanced | app_core/recurring_budgets.py:129-131 | for an eligible budget the next run resumes at the period after the last one visited, which becomes its last generated start; nothing the duplicate check compares changes; others are unchanged |
| RecurringBudgets.ExistsIgnoresAdded | app_core/recurring_budgets.py:101-107 | the copies a run adds never change the answer of a later duplicate check in the same run |
| RecurringBudgets.GenerateFor | app_core/recurring_budgets.py:65-134 | one template's part of the run adds its copies and records its last start; made counts the copies |
| RecurringBudgets.VisitPeriods | app_core/recurring_budgets.py:95-134 | the loop over n periods adds each uncovered period's copy in order |
| RecurringBudgets.VisitPeriod | app_core/recurring_budgets.py:97-127 | one period adds its copy exactly when no matching budget covers it |
| RecurringBudgets.GenerateRecurringBudgets | app_core/recurring_budgets.py:40-136 | every active recurring non-custom budget with a positive count (of the user, when given) gets its copies and new last start; the others are untouched; the count is the number created |
| BudgetPreview.PreviewStart | app_core/recurring_budgets.py:156-169 | the preview starts at the start date, else at the start of the period holding today |
| BudgetPreview.PreviewListAt | app_core/recurring_budgets.py:171-178 | the k-th previewed period starts at the k-th period start |
| BudgetPreview.PreviewRecurringBudgetPeriods | app_core/recurring_budgets.py:139-180 | nothing for a budget that is not recurring or is custom; otherwise num_periods or the count or 3 consecutive periods from the preview start |
| BudgetPreview.PreviewInOrder | app_core/recurring_budgets.py:171-178 | previewed periods come in calendar order |
| BudgetPreview.GenerationFollowsPreview | app_core/recurring_budgets.py:73-75 | a budget with a start date that has not generated yet generates the preview's periods after the first, which the budget itself covers |
| RecurringTransactions.NextOccurrence | app_core/recurring.py:12-24 | a known frequency moves strictly forward; an unknown one stays put |
| RecurringTransactions.OccurrenceSteps | app_core/recurring.py:16-23 | daily is one day, weekly seven, monthly and yearly a calendar month or year with the day clamped |
| RecurringTransactions.FirstCandidate | app_core/recurring.py:51-54 | a first run starts at the start date; later runs strictly after the last generated date |
| RecurringTransactions.MaxDate | app_core/recurring.py:57-59 | the horizon is days_ahead from today, or the end date when earlier |
| RecurringTransactions.OccurrencesIncrease | app_core/recurring.py:61-93 | occurrence dates strictly increase |
| RecurringTransactions.Occurrences | app_core/recurring.py:61-93 | every date visited lies between the first candidate and the horizon |
| RecurringTransactions.OccurrencesAreChainPrefix | app_core/recurring.py:61-93 | the dates visited are the chain of next occurrences, up to the first one past the horizon |
| RecurringTransactions.OccurrencesAscending | app_core/recurring.py:61-93 | the dates visited are in strictly ascending order |
| RecurringTransactions.RunWithinHorizon | app_core/recurring.py:49-61 | every date a run visits is at or after its first candidate, within days_ahead of today and not after the end date |
| RecurringTransactions.CategoryFor | app_core/recurring.py:81 | a non-empty category of the template is kept; otherwise the label's name is used; the result is empty exactly when both are empty or missing |
| RecurringTransactions.Emit | app_core/recurring.py:62-86 | a run only appends, and every new row is the template's transaction on one of the visited dates |
| RecurringTransactions.EmitCovers | app_core/recurring.py:62-86 | after a run every visited date has a matching transaction |
| RecurringTransactions.EmitSkipsExisting | app_core/recurring.py:62-72 | dates that already have a matching transaction create nothing |
| RecurringTransactions.EmitIdempotent | app_core/recurring.py:62-86 | running over the same dates again creates nothing |
| RecurringTransactions.StillActive | app_core/recurring.py:95-98 | a template stays active unless its end date is before today |
| RecurringTransactions.SecondRunVisitsNothing | app_core/recurring.py:49-93 | a second run on the same day visits no date |
| RecurringTransactions.GenerateFor | app_core/recurring.py:49-98 | one template's run emits its dates' transactions and moves its last generated date; made counts the new rows |
| RecurringTransactions.VisitDates | app_core/recurring.py:61-93 | the while loop emits each visited date's transaction and records the last date |
| RecurringTransactions.GenerateRecurringTransactions | app_core/recurring.py:27-100 | active templates (of the user, when given) are processed in order, others untouched; the count is the number of transactions created |
| RecurringTransactions.PreviewFrom | app_core/recurring.py:119-124 | at most num dates, none past the end date |
| RecurringTransactions.PreviewIsChainPrefix | app_core/recurring.py:119-124 | the preview is the chain of next occurrences from the first candidate |
| RecurringTransactions.PreviewStopsPastEnd | app_core/recurring.py:121-122 | a preview shorter than asked stops because the next date is past the end date |
| RecurringTransactions.PreviewPrefixOfOccurrences | app_core/recurring.py:103-126 | with an end date the preview is a prefix of the dates a run up to that date would visit |
| RecurringTransactions.UnknownFrequencyPreviewRepeats | app_core/recurring.py:124 | an unknown frequency previews the same date repeatedly |
| RecurringTransactions.PreviewRecurringOccurrences | app_core/recurring.py:103-126 | the loop returns the preview of the template's next dates |
| WebViews.FromIsoFormat | app_web/views.py:98 | a date read by `date.fromisoformat` comes from ten characters with dashes at positions 4 and 7 |
| WebViews.DayMonthYear | app_web/views.py:101 | a date read as day/month/year comes from text containing a slash |
| WebViews.EntryDate | app_web/views.py:96-103 | a date is read exactly when the ISO or the day/month/year reading succeeds, ISO taking precedence; a read date came from a ten-character dashed text or one with a slash |
| WebViews.EntryDirection | app_web/views.py:121-128 | a given direction is kept; with none, the entry is an inflow exactly when the amount is unreadable or not negative |
| WebViews.EntryErrorsNoneIff | app_web/views.py:91-128 | an entry has no errors exactly when its date reads, its description and amount are non-empty, the amount reads, and the direction is absent, inflow or outflow |
| WebViews.CreatedWellFormed | app_web/views.py:142-152 | the created transaction stores the magnitude of the amount, an inflow or outflow direction (for an absent one, inflow exactly when the amount is not negative), a description of at most 512 characters that begins the stripped input, a non-empty source, and an account whenever the user has a name |
| WebViews.AddTx | app_web/views.py:72-172 | refused exactly when some field check fails, with every error collected in field order; otherwise the transaction built from the entry is created |
| WebViews.CheckDate | app_web/views.py:91-103 | reports "required" for an empty date and "invalid" for an unreadable one; with no error the date is the ISO or day/month/year reading |
| WebViews.CheckAmount | app_web/views.py:109-118 | reports "required" or "invalid"; no error exactly when an amount was read, and then it is the text read after removing commas and pound signs |
| WebViews.Frequency | app_web/views.py:215-217 | always D, W or M; a parameter that upper-cases to one of them is kept upper-cased |
| WebViews.FrequencyStable | app_web/views.py:215-217 | passing the chosen frequency back chooses it again |
| WebViews.Since | app_web/views.py:220-224 | a window exists exactly when the parameter is present, non-empty and all digits; it starts that many days before today and not after today |
| WebViews.TrimDashes | app_web/views.py:341 | `lstrip('-')`: the result is a suffix of the input that does not begin with a dash |
| WebViews.DoubleDashPassesGuard | app_web/views.py:338-342 | as written, "--date" and "--amount" pass the guard and reach the ordering although neither is a valid ordering |
| WebViews.Ordering | app_web/views.py:338-342 | corrected: the requested ordering exactly when it is date or amount with at most one leading dash, else newest first |
| WebViews.OrderingAgreesOnValid | app_web/views.py:338-342 | wherever the guard as written picks a valid ordering, the corrected one picks the same |
| WebViews.DirectionFilter | app_web/views.py:333-336 | a filter applies exactly when the stripped parameter is inflow or outflow, and then it is that direction |
| WebViews.ListTransactionsExactly | app_web/views.py:327-336 | the list holds exactly the user's transactions whose description or category contains the search ignoring case and that pass the direction filter |
| WebViews.NoFilterListsAll | app_web/views.py:329-336 | an empty search with an unrecognised direction lists every transaction of the user |
| ProjectsPage.FlattenAppend | app_web/static/app_web/projects.js:72-90 | the cards of two runs of roots are the cards of the first run followed by those of the second |
| ProjectsPage.FirstWithIdAppend | app_web/static/app_web/projects.js:366-378 | searching a joined list finds the first list's hit when it has one, else the second's |
| ProjectsPage.FirstWithIdMeaning | app_web/static/app_web/projects.js:366-378 | a flat search finds nothing exactly when no project carries the id; what it finds carries the id and is listed |
| ProjectsPage.FindFollowsPreOrder | app_web/static/app_web/projects.js:366-378 | `findProjectById` returns the first project with the id in depth-first pre-order |
| ProjectsPage.FindProjectByIdMeaning | app_web/static/app_web/projects.js:366-378 | null exactly when no project anywhere in the tree has the id; otherwise a project of the tree with that id |
| ProjectsPage.BarWidth | app_web/static/app_web/projects.js:188 | the bar width is the percentage capped at 100 |
| ProjectsPage.SeverityMonotone | app_web/static/app_web/projects.js:187-246 | a higher budget percentage never gets a milder class |
| ProjectsPage.FillAndCompactAgree | app_web/static/app_web/projects.js:187-246 | grid and tree cards classify a percentage alike, except that the grid leaves on-track blank |
| ProjectsPage.CardConsistent | app_web/static/app_web/projects.js:130-243 | a card offers "add sub-project" exactly when it is not classed a task; a budget bar is drawn exactly for a project with a budget; an over-budget bar is full width; a bar narrower than full shows the usage itself |
| ProjectsPage.RenderProject | app_web/static/app_web/projects.js:75-89 | a project's card comes first, then its sub-projects' cards, appended to the markup so far |
| ProjectsPage.RenderGridView | app_web/static/app_web/projects.js:72-90 | the grid holds the cards of all projects in depth-first pre-order |
| ProjectsPage.GridHoldsEveryProjectOnce | app_web/static/app_web/projects.js:72-90 | the grid has one card per project of the tree |
| ProjectsPage.ParentBeforeSubProjects | app_web/static/app_web/projects.js:75-89 | each root's card follows the cards of the roots before it and is directly followed by its sub-projects' cards |
| ProjectsPage.NodeProjects | app_web/static/app_web/projects.js:91-129 | one project per tree node |
| ProjectsPage.NodeProjectsAppend | app_web/static/app_web/projects.js:91-129 | the projects of two runs of nodes are those of the first followed by those of the second |
| ProjectsPage.TreeFollowsGrid | app_web/static/app_web/projects.js:91-129 | the tree view visits the same projects as the grid, in the same order |
| ProjectsPage.TreeDepthIsLevel | app_web/static/app_web/projects.js:94-134 | when stored levels match the tree, each node's depth is its project's level, so both views give it the same level class |
| ProjectsPage.FilterProjects | app_web/static/app_web/projects.js:819-843 | every card's visibility is set by the status, level and case-insensitive search filters; nothing else about a card changes |
| ProjectsPage.NoFilterShowsAll | app_web/static/app_web/projects.js:819-843 | with both selects on "all" and an empty search every card is shown |
| ProjectsPage.SearchIgnoresCase | app_web/static/app_web/projects.js:822-833 | the search gives the same answer for the query in any case |
| ProjectsPage.NameMatchPasses | app_web/static/app_web/projects.js:828-833 | a card whose name contains the query in any case passes the search |
| ProjectsPage.ActivityIcon | app_web/static/app_web/projects.js:754-769 | never empty; "Activity" exactly for an unknown action, the action's own label otherwise |
| ProjectsPage.Bucket | app_web/static/app_web/projects.js:770-785 | under a minute (or in the future) is "just now"; otherwise the count of whole minutes, hours or days, each within its unit's range; a week or more is an older date |
| ProjectsPage.RelativeTimeExamples | app_web/static/app_web/projects.js:778-781 | one minute reads "1 minute ago", two hours "2 hours ago", a future time "Just now" |
| ProjectsPage.ProjectsPageState.constructor | app_web/static/app_web/projects.js:4 | the page starts in the grid view, rendered |
| ProjectsPage.ProjectsPageState.RenderProjects | app_web/static/app_web/projects.js:40-71 | the empty state for no projects, else the current view |
| ProjectsPage.ProjectsPageState.ToggleView | app_web/static/app_web/projects.js:280-300 | the view switches, the button names the other view, and the page is re-rendered |
| ProjectsPage.ToggleTwice | app_web/static/app_web/projects.js:280-300 | toggling twice comes back to the same view and rendering |
| TasksPage.ScanBack | app_web/static/app_web/tasks.js:237-246 | the index of the '@' the backward scan stops at, within the text before the cursor, or -1 |
| TasksPage.ScanBackMeaning | app_web/static/app_web/tasks.js:237-246 | a found index holds the nearest '@' with no space, newline or '@' between it and the cursor; -1 exactly when every '@' before the cursor is cut off by a space or newline |
| TasksPage.FindMentionStart | app_web/static/app_web/tasks.js:237-246 | the loop finds what the backward scan specifies |
| TasksPage.SuggestionsMeaning | app_web/static/app_web/tasks.js:250-253 | a member is suggested exactly when its lower-cased name contains the query |
| TasksPage.SplicedMeaning | app_web/static/app_web/tasks.js:275-282 | the mention keeps the text before the '@' and after the cursor, puts "@name " in between, and leaves no open mention behind it |
| TasksPage.StaleStartPrepends | app_web/static/app_web/tasks.js:276-279 | with no pending mention (-1) the name is put at the very front of the text |
| TasksPage.MentionBox.constructor | app_web/static/app_web/tasks.js:229-230 | the comment box starts empty, with no pending mention and the dropdown hidden |
| TasksPage.MentionBox.OnInput | app_web/static/app_web/tasks.js:232-273 | a found '@' becomes the pending mention and the members matching the lower-cased text after it are shown; otherwise the dropdown hides and no mention is pending |
| TasksPage.MentionBox.InsertMention | app_web/static/app_web/tasks.js:275-282 | the text becomes the splice of the name at the pending mention, the caret moves to its end and the dropdown hides |
| TasksPage.FilterTasks | app_web/static/app_web/tasks.js:557-578 | every row's visibility is set by the search, status, priority and assignee filters; nothing else about a row changes |
| TasksPage.EmptyFilterShowsAll | app_web/static/app_web/tasks.js:570-575 | an empty filter shows every row |
| TasksPage.FiltersNarrow | app_web/static/app_web/tasks.js:570-575 | a set status or assignee select shows only rows with that value; with no select set, a title containing the term in any case is shown |
| TasksPage.CountChecked | app_web/static/app_web/tasks.js:607 | no more checked boxes than boxes |
| TasksPage.CountCheckedPositive | app_web/static/app_web/tasks.js:607-612 | the count of checked boxes is positive exactly when some box is checked |
| TasksPage.UpdateBulkButtons | app_web/static/app_web/tasks.js:606-616 | the bulk buttons are shown exactly when some task box is checked |
| TasksPage.ToggleSelectAll | app_web/static/app_web/tasks.js:598-604 | every task box takes the select-all state, and the bulk buttons show exactly when it is checked and there are tasks |
| TasksPage.AddComment | app_web/static/app_web/tasks.js:341-415 | refused with "Comment cannot be empty" exactly when the comment is blank after trimming; otherwise the trimmed, URI-encoded text is posted to the task's comment URL |
| TasksPage.BlankCommentRefused | app_web/static/app_web/tasks.js:344-360 | a comment of spaces only is refused, and the posted text has no outer whitespace left to trim |
| TasksPage.EmptyTaskIdCreates | app_web/static/app_web/tasks.js:449-450 | an empty task id is falsy and creates, exactly as a missing one, at the create URL |
| TasksPage.StatusLabel | app_web/static/app_web/tasks.js:420-430 | the raw status is shown exactly for an unknown status; a known one shows its label |
| TasksPage.PriorityIcon | app_web/static/app_web/tasks.js:432-442 | an icon is shown exactly for a known priority, and no two priorities share one |
| BudgetsPage.FirstPill | app_web/static/app_web/budgets.js:46-74 | the first pill for the label, as `querySelector` finds it, or -1 exactly when no pill has that label |
| BudgetsPage.LabelSelector.constructor | app_web/static/app_web/budgets.js:23-44 | one pill per option with a non-empty value, in option order, selected as its option is |
| BudgetsPage.LabelSelector.ToggleLabel | app_web/static/app_web/budgets.js:46-74 | an unknown label changes nothing; otherwise the first pill for it flips, every option with that value takes the new state, all else stays, and pills and options stay in step |
| BudgetsPage.FirstPillAfterFlip | app_web/static/app_web/budgets.js:46-74 | flipping a pill leaves every label's first pill where it was |
| BudgetsPage.ToggleKeepsSync | app_web/static/app_web/budgets.js:46-74 | a toggle keeps every option of a label in step with that label's pill |
| BudgetsPage.InOrderTotal | app_web/static/app_web/budgets.js:318-328 | for any two cards the comparator lets one go ahead of the other |
| BudgetsPage.Insert | app_web/static/app_web/budgets.js:318-328 | insertion adds exactly the one card |
| BudgetsPage.InsertSorted | app_web/static/app_web/budgets.js:318-328 | inserting into sorted cards keeps them sorted |
| BudgetsPage.SortBy | app_web/static/app_web/budgets.js:318-328 | sorting rearranges the visible cards and loses or adds none |
| BudgetsPage.SortBySorted | app_web/static/app_web/budgets.js:318-328 | neighbours of the sorted cards follow the comparator: names ascending, amounts or usage descending |
| BudgetsPage.Displayed | app_web/static/app_web/budgets.js:290-311 | the filter keeps one card per card |
| BudgetsPage.WithDisplaySplits | app_web/static/app_web/budgets.js:317 | the shown and hidden cards together are all the cards |
| BudgetsPage.WithDisplayMembers | app_web/static/app_web/budgets.js:317 | each card picked as shown (or hidden) is one of the cards and has that display |
| BudgetsPage.ApplyDisplay | app_web/static/app_web/budgets.js:290-312 | the display loop sets each card's display from the filter |
| BudgetsPage.AppendAll | app_web/static/app_web/budgets.js:330 | appending each visible card in turn moves them, in order, to the end of the grid |
| BudgetsPage.FilterBudgets | app_web/static/app_web/budgets.js:283-331 | the grid ends with the hidden cards in page order followed by the visible cards in the comparator's order |
| BudgetsPage.DisplayedAppend | app_web/static/app_web/budgets.js:290-312 | filtering one more card appends it with its own display |
| BudgetsPage.FilterBudgetsKeepsCards | app_web/static/app_web/budgets.js:283-331 | the re-ordered grid holds every card exactly once, and the visible cards come last, sorted and all shown |
| BudgetsPage.DisplayMeansPasses | app_web/static/app_web/budgets.js:290-311 | a card is shown exactly when it passes the status, period and usage filters, and nothing else about it changes |
| BudgetsPage.StatusOf | app_web/static/app_web/budgets.js:460-467 | over budget exactly when flagged over; warning exactly when not over and at least 80 per cent used |
| BudgetsPage.Width | app_web/static/app_web/budgets.js:471 | the bar width is the percentage, capped at 100 |
| BudgetsPage.BudgetCardView.constructor | app_web/static/app_web/budgets.js:457-459 | a fresh card view shows ok, an empty bar and no overspend |
| BudgetsPage.BudgetCardView.UpdateBudgetCard | app_web/static/app_web/budgets.js:457-517 | exactly one status; bar class and percentage colour follow it; the width is capped at 100; spent is marked over exactly when over; remaining is ok exactly when not negative |
| BudgetsPage.StatusPrecedence | app_web/static/app_web/budgets.js:460-467 | the over flag wins at any percentage; without it 80 per cent is already a warning and less is ok |
| BudgetsPage.RenderingsAgree | app_web/static/app_web/budgets.js:473-491 | the bar class and the percentage colour each determine the status, so the three renderings never disagree |
| BudgetsPage.DeleteDialog.constructor | app_web/static/app_web/budgets.js:1-8 | nothing is pending deletion at first |
| BudgetsPage.DeleteDialog.ConfirmDelete | app_web/static/app_web/budgets.js:196-206 | one budget is pending and any bulk selection is dropped |
| BudgetsPage.DeleteDialog.ConfirmBulkDelete | app_web/static/app_web/budgets.js:253-266 | with nothing checked nothing changes; otherwise the checked ids are pending and the single id is dropped |
| BudgetsPage.DeleteDialog.CloseDeleteModal | app_web/static/app_web/budgets.js:208-212 | both pending selections are cleared |
| BudgetsPage.DeleteDialog.DeleteBudget | app_web/static/app_web/budgets.js:214-252 | a bulk delete of the comma-joined ids when some are pending, else a single delete when the id is truthy, else no submission |
| BudgetsPage.SingleAfterBulk | app_web/static/app_web/budgets.js:196-252 | confirming one budget after a bulk selection deletes only that budget |
| BudgetsPage.BulkAfterSingle | app_web/static/app_web/budgets.js:196-266 | confirming a bulk selection after a single budget deletes the selection, not the single budget |
| Cookies.GetCookie | app_web/static/app_web/invoices.js:458-471 | an empty cookie string gives null; otherwise the value of the first ';'-separated, trimmed entry that starts with `name=`, decoded, or null when none does; `templates.js:310-323` and `staticfiles/app_web/clients.js:180-193` carry identical copies |
| Cookies.FindCookie | app_web/static/app_web/invoices.js:461-468 | the loop over the entries returns the specification's first match: it stops at the first entry naming the cookie |
| Cookies.FirstMatchNoneIff | app_web/static/app_web/invoices.js:459-470 | the lookup gives null exactly when no entry names the cookie |
| Cookies.FirstMatchIsFirst | app_web/static/app_web/invoices.js:464-467 | the first entry naming the cookie decides, whatever later entries say |
| Cookies.EmptyCookieFindsNothing | app_web/static/app_web/invoices.js:460 | skipping the empty cookie string changes nothing: its only entry names no cookie |
| SaveUrls.ActionUrl | app_web/static/app_web/templates.js:227 | a per-record URL starts with the page's base and ends with `/<action>/` |
| SaveUrls.SaveUrlCases | app_web/static/app_web/invoices.js:192-194 | the create URL is used exactly when the remembered id is null or 0 (JavaScript falsy); otherwise the edit URL of that id |
| RoadmapPage.TimelineRange | app_web/static/app_web/tasks-roadmap.js:103-125 | the range holds the current day; it is 7 days with the current day fourth, 28 days from a Sunday, or 90 days from the first of the month; the end is start + days - 1 and both keep the time of day |
| RoadmapPage.Navigate | app_web/static/app_web/tasks-roadmap.js:35-54 | 'today' jumps to now, 'prev'/'next' keep the time of day, any other direction changes nothing |
| RoadmapPage.NavigateRoundTrip | app_web/static/app_web/tasks-roadmap.js:38-53 | in the day and week zooms 'next' moves exactly 7 or 28 days and undoes 'prev' |
| RoadmapPage.MonthStepWhenDayFits | app_web/static/app_web/tasks-roadmap.js:51-53 | in the month zoom 'next' lands on the same day three months on whenever that day exists there (setMonth overflow otherwise) |
| RoadmapPage.RoadmapState.constructor | app_web/static/app_web/tasks-roadmap.js:6-7 | the page starts in the week zoom at now |
| RoadmapPage.RoadmapState.ZoomTimeline | app_web/static/app_web/tasks-roadmap.js:22-23 | the zoom becomes the chosen one ('day', 'week', anything else month) |
| RoadmapPage.RoadmapState.NavigateTimeline | app_web/static/app_web/tasks-roadmap.js:35-54 | the current date becomes the navigated date; the zoom is untouched |
| RoadmapPage.CellIsToday | app_web/static/app_web/tasks-roadmap.js:174-179 | a header cell is marked as today exactly when its date is today's |
| RoadmapPage.RenderTimeline | app_web/static/app_web/tasks-roadmap.js:61-94 | the header loop yields one cell per day of the range, in order, each the cell of start + i |
| RoadmapPage.WeekCaptionsOnMondays | app_web/static/app_web/tasks-roadmap.js:83-86 | in the week zoom a cell has a 'Week N' caption exactly at offsets 1, 8, 15, 22, the Mondays after the starting Sunday |
| RoadmapPage.OffsetAsWrittenValue | app_web/static/app_web/tasks-roadmap.js:136 | as written, the day offset from a start taken after midnight is one less than the day difference |
| RoadmapPage.FirstDayTaskHiddenAsWritten | app_web/static/app_web/tasks-roadmap.js:136-143 | as written, a one-day task on the range's first day is hidden after midnight, though the corrected offset shows it |
| RoadmapPage.EarlyBarOverrunsAsWritten | app_web/static/app_web/tasks-roadmap.js:139-145 | as written, a bar starting 5 days before a 7-day range and lasting 10 days is drawn 1000/7 per cent wide though it ends at 500/7 per cent |
| RoadmapPage.Bar | app_web/static/app_web/tasks-roadmap.js:139-149 | a bar is shown iff it starts before the range ends and ends after it starts; its left edge is max(0, left%) and its right edge min(100, (offset + duration)%) (corrected: see ## Findings) |
| RoadmapPage.BarInsideRange | app_web/static/app_web/tasks-roadmap.js:143-146 | a shown bar starts at or after 0, ends at or before 100, and has positive width when its duration is positive |
| RoadmapPage.PositionTaskBars | app_web/static/app_web/tasks-roadmap.js:127-151 | every bar gets the style of its own start offset and duration; its dates are kept (corrected: see ## Findings) |
| RoadmapPage.TodayMarker | app_web/static/app_web/tasks-roadmap.js:153-170 | the marker is shown iff today's offset lies in [0, days), at a left edge below 100 per cent (corrected: see ## Findings) |
| RoadmapPage.TodayMarkerInDayZoom | app_web/static/app_web/tasks-roadmap.js:157-165 | in the day zoom today is at column 3 of 7; as written the offset after midnight is 2 |
| RoadmapPage.FormatPeriod | app_web/static/app_web/tasks-roadmap.js:193-203 | every period caption begins with the start month's abbreviation and a space |
| RoadmapPage.PeriodAcrossYears | app_web/static/app_web/tasks-roadmap.js:200-201 | a range from 28 Dec 2025 to 24 Jan 2026 is captioned 'Dec 2025 - Jan 2026' |
| InvoicesPage.RoundCents | app_web/static/app_web/invoices.js:102 | `toFixed(2)` lands within half a cent of the product |
| InvoicesPage.RoundCentsKeepsCents | app_web/static/app_web/invoices.js:102 | a whole number of cents is kept exactly |
| InvoicesPage.RemoveAbsentId | app_web/static/app_web/invoices.js:110-116 | removing an id no line has changes nothing |
| InvoicesPage.RemoveFirstId | app_web/static/app_web/invoices.js:110-116 | otherwise exactly the first line with the id is removed, the others kept in order |
| InvoicesPage.RemoveIdKeepsOrder | app_web/static/app_web/invoices.js:110-116 | after a removal line ids still strictly increase and no survivor has the removed id |
| InvoicesPage.BlankLineAddsNothing | app_web/static/app_web/invoices.js:119-126 | a freshly added line, with amount 0, leaves the subtotal unchanged |
| InvoicesPage.RemovingSubtractsAmount | app_web/static/app_web/invoices.js:113-114 | removing a line lowers the subtotal by exactly its amount |
| InvoicesPage.CalculateTotals | app_web/static/app_web/invoices.js:119-138 | the loop's subtotal is the sum of the amount fields; tax = subtotal x rate / 100, total = subtotal + tax - discount, with NaN rate or discount read as 0 |
| InvoicesPage.KeptSound | app_web/static/app_web/invoices.js:159-171 | every posted item is a line with a description and non-zero quantity and price, and its order is that line's index |
| InvoicesPage.KeptOrdersIncrease | app_web/static/app_web/invoices.js:159-171 | posted items keep form order: their orders strictly increase (gaps where lines were dropped) |
| InvoicesPage.KeptComplete | app_web/static/app_web/invoices.js:164-170 | every line that passes the test is posted |
| InvoicesPage.KeptEmptyIff | app_web/static/app_web/invoices.js:164-177 | nothing is posted (and the save is refused) exactly when no line passes the test |
| InvoicesPage.CollectLineItems | app_web/static/app_web/invoices.js:156-172 | the forEach collects exactly the kept lines, numbered by index |
| InvoicesPage.InvoiceForm.constructor | app_web/static/app_web/invoices.js:3-4 | no invoice is being edited, the counter is 0 and there are no lines |
| InvoicesPage.InvoiceForm.AddLineItem | app_web/static/app_web/invoices.js:77-108 | the counter grows by one and a line with that id, empty description, quantity 1, price 0 and amount 0 is appended; ids keep increasing |
| InvoicesPage.InvoiceForm.OpenCreateInvoiceModal | app_web/static/app_web/invoices.js:54-62 | no invoice is being edited, and the form holds one blank line with id 1 |
| InvoicesPage.InvoiceForm.RemoveLineItem | app_web/static/app_web/invoices.js:110-116 | the lines become the removal of the id; the counter is not reused |
| InvoicesPage.InvoiceForm.EditLine | app_web/static/app_web/invoices.js:99-107 | typing into a line sets its inputs and its amount to qty x price to the cent, NaN counting as 0 |
| InvoicesPage.InvoiceForm.SaveInvoice | app_web/static/app_web/invoices.js:141-194 | no client: 'Please select a client'; no kept line: 'Please add at least one line item'; otherwise the kept lines are posted to the edit or create URL |
| InvoicesPage.FreshFormRefused | app_web/static/app_web/invoices.js:84-88 | the blank line of a freshly opened form (no description, price 0) is not posted |
| InvoicesPage.Present | app_web/static/app_web/invoices.js:39-44 | the query never holds more fields than the form has |
| InvoicesPage.PresentMeaning | app_web/static/app_web/invoices.js:39-44 | a field is in the query exactly when its value is non-empty; the query is empty exactly when every field is |
| InvoicesPage.NoFiltersBareUrl | app_web/static/app_web/invoices.js:39-46 | with every field empty the URL is '/invoices/?' |
| InvoicesPage.SearchOnlyUrl | app_web/static/app_web/invoices.js:40-46 | a lone search term gives '/invoices/?q=<term>' |
| TemplatesPage.AttributeValue | app_web/static/app_web/templates.js:144 | text written into a value attribute survives unless it holds a double quote, where it is cut at the first one |
| TemplatesPage.QuotedDescriptionTruncated | app_web/static/app_web/templates.js:142-147 | as written, an item described as `12" pipe` comes back into the form as `12` |
| TemplatesPage.Row | app_web/static/app_web/templates.js:137-156 | a new row with no item has description '', quantity 1 and price 0; from an item it shows the item's description, quantity and price (corrected: see ## Findings) |
| TemplatesPage.RowsAgreeWithoutQuotes | app_web/static/app_web/templates.js:144-150 | the markup as written and the corrected row agree whenever the description has no double quote |
| TemplatesPage.TemplateForm.constructor | app_web/static/app_web/templates.js:3-5 | the edited, deleted and used template ids all start null |
| TemplatesPage.TemplateForm.AddTemplateItem | app_web/static/app_web/templates.js:137-156 | exactly one row is appended |
| TemplatesPage.TemplateForm.RemoveTemplateItem | app_web/static/app_web/templates.js:158-160 | exactly the pressed row is removed, the others kept in order |
| TemplatesPage.TemplateForm.OpenCreateTemplateModal | app_web/static/app_web/templates.js:40-47 | no template is being edited and the form holds one default row |
| TemplatesPage.TemplateForm.CloseTemplateModal | app_web/static/app_web/templates.js:49-52 | closing resets the edited id to null |
| TemplatesPage.TemplateForm.EditTemplate | app_web/static/app_web/templates.js:55-82 | the edited id is remembered and the form holds one row per stored item, in order (corrected: see ## Findings) |
| TemplatesPage.TemplateForm.SaveTemplate | app_web/static/app_web/templates.js:85-111 | one posted item per row, none filtered, each with its index as order, to the edit or create URL |
| TemplatesPage.TemplateForm.UseTemplate | app_web/static/app_web/templates.js:163-164 | the template to use is remembered |
| TemplatesPage.TemplateForm.CloseUseTemplateModal | app_web/static/app_web/templates.js:194-196 | closing resets it to null |
| TemplatesPage.TemplateForm.CreateFromTemplate | app_web/static/app_web/templates.js:205-227 | nothing is sent iff no template is remembered; otherwise the client and dates go to `/templates/<id>/use/` |
| TemplatesPage.TemplateForm.DeleteTemplate | app_web/static/app_web/templates.js:274-277 | the template to delete is remembered |
| TemplatesPage.TemplateForm.CloseDeleteModal | app_web/static/app_web/templates.js:279-282 | closing resets it to null |
| TemplatesPage.TemplateForm.ConfirmDeleteTemplate | app_web/static/app_web/templates.js:284-288 | nothing is sent iff no template is remembered; otherwise `/templates/<id>/delete/` |
| TemplatesPage.EditThenSave | app_web/static/app_web/templates.js:55-111 | editing a stored template and saving it unchanged posts its items back, in order, numbered 0.., to its edit URL (corrected: see ## Findings) |
| TemplatesPage.CloseThenCreate | app_web/static/app_web/templates.js:194-208 | after the use modal is closed, creating from a template sends nothing |
| ClientsPage.LastWithMeaning | staticfiles/app_web/clients.js:118-125 | the last info line whose label contains the key gives the value |
| ClientsPage.LastWithNone | staticfiles/app_web/clients.js:113-125 | with no such line the value stays '' |
| ClientsPage.CurrencyOf | staticfiles/app_web/clients.js:127-135 | the currency is GBP, USD or EUR, GBP when the card has no statistic |
| ClientsPage.CurrencyByFirstCharacter | staticfiles/app_web/clients.js:130-134 | for a non-blank statistic, a leading '$' gives USD, a leading '€' gives EUR and anything else GBP |
| ClientsPage.GetClientDataFromCard | staticfiles/app_web/clients.js:106-151 | name and company are the trimmed heading and company line; email, phone and payment terms come from the last matching info lines; address, tax id and notes are ''; active iff the card has no inactive badge |
| ClientsPage.FindCard | staticfiles/app_web/clients.js:79-83 | no card is found exactly when no card has the id; a found card has it |
| ClientsPage.ClientForm.constructor | staticfiles/app_web/clients.js:3 | no client is being edited |
| ClientsPage.ClientForm.OpenCreateClientModal | staticfiles/app_web/clients.js:6-12 | no client is being edited; the form is reset with 'active' ticked |
| ClientsPage.ClientForm.EditClient | staticfiles/app_web/clients.js:77-104 | an unknown id alerts 'Client not found' and changes nothing; otherwise the id is remembered and the form shows the card's name, company, email, phone, payment terms, currency and active state, with address, tax id and notes empty |
| ClientsPage.ClientForm.SaveClient | staticfiles/app_web/clients.js:19-52 | an empty name or email is refused with 'Name and email are required'; otherwise the form goes to the edit or create URL |
| ClientsPage.EditThenSave | staticfiles/app_web/clients.js:139-150 | editing a card and saving it unchanged posts to the card's edit URL with address, tax id and notes empty |
| Ledger.ParseDirection | app_core/models.py:5-6 | a stored direction reads back as the direction with that name, and only `inflow` and `outflow` read |
| Dates.AddDays | app_web/dashboard_views.py:196-202 | `d + timedelta(days=n)` lies exactly n days after d |
| Dates.BeforeIffFewerDays | app_web/dashboard_views.py:658 | calendar order is exactly the order of day counts |
| Dates.DayCountBijection | app_web/dashboard_views.py:656-660 | dates and day counts convert into each other and back without loss |
| Dates.AddMonths | app_core/recurring_budgets.py:18 | `relativedelta(months=k)` moves the month by k and clamps the day to the target month's length |
| Dates.AddYears | app_core/recurring_budgets.py:20 | `relativedelta(years=k)` moves the year by k, keeps the month and clamps the day (29 February to 28) |
| Dates.MondayOf | app_core/budgets.py:31 | `d - timedelta(days=d.weekday())` is a Monday at most six days before d |
| Dates.JsShiftMonths | app_web/static/app_web/tasks-roadmap.js:44-52 | `setMonth(getMonth() + k)` lands day - 1 days after the first of the target month, overflowing into the next month |
| Dates.JsShiftMonthsAgreesWhenDayFits | app_web/static/app_web/tasks-roadmap.js:44-52 | when the day exists in the target month, JavaScript's month shift agrees with relativedelta's |
| Dates.IsoWeek | app_web/static/app_web/tasks-roadmap.js:205-211 | the week number is within 1..53 and counts the weeks from 1 January to the Thursday of d's week |
| Dates.IsoWeekOneHoldsFirstThursday | app_web/static/app_web/tasks-roadmap.js:205-211 | week 1 is exactly the week whose Thursday falls in the first seven days of January |
| Dates.ParseIso | app_web/dashboard_views.py:123-124 | a date read as `%Y-%m-%d` has a year of at least 1 |
| Dates.IsoRoundTrip | app_web/static/app_web/dashboard_widgets.js:168-173 | a date with a four-digit year, formatted as YYYY-MM-DD, parses back to itself |
| Money.RoundHalfEvenUnique | app_core/currency_service.py:168 | an integer within half of x that, on an exact tie, is even, is the rounded value of x |
| Money.RoundHalfEvenMonotone | app_core/currency_service.py:168 | rounding half-even never reverses the order of two amounts |
| Money.Quantize2 | app_core/currency_service.py:168 | `quantize(Decimal('0.01'))` is within half a penny of the exact amount |
| Money.Truncate | app_core/task_models.py:158 | `int()` drops the fraction toward zero and keeps the sign |
| Money.PercentOf | app_core/task_models.py:158 | the floor percentage lies within 0..100, is 100 exactly for all done, and 0 exactly below one per cent |
| Money.FormatThenCleanRoundTrip | app_web/views.py:115-116 | an amount rendered as `£{:,.2f}` is read back exactly by the comma- and pound-stripping amount parser |
| Money.Format2 | app_core/templatetags/currency_tags.py:49 | `{:,.2f}` ends with a point and two decimals, starts with a minus sign for every negative amount, and for a non-negative one is the amount rounded half-even to the penny |
| Money.NegatedRenderReadsBack | app_web/views.py:115-116 | a rendering with a minus sign in front of a penny amount, zero included, reads back as its negation |
| Money.Format2ReadsBack | app_core/templatetags/currency_tags.py:49 | a decimal rendered with `{:,.2f}` behind "£" reads back as the amount rounded half-even to the penny, a negative amount that rounds to zero included |
| Strings.LastPartAfter | app_core/invoicing.py:27 | the last piece of `split('-')` is what follows the last dash |
| Strings.PyInt | app_core/invoicing.py:27 | `int()` of text without a minus sign is never negative |
| Strings.PyIntOfDigits | app_core/invoicing.py:27 | `int()` of a plain numeral, leading zeros allowed, is its digits' value |
| Strings.Substring | app_web/static/app_web/tasks.js:277-278 | `substring` clamps both ends into the string and swaps them when out of order |

## Left out

- The network, the database and I/O are not modelled. This covers `fetch` calls, template rendering, JSON responses, e-mail, PDF output and reminder sending. Database queries become sequences and maps, and the exchange-rate API becomes a parameter.
- The currency cache's time-to-live is not modelled: a cached rate is either present or absent.
- Exceptions raised by the exchange-rate client are not modelled; a failed request is an absent answer.
- pandas file parsing is not modelled. A parsed file is a sequence of rows of cells, and pandas' date inference is the `parseDate` parameter.
- Duplicate column headers and exponent syntax in `to_numeric` are not modelled.
- `Decimal` syntax beyond optional signs, digits and one decimal point is not modelled. That excludes exponents, `NaN`, `Infinity` and underscores.
- `date.fromisoformat` compact forms are not modelled.
- `strptime`'s space-padded days are not modelled.
- Unicode digits are not modelled: `isdigit` is ASCII only.
- Python's year range 1..9999 is not enforced: dates use unbounded years.
- Time zones are not modelled. A date-only string is midnight of the one zone.
- JavaScript's `decodeURIComponent`, `encodeURIComponent` and `toLocaleDateString` are parameters.
- DashboardViews.NetSeriesAt: the daily net is the exact sum of the day's amounts. The source adds `float(amount)` into a `defaultdict(float)`, so its figure is a binary-float sum: 0.10 + 0.20 gives 0.30000000000000004 there.
- DashboardViews.NetOnAppend: one more transaction moves its day by exactly its amount here; in the source by the float-rounded sum.
- DashboardViews.NetSeriesStep: the series total moves by exactly the new amount here; in the source by a float-rounded amount.
- DashboardViews.TrendNetConserved: the series adds up exactly to the transactions' net here; the source's float sums only approximate it.
- TeamViews.InviteRefusal: the role id arrives as a number or nothing. A non-numeric `role_id` makes the source's role lookup raise, answered with status 500; the model cannot express it.
- TeamViews.ChangeRoleRefusal: the same for `role_id`: a non-numeric one is a status 500 in the source and is not expressible here.
- TeamViews.RejectRequest: the reason arrives parsed. A body that is not JSON is answered with status 500 in the source before the approval is looked up; the model cannot express it.
- TeamViews.CreateWorkflowRefusal: the data arrives parsed. A body that is not JSON, a non-numeric `approvals_required` or an amount `Decimal` cannot read is a status 500 in the source, not modelled.
- TeamViews.CreateWorkflow: the same three 500 answers, which create nothing in the source, are not modelled.
- TeamViews.NewWorkflow: the amount bounds are tested for truthiness after parsing. The source tests the raw JSON value, so a `min_amount` of `"0"` is stored as `Decimal('0')` there and as no bound here.
- RoadmapPage.Bar: is the corrected bar of the fourth finding, clipped at both ends. As written, the width is not reduced when the left edge is clamped.
- RoadmapPage.PositionTaskBars: uses the corrected midnight-based offset and bar of the third and fourth findings. As written, a task on the range's first day is hidden after midnight.
- TemplatesPage.Row: is the corrected row of the fifth finding. As written, a description holding a double quote is cut at it.
- TemplatesPage.TemplateForm.EditTemplate: uses the corrected row of the fifth finding. As written, a description holding a double quote comes back truncated.
- Python's `strip`, `lower` and `upper` and JavaScript's `trim` and `toLowerCase` act on ASCII only here. Non-ASCII whitespace such as U+00A0 and U+3000 is kept, and non-ASCII letters keep their case.
- Ingest.NormaliseHeader: a header padded with non-ASCII whitespace or holding non-ASCII capitals is not normalised as the source does.
- Ingest.ReadAnyNormalises: a header padded with non-ASCII whitespace or holding non-ASCII capitals is not normalised as the source does.
- Ingest.CoerceAmount: an amount padded with non-ASCII whitespace, such as U+00A0, is unreadable in the model, while the source strips it and reads the number.
- Ingest.CoerceReadsRendered: an amount padded with non-ASCII whitespace, such as U+00A0, is unreadable in the model, while the source strips it and reads the number.
- ProjectsPage.SearchIgnoresCase: the search ignores ASCII case only. A query `É` does not match a name with `é` in the model, while `toLowerCase` matches it.
- ProjectsPage.NameMatchPasses: the search ignores ASCII case only. A query `É` does not match a name with `é` in the model, while `toLowerCase` matches it.
- TasksPage.SuggestionsMeaning: the same ASCII-only case folding and trimming apply to the task search and its suggestions.
- TasksPage.FiltersNarrow: the same ASCII-only case folding and trimming apply to the task search and its suggestions.
- `localeCompare` is code-point order here.
- `toFixed` is modelled as half-up rounding of the exact value. It ignores binary floating point.
- Property keys inherited by JavaScript objects are not modelled.
- HTML markup is not modelled: a rendering is the sequence of records it shows, plus the classes of each card.
- Pagination and default ORM ordering are not modelled.
- Chart rendering is not modelled.
- HTML character references are not modelled.
- Form reset defaults are constructor parameters.
- `convert_currency` in `app_core/templatetags/currency_tags.py` (lines 103-118) is not part of this model.
- `get_project_summary` and `log_project_activity` in `app_core/projects.py` are not part of this model.
- The invoicing statistics, e-mail, reminder and template-rendering functions of `app_core/invoicing.py` are not part of this model.
- The invoices page's edit, payment, send, reminder and delete handlers are not part of this model.
- The templates page's client-list loader is not part of this model.
- The clients page's delete confirmation is not part of this model.
- In `app_web/views.py`, `_clean_nums` and the upload view's preview and save branches are modelled only through `Ingest`.
- The projects page's filter has no effect in the tree view, and the model keeps that.
- The budgets page marks usage of 80 per cent or more as a warning, while the projects page marks only more than 80 per cent. The model keeps both.
- Budgets.BudgetUsage: `percent_used` is the exact ratio, not rounded to one decimal place.
- Budgets.GetBudgetSummary: the summary is sorted on the exact ratio, where the source sorts on `percent_used` rounded to one decimal place. Usages of 50.01 and 50.04 per cent tie in the source and keep their order; the model puts 50.04 first.
- Budgets.SortByUsage: the summary is sorted on the exact ratio, where the source sorts on `percent_used` rounded to one decimal place. Usages of 50.01 and 50.04 per cent tie in the source and keep their order; the model puts 50.04 first.
- RecurringBudgets.VisitPeriods: writes the template's `last_generated` once after the loop, where the source saves it after each period.
- Projects.ScheduleOf: the time-elapsed percentage is the exact floor of days elapsed over total days. The source computes `int((a / b) * 100)` in binary floating point, so 57 of 100 days gives 56 there and 57 here.
- Projects.MilestoneProgress: the milestone percentage is the exact floor. With floating point, 29 of 50 completed milestones gives 57 in the source and 58 here.
- TaskModels.ProgressPercentage: the percentage of done tasks is the exact floor. With floating point, 29 of 50 done tasks gives 57 in the source and 58 here.
- DashboardWidgets.DashboardEngine.LoadLayout: GridStack's collision handling is not modelled. With `float: true`, `grid.addWidget` moves a widget that overlaps another or overflows the twelve columns; the model keeps every rectangle as given.
- DashboardWidgets.DashboardEngine.AddWidgetToGrid: GridStack's collision handling is not modelled. With `float: true`, `grid.addWidget` moves a widget that overlaps another or overflows the twelve columns; the model keeps every rectangle as given.
- CurrencyTags.Render: amounts are reals, so a negative-zero `Decimal` such as `Decimal('-0')` or `Decimal('-0.00')` renders `0.00` in the model, where Python renders `-0.00`.
- CurrencyTags.CurrencyFormat: amounts are reals, so a negative-zero `Decimal` such as `Decimal('-0')` or `Decimal('-0.00')` renders `0.00` in the model, where Python renders `-0.00`.
- CurrencyTags.CurrencyAmount: a converted amount that `quantize` rounds to a negative zero renders `0.00` in the model, where Python renders `-0.00`.
- CurrencyTags.DisplayAmountInOrgCurrency: a converted amount that `quantize` rounds to a negative zero renders `0.00` in the model, where Python renders `-0.00`.
- Invoicing.NewInvoiceNumber: uses the corrected numbering of the first finding. The source can hand out a number already on file once a year passes 9999 invoices.
- Invoicing.CreateInvoiceFromTemplate: uses the corrected numbering of the first finding. The source can hand out a number already on file once a year passes 9999 invoices.
- Invoicing.CreateRecurringInvoices: uses the corrected numbering of the first finding. The source can hand out a number already on file once a year passes 9999 invoices.
- Invoicing.PlanCopies: uses the corrected numbering of the first finding. The source can hand out a number already on file once a year passes 9999 invoices.
- RoadmapPage.TodayMarker: uses the corrected midnight-based day offset of the third finding. As written, the marker sits one day early after midnight.
- TemplatesPage.EditThenSave: uses the corrected row rendering of the fifth finding. As written, a description holding a double quote comes back truncated.
- TeamModels.Attribute: only the model fields of a role are attributes here. Python also finds the role's methods, such as `save`, and aliases such as `pk`, all truthy, so `has_permission` grants those names in the source; the model gives them the default.
- TeamModels.UnknownNameDenied: holds of names that are not model fields of a role. In the source a method name such as `save`, or the alias `pk`, is also found by `getattr` and is granted.
- Strings.PyInt: leading and trailing whitespace, a `+` sign and digit-group underscores, which Python's `int()` accepts, are rejected.
- InvoicesPage.RoundCents: a negative product on an exact half-cent tie is rounded up, where `toFixed` rounds it away from zero. Quantity times price is negative only for a negative input.
- BudgetsPage.SortBy: that cards with equal keys keep their page order, as JavaScript's stable sort does, is not stated.
- RecurringTransactions.GenerateRecurringTransactions: requires a known frequency or an empty run. With an unknown frequency the source's loop never advances.

## Findings

| source | as written | input that shows it | evidently intended | confidence | as-written member | corrected member |
|---|---|---|---|---|---|---|
| app_core/invoicing.py:20-34 | the greatest number of the year is picked by `order_by('-invoice_number')`, string order | numbers `INV-2024-9999` and `INV-2024-10000` on file: `INV-2024-9999` comes first in descending string order, so `INV-2024-10000` is generated again | a number whose suffix exceeds every existing suffix compared as numbers | not executed | Invoicing.NumberRepeatsAfter9999 | Invoicing.GenerateFreshInvoiceNumber |
| app_web/views.py:338-342 | the sort guard tests `sort.lstrip('-')`, which strips every leading dash | `sort=--date` passes the guard and reaches `order_by`, which rejects it | only `date`, `-date`, `amount` and `-amount` are applied | not executed | WebViews.DoubleDashPassesGuard | WebViews.Ordering |
| app_web/static/app_web/tasks-roadmap.js:127-161 | the range start keeps the time of day of the moment the page computed it, while task dates and today are midnight; the floored day offset is one short | any time after midnight: a one-day task on the range's first day gets offset -1 and is hidden; in the day zoom the today marker lands in column 3 of 7, not 4 | the offset is the number of calendar days between the two dates | not executed | RoadmapPage.FirstDayTaskHiddenAsWritten | RoadmapPage.PositionTaskBars |
| app_web/static/app_web/tasks-roadmap.js:143-145 | `left` is clamped at 0, but the width is `min(100 - leftPercent, widthPercent)` with the unclamped left | a ten-day task starting five days before a seven-day range: drawn from 0 to about 143 per cent | the bar is clipped to the range at both ends | not executed | RoadmapPage.EarlyBarOverrunsAsWritten | RoadmapPage.Bar |
| app_web/static/app_web/templates.js:144 | an item's description is written into `value="..."` without escaping | a description `12" pipe` comes back as `12` when the template is edited | the description reads back whole | not executed | TemplatesPage.QuotedDescriptionTruncated | TemplatesPage.Row |
