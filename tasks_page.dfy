/**
 * The tasks page script: the `@mention` helper of the comment box (a
 * backward scan from the cursor for an '@', the member suggestions, and the
 * splice that inserts the chosen name), the four-way row filter, select-all
 * and the bulk buttons, the blank-comment guard, the create/update URL of the
 * task form, and the status and priority label lookups.
 */
module TasksPage {
  import opened Wrappers
  import opened Strings

  // ---------------------------------------------------------------------------
  // @mention scan
  // ---------------------------------------------------------------------------

  /** A space or a newline ends the backward scan without a mention. */
  predicate StopsScan(c: char) { c == ' ' || c == '\n' }

  /** The scan from index i back to the start: the first '@' met, or -1 at a stop character or the start. */
  function ScanBack(text: string, i: int): (r: int)
    requires i < |text|
    ensures r == -1 || 0 <= r <= i
    decreases i + 1
  {
    if i < 0 then -1
    else if text[i] == '@' then i
    else if StopsScan(text[i]) then -1
    else ScanBack(text, i - 1)
  }

  /** No '@' and no stop character in text[a..b]. */
  predicate Clear(text: string, a: int, b: int)
    requires 0 <= a && b <= |text|
  {
    forall j :: a <= j < b ==> text[j] != '@' && !StopsScan(text[j])
  }

  /**
   * The scan finds the nearest '@' before the cursor with nothing but word
   * characters between them, and -1 exactly when every '@' before the cursor
   * is cut off by a space or newline.
   */
  lemma {:induction false} ScanBackMeaning(text: string, i: int)
    requires -1 <= i < |text|
    ensures ScanBack(text, i) >= 0 ==> text[ScanBack(text, i)] == '@' && Clear(text, ScanBack(text, i) + 1, i + 1)
    ensures ScanBack(text, i) == -1 ==> forall k :: 0 <= k <= i && text[k] == '@' ==> !Clear(text, k + 1, i + 1)
    decreases i + 1
  {
    if i >= 0 && text[i] != '@' && !StopsScan(text[i]) {
      ScanBackMeaning(text, i - 1);
      if ScanBack(text, i) == -1 {
        forall k | 0 <= k <= i && text[k] == '@'
          ensures !Clear(text, k + 1, i + 1)
        {
          assert k < i;
          assert !Clear(text, k + 1, i);
        }
      }
    }
  }

  /** The backward `for` loop of the input handler. */
  method FindMentionStart(text: string, cursor: nat) returns (atPos: int)
    requires cursor <= |text|
    ensures atPos == ScanBack(text, cursor - 1)
  {
    atPos := -1;
    var i := cursor - 1;
    while i >= 0
      invariant -1 <= i < |text|
      invariant ScanBack(text, cursor - 1) == ScanBack(text, i)
    {
      if text[i] == '@' {
        atPos := i;
        return;
      }
      if text[i] == ' ' || text[i] == '\n' {
        return;
      }
      i := i - 1;
    }
  }

  /** A team member offered for mentioning. */
  datatype Member = Member(id: string, name: string)

  /** The members whose lower-cased name contains the query, in their order. */
  function Suggestions(members: seq<Member>, query: string): seq<Member> {
    if members == [] then []
    else if Contains(Lower(members[0].name), query) then [members[0]] + Suggestions(members[1..], query)
    else Suggestions(members[1..], query)
  }

  /** A member is suggested exactly when its name contains the query, ignoring case. */
  lemma {:induction false} SuggestionsMeaning(members: seq<Member>, query: string)
    ensures forall m :: m in Suggestions(members, query) <==> m in members && Contains(Lower(m.name), query)
  {
    if members != [] {
      SuggestionsMeaning(members[1..], query);
      assert members == [members[0]] + members[1..];
    }
  }

  /** The text with the pending mention replaced by '@', the name and a space; `substring` clamps a stale -1 to 0. */
  function Spliced(text: string, start: int, cursor: nat, name: string): string {
    Substring(text, 0, start) + "@" + name + " " + Substring(text, cursor, |text|)
  }

  /**
   * Inserting a mention keeps the text before the '@' and after the cursor,
   * replaces the typed query by the name, and closes the mention: a scan from
   * just past the inserted space finds nothing.
   */
  lemma SplicedMeaning(text: string, start: int, cursor: nat, name: string)
    requires 0 <= start < cursor <= |text|
    ensures Spliced(text, start, cursor, name) == text[..start] + "@" + name + " " + text[cursor..]
    ensures ScanBack(Spliced(text, start, cursor, name), start + |name| + 1) == -1
  {
    var r := Spliced(text, start, cursor, name);
    assert r == text[..start] + "@" + name + " " + text[cursor..];
    assert r[start + |name| + 1] == ' ';
  }

  /** With no pending mention (-1) the name is put at the very front. */
  lemma StaleStartPrepends(text: string, cursor: nat, name: string)
    requires cursor <= |text|
    ensures Spliced(text, -1, cursor, name) == "@" + name + " " + text[cursor..]
  {
    assert Substring(text, 0, -1) == "";
  }

  /** The comment box: its text and caret, the pending mention's '@' position and the suggestions shown ([] = hidden). */
  class MentionBox {
    const members: seq<Member>
    var text: string
    var cursor: nat
    var mentionStartPos: int
    var dropdown: seq<Member>

    constructor (members: seq<Member>)
      ensures this.members == members && text == "" && cursor == 0 && mentionStartPos == -1 && dropdown == []
    {
      this.members := members;
      text, cursor := "", 0;
      mentionStartPos := -1;
      dropdown := [];
    }

    /**
     * The input handler: a found '@' becomes the pending mention and the
     * members matching the lower-cased text after it are shown; otherwise the
     * dropdown is hidden and the pending mention is cleared.
     */
    method OnInput(value: string, caret: nat)
      requires caret <= |value|
      modifies this`text, this`cursor, this`mentionStartPos, this`dropdown
      ensures text == value && cursor == caret
      ensures ScanBack(value, caret - 1) >= 0 ==>
                mentionStartPos == ScanBack(value, caret - 1)
                && dropdown == Suggestions(members, Lower(value[ScanBack(value, caret - 1) + 1..caret]))
      ensures ScanBack(value, caret - 1) == -1 ==> mentionStartPos == -1 && dropdown == []
    {
      text, cursor := value, caret;
      var atPos := FindMentionStart(value, caret);
      if atPos != -1 {
        mentionStartPos := atPos;
        var query := Lower(Substring(value, atPos + 1, caret));
        dropdown := Suggestions(members, query);
      } else {
        dropdown := [];
        mentionStartPos := -1;
      }
    }

    /** `insertMention`: the splice, with the dropdown hidden; setting the value moves the caret to its end. */
    method InsertMention(name: string)
      modifies this`text, this`cursor, this`dropdown
      ensures text == Spliced(old(text), mentionStartPos, old(cursor), name)
      ensures cursor == |text| && dropdown == []
    {
      var before := Substring(text, 0, mentionStartPos);
      var after := Substring(text, cursor, |text|);
      text := before + "@" + name + " " + after;
      cursor := |text|;
      dropdown := [];
    }
  }

  // ---------------------------------------------------------------------------
  // filterTasks
  // ---------------------------------------------------------------------------

  /** A task row as the filter reads it: title text, data-status, data-priority, the assignee's user id, and its display. */
  datatype TaskRow = TaskRow(title: string, status: string, priority: string, assigneeId: string, displayed: bool)

  /** The search box and the three selects; an empty value does not filter. */
  datatype TaskFilter = TaskFilter(search: string, status: string, priority: string, assignee: string)

  predicate Visible(f: TaskFilter, row: TaskRow) {
    var term := Lower(f.search);
    (term == "" || Contains(Lower(row.title), term))
    && (f.status == "" || row.status == f.status)
    && (f.priority == "" || row.priority == f.priority)
    && (f.assignee == "" || row.assigneeId == f.assignee)
  }

  /** `filterTasks`: each row's display is set from the filter, nothing else changes. */
  method FilterTasks(rows: array<TaskRow>, f: TaskFilter)
    modifies rows
    ensures forall i :: 0 <= i < rows.Length ==> rows[i] == old(rows[i]).(displayed := Visible(f, old(rows[i])))
  {
    for i := 0 to rows.Length
      invariant forall j :: 0 <= j < i ==> rows[j] == old(rows[j]).(displayed := Visible(f, old(rows[j])))
      invariant forall j :: i <= j < rows.Length ==> rows[j] == old(rows[j])
    {
      rows[i] := rows[i].(displayed := Visible(f, rows[i]));
    }
  }

  /** An empty filter matches every row. */
  lemma EmptyFilterShowsAll(row: TaskRow)
    ensures Visible(TaskFilter("", "", "", ""), row)
  {
    assert Lower("") == "";
  }

  /** A set select shows only rows with that value, and a title containing the term in any case passes the search. */
  lemma FiltersNarrow(f: TaskFilter, row: TaskRow)
    ensures Visible(f, row) && f.status != "" ==> row.status == f.status
    ensures Visible(f, row) && f.assignee != "" ==> row.assigneeId == f.assignee
    ensures f.status == "" && f.priority == "" && f.assignee == "" && Contains(Lower(row.title), Lower(f.search)) ==> Visible(f, row)
  {
  }

  // ---------------------------------------------------------------------------
  // Select-all and the bulk buttons
  // ---------------------------------------------------------------------------

  function CountChecked(boxes: seq<bool>): (n: nat)
    ensures n <= |boxes|
  {
    if boxes == [] then 0 else (if boxes[|boxes| - 1] then 1 else 0) + CountChecked(boxes[..|boxes| - 1])
  }

  /** Some box is checked exactly when the count of checked boxes is positive. */
  lemma {:induction false} CountCheckedPositive(boxes: seq<bool>)
    ensures CountChecked(boxes) > 0 <==> exists i :: 0 <= i < |boxes| && boxes[i]
  {
    if boxes != [] {
      var init := boxes[..|boxes| - 1];
      CountCheckedPositive(init);
      if exists i :: 0 <= i < |init| && init[i] {
        var i :| 0 <= i < |init| && init[i];
        assert boxes[i];
      }
    }
  }

  /** `updateBulkButtons`: the bulk buttons are shown exactly when some task box is checked. */
  method UpdateBulkButtons(boxes: array<bool>) returns (show: bool)
    ensures show <==> exists i :: 0 <= i < boxes.Length && boxes[i]
  {
    var checked := 0;
    for i := 0 to boxes.Length
      invariant checked == CountChecked(boxes[..i])
    {
      assert boxes[..i + 1][..i] == boxes[..i];
      if boxes[i] {
        checked := checked + 1;
      }
    }
    assert boxes[..boxes.Length] == boxes[..];
    CountCheckedPositive(boxes[..]);
    show := checked > 0;
  }

  /** `toggleSelectAll`: every task box takes the select-all state; the bulk buttons then show iff it is checked and there are tasks. */
  method ToggleSelectAll(boxes: array<bool>, state: bool) returns (bulkShown: bool)
    modifies boxes
    ensures forall i :: 0 <= i < boxes.Length ==> boxes[i] == state
    ensures bulkShown <==> state && boxes.Length > 0
  {
    for i := 0 to boxes.Length
      invariant forall j :: 0 <= j < i ==> boxes[j] == state
    {
      boxes[i] := state;
    }
    bulkShown := UpdateBulkButtons(boxes);
    if state && boxes.Length > 0 {
      assert boxes[0];
    }
  }

  // ---------------------------------------------------------------------------
  // Comments, the task form and labels
  // ---------------------------------------------------------------------------

  const EmptyCommentError := "Comment cannot be empty"

  /** What `addComment` does: show the inline error, or post the trimmed comment to the task's comment URL. */
  datatype CommentOutcome = CommentRejected(error: string) | CommentPosted(url: string, body: string)

  /** `addComment`; `encode` is encodeURIComponent. */
  function AddComment(taskId: nat, value: string, encode: string -> string): (r: CommentOutcome)
    ensures r.CommentRejected? <==> Strip(value) == ""
    ensures r.CommentRejected? ==> r.error == EmptyCommentError
    ensures r.CommentPosted? ==> r.url == "/tasks/" + NatToString(taskId) + "/comments/create/" && r.body == "content=" + encode(Strip(value))
  {
    var comment := Strip(value);
    if comment == "" then CommentRejected(EmptyCommentError)
    else CommentPosted("/tasks/" + NatToString(taskId) + "/comments/create/", "content=" + encode(comment))
  }

  /** A comment of spaces only is refused, and the text posted never has outer whitespace. */
  lemma BlankCommentRefused(value: string, taskId: nat, encode: string -> string)
    ensures Strip(Strip(value)) == Strip(value)
    ensures (forall i :: 0 <= i < |value| ==> value[i] == ' ') ==> AddComment(taskId, value, encode).CommentRejected?
  {
    StripIdempotent(value);
    if forall i :: 0 <= i < |value| ==> value[i] == ' ' {
      AllSpacesStripEmpty(value);
    }
  }

  lemma {:induction false} AllSpacesStripEmpty(value: string)
    requires forall i :: 0 <= i < |value| ==> value[i] == ' '
    ensures Strip(value) == ""
  {
    if value != [] {
      assert IsSpace(value[0]);
      assert TrimStart(value) == TrimStart(value[1..]);
      AllSpacesStripEmpty(value[1..]);
    }
  }

  /** The form's task_id: a non-empty value selects the update URL, an absent or empty one the create URL. */
  function TaskSubmitUrl(taskId: Option<string>, projectId: nat): string {
    if taskId.Some? && taskId.value != "" then "/tasks/" + taskId.value + "/update/"
    else "/tasks/create/" + NatToString(projectId) + "/"
  }

  /** An empty task_id is falsy in JavaScript and creates, as a missing one does. */
  lemma EmptyTaskIdCreates(projectId: nat)
    ensures TaskSubmitUrl(Some(""), projectId) == TaskSubmitUrl(None, projectId)
    ensures StartsWith(TaskSubmitUrl(None, projectId), "/tasks/create/")
  {
  }

  /** The status labels as the page source spells them (their emoji prefixes are stored double-encoded). */
  const StatusLabels: map<string, string> := map[
    "backlog" := "\U{00F0}\U{0178}\U{201C} Backlog",
    "todo" := "\U{00F0}\U{0178}\U{201C}\U{2039} To Do",
    "in_progress" := "\U{00E2}\U{0161}\U{00A1} In Progress",
    "review" := "\U{00F0}\U{0178}\U{2018}\U{20AC} Review",
    "done" := "\U{00E2}\U{0153}\U{2026} Done",
    "blocked" := "\U{00F0}\U{0178}\U{0161}\U{00AB} Blocked"]

  const PriorityIcons: map<string, string> := map[
    "low" := "\U{00F0}\U{0178}\U{0178}\U{00A2}",
    "medium" := "\U{00F0}\U{0178}\U{0178}\U{00A1}",
    "high" := "\U{00F0}\U{0178}\U{0178}\U{00A0}",
    "critical" := "\U{00F0}\U{0178}\U{201D}\U{00B4}"]

  /**
   * `getStatusLabel`: `labels[status] || status`. The raw key shows exactly
   * for a status the table does not know; a known status shows its label.
   */
  function StatusLabel(status: string): (r: string)
    ensures r == status <==> status !in StatusLabels
    ensures status in StatusLabels ==> r == StatusLabels[status]
  {
    if status in StatusLabels && StatusLabels[status] != "" then StatusLabels[status] else status
  }

  /**
   * `getPriorityIcon`: `icons[priority] || ''`. An icon shows exactly for a
   * known priority, and the four priorities have four different icons.
   */
  function PriorityIcon(priority: string): (r: string)
    ensures r != "" <==> priority in PriorityIcons
    ensures priority in PriorityIcons ==> r == PriorityIcons[priority]
    ensures forall q :: q in PriorityIcons && q != priority && r != "" ==> PriorityIcons[q] != r
  {
    if priority in PriorityIcons then PriorityIcons[priority] else ""
  }
}
