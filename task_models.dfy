/**
 * Tasks of a project: numbering within the project, the completion time
 * kept in step with the status, overdue and progress figures, and the
 * hours booked against a task. Hours are decimals, carried as reals.
 */
module TaskModels {
  import opened Wrappers
  import opened Dates
  import opened Money

  datatype TaskStatus = Backlog | Todo | InProgress | Review | Done | Blocked

  /** The highest of a non-empty list of task numbers. */
  function MaxNumber(numbers: seq<int>): (m: int)
    requires numbers != []
    ensures m in numbers && forall x :: x in numbers ==> x <= m
  {
    if |numbers| == 1 then numbers[0]
    else
      var rest := MaxNumber(numbers[1..]);
      assert numbers == [numbers[0]] + numbers[1..];
      if numbers[0] >= rest then numbers[0] else rest
  }

  /**
   * The number a new task gets: one more than the highest number in the
   * project, or 1 in an empty project. It is larger than every number in
   * use, so (project, number) stays unique.
   */
  function NextTaskNumber(numbers: seq<int>): (n: int)
    ensures forall x :: x in numbers ==> x < n
    ensures numbers == [] ==> n == 1
    ensures numbers != [] ==> n - 1 in numbers
  {
    if numbers == [] then 1 else MaxNumber(numbers) + 1
  }

  /**
   * The completion time after a save: stamped with `now` when the task is
   * done and has none, kept while it stays done, cleared otherwise. After a
   * save a task has a completion time exactly when it is done.
   */
  function CompletionAfterSave(status: TaskStatus, completedAt: Option<int>, now: int): (r: Option<int>)
    ensures r.Some? <==> status == Done
    ensures status == Done && completedAt.Some? ==> r == completedAt
    ensures status == Done && completedAt.None? ==> r == Some(now)
  {
    if status == Done && completedAt.None? then Some(now)
    else if status != Done && completedAt.Some? then None
    else completedAt
  }

  /** Saving again, at any later time, keeps the completion time the first save left. */
  lemma SaveKeepsCompletion(status: TaskStatus, completedAt: Option<int>, now: int, later: int)
    ensures CompletionAfterSave(status, CompletionAfterSave(status, completedAt, now), later)
      == CompletionAfterSave(status, completedAt, now)
  {
  }

  /**
   * `is_overdue`: a due date, not done, and today after the due date;
   * equivalently a positive number of days past it.
   */
  function IsOverdue(status: TaskStatus, due: Option<CalDate>, today: CalDate): (r: bool)
    ensures r <==> due.Some? && status != Done && ToDays(due.value) < ToDays(today)
  {
    if due.Some? && status != Done then
      BeforeIffFewerDays(due.value, today);
      Before(due.value, today)
    else false
  }

  /** How many of the sub-tasks are done. */
  function CountDone(subs: seq<TaskStatus>): (n: nat)
    ensures n <= |subs|
    ensures n == |subs| <==> forall i :: 0 <= i < |subs| ==> subs[i] == Done
  {
    if subs == [] then 0
    else (if subs[0] == Done then 1 else 0) + CountDone(subs[1..])
  }

  /** Marking one sub-task done raises the count by one if it was not done, and leaves it otherwise. */
  lemma {:induction false} CountDoneAfterMarking(subs: seq<TaskStatus>, i: nat)
    requires i < |subs|
    ensures CountDone(subs[i := Done]) == CountDone(subs) + (if subs[i] == Done then 0 else 1)
  {
    if i > 0 {
      assert subs[i := Done][1..] == subs[1..][i - 1 := Done];
      CountDoneAfterMarking(subs[1..], i - 1);
    }
  }

  /**
   * `progress_percentage`: with no sub-tasks 100 when done and 0
   * otherwise; with sub-tasks the floor of the done share in percent,
   * which is 100 exactly when all are done and 0 exactly when less than
   * one percent is done.
   */
  function ProgressPercentage(status: TaskStatus, subs: seq<TaskStatus>): (r: int)
    ensures 0 <= r <= 100
    ensures subs == [] ==> r == (if status == Done then 100 else 0)
    ensures subs != [] ==> (r == 100 <==> forall i :: 0 <= i < |subs| ==> subs[i] == Done)
    ensures subs != [] ==> (r == 0 <==> CountDone(subs) * 100 < |subs|)
  {
    if subs == [] then (if status == Done then 100 else 0)
    else
      PercentOf(CountDone(subs), |subs|);
      CountDone(subs) * 100 / |subs|
  }

  /** Completing a sub-task never lowers the parent's progress. */
  lemma CompletingSubtaskRaisesProgress(status: TaskStatus, subs: seq<TaskStatus>, i: nat)
    requires i < |subs|
    ensures ProgressPercentage(status, subs) <= ProgressPercentage(status, subs[i := Done])
  {
    CountDoneAfterMarking(subs, i);
    var a, b, n := CountDone(subs) * 100, CountDone(subs[i := Done]) * 100, |subs|;
    DivMonotone(a, b, n);
  }

  /**
   * `time_spent_percentage`: none without an estimate or with a zero one;
   * otherwise the booked share of the estimate in percent, truncated
   * toward zero.
   */
  function TimeSpentPercentage(actual: real, estimate: Option<real>): (r: Option<int>)
    ensures r.None? <==> estimate.None? || estimate.value == 0.0
    ensures r.Some? ==> Abs(r.value as real) <= Abs(actual / estimate.value * 100.0) < Abs(r.value as real) + 1.0
  {
    if estimate.None? || estimate.value == 0.0 then None
    else Some(Truncate(actual / estimate.value * 100.0))
  }

  /** One booking of hours against a task. */
  datatype TimeEntry = TimeEntry(task: nat, user: nat, hours: real, date: CalDate)

  /** The hours booked against a task, 0 when there are none. */
  function HoursBooked(entries: seq<TimeEntry>, task: nat): real {
    if entries == [] then 0.0
    else
      var last := entries[|entries| - 1];
      HoursBooked(entries[..|entries| - 1], task) + (if last.task == task then last.hours else 0.0)
  }

  /** A new booking adds its hours to its own task's total and leaves every other task's total as it was. */
  lemma BookingAddsHours(entries: seq<TimeEntry>, e: TimeEntry, task: nat)
    ensures HoursBooked(entries + [e], task) == HoursBooked(entries, task) + (if e.task == task then e.hours else 0.0)
  {
    assert (entries + [e])[..|entries|] == entries;
  }

  /** Bookings in any order give the same total: moving the last booking to the front changes nothing. */
  lemma {:induction false} HoursIgnoreOrder(entries: seq<TimeEntry>, e: TimeEntry, task: nat)
    ensures HoursBooked([e] + entries, task) == HoursBooked(entries + [e], task)
    decreases |entries|
  {
    BookingAddsHours(entries, e, task);
    if entries != [] {
      var init, last := entries[..|entries| - 1], entries[|entries| - 1];
      assert ([e] + entries)[..|entries|] == [e] + init;
      assert entries == init + [last];
      HoursIgnoreOrder(init, e, task);
      BookingAddsHours(init, e, task);
      BookingAddsHours(init, last, task);
    }
  }

  class Task {
    const id: nat
    const project: nat
    var taskNumber: int
    var status: TaskStatus
    var dueDate: Option<CalDate>
    var completedAt: Option<int>
    var estimatedHours: Option<real>
    var actualHours: real

    /** A task not yet saved: no number (0), nothing completed, no hours. */
    constructor(id: nat, project: nat, status: TaskStatus, dueDate: Option<CalDate>, estimatedHours: Option<real>)
      ensures this.id == id && this.project == project && this.status == status
      ensures this.dueDate == dueDate && this.estimatedHours == estimatedHours
      ensures taskNumber == 0 && completedAt.None? && actualHours == 0.0
    {
      this.id := id;
      this.project := project;
      this.status := status;
      this.dueDate := dueDate;
      this.estimatedHours := estimatedHours;
      taskNumber := 0;
      completedAt := None;
      actualHours := 0.0;
    }

    /**
     * `save`: a task without a number gets the next number of its project
     * (`numbers` holds the numbers of the project's saved tasks), and the
     * completion time follows the status.
     */
    method Save(numbers: seq<int>, now: int)
      modifies this
      ensures taskNumber == if old(taskNumber) == 0 then NextTaskNumber(numbers) else old(taskNumber)
      ensures completedAt == CompletionAfterSave(status, old(completedAt), now)
      ensures status == old(status) && dueDate == old(dueDate)
      ensures estimatedHours == old(estimatedHours) && actualHours == old(actualHours)
    {
      if taskNumber == 0 {
        taskNumber := NextTaskNumber(numbers);
      }
      if status == Done && completedAt.None? {
        completedAt := Some(now);
      } else if status != Done && completedAt.Some? {
        completedAt := None;
      }
    }

    function Overdue(today: CalDate): bool
      reads this
    {
      IsOverdue(status, dueDate, today)
    }

    function TimeSpent(): Option<int>
      reads this
    {
      TimeSpentPercentage(actualHours, estimatedHours)
    }
  }

  /**
   * `TaskTimeEntry.save`: the entry is stored, the task's actual hours
   * become the total booked against it, and the task is saved.
   */
  method SaveTimeEntry(task: Task, entries: seq<TimeEntry>, e: TimeEntry, numbers: seq<int>, now: int)
    returns (entries': seq<TimeEntry>)
    requires e.task == task.id
    modifies task
    ensures entries' == entries + [e]
    ensures task.actualHours == HoursBooked(entries, task.id) + e.hours
    ensures task.taskNumber == if old(task.taskNumber) == 0 then NextTaskNumber(numbers) else old(task.taskNumber)
    ensures task.completedAt == CompletionAfterSave(task.status, old(task.completedAt), now)
    ensures task.status == old(task.status) && task.dueDate == old(task.dueDate)
    ensures task.estimatedHours == old(task.estimatedHours)
  {
    entries' := entries + [e];
    BookingAddsHours(entries, e, task.id);
    task.actualHours := HoursBooked(entries', task.id);
    task.Save(numbers, now);
  }
}
