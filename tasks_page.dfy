/** The Kanban board (src/pages/TasksPage.js): which tasks each column shows under the status
    filter, the assignee filter and the personal view; the drop that moves a task; the export
    selection and its status labels. The assignee filter is 'all' (absent) or one of the board's
    user ids, which `parseInt` reads back from the option value, so it is modelled by that id. */
module TasksPage {
  import opened Wrappers
  import opened Seqs
  import opened Tasks

  const AllStatuses := "all"

  /** The board's local state. */
  datatype BoardState = BoardState(statusFilter: string, assigneeFilter: Option<int>, showPersonalTasks: bool)

  const InitialBoard := BoardState(AllStatuses, None, false)

  /** `toggleTaskView`: switch between all tasks and the user's own, dropping the assignee filter. */
  function ToggleTaskView(b: BoardState): (c: BoardState)
    ensures c.showPersonalTasks != b.showPersonalTasks
    ensures c.assigneeFilter.None? && c.statusFilter == b.statusFilter
  {
    BoardState(b.statusFilter, None, !b.showPersonalTasks)
  }

  /** Toggling twice returns to the same view, with the assignee filter reset. */
  lemma ToggleTwice(b: BoardState)
    ensures ToggleTaskView(ToggleTaskView(b)) == b.(assigneeFilter := None)
  {
  }

  // ---------------------------------------------------------------------------
  // Columns

  /** `tasksByStatus`: the user's own tasks in the personal view, the filtered tasks otherwise. */
  function ViewTasks(tasks: seq<Task>, filters: TaskFilters, currentUserId: Option<int>, b: BoardState): seq<Task>
  {
    if b.showPersonalTasks then MyTasks(tasks, currentUserId) else FilteredTasks(tasks, filters)
  }

  function ViewLists(tasks: seq<Task>, filters: TaskFilters, currentUserId: Option<int>, b: BoardState): StatusLists
  {
    SplitByStatus(ViewTasks(tasks, filters, currentUserId, b))
  }

  /** The tasks one column draws: `shown` from the current view, `all` from the filtered list. */
  function ColumnTasks(column: string, b: BoardState, shown: seq<Task>, all: seq<Task>): (r: seq<Task>)
    ensures b.statusFilter != AllStatuses && b.statusFilter != column ==> r == []
    ensures (b.statusFilter == AllStatuses || b.statusFilter == column) && (b.assigneeFilter.None? || b.showPersonalTasks) ==>
      r == shown
    ensures (b.statusFilter == AllStatuses || b.statusFilter == column) && b.assigneeFilter.Some? && !b.showPersonalTasks ==>
      forall t :: t in r <==> t in all && t.assignedTo == b.assigneeFilter.value
    ensures (b.statusFilter == AllStatuses || b.statusFilter == column) && b.assigneeFilter.Some? && !b.showPersonalTasks ==>
      IsSubsequence(r, all)
  {
    if b.statusFilter == AllStatuses || b.statusFilter == column then
      if b.assigneeFilter.None? || b.showPersonalTasks then shown
      else FilterIsSubsequence(all, AssignedTo(b.assigneeFilter.value)); Filter(all, AssignedTo(b.assigneeFilter.value))
    else []
  }

  datatype Board = Board(todo: seq<Task>, inProgress: seq<Task>, completed: seq<Task>)

  /** The three `TaskColumn`s. */
  function BoardColumns(tasks: seq<Task>, filters: TaskFilters, currentUserId: Option<int>, b: BoardState): Board
  {
    var shown := ViewLists(tasks, filters, currentUserId, b);
    var all := TasksByStatus(tasks, filters);
    Board(ColumnTasks(ToDo, b, shown.todo, all.todo),
          ColumnTasks(InProgress, b, shown.inProgress, all.inProgress),
          ColumnTasks(Completed, b, shown.completed, all.completed))
  }

  /** Each column holds tasks of the board with its own status; a status filter other than 'all'
      empties every other column; an assignee filter outside the personal view keeps only that
      assignee's tasks; and the personal view shows only the user's own tasks. */
  lemma BoardColumnsSound(tasks: seq<Task>, filters: TaskFilters, currentUserId: Option<int>, b: BoardState)
    ensures var c := BoardColumns(tasks, filters, currentUserId, b);
      (forall t :: t in c.todo ==> t in tasks && t.status == ToDo) &&
      (forall t :: t in c.inProgress ==> t in tasks && t.status == InProgress) &&
      (forall t :: t in c.completed ==> t in tasks && t.status == Completed)
    ensures var c := BoardColumns(tasks, filters, currentUserId, b);
      b.statusFilter != AllStatuses ==>
        (c.todo != [] ==> b.statusFilter == ToDo) &&
        (c.inProgress != [] ==> b.statusFilter == InProgress) &&
        (c.completed != [] ==> b.statusFilter == Completed)
    ensures var c := BoardColumns(tasks, filters, currentUserId, b);
      b.assigneeFilter.Some? && !b.showPersonalTasks ==>
        forall t :: t in c.todo + c.inProgress + c.completed ==> t.assignedTo == b.assigneeFilter.value
    ensures var c := BoardColumns(tasks, filters, currentUserId, b);
      b.showPersonalTasks ==> forall t :: t in c.todo + c.inProgress + c.completed ==>
        currentUserId.Some? && t.assignedTo == currentUserId.value
  {
  }

  /** The status summary of the export: the counts of the view's three lists and their total. */
  datatype Summary = Summary(todoCount: nat, inProgressCount: nat, completedCount: nat, totalCount: nat)

  function StatusSummary(tasks: seq<Task>, filters: TaskFilters, currentUserId: Option<int>, b: BoardState): (s: Summary)
    ensures s.totalCount == s.todoCount + s.inProgressCount + s.completedCount
  {
    var lists := ViewLists(tasks, filters, currentUserId, b);
    Summary(|lists.todo|, |lists.inProgress|, |lists.completed|,
            |lists.todo| + |lists.inProgress| + |lists.completed|)
  }

  /** The total counts exactly the tasks of the view whose status is one of the three. */
  lemma SummaryTotalCountsKnown(tasks: seq<Task>, filters: TaskFilters, currentUserId: Option<int>, b: BoardState)
    ensures StatusSummary(tasks, filters, currentUserId, b).totalCount ==
      |Filter(ViewTasks(tasks, filters, currentUserId, b), KnownStatus)|
  {
    SplitByStatusPartition(ViewTasks(tasks, filters, currentUserId, b));
  }

  // ---------------------------------------------------------------------------
  // Drag and drop

  /** `handleDrop`: dispatch `updateTask({ id, status })`. */
  method Drop(store: TasksStore, taskId: int, newStatus: string, now: int)
    modifies store
    ensures store.tasks == UpdateFirst(old(store.tasks), TaskHasId(taskId), MergeTask(StatusPatch(taskId, newStatus), now))
    ensures forall j :: 0 <= j < |store.tasks| ==>
      store.tasks[j] == if j == FirstIndex(old(store.tasks), TaskHasId(taskId))
                        then old(store.tasks)[j].(status := newStatus, updatedAt := now)
                        else old(store.tasks)[j]
    ensures store.notifications == old(store.notifications) && store.filters == old(store.filters)
    ensures store.loading == old(store.loading) && store.error == old(store.error)
    ensures old(store.Valid()) ==> store.Valid()
  {
    ghost var before := store.tasks;
    store.UpdateTask(StatusPatch(taskId, newStatus), now);
    forall j | 0 <= j < |before| && j == FirstIndex(before, TaskHasId(taskId))
      ensures MergeTask(StatusPatch(taskId, newStatus), now)(before[j]) == before[j].(status := newStatus, updatedAt := now)
    {
      MergeTaskLaws(StatusPatch(taskId, newStatus), now, before[j], newStatus);
    }
  }

  // ---------------------------------------------------------------------------
  // Export

  /** What a task must satisfy to be exported to the PDF. */
  function ExportKeeps(b: BoardState, userId: int): Task -> bool
  {
    (t: Task) =>
      (b.showPersonalTasks ==> t.assignedTo == userId) &&
      (b.assigneeFilter.Some? && !b.showPersonalTasks ==> t.assignedTo == b.assigneeFilter.value) &&
      (b.statusFilter != AllStatuses ==> t.status == b.statusFilter)
  }

  function Always(t: Task): bool { true }

  /** `tasksToExport`: start from every task (only the user's own in the personal view), then
      apply the assignee filter outside the personal view, then the status filter. `userId` is
      the signed-in user's id. */
  method TasksToExport(allTasks: seq<Task>, b: BoardState, userId: int) returns (r: seq<Task>)
    ensures r == Filter(allTasks, ExportKeeps(b, userId))
  {
    ghost var keep: Task -> bool;
    if b.showPersonalTasks {
      r := Filter(allTasks, AssignedTo(userId));
      keep := AssignedTo(userId);
    } else {
      r := allTasks;
      keep := Always;
      FilterAll(allTasks, Always);
    }
    if b.assigneeFilter.Some? && !b.showPersonalTasks {
      var next := (t: Task) => keep(t) && t.assignedTo == b.assigneeFilter.value;
      FilterFuse(allTasks, keep, AssignedTo(b.assigneeFilter.value), next);
      r := Filter(r, AssignedTo(b.assigneeFilter.value));
      keep := next;
    }
    if b.statusFilter != AllStatuses {
      var next := (t: Task) => keep(t) && t.status == b.statusFilter;
      FilterFuse(allTasks, keep, HasStatus(b.statusFilter), next);
      r := Filter(r, HasStatus(b.statusFilter));
      keep := next;
    }
    FilterCongruent(allTasks, keep, ExportKeeps(b, userId));
  }

  /** In the personal view the assignee filter plays no part in the export. */
  lemma PersonalExportIgnoresAssignee(allTasks: seq<Task>, statusFilter: string, a1: Option<int>, a2: Option<int>, userId: int)
    ensures Filter(allTasks, ExportKeeps(BoardState(statusFilter, a1, true), userId)) ==
            Filter(allTasks, ExportKeeps(BoardState(statusFilter, a2, true), userId))
    ensures forall t :: t in Filter(allTasks, ExportKeeps(BoardState(statusFilter, a1, true), userId)) ==>
      t.assignedTo == userId
  {
    FilterCongruent(allTasks, ExportKeeps(BoardState(statusFilter, a1, true), userId),
                    ExportKeeps(BoardState(statusFilter, a2, true), userId));
  }

  /** The CSV rows: every task, or only the user's own in the personal view; neither the status
      nor the assignee filter applies. */
  function CsvTasks(allTasks: seq<Task>, b: BoardState, userId: int): (r: seq<Task>)
    ensures forall t :: t in r <==> t in allTasks && (b.showPersonalTasks ==> t.assignedTo == userId)
    ensures IsSubsequence(r, allTasks)
  {
    FilterIsSubsequence(allTasks, AssignedTo(userId));
    FilterIsSubsequence(allTasks, Always);
    FilterAll(allTasks, Always);
    if b.showPersonalTasks then Filter(allTasks, AssignedTo(userId)) else allTasks
  }

  /** The exported PDF is the CSV selection narrowed by the assignee and status filters. */
  lemma ExportWithinCsv(allTasks: seq<Task>, b: BoardState, userId: int)
    ensures forall t :: t in Filter(allTasks, ExportKeeps(b, userId)) ==> t in CsvTasks(allTasks, b, userId)
  {
  }

  /** The label in the Status cell of both exports. */
  function StatusLabel(status: string): (l: string)
    ensures l in {"To Do", "In Progress", "Completed"}
  {
    if status == ToDo then "To Do" else if status == InProgress then "In Progress" else "Completed"
  }

  /** The three known statuses get three different labels, each the title of its column; any
      other status is labelled like a completed task. */
  lemma StatusLabels(other: string)
    ensures StatusLabel(ToDo) == "To Do" && StatusLabel(InProgress) == "In Progress" && StatusLabel(Completed) == "Completed"
    ensures other != ToDo && other != InProgress ==> StatusLabel(other) == StatusLabel(Completed)
  {
  }

  /** The board's own user list, used for the Assigned To cell. */
  const BoardUsers: seq<(int, string)> := [(1, "Admin User"), (2, "Regular User"), (3, "John Doe")]

  /** `users.find(u => u.id === task.assignedTo)?.name || 'Unknown'`. */
  function AssigneeName(id: int): (name: string)
    ensures id == 1 ==> name == "Admin User"
    ensures id == 2 ==> name == "Regular User"
    ensures id == 3 ==> name == "John Doe"
    ensures !(1 <= id <= 3) ==> name == "Unknown"
  {
    var k := FirstIndex(BoardUsers, (u: (int, string)) => u.0 == id);
    if k == -1 || BoardUsers[k].1 == "" then "Unknown" else BoardUsers[k].1
  }

  /** One row of the PDF table (the due date, a locale string, is left out). */
  datatype ExportRow = ExportRow(id: int, title: string, status: string, priority: string, assignee: string)

  function RowOf(t: Task): ExportRow
  {
    ExportRow(t.id, t.title, StatusLabel(t.status), t.priority, AssigneeName(t.assignedTo))
  }
}
