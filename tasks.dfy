/** The tasks slice (src/features/tasks/tasksSlice.js): the task table with its comments, the
    notification list, the task filters and the selectors. Statuses and priorities are the
    strings the application stores ("to-do", "in-progress", "completed"; "low", "medium", "high");
    times are integers of milliseconds supplied by the caller. */
module Tasks {
  import opened Wrappers
  import opened Seqs

  // ---------------------------------------------------------------------------
  // Entities

  datatype Comment = Comment(id: int, userId: int, text: string, createdAt: int)

  datatype Task = Task(
    id: int, title: string, description: string, status: string, priority: string,
    dueDate: string, assignedTo: int, assignedBy: int, createdAt: int, updatedAt: int,
    comments: seq<Comment>)

  /** What a caller hands to `addTask`: every field but id, timestamps and comments. */
  datatype TaskDraft = TaskDraft(
    title: string, description: string, status: string, priority: string,
    dueDate: string, assignedTo: int, assignedBy: int)

  /** An `updateTask` payload: the id of the task and the fields to overwrite. */
  datatype TaskPatch = TaskPatch(
    id: int, title: Option<string>, description: Option<string>, status: Option<string>,
    priority: Option<string>, dueDate: Option<string>, assignedTo: Option<int>,
    assignedBy: Option<int>, createdAt: Option<int>, comments: Option<seq<Comment>>)

  /** `userId` absent is a notification for everybody. */
  datatype Notification = Notification(
    id: int, userId: Option<int>, title: string, message: string, kind: string,
    relatedId: Option<int>, read: bool, createdAt: int)

  /** What a caller hands to `addNotification`. */
  datatype NotificationPayload = NotificationPayload(
    userId: Option<int>, title: string, message: string, kind: string, relatedId: Option<int>)

  const ToDo := "to-do"
  const InProgress := "in-progress"
  const Completed := "completed"

  function TaskKey(t: Task): int { t.id }

  function CommentKey(c: Comment): int { c.id }

  function TaskHasId(id: int): Task -> bool { (t: Task) => t.id == id }

  function TaskIdIsNot(id: int): Task -> bool { (t: Task) => t.id != id }

  function NotificationHasId(id: int): Notification -> bool { (n: Notification) => n.id == id }

  function HasStatus(st: string): Task -> bool { (t: Task) => t.status == st }

  function AssignedTo(userId: int): Task -> bool { (t: Task) => t.assignedTo == userId }

  predicate IsUnread(n: Notification) { !n.read }

  function MarkRead(n: Notification): Notification { n.(read := true) }

  // ---------------------------------------------------------------------------
  // What the reducers build

  /** The task `addTask` appends: the next id, no comments, created and updated now. */
  function NewTask(tasks: seq<Task>, d: TaskDraft, now: int): (t: Task)
    ensures t.id >= 1 && forall i :: 0 <= i < |tasks| ==> tasks[i].id < t.id
    ensures t.comments == [] && t.createdAt == now && t.updatedAt == now
    ensures t.title == d.title && t.description == d.description && t.status == d.status
    ensures t.priority == d.priority && t.dueDate == d.dueDate
    ensures t.assignedTo == d.assignedTo && t.assignedBy == d.assignedBy
  {
    Task(NextKey(tasks, TaskKey), d.title, d.description, d.status, d.priority, d.dueDate,
         d.assignedTo, d.assignedBy, now, now, [])
  }

  /** `{ ...task, ...updates, updatedAt: now }`; the id is not among the updates. */
  function MergeTask(p: TaskPatch, now: int): Task -> Task
  {
    (t: Task) => t.(title := GetOr(p.title, t.title), description := GetOr(p.description, t.description),
                    status := GetOr(p.status, t.status), priority := GetOr(p.priority, t.priority),
                    dueDate := GetOr(p.dueDate, t.dueDate), assignedTo := GetOr(p.assignedTo, t.assignedTo),
                    assignedBy := GetOr(p.assignedBy, t.assignedBy), createdAt := GetOr(p.createdAt, t.createdAt),
                    comments := GetOr(p.comments, t.comments), updatedAt := now)
  }

  /** A status-only patch, the one a drop on a Kanban column sends. */
  function StatusPatch(id: int, status: string): TaskPatch
  {
    TaskPatch(id, None, None, Some(status), None, None, None, None, None, None)
  }

  /** A merge keeps the id, stamps the update time, and a status patch changes only the status. */
  lemma MergeTaskLaws(p: TaskPatch, now: int, t: Task, st: string)
    ensures MergeTask(p, now)(t).id == t.id && MergeTask(p, now)(t).updatedAt == now
    ensures MergeTask(p, now)(MergeTask(p, now)(t)) == MergeTask(p, now)(t)
    ensures MergeTask(StatusPatch(t.id, st), now)(t) == t.(status := st, updatedAt := now)
  {
  }

  /** The comment `addComment` appends to a task. */
  function NewComment(t: Task, userId: int, text: string, now: int): (c: Comment)
    ensures c.id >= 1 && forall i :: 0 <= i < |t.comments| ==> t.comments[i].id < c.id
    ensures c.userId == userId && c.text == text && c.createdAt == now
  {
    Comment(NextKey(t.comments, CommentKey), userId, text, now)
  }

  function AppendComment(userId: int, text: string, now: int): Task -> Task
  {
    (t: Task) => t.(comments := t.comments + [NewComment(t, userId, text, now)])
  }

  /** `addComment` changes the first task with the id only, by one fresh comment at the end,
      and leaves the table unchanged when no task has the id. */
  lemma AddCommentEffect(tasks: seq<Task>, taskId: int, userId: int, text: string, now: int)
    ensures var r := UpdateFirst(tasks, TaskHasId(taskId), AppendComment(userId, text, now));
      |r| == |tasks| &&
      ((forall j :: 0 <= j < |tasks| ==> tasks[j].id != taskId) ==> r == tasks) &&
      forall j :: 0 <= j < |tasks| ==>
        r[j].id == tasks[j].id &&
        (r[j] == tasks[j] ||
         (j == FirstIndex(tasks, TaskHasId(taskId)) &&
          r[j] == tasks[j].(comments := tasks[j].comments + [NewComment(tasks[j], userId, text, now)])))
  {
  }

  /** The notification `addNotification` appends: unread, with the given id and time. */
  function NewNotification(p: NotificationPayload, id: int, now: int): (n: Notification)
    ensures !n.read && n.id == id && n.createdAt == now
    ensures n.userId == p.userId && n.title == p.title && n.message == p.message
  {
    Notification(id, p.userId, p.title, p.message, p.kind, p.relatedId, false, now)
  }

  /** Marking a notification read twice is marking it once. */
  lemma MarkReadIdempotent(ns: seq<Notification>, id: int)
    ensures UpdateFirst(UpdateFirst(ns, NotificationHasId(id), MarkRead), NotificationHasId(id), MarkRead)
         == UpdateFirst(ns, NotificationHasId(id), MarkRead)
  {
    UpdateFirstIdempotent(ns, NotificationHasId(id), MarkRead);
  }

  // ---------------------------------------------------------------------------
  // Filters and selectors

  datatype TaskFilters = TaskFilters(status: Option<string>, priority: Option<string>, assignedTo: Option<int>)

  const NoTaskFilters := TaskFilters(None, None, None)

  /** A `setFilters` payload: the fields present overwrite, `Some(None)` sets a field to null. */
  datatype TaskFiltersPatch = TaskFiltersPatch(
    status: Option<Option<string>>, priority: Option<Option<string>>, assignedTo: Option<Option<int>>)

  function MergeTaskFilters(f: TaskFilters, p: TaskFiltersPatch): (g: TaskFilters)
    ensures p.status.None? ==> g.status == f.status
    ensures p.priority.None? ==> g.priority == f.priority
    ensures p.assignedTo.None? ==> g.assignedTo == f.assignedTo
  {
    TaskFilters(GetOr(p.status, f.status), GetOr(p.priority, f.priority), GetOr(p.assignedTo, f.assignedTo))
  }

  /** A filter field takes part only when it is truthy: not null, not "" and not 0. */
  predicate StatusActive(f: TaskFilters) { f.status.Some? && f.status.value != "" }

  predicate PriorityActive(f: TaskFilters) { f.priority.Some? && f.priority.value != "" }

  predicate AssigneeActive(f: TaskFilters) { f.assignedTo.Some? && f.assignedTo.value != 0 }

  /** The early-return chain of `selectFilteredTasks`. */
  function TaskMatches(f: TaskFilters): Task -> bool
  {
    (t: Task) =>
      if StatusActive(f) && t.status != f.status.value then false
      else if PriorityActive(f) && t.priority != f.priority.value then false
      else if AssigneeActive(f) && t.assignedTo != f.assignedTo.value then false
      else true
  }

  /** `selectFilteredTasks`: the tasks, in order, that pass every active filter. */
  function FilteredTasks(tasks: seq<Task>, f: TaskFilters): (r: seq<Task>)
    ensures forall t :: t in r <==>
      t in tasks &&
      (StatusActive(f) ==> t.status == f.status.value) &&
      (PriorityActive(f) ==> t.priority == f.priority.value) &&
      (AssigneeActive(f) ==> t.assignedTo == f.assignedTo.value)
    ensures IsSubsequence(r, tasks)
    ensures f == NoTaskFilters ==> r == tasks
  {
    FilterIsSubsequence(tasks, TaskMatches(f));
    if f == NoTaskFilters then FilterAll(tasks, TaskMatches(f)); Filter(tasks, TaskMatches(f))
    else Filter(tasks, TaskMatches(f))
  }

  /** The three Kanban lists of a task list. */
  datatype StatusLists = StatusLists(todo: seq<Task>, inProgress: seq<Task>, completed: seq<Task>)

  function SplitByStatus(ts: seq<Task>): (b: StatusLists)
    ensures forall t :: t in b.todo <==> t in ts && t.status == ToDo
    ensures forall t :: t in b.inProgress <==> t in ts && t.status == InProgress
    ensures forall t :: t in b.completed <==> t in ts && t.status == Completed
    ensures IsSubsequence(b.todo, ts) && IsSubsequence(b.inProgress, ts) && IsSubsequence(b.completed, ts)
  {
    FilterIsSubsequence(ts, HasStatus(ToDo));
    FilterIsSubsequence(ts, HasStatus(InProgress));
    FilterIsSubsequence(ts, HasStatus(Completed));
    StatusLists(Filter(ts, HasStatus(ToDo)), Filter(ts, HasStatus(InProgress)), Filter(ts, HasStatus(Completed)))
  }

  /** `selectTasksByStatus`. */
  function TasksByStatus(tasks: seq<Task>, f: TaskFilters): StatusLists
  {
    SplitByStatus(FilteredTasks(tasks, f))
  }

  predicate KnownStatus(t: Task) { t.status == ToDo || t.status == InProgress || t.status == Completed }

  /** The three lists split the tasks with a known status: each such task lands in exactly one
      list, a task with any other status in none, and the sizes add up. */
  lemma SplitByStatusPartition(ts: seq<Task>)
    ensures var b := SplitByStatus(ts);
      (forall t :: t in ts && !KnownStatus(t) ==> t !in b.todo && t !in b.inProgress && t !in b.completed) &&
      |b.todo| + |b.inProgress| + |b.completed| == |Filter(ts, KnownStatus)|
  {
    var todoOrProgress := (t: Task) => t.status == ToDo || t.status == InProgress;
    FilterSplitCount(ts, HasStatus(ToDo), HasStatus(InProgress), todoOrProgress);
    FilterSplitCount(ts, todoOrProgress, HasStatus(Completed), KnownStatus);
  }

  /** `selectTaskById`. */
  function TaskById(tasks: seq<Task>, id: int): (r: Option<Task>)
    ensures r.None? <==> forall j :: 0 <= j < |tasks| ==> tasks[j].id != id
    ensures r.Some? ==> r.value == tasks[FirstIndex(tasks, TaskHasId(id))] && r.value.id == id
  {
    Find(tasks, TaskHasId(id))
  }

  /** `selectTasksAssignedToUser` and `selectTasksByAssignee`. */
  function TasksAssignedTo(tasks: seq<Task>, userId: int): (r: seq<Task>)
    ensures forall t :: t in r <==> t in tasks && t.assignedTo == userId
    ensures IsSubsequence(r, tasks)
  {
    FilterIsSubsequence(tasks, AssignedTo(userId));
    Filter(tasks, AssignedTo(userId))
  }

  /** `selectMyTasks`: nothing without a signed-in user (`!currentUserId`), else the user's tasks. */
  function MyTasks(tasks: seq<Task>, currentUserId: Option<int>): (r: seq<Task>)
    ensures (currentUserId.None? || currentUserId == Some(0)) ==> r == []
    ensures currentUserId.Some? && currentUserId.value != 0 ==>
      forall t :: t in r <==> t in tasks && t.assignedTo == currentUserId.value
    ensures IsSubsequence(r, tasks)
  {
    if currentUserId.None? || currentUserId.value == 0 then [] else TasksAssignedTo(tasks, currentUserId.value)
  }

  /** `selectMyTasksByStatus`. */
  function MyTasksByStatus(tasks: seq<Task>, currentUserId: Option<int>): StatusLists
  {
    SplitByStatus(MyTasks(tasks, currentUserId))
  }

  /** `selectUnreadNotifications`. */
  function UnreadNotifications(ns: seq<Notification>): (r: seq<Notification>)
    ensures forall n :: n in r <==> n in ns && !n.read
    ensures IsSubsequence(r, ns)
    ensures |r| == |set i | 0 <= i < |ns| && !ns[i].read|
  {
    FilterIsSubsequence(ns, IsUnread);
    FilterCountsPositions(ns, IsUnread);
    assert Positions(ns, IsUnread) == set i | 0 <= i < |ns| && !ns[i].read;
    Filter(ns, IsUnread)
  }

  // ---------------------------------------------------------------------------
  // The seed table

  /** The five tasks the slice starts with; the date-only strings of the source are UTC midnights. */
  const MockTask1 := Task(1, "Create project proposal",
    "Draft a proposal for the new client project",
    "completed", "high", "2023-07-15", 2, 1,
    1688169600000, 1688947200000,
    [Comment(1, 1, "Please add more details", 1688515200000),
      Comment(2, 2, "Updated with requested changes", 1688774400000)])

  const MockTask2 := Task(2, "Design website mockups",
    "Create initial UI designs for homepage and dashboard",
    "in-progress", "medium", "2023-07-20", 2, 1,
    1688515200000, 1688515200000,
    [])

  const MockTask3 := Task(3, "Client meeting preparation",
    "Prepare slides and demo for client meeting",
    "to-do", "high", "2023-07-18", 3, 1,
    1688947200000, 1688947200000,
    [])

  const MockTask4 := Task(4, "Backend API development",
    "Implement REST APIs for user management module",
    "in-progress", "high", "2023-07-25", 2, 1,
    1688774400000, 1689120000000,
    [Comment(3, 1, "How is this progressing?", 1689120000000)])

  const MockTask5 := Task(5, "Code review for login module",
    "Review and provide feedback on login and authentication code",
    "to-do", "medium", "2023-07-16", 3, 1,
    1689033600000, 1689033600000,
    [])

  const MockTasks: seq<Task> := [MockTask1, MockTask2, MockTask3, MockTask4, MockTask5]


  // ---------------------------------------------------------------------------
  // The store

  class TasksStore {
    var tasks: seq<Task>
    var loading: bool
    var error: Option<string>
    var filters: TaskFilters
    var notifications: seq<Notification>

    /** Task ids are unique (notification ids come from a clock and are not). */
    ghost predicate Valid()
      reads this
    {
      UniqueBy(tasks, TaskKey)
    }

    /** The initial state: the seed table, whose task ids are unique. */
    constructor()
      ensures tasks == MockTasks && !loading && error == None
      ensures filters == NoTaskFilters && notifications == []
      ensures Valid()
    {
      tasks := MockTasks;
      loading := false;
      error := None;
      filters := NoTaskFilters;
      notifications := [];
    }

    method GetTasks()
      modifies this
      ensures loading && error == None
      ensures tasks == old(tasks) && filters == old(filters) && notifications == old(notifications)
    {
      loading := true;
      error := None;
    }

    method GetTasksSuccess(loaded: seq<Task>)
      modifies this
      ensures tasks == loaded && !loading
      ensures error == old(error) && filters == old(filters) && notifications == old(notifications)
    {
      tasks := loaded;
      loading := false;
    }

    method GetTasksFailure(message: string)
      modifies this
      ensures !loading && error == Some(message)
      ensures tasks == old(tasks) && filters == old(filters) && notifications == old(notifications)
    {
      loading := false;
      error := Some(message);
    }

    method AddTask(d: TaskDraft, now: int)
      modifies this
      ensures tasks == old(tasks) + [NewTask(old(tasks), d, now)]
      ensures loading == old(loading) && error == old(error)
      ensures filters == old(filters) && notifications == old(notifications)
      ensures old(Valid()) ==> Valid()
    {
      var t := NewTask(tasks, d, now);
      if Valid() { UniqueByAppendFresh(tasks, TaskKey, t); }
      tasks := tasks + [t];
    }

    method UpdateTask(p: TaskPatch, now: int)
      modifies this
      ensures tasks == UpdateFirst(old(tasks), TaskHasId(p.id), MergeTask(p, now))
      ensures loading == old(loading) && error == old(error)
      ensures filters == old(filters) && notifications == old(notifications)
      ensures old(Valid()) ==> Valid()
    {
      var updated := UpdateFirst(tasks, TaskHasId(p.id), MergeTask(p, now));
      if Valid() { UniqueBySameKeys(tasks, updated, TaskKey); }
      tasks := updated;
    }

    /** Removes every task with the id. */
    method DeleteTask(id: int)
      modifies this
      ensures tasks == Filter(old(tasks), TaskIdIsNot(id))
      ensures loading == old(loading) && error == old(error)
      ensures filters == old(filters) && notifications == old(notifications)
      ensures old(Valid()) ==> Valid()
    {
      if Valid() { UniqueByFilter(tasks, TaskKey, TaskIdIsNot(id)); }
      tasks := Filter(tasks, TaskIdIsNot(id));
    }

    method AddComment(taskId: int, userId: int, text: string, now: int)
      modifies this
      ensures tasks == UpdateFirst(old(tasks), TaskHasId(taskId), AppendComment(userId, text, now))
      ensures loading == old(loading) && error == old(error)
      ensures filters == old(filters) && notifications == old(notifications)
      ensures old(Valid()) ==> Valid()
    {
      var updated := UpdateFirst(tasks, TaskHasId(taskId), AppendComment(userId, text, now));
      if Valid() { UniqueBySameKeys(tasks, updated, TaskKey); }
      tasks := updated;
    }

    method SetFilters(p: TaskFiltersPatch)
      modifies this
      ensures filters == MergeTaskFilters(old(filters), p)
      ensures tasks == old(tasks) && loading == old(loading)
      ensures error == old(error) && notifications == old(notifications)
    {
      filters := MergeTaskFilters(filters, p);
    }

    method ClearFilters()
      modifies this
      ensures filters == NoTaskFilters
      ensures tasks == old(tasks) && loading == old(loading)
      ensures error == old(error) && notifications == old(notifications)
    {
      filters := NoTaskFilters;
    }

    /** Appends an unread notification; `id` stands for `Date.now()`. */
    method AddNotification(p: NotificationPayload, id: int, now: int)
      modifies this
      ensures notifications == old(notifications) + [NewNotification(p, id, now)]
      ensures tasks == old(tasks) && loading == old(loading)
      ensures error == old(error) && filters == old(filters)
    {
      notifications := notifications + [NewNotification(p, id, now)];
    }

    /** Marks the first notification with the id read. */
    method MarkNotificationAsRead(id: int)
      modifies this
      ensures notifications == UpdateFirst(old(notifications), NotificationHasId(id), MarkRead)
      ensures tasks == old(tasks) && loading == old(loading)
      ensures error == old(error) && filters == old(filters)
    {
      notifications := UpdateFirst(notifications, NotificationHasId(id), MarkRead);
    }

    method ClearNotifications()
      modifies this
      ensures notifications == []
      ensures tasks == old(tasks) && loading == old(loading)
      ensures error == old(error) && filters == old(filters)
    {
      notifications := [];
    }
  }
}
