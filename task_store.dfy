/**
 * The task store: the list of tasks, the actions that add, edit, complete
 * and delete them, and the selectors by status, category and due date.
 * The generated id and the clock are parameters.
 */
module Tasks {
  import opened Wrappers
  import opened Seqs
  import opened Types

  /** What `addTask` is given: a task without id, status and creation time; `tags` may be missing. */
  datatype TaskDraft = TaskDraft(
    title: string,
    description: Option<string>,
    priority: TaskPriority,
    category: TaskCategory,
    dueDate: Option<int>,
    completedAt: Option<int>,
    deepLink: Option<string>,
    externalUrl: Option<string>,
    tags: Option<seq<string>>)

  /** The task `addTask` appends: pending, created now, with no tags unless some were given. */
  function NewTask(draft: TaskDraft, id: string, now: int): (t: Task)
    ensures t.id == id && t.status == Pending && t.createdAt == now
    ensures draft.tags.None? ==> t.tags == []
    ensures draft.tags.Some? ==> t.tags == draft.tags.value
    ensures t.title == draft.title && t.description == draft.description
    ensures t.priority == draft.priority && t.category == draft.category
    ensures t.dueDate == draft.dueDate && t.completedAt == draft.completedAt
    ensures t.deepLink == draft.deepLink && t.externalUrl == draft.externalUrl
  {
    Task(id, draft.title, draft.description, Pending, draft.priority, draft.category,
         draft.dueDate, now, draft.completedAt, draft.deepLink, draft.externalUrl,
         draft.tags.GetOr([]))
  }

  /** `Partial<Task>`; an optional property takes an `Option<Option<..>>` whose inner `None` clears it. */
  datatype TaskUpdate = TaskUpdate(
    id: Option<string>,
    title: Option<string>,
    description: Option<Option<string>>,
    status: Option<TaskStatus>,
    priority: Option<TaskPriority>,
    category: Option<TaskCategory>,
    dueDate: Option<Option<int>>,
    createdAt: Option<int>,
    completedAt: Option<Option<int>>,
    deepLink: Option<Option<string>>,
    externalUrl: Option<Option<string>>,
    tags: Option<seq<string>>)

  const NoTaskUpdate := TaskUpdate(None, None, None, None, None, None, None, None, None, None, None, None)

  /** `{ ...task, ...updates }` */
  function MergeTask(t: Task, u: TaskUpdate): (r: Task)
    ensures r.id == if u.id.Some? then u.id.value else t.id
    ensures r.title == if u.title.Some? then u.title.value else t.title
    ensures r.description == if u.description.Some? then u.description.value else t.description
    ensures r.status == if u.status.Some? then u.status.value else t.status
    ensures r.priority == if u.priority.Some? then u.priority.value else t.priority
    ensures r.category == if u.category.Some? then u.category.value else t.category
    ensures r.dueDate == if u.dueDate.Some? then u.dueDate.value else t.dueDate
    ensures r.createdAt == if u.createdAt.Some? then u.createdAt.value else t.createdAt
    ensures r.completedAt == if u.completedAt.Some? then u.completedAt.value else t.completedAt
    ensures r.deepLink == if u.deepLink.Some? then u.deepLink.value else t.deepLink
    ensures r.externalUrl == if u.externalUrl.Some? then u.externalUrl.value else t.externalUrl
    ensures r.tags == if u.tags.Some? then u.tags.value else t.tags
  {
    Task(
      u.id.GetOr(t.id),
      u.title.GetOr(t.title),
      u.description.GetOr(t.description),
      u.status.GetOr(t.status),
      u.priority.GetOr(t.priority),
      u.category.GetOr(t.category),
      u.dueDate.GetOr(t.dueDate),
      u.createdAt.GetOr(t.createdAt),
      u.completedAt.GetOr(t.completedAt),
      u.deepLink.GetOr(t.deepLink),
      u.externalUrl.GetOr(t.externalUrl),
      u.tags.GetOr(t.tags))
  }

  /** An empty update changes nothing, and applying the same update twice is applying it once. */
  lemma MergeTaskLaws(t: Task, u: TaskUpdate)
    ensures MergeTask(t, NoTaskUpdate) == t
    ensures MergeTask(MergeTask(t, u), u) == MergeTask(t, u)
  {
  }

  /** The task after `completeTask` at `now`: completed, stamped, otherwise untouched. */
  function MarkCompleted(t: Task, now: int): (r: Task)
    ensures r.status == Completed && r.completedAt == Some(now)
    ensures r == t.(status := Completed, completedAt := Some(now))
  {
    t.(status := Completed, completedAt := Some(now))
  }

  function HasStatus(status: TaskStatus): Task -> bool {
    (t: Task) => t.status == status
  }

  function HasCategory(category: TaskCategory): Task -> bool {
    (t: Task) => t.category == category
  }

  /** A task with a due date before `now` that is not completed (cancelled ones count as overdue). */
  predicate IsOverdue(t: Task, now: int) {
    t.dueDate.Some? && t.dueDate.value < now && t.status != Completed
  }

  /** A task due in `[dayStart, dayEnd)`, the local day that contains the clock. */
  predicate IsDueToday(t: Task, dayStart: int, dayEnd: int) {
    t.dueDate.Some? && dayStart <= t.dueDate.value < dayEnd
  }

  /** Completing a task takes it off the overdue list for good, and completing again only moves the stamp. */
  lemma CompletedLaws(t: Task, now: int, later: int)
    ensures !IsOverdue(MarkCompleted(t, now), later)
    ensures HasStatus(Completed)(MarkCompleted(t, now))
    ensures MarkCompleted(MarkCompleted(t, now), later) == MarkCompleted(t, later)
  {
  }

  /** Each task has exactly one status: the four status lists together hold every task once. */
  lemma {:induction false} StatusesPartition(s: seq<Task>)
    ensures |Filter(s, HasStatus(Pending))| + |Filter(s, HasStatus(InProgress))|
          + |Filter(s, HasStatus(Completed))| + |Filter(s, HasStatus(Cancelled))| == |s|
    decreases |s|
  {
    if s != [] {
      StatusesPartition(s[1..]);
    }
  }

  /** Each task has exactly one category: the five category lists together hold every task once. */
  lemma {:induction false} CategoriesPartition(s: seq<Task>)
    ensures |Filter(s, HasCategory(Work))| + |Filter(s, HasCategory(Personal))| + |Filter(s, HasCategory(Social))|
          + |Filter(s, HasCategory(Web3))| + |Filter(s, HasCategory(Health))| == |s|
    decreases |s|
  {
    if s != [] {
      CategoriesPartition(s[1..]);
    }
  }

  class TaskStore {
    var tasks: seq<Task>

    constructor()
      ensures tasks == []
    {
      tasks := [];
    }

    method AddTask(draft: TaskDraft, id: string, now: int)
      modifies this
      ensures tasks == old(tasks) + [NewTask(draft, id, now)]
    {
      tasks := tasks + [NewTask(draft, id, now)];
    }

    method UpdateTask(id: string, updates: TaskUpdate)
      modifies this
      ensures |tasks| == |old(tasks)|
      ensures forall i :: 0 <= i < |tasks| ==>
        tasks[i] == if old(tasks)[i].id == id then MergeTask(old(tasks)[i], updates) else old(tasks)[i]
    {
      tasks := MapWhere(tasks, (t: Task) => t.id == id, (t: Task) => MergeTask(t, updates));
    }

    method DeleteTask(id: string)
      modifies this
      ensures forall t :: t in tasks <==> t in old(tasks) && t.id != id
      ensures forall t :: multiset(tasks)[t] == if t.id != id then multiset(old(tasks))[t] else 0
      ensures IsSubsequence(tasks, old(tasks))
      ensures forall st, c, now, dayStart, dayEnd, t ::
        t in GetTasksByStatus(st) + GetTasksByCategory(c) + GetOverdueTasks(now) + GetTodaysTasks(dayStart, dayEnd)
        ==> t.id != id
    {
      FilterSpec(tasks, (t: Task) => t.id != id);
      tasks := Filter(tasks, (t: Task) => t.id != id);
    }

    /** Marks every task with this id completed at `now`; from then on none of them is overdue. */
    method CompleteTask(id: string, now: int)
      modifies this
      ensures |tasks| == |old(tasks)|
      ensures forall i :: 0 <= i < |tasks| ==>
        tasks[i] == if old(tasks)[i].id == id then MarkCompleted(old(tasks)[i], now) else old(tasks)[i]
      ensures forall later, t :: t in GetOverdueTasks(later) ==> t.id != id
    {
      tasks := MapWhere(tasks, (t: Task) => t.id == id, (t: Task) => MarkCompleted(t, now));
    }

    function GetTasksByStatus(status: TaskStatus): (r: seq<Task>)
      reads this
      ensures forall t :: t in r <==> t in tasks && t.status == status
      ensures forall t :: multiset(r)[t] == if t.status == status then multiset(tasks)[t] else 0
      ensures IsSubsequence(r, tasks)
    {
      FilterSpec(tasks, HasStatus(status));
      Filter(tasks, HasStatus(status))
    }

    function GetTasksByCategory(category: TaskCategory): (r: seq<Task>)
      reads this
      ensures forall t :: t in r <==> t in tasks && t.category == category
      ensures forall t :: multiset(r)[t] == if t.category == category then multiset(tasks)[t] else 0
      ensures IsSubsequence(r, tasks)
    {
      FilterSpec(tasks, HasCategory(category));
      Filter(tasks, HasCategory(category))
    }

    /** Tasks whose due date has passed at `now` and that are not completed, in store order. */
    function GetOverdueTasks(now: int): (r: seq<Task>)
      reads this
      ensures forall t :: t in r <==> t in tasks && IsOverdue(t, now)
      ensures forall t :: multiset(r)[t] == if IsOverdue(t, now) then multiset(tasks)[t] else 0
      ensures forall t :: t in r ==> t.status != Completed && t.dueDate.Some?
      ensures IsSubsequence(r, tasks)
    {
      FilterSpec(tasks, (t: Task) => IsOverdue(t, now));
      Filter(tasks, (t: Task) => IsOverdue(t, now))
    }

    /** Tasks due between local midnight `dayStart` and the next midnight `dayEnd`; tasks without a due date never are. */
    function GetTodaysTasks(dayStart: int, dayEnd: int): (r: seq<Task>)
      reads this
      ensures forall t :: t in r <==> t in tasks && IsDueToday(t, dayStart, dayEnd)
      ensures forall t :: multiset(r)[t] == if IsDueToday(t, dayStart, dayEnd) then multiset(tasks)[t] else 0
      ensures IsSubsequence(r, tasks)
    {
      FilterSpec(tasks, (t: Task) => IsDueToday(t, dayStart, dayEnd));
      Filter(tasks, (t: Task) => IsDueToday(t, dayStart, dayEnd))
    }
  }

  /** The status lists of a store add up to all of its tasks. */
  lemma StatusCountsAddUp(store: TaskStore)
    ensures |store.GetTasksByStatus(Pending)| + |store.GetTasksByStatus(InProgress)|
          + |store.GetTasksByStatus(Completed)| + |store.GetTasksByStatus(Cancelled)| == |store.tasks|
  {
    StatusesPartition(store.tasks);
  }

  /** The category lists of a store add up to all of its tasks. */
  lemma CategoryCountsAddUp(store: TaskStore)
    ensures |store.GetTasksByCategory(Work)| + |store.GetTasksByCategory(Personal)| + |store.GetTasksByCategory(Social)|
          + |store.GetTasksByCategory(Web3)| + |store.GetTasksByCategory(Health)| == |store.tasks|
  {
    CategoriesPartition(store.tasks);
  }
}
