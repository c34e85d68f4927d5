/**
 * The daily task list: which stored tasks it shows, how a task is added,
 * and how the check box toggles a task between to-do and completed.
 * "Today" is the local `yyyy-MM-dd` date and "now" an ISO timestamp; both
 * are passed in.
 */
module DailyTasks {
  import opened Wrappers
  import opened Js
  import opened Types
  import opened Collections
  import opened Storage

  /** `task.isDaily && (!task.completedAt || task.completedAt.startsWith(today))` */
  predicate Visible(t: Task, today: string) {
    t.isDaily && (!Truthy(t.completedAt) || StartsWith(t.completedAt.value, today))
  }

  /** The tasks `loadTasks` shows, in stored order. */
  function DailyTasks(ts: seq<Task>, today: string): (r: seq<Task>)
    ensures forall i :: 0 <= i < |r| ==> r[i] in ts && Visible(r[i], today)
    ensures forall i :: 0 <= i < |ts| && Visible(ts[i], today) ==> ts[i] in r
  {
    Filter(ts, t => Visible(t, today))
  }

  /** A task is listed exactly when it is stored, is daily, and has no completion time or one dated today. */
  lemma {:induction false} ListedIff(ts: seq<Task>, today: string, t: Task)
    ensures t in DailyTasks(ts, today) <==> t in ts && t.isDaily && (!Truthy(t.completedAt) || StartsWith(t.completedAt.value, today))
  {
    if t in ts && Visible(t, today) {
      var i :| 0 <= i < |ts| && ts[i] == t;
    }
  }

  /** The task `handleAddTask` stores: a daily to-do of medium priority with no project. */
  function NewDailyTask(id: string, title: string, now: string): (r: Task)
    ensures r.status == Todo && r.priority == Medium && r.isDaily
    ensures r.projectId.None? && r.completedAt.None? && r.description.None? && r.dueDate.None?
    ensures r.id == id && r.title == title && r.createdAt == now
    ensures forall today :: Visible(r, today)
  {
    Task(id, None, title, None, Todo, Medium, None, now, None, true, None)
  }

  /** `currentStatus === 'completed' ? 'todo' : 'completed'` */
  function NextStatus(current: TaskStatus): (r: TaskStatus)
    ensures r == TaskCompleted <==> current != TaskCompleted
    ensures r != TaskInProgress
  {
    if current == TaskCompleted then Todo else TaskCompleted
  }

  /** The update `handleToggleTask` sends: the status, and `completedAt` set to now or present as `undefined`. */
  function TogglePatch(current: TaskStatus, now: string): (r: TaskPatch)
    ensures r.status == Some(NextStatus(current))
    ensures current == TaskCompleted ==> r.completedAt == Some(None)
    ensures current != TaskCompleted ==> r.completedAt == Some(Some(now))
    ensures r == NoTaskChanges.(status := r.status, completedAt := r.completedAt)
  {
    var next := NextStatus(current);
    NoTaskChanges.(status := Some(next), completedAt := Some(if next == TaskCompleted then Some(now) else None))
  }

  /** Toggling a task changes its status and completion time and nothing else. */
  lemma ToggleChangesOnlyStatus(t: Task, now: string)
    ensures MergeTask(t, TogglePatch(t.status, now))
      == t.(status := NextStatus(t.status), completedAt := if t.status == TaskCompleted then None else Some(now))
  {
  }

  /** Two toggles give back a to-do or a completed task; an in-progress task ends up to-do. */
  lemma ToggleTwice(t: Task, now1: string, now2: string)
    ensures var once := MergeTask(t, TogglePatch(t.status, now1));
      var twice := MergeTask(once, TogglePatch(once.status, now2));
      (t.status != TaskInProgress ==> twice.status == t.status)
      && (t.status == TaskInProgress ==> twice.status == Todo)
      && (t.status == Todo ==> twice.completedAt.None?)
      && (t.status == TaskCompleted ==> twice.completedAt == Some(now2))
  {
  }

  /** A listed task stays listed after a toggle, provided the timestamp's date is today. */
  lemma ToggleKeepsListed(t: Task, today: string, now: string)
    requires Visible(t, today) && StartsWith(now, today)
    ensures Visible(MergeTask(t, TogglePatch(t.status, now)), today)
  {
  }

  /** `tasks.filter(t => t.status === 'completed').length` */
  function CompletedCount(tasks: seq<Task>): (n: nat)
    ensures n <= |tasks|
    ensures n == CountWhere(tasks, (t: Task) => t.status == TaskCompleted)
  {
    FilterLength(tasks, (t: Task) => t.status == TaskCompleted);
    |Filter(tasks, (t: Task) => t.status == TaskCompleted)|
  }

  class DailyTaskList {
    var tasks: seq<Task>
    var newTaskTitle: string

    /** Mounting loads the list from the store. */
    constructor (store: Store, today: string)
      ensures tasks == DailyTasks(store.Tasks(), today) && newTaskTitle == ""
    {
      tasks := DailyTasks(store.Tasks(), today);
      newTaskTitle := "";
    }

    method LoadTasks(store: Store, today: string)
      modifies this
      ensures tasks == DailyTasks(store.Tasks(), today) && newTaskTitle == old(newTaskTitle)
    {
      tasks := DailyTasks(store.Tasks(), today);
    }

    method HandleTitleInput(value: string)
      modifies this
      ensures newTaskTitle == value && tasks == old(tasks)
    {
      newTaskTitle := value;
    }

    /** A blank title does nothing; otherwise the new task is stored, the input cleared and the list reloaded. */
    method HandleAddTask(store: Store, freshId: string, now: string, today: string, ok: bool)
      modifies this, store
      ensures IsBlank(old(newTaskTitle)) ==>
        store.items == old(store.items) && tasks == old(tasks) && newTaskTitle == old(newTaskTitle)
      ensures !IsBlank(old(newTaskTitle)) ==>
        store.items == Written(old(store.items), TasksKey,
                               TaskList(old(store.Tasks()) + [NewDailyTask(freshId, old(newTaskTitle), now)]), ok)
        && newTaskTitle == "" && tasks == DailyTasks(store.Tasks(), today)
    {
      if IsBlank(newTaskTitle) {
        return;
      }
      var task := NewDailyTask(freshId, newTaskTitle, now);
      store.AddTask(task, ok);
      newTaskTitle := "";
      LoadTasks(store, today);
    }

    method HandleToggleTask(store: Store, taskId: string, currentStatus: TaskStatus, now: string, today: string, ok: bool)
      modifies this, store
      ensures FindIndex(old(store.Tasks()), taskId, TaskId) == -1 ==> store.items == old(store.items)
      ensures FindIndex(old(store.Tasks()), taskId, TaskId) != -1 ==>
        store.items == Written(old(store.items), TasksKey,
                               TaskList(UpdatedTasks(old(store.Tasks()), taskId, TogglePatch(currentStatus, now))), ok)
      ensures tasks == DailyTasks(store.Tasks(), today) && newTaskTitle == old(newTaskTitle)
    {
      store.UpdateTask(taskId, TogglePatch(currentStatus, now), ok);
      LoadTasks(store, today);
    }

    method HandleDeleteTask(store: Store, taskId: string, today: string, ok: bool)
      modifies this, store
      ensures store.items == Written(old(store.items), TasksKey, TaskList(Without(old(store.Tasks()), taskId, TaskId)), ok)
      ensures tasks == DailyTasks(store.Tasks(), today) && newTaskTitle == old(newTaskTitle)
    {
      store.DeleteTask(taskId, ok);
      LoadTasks(store, today);
    }

    /** The header's "completed / listed" pair. */
    function Progress(): (r: (nat, nat))
      reads this
      ensures r.0 <= r.1 && r.1 == |tasks|
    {
      (CompletedCount(tasks), |tasks|)
    }
  }
}
