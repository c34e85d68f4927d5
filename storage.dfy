/**
 * The local store: five collections kept under fixed keys of a key-value
 * store, each read whole, changed, and written back whole. Reads fall back
 * to a default; a write that the backing store refuses is logged and
 * swallowed, leaving the previous value in place.
 */
module Storage {
  import opened Wrappers
  import opened Types
  import opened Collections
  import opened Js

  const ProjectsKey: string := "psk_projects"
  const TasksKey: string := "psk_tasks"
  const TimeEntriesKey: string := "psk_time_entries"
  const FilesKey: string := "psk_files"
  const PomodoroSettingsKey: string := "psk_pomodoro_settings"

  /** The settings used when none are stored: 25-minute work, 5 and 15-minute breaks, long break every 4. */
  const DefaultPomodoroSettings: PomodoroSettings := PomodoroSettings(25, 5, 15, 4)

  /** What the key-value store holds under a key, as the reader sees it once parsed. */
  datatype Item =
    | EmptyText                            // the empty string, which reads as "nothing stored"
    | Unparseable                          // text the JSON parser rejects
    | ProjectList(projects: seq<Project>)
    | TaskList(tasks: seq<Task>)
    | TimeEntryList(entries: seq<TimeEntry>)
    | FileList(files: seq<FileAttachment>)
    | SettingsRecord(settings: PomodoroSettings)

  /** `localStorage.getItem(key)`: nothing when the key was never written. */
  function GetItem(items: map<string, Item>, key: string): Option<Item> {
    if key in items then Some(items[key]) else None
  }

  /**
   * `getFromStorage(key, defaultValue)`: the stored value when there is one and
   * it parses to the shape `shape` extracts, otherwise the default.
   */
  function GetFromStorage<T>(items: map<string, Item>, key: string, defaultValue: T, shape: Item -> Option<T>): (r: T)
    ensures key !in items ==> r == defaultValue
    ensures key in items && items[key] in {EmptyText, Unparseable} && shape(items[key]).None? ==> r == defaultValue
    ensures key in items && shape(items[key]).Some? ==> r == shape(items[key]).value
  {
    match GetItem(items, key)
    case None => defaultValue
    case Some(item) => shape(item).GetOr(defaultValue)
  }

  function AsProjects(item: Item): Option<seq<Project>> {
    if item.ProjectList? then Some(item.projects) else None
  }
  function AsTasks(item: Item): Option<seq<Task>> {
    if item.TaskList? then Some(item.tasks) else None
  }
  function AsTimeEntries(item: Item): Option<seq<TimeEntry>> {
    if item.TimeEntryList? then Some(item.entries) else None
  }
  function AsFiles(item: Item): Option<seq<FileAttachment>> {
    if item.FileList? then Some(item.files) else None
  }
  function AsSettings(item: Item): Option<PomodoroSettings> {
    if item.SettingsRecord? then Some(item.settings) else None
  }

  /** `getProjects`: the stored list, or `[]` when the key is missing or unreadable. */
  function ReadProjects(items: map<string, Item>): (r: seq<Project>)
    ensures ProjectsKey !in items || items[ProjectsKey] in {EmptyText, Unparseable} ==> r == []
    ensures ProjectsKey in items && items[ProjectsKey].ProjectList? ==> r == items[ProjectsKey].projects
  {
    GetFromStorage(items, ProjectsKey, [], AsProjects)
  }

  /** `getTasks`: the stored list, or `[]` when the key is missing or unreadable. */
  function ReadTasks(items: map<string, Item>): (r: seq<Task>)
    ensures TasksKey !in items || items[TasksKey] in {EmptyText, Unparseable} ==> r == []
    ensures TasksKey in items && items[TasksKey].TaskList? ==> r == items[TasksKey].tasks
  {
    GetFromStorage(items, TasksKey, [], AsTasks)
  }

  /** `getTimeEntries`: the stored list, or `[]` when the key is missing or unreadable. */
  function ReadTimeEntries(items: map<string, Item>): (r: seq<TimeEntry>)
    ensures TimeEntriesKey !in items || items[TimeEntriesKey] in {EmptyText, Unparseable} ==> r == []
    ensures TimeEntriesKey in items && items[TimeEntriesKey].TimeEntryList? ==> r == items[TimeEntriesKey].entries
  {
    GetFromStorage(items, TimeEntriesKey, [], AsTimeEntries)
  }

  /** `getFiles`: the stored list, or `[]` when the key is missing or unreadable. */
  function ReadFiles(items: map<string, Item>): (r: seq<FileAttachment>)
    ensures FilesKey !in items || items[FilesKey] in {EmptyText, Unparseable} ==> r == []
    ensures FilesKey in items && items[FilesKey].FileList? ==> r == items[FilesKey].files
  {
    GetFromStorage(items, FilesKey, [], AsFiles)
  }

  /** `getPomodoroSettings`: the stored settings, or 25/5/15/4 when the key is missing or unreadable. */
  function ReadPomodoroSettings(items: map<string, Item>): (r: PomodoroSettings)
    ensures PomodoroSettingsKey !in items || items[PomodoroSettingsKey] in {EmptyText, Unparseable} ==>
      r == PomodoroSettings(25, 5, 15, 4)
    ensures PomodoroSettingsKey in items && items[PomodoroSettingsKey].SettingsRecord? ==>
      r == items[PomodoroSettingsKey].settings
  {
    GetFromStorage(items, PomodoroSettingsKey, DefaultPomodoroSettings, AsSettings)
  }

  /** Time entries as `JSON.parse` gives back what `JSON.stringify` wrote: a `NaN` duration comes back `null`. */
  function StoredEntries(es: seq<TimeEntry>): (r: seq<TimeEntry>)
    ensures |r| == |es|
    ensures forall i :: 0 <= i < |es| ==> r[i] == es[i].(duration := JsonRoundTrip(es[i].duration))
    ensures forall i :: 0 <= i < |r| ==> r[i].duration != Number(NaN)
  {
    seq(|es|, i requires 0 <= i < |es| => es[i].(duration := JsonRoundTrip(es[i].duration)))
  }

  /** A value after the `JSON.stringify` of a write and the `JSON.parse` of the next read. */
  function Serialized(value: Item): (r: Item)
    ensures value.TimeEntryList? ==> r == TimeEntryList(StoredEntries(value.entries))
    ensures !value.TimeEntryList? ==> r == value
  {
    if value.TimeEntryList? then TimeEntryList(StoredEntries(value.entries)) else value
  }

  /** The store after `setItem(key, JSON.stringify(value))`, which either lands or is refused (`ok` is false). */
  function Written(items: map<string, Item>, key: string, value: Item, ok: bool): (r: map<string, Item>)
    ensures r.Keys == if ok then items.Keys + {key} else items.Keys
    ensures forall k :: k in items && k != key ==> r[k] == items[k]
    ensures ok ==> r[key] == Serialized(value)
    ensures !ok ==> r == items
  {
    if ok then items[key := Serialized(value)] else items
  }

  /** Storing entries twice stores them once: what a read gives back is written back unchanged. */
  lemma {:induction false} StoredEntriesIdempotent(es: seq<TimeEntry>)
    ensures StoredEntries(StoredEntries(es)) == StoredEntries(es)
  {
    var once := StoredEntries(es);
    forall i | 0 <= i < |once| ensures StoredEntries(once)[i] == once[i] {
      assert once[i].duration != Number(NaN);
    }
  }

  /** A missing or unreadable key reads as the empty collection, and the settings as 25/5/15/4. */
  lemma UnreadableReadsAsDefault(items: map<string, Item>, key: string)
    requires key !in items || items[key] in {EmptyText, Unparseable}
    ensures key == ProjectsKey ==> ReadProjects(items) == []
    ensures key == TasksKey ==> ReadTasks(items) == []
    ensures key == TimeEntriesKey ==> ReadTimeEntries(items) == []
    ensures key == FilesKey ==> ReadFiles(items) == []
    ensures key == PomodoroSettingsKey ==> ReadPomodoroSettings(items) == PomodoroSettings(25, 5, 15, 4)
  {
  }

  /** A write under one collection's key leaves every other collection reading as before. */
  lemma WriteIsolation(items: map<string, Item>, key: string, value: Item, ok: bool)
    ensures key != ProjectsKey ==> ReadProjects(Written(items, key, value, ok)) == ReadProjects(items)
    ensures key != TasksKey ==> ReadTasks(Written(items, key, value, ok)) == ReadTasks(items)
    ensures key != TimeEntriesKey ==> ReadTimeEntries(Written(items, key, value, ok)) == ReadTimeEntries(items)
    ensures key != FilesKey ==> ReadFiles(Written(items, key, value, ok)) == ReadFiles(items)
    ensures key != PomodoroSettingsKey ==>
      ReadPomodoroSettings(Written(items, key, value, ok)) == ReadPomodoroSettings(items)
  {
  }

  // ------------------------------------------------------------ partial updates

  /**
   * `Partial<Project>` as spread by `{ ...project, ...updates }`: a `Some` is a
   * key present in `updates`; for an optional field, `Some(None)` is a key
   * present with the value `undefined`, which overwrites.
   */
  datatype ProjectPatch = ProjectPatch(
    id: Option<string>,
    name: Option<string>,
    description: Option<string>,
    clientId: Option<Option<string>>,
    clientName: Option<Option<string>>,
    clientEmail: Option<Option<string>>,
    clientPhone: Option<Option<string>>,
    status: Option<KanbanStatus>,
    createdAt: Option<string>,
    updatedAt: Option<string>,
    color: Option<Option<string>>,
    isInternal: Option<Option<bool>>,
    isArchived: Option<Option<bool>>,
    protonDriveLink: Option<Option<string>>,
    dueDate: Option<Option<string>>,
    notes: Option<Option<string>>)

  /** The empty object `{}`. */
  const NoProjectChanges: ProjectPatch := ProjectPatch(
    None, None, None, None, None, None, None, None, None, None, None, None, None, None, None, None)

  /** `{ ...p, ...u }` */
  function MergeProject(p: Project, u: ProjectPatch): (r: Project)
    ensures u == NoProjectChanges ==> r == p
  {
    Project(
      u.id.GetOr(p.id), u.name.GetOr(p.name), u.description.GetOr(p.description),
      u.clientId.GetOr(p.clientId), u.clientName.GetOr(p.clientName),
      u.clientEmail.GetOr(p.clientEmail), u.clientPhone.GetOr(p.clientPhone),
      u.status.GetOr(p.status), u.createdAt.GetOr(p.createdAt), u.updatedAt.GetOr(p.updatedAt),
      u.color.GetOr(p.color), u.isInternal.GetOr(p.isInternal), u.isArchived.GetOr(p.isArchived),
      u.protonDriveLink.GetOr(p.protonDriveLink), u.dueDate.GetOr(p.dueDate), u.notes.GetOr(p.notes))
  }

  /** `{ ...a, ...b }` for two patches: the keys of `b` win. */
  function CombineProjectPatches(a: ProjectPatch, b: ProjectPatch): ProjectPatch {
    ProjectPatch(
      if b.id.Some? then b.id else a.id, if b.name.Some? then b.name else a.name,
      if b.description.Some? then b.description else a.description,
      if b.clientId.Some? then b.clientId else a.clientId,
      if b.clientName.Some? then b.clientName else a.clientName,
      if b.clientEmail.Some? then b.clientEmail else a.clientEmail,
      if b.clientPhone.Some? then b.clientPhone else a.clientPhone,
      if b.status.Some? then b.status else a.status,
      if b.createdAt.Some? then b.createdAt else a.createdAt,
      if b.updatedAt.Some? then b.updatedAt else a.updatedAt,
      if b.color.Some? then b.color else a.color,
      if b.isInternal.Some? then b.isInternal else a.isInternal,
      if b.isArchived.Some? then b.isArchived else a.isArchived,
      if b.protonDriveLink.Some? then b.protonDriveLink else a.protonDriveLink,
      if b.dueDate.Some? then b.dueDate else a.dueDate,
      if b.notes.Some? then b.notes else a.notes)
  }

  /** Two merges in a row are one merge of the combined patch; merging the same patch twice is merging it once. */
  lemma MergeProjectComposes(p: Project, a: ProjectPatch, b: ProjectPatch)
    ensures MergeProject(MergeProject(p, a), b) == MergeProject(p, CombineProjectPatches(a, b))
    ensures MergeProject(MergeProject(p, a), a) == MergeProject(p, a)
  {
  }

  /** The record `updateProject` writes: the merge, with `updatedAt` forced to the current time. */
  function StampedProject(p: Project, u: ProjectPatch, now: string): (r: Project)
    ensures r.updatedAt == now
    ensures r == MergeProject(p, u.(updatedAt := Some(now)))
  {
    MergeProject(p, u).(updatedAt := now)
  }

  /** The `Partial<Task>` counterpart of `ProjectPatch`. */
  datatype TaskPatch = TaskPatch(
    id: Option<string>,
    projectId: Option<Option<string>>,
    title: Option<string>,
    description: Option<Option<string>>,
    status: Option<TaskStatus>,
    priority: Option<Priority>,
    dueDate: Option<Option<string>>,
    createdAt: Option<string>,
    completedAt: Option<Option<string>>,
    isDaily: Option<bool>,
    missedDate: Option<Option<string>>)

  const NoTaskChanges: TaskPatch := TaskPatch(None, None, None, None, None, None, None, None, None, None, None)

  /** `{ ...task, ...u }`: unlike projects, no timestamp is added. */
  function MergeTask(t: Task, u: TaskPatch): (r: Task)
    ensures u == NoTaskChanges ==> r == t
    ensures u.createdAt.None? ==> r.createdAt == t.createdAt
  {
    Task(
      u.id.GetOr(t.id), u.projectId.GetOr(t.projectId), u.title.GetOr(t.title),
      u.description.GetOr(t.description), u.status.GetOr(t.status), u.priority.GetOr(t.priority),
      u.dueDate.GetOr(t.dueDate), u.createdAt.GetOr(t.createdAt), u.completedAt.GetOr(t.completedAt),
      u.isDaily.GetOr(t.isDaily), u.missedDate.GetOr(t.missedDate))
  }

  /** The collection `updateProject` writes back: only the first project with `id` is replaced. */
  function UpdatedProjects(ps: seq<Project>, id: string, u: ProjectPatch, now: string): seq<Project> {
    UpdateFirst(ps, id, ProjectId, p => StampedProject(p, u, now))
  }

  /** The collection `updateTask` writes back. */
  function UpdatedTasks(ts: seq<Task>, id: string, u: TaskPatch): seq<Task> {
    UpdateFirst(ts, id, TaskId, t => MergeTask(t, u))
  }

  /** An update changes one position at most: the first holding the id, which gets the stamped merge. */
  lemma UpdateProjectChangesFirstMatchOnly(ps: seq<Project>, id: string, u: ProjectPatch, now: string, k: int)
    requires 0 <= k < |ps| && ps[k].id == id && forall j :: 0 <= j < k ==> ps[j].id != id
    ensures |UpdatedProjects(ps, id, u, now)| == |ps|
    ensures UpdatedProjects(ps, id, u, now)[k] == StampedProject(ps[k], u, now)
    ensures forall i :: 0 <= i < |ps| && i != k ==> UpdatedProjects(ps, id, u, now)[i] == ps[i]
  {
  }

  // -------------------------------------------------------------------- the store

  class Store {
    /** The key-value store; a key not in the map was never written. */
    var items: map<string, Item>

    constructor (initial: map<string, Item>)
      ensures items == initial
    {
      items := initial;
    }

    function Projects(): seq<Project> reads this { ReadProjects(items) }
    function Tasks(): seq<Task> reads this { ReadTasks(items) }
    function TimeEntries(): seq<TimeEntry> reads this { ReadTimeEntries(items) }
    function Files(): seq<FileAttachment> reads this { ReadFiles(items) }
    function PomodoroSettings(): Types.PomodoroSettings reads this { ReadPomodoroSettings(items) }

    /** `saveToStorage`: the write lands when `ok`; otherwise it is logged and nothing changes. */
    method SaveToStorage(key: string, value: Item, ok: bool)
      modifies this
      ensures items == Written(old(items), key, value, ok)
    {
      if ok {
        items := items[key := Serialized(value)];
      }
    }

    method SaveProjects(projects: seq<Project>, ok: bool)
      modifies this
      ensures items == Written(old(items), ProjectsKey, ProjectList(projects), ok)
    {
      SaveToStorage(ProjectsKey, ProjectList(projects), ok);
    }

    method AddProject(project: Project, ok: bool)
      modifies this
      ensures items == Written(old(items), ProjectsKey, ProjectList(old(Projects()) + [project]), ok)
      ensures ok ==> Projects() == old(Projects()) + [project]
    {
      var projects := Projects();
      projects := projects + [project];
      SaveProjects(projects, ok);
    }

    method UpdateProject(id: string, updates: ProjectPatch, now: string, ok: bool)
      modifies this
      ensures FindIndex(old(Projects()), id, ProjectId) == -1 ==> items == old(items)
      ensures FindIndex(old(Projects()), id, ProjectId) != -1 ==>
        items == Written(old(items), ProjectsKey, ProjectList(UpdatedProjects(old(Projects()), id, updates, now)), ok)
    {
      var projects := Projects();
      var index := FindIndex(projects, id, ProjectId);
      if index != -1 {
        projects := projects[index := StampedProject(projects[index], updates, now)];
        SaveProjects(projects, ok);
      }
    }

    method DeleteProject(id: string, ok: bool)
      modifies this
      ensures items == Written(old(items), ProjectsKey, ProjectList(Without(old(Projects()), id, ProjectId)), ok)
    {
      var projects := Projects();
      SaveProjects(Without(projects, id, ProjectId), ok);
    }

    method SaveTasks(tasks: seq<Task>, ok: bool)
      modifies this
      ensures items == Written(old(items), TasksKey, TaskList(tasks), ok)
    {
      SaveToStorage(TasksKey, TaskList(tasks), ok);
    }

    method AddTask(task: Task, ok: bool)
      modifies this
      ensures items == Written(old(items), TasksKey, TaskList(old(Tasks()) + [task]), ok)
      ensures ok ==> Tasks() == old(Tasks()) + [task]
    {
      var tasks := Tasks();
      tasks := tasks + [task];
      SaveTasks(tasks, ok);
    }

    method UpdateTask(id: string, updates: TaskPatch, ok: bool)
      modifies this
      ensures FindIndex(old(Tasks()), id, TaskId) == -1 ==> items == old(items)
      ensures FindIndex(old(Tasks()), id, TaskId) != -1 ==>
        items == Written(old(items), TasksKey, TaskList(UpdatedTasks(old(Tasks()), id, updates)), ok)
    {
      var tasks := Tasks();
      var index := FindIndex(tasks, id, TaskId);
      if index != -1 {
        tasks := tasks[index := MergeTask(tasks[index], updates)];
        SaveTasks(tasks, ok);
      }
    }

    method DeleteTask(id: string, ok: bool)
      modifies this
      ensures items == Written(old(items), TasksKey, TaskList(Without(old(Tasks()), id, TaskId)), ok)
    {
      var tasks := Tasks();
      SaveTasks(Without(tasks, id, TaskId), ok);
    }

    method SaveTimeEntries(entries: seq<TimeEntry>, ok: bool)
      modifies this
      ensures items == Written(old(items), TimeEntriesKey, TimeEntryList(entries), ok)
    {
      SaveToStorage(TimeEntriesKey, TimeEntryList(entries), ok);
    }

    method AddTimeEntry(entry: TimeEntry, ok: bool)
      modifies this
      ensures items == Written(old(items), TimeEntriesKey, TimeEntryList(old(TimeEntries()) + [entry]), ok)
      ensures ok ==> TimeEntries() == StoredEntries(old(TimeEntries()) + [entry])
    {
      var entries := TimeEntries();
      entries := entries + [entry];
      SaveTimeEntries(entries, ok);
    }

    method DeleteTimeEntry(id: string, ok: bool)
      modifies this
      ensures items == Written(old(items), TimeEntriesKey,
                               TimeEntryList(Without(old(TimeEntries()), id, TimeEntryId)), ok)
    {
      var entries := TimeEntries();
      SaveTimeEntries(Without(entries, id, TimeEntryId), ok);
    }

    method SaveFiles(files: seq<FileAttachment>, ok: bool)
      modifies this
      ensures items == Written(old(items), FilesKey, FileList(files), ok)
    {
      SaveToStorage(FilesKey, FileList(files), ok);
    }

    method AddFile(file: FileAttachment, ok: bool)
      modifies this
      ensures items == Written(old(items), FilesKey, FileList(old(Files()) + [file]), ok)
      ensures ok ==> Files() == old(Files()) + [file]
    {
      var files := Files();
      files := files + [file];
      SaveFiles(files, ok);
    }

    method DeleteFile(id: string, ok: bool)
      modifies this
      ensures items == Written(old(items), FilesKey, FileList(Without(old(Files()), id, FileId)), ok)
    {
      var files := Files();
      SaveFiles(Without(files, id, FileId), ok);
    }

    method SavePomodoroSettings(settings: Types.PomodoroSettings, ok: bool)
      modifies this
      ensures items == Written(old(items), PomodoroSettingsKey, SettingsRecord(settings), ok)
      ensures ok ==> PomodoroSettings() == settings
    {
      SaveToStorage(PomodoroSettingsKey, SettingsRecord(settings), ok);
    }
  }
}
