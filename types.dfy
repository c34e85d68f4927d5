/**
 * The records the application persists. A field declared with `?` is an
 * `Option`; timestamps and calendar dates stay the strings the application
 * stores (ISO timestamps, `yyyy-MM-dd` dates).
 */
module Types {
  import opened Wrappers
  import opened Js

  datatype KanbanStatus = Backlog | InProgress | Review | Completed

  /** `'todo' | 'in-progress' | 'completed'`; prefixed where the names clash with `KanbanStatus`. */
  datatype TaskStatus = Todo | TaskInProgress | TaskCompleted

  datatype Priority = Low | Medium | High

  /** One contact person of a client; read by the client search but not declared on `Client`. */
  datatype Contact = Contact(name: string, email: Option<string>, phone: Option<string>)

  datatype Client = Client(
    id: string,
    name: string,
    email: Option<string>,
    phone: Option<string>,
    logo: Option<string>,
    colorPalette: Option<seq<string>>,
    notes: Option<string>,
    createdAt: string,
    updatedAt: string,
    contacts: Option<seq<Contact>>)

  datatype Project = Project(
    id: string,
    name: string,
    description: string,
    clientId: Option<string>,
    clientName: Option<string>,
    clientEmail: Option<string>,
    clientPhone: Option<string>,
    status: KanbanStatus,
    createdAt: string,
    updatedAt: string,
    color: Option<string>,
    isInternal: Option<bool>,
    isArchived: Option<bool>,
    protonDriveLink: Option<string>,
    dueDate: Option<string>,
    notes: Option<string>)

  datatype Task = Task(
    id: string,
    projectId: Option<string>,
    title: string,
    description: Option<string>,
    status: TaskStatus,
    priority: Priority,
    dueDate: Option<string>,
    createdAt: string,
    completedAt: Option<string>,
    isDaily: bool,
    missedDate: Option<string>)

  /**
   * A logged block of work; `duration` is in minutes, `NaN` when the form text
   * did not parse, and `null` once such an entry has been stored and read back.
   */
  datatype TimeEntry = TimeEntry(
    id: string,
    projectId: string,
    description: string,
    duration: NumOrNull,
    date: string,
    createdAt: string)

  datatype FileAttachment = FileAttachment(
    id: string,
    projectId: string,
    name: string,
    mimeType: string,
    size: int,
    url: string,
    uploadedAt: string)

  /** Durations in minutes; parsed from number inputs, so any integer can be stored. */
  datatype PomodoroSettings = PomodoroSettings(
    workDuration: int,
    breakDuration: int,
    longBreakDuration: int,
    sessionsUntilLongBreak: int)

  /** The browser `File` a user picks in an upload input: only what the components read. */
  datatype UploadedFile = UploadedFile(name: string, mimeType: string, size: int)

  /** The key functions `findIndex`, `find` and `filter` compare against an id. */
  function ProjectId(p: Project): string { p.id }
  function TaskId(t: Task): string { t.id }
  function TimeEntryId(e: TimeEntry): string { e.id }
  function FileId(f: FileAttachment): string { f.id }
  function ClientId(c: Client): string { c.id }
}
