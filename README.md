# bsk-pm: a verified model of the project tracker's store and views

bsk-pm is a small desktop project tracker. It keeps projects, daily tasks,
time entries, file attachments, clients and Pomodoro settings in the
browser's key-value store as JSON documents under fixed keys. A handful of
views read and change those collections:

- the project list and its creation dialog;
- the Kanban board;
- the project calendar;
- the project page, with time logging and attachments;
- the daily task list;
- the client list, client form and client page;
- the Pomodoro timer.

This project models those parts in Dafny and proves what they promise.

The model follows the program's structure, one module per source file:

- `Storage` (`src/lib/storage.ts`) is a `Store` class.
  - Its one field is the key-value map.
  - Every write is described by `Written`: the write either lands or is refused, and a refused write is logged and swallowed as in `saveToStorage`.
  - A landed write stores the value as the next read parses it back. With numbers modelled as unbounded integers, the one change JSON makes to these records is that a time entry's `NaN` duration comes back as `null`. The program's doubles add another case, named under "## Left out".
  - Reads go through `GetFromStorage`: a missing key, an empty text, unparseable text, or a document of another shape reads as the default.
- `Pomodoro` (`PomodoroTimer.tsx`) is a class over the component's state. Its transitions are pure functions: completion, tick, reset and the settings inputs.
- Each view is a class whose fields are the component's state. Its handlers are methods that change the store and the view state. What they compute is stated by functions in the same module:
  - `ProjectsList`, `Kanban`, `Calendar`, `ProjectDetails`, `DailyTasks`, `ClientForm`, `ClientDetails`;
  - `ClientsList` is modelled as pure functions: the client list and the query are parameters.
- `Js` models the JavaScript library behaviour the views rely on:
  - `trim` with the ECMAScript white space set;
  - `toLowerCase` on ASCII;
  - `includes` and `startsWith`;
  - decimal `parseInt`, with `NaN`;
  - `toString` and `padStart`;
  - `%` on negative numbers;
  - `||` on strings.
- `Types` holds the records of `src/types/index.ts`.
  - `Partial<T>` updates are patch datatypes.
  - A required field is an `Option`.
  - An optional field is an `Option<Option<…>>`, so that a key present with the value `undefined` overrides, as object spread does.
- `Collections` models `filter`, `find`, `findIndex`, and the replace-first-match step of the update functions.
- `Clients` holds the client update. The client store functions (`getClients`, `addClient`, `updateClient`, `deleteClient`) are not defined in `src/lib/storage.ts`, which is the module the views import them from.
  - The client views therefore return a `ClientRequest` value: add, update or delete.
  - `ApplyClientRequest` gives that request the same contract as the project functions. This contract is an assumption, not a model of code.

Inputs the program takes from the environment are parameters:

- the current time and today's date, as the strings the program stores;
- the ids `generateId` returns;
- the user's answer to `confirm`;
- whether a `setItem` call succeeds;
- the data URL a `FileReader` produces.

## Model

| member | source | states |
|---|---|---|
| Storage.GetFromStorage | src/lib/storage.ts:12-20 | a missing key gives the default; stored text gives its value when it has the expected shape, and the default when it is empty or unparseable |
| Storage.ReadProjects | src/lib/storage.ts:31-33 | `getProjects` returns the stored project list, or `[]` when the key is missing or unreadable |
| Storage.ReadTasks | src/lib/storage.ts:60-62 | `getTasks` returns the stored task list, or `[]` when the key is missing or unreadable |
| Storage.ReadTimeEntries | src/lib/storage.ts:89-91 | `getTimeEntries` returns the stored entries, or `[]` when the key is missing or unreadable |
| Storage.ReadFiles | src/lib/storage.ts:109-111 | `getFiles` returns the stored attachments, or `[]` when the key is missing or unreadable |
| Storage.ReadPomodoroSettings | src/lib/storage.ts:129-136 | `getPomodoroSettings` returns the stored settings, or 25/5/15/4 when the key is missing or unreadable |
| Storage.UnreadableReadsAsDefault | src/lib/storage.ts:12-20 | a missing or unreadable key reads as the empty collection, and the Pomodoro settings as 25/5/15/4 |
| Storage.Written | src/lib/storage.ts:22-28 | a landed write puts its value, as JSON gives it back, under its own key and leaves every other key as it was; a refused write changes nothing |
| Storage.StoredEntries | src/lib/storage.ts:12-28 | entries read back after a write are the written entries in order, each duration passed through the JSON round trip, so none is `NaN` |
| Storage.StoredEntriesIdempotent | src/lib/storage.ts:12-28 | writing back entries that were read from the store stores them unchanged |
| Storage.WriteIsolation | src/lib/storage.ts:3-9 | a write under one collection's key leaves every other collection reading as before |
| Storage.MergeProject | src/lib/storage.ts:49 | merging an empty `Partial<Project>` gives the project back unchanged |
| Storage.MergeProjectComposes | src/lib/storage.ts:49 | two merges in a row equal one merge of the combined patch; merging the same patch twice is merging it once |
| Storage.StampedProject | src/lib/storage.ts:49 | the updated record carries `updatedAt = now` whatever the patch says: the merge with `updatedAt` overridden |
| Storage.MergeTask | src/lib/storage.ts:78 | an empty task patch changes nothing, and a task update never changes `createdAt` unless the patch sets it |
| Storage.UpdateProjectChangesFirstMatchOnly | src/lib/storage.ts:45-52 | `updateProject` keeps the length, replaces the first project with the id by its stamped merge, and leaves every other position alone |
| Storage.Store.SaveToStorage | src/lib/storage.ts:22-28 | the store after `setItem`: written when it succeeds, unchanged when it throws |
| Storage.Store.SaveProjects | src/lib/storage.ts:35-37 | the project list is written under `psk_projects` |
| Storage.Store.AddProject | src/lib/storage.ts:39-43 | the stored list becomes the old list with the project appended |
| Storage.Store.UpdateProject | src/lib/storage.ts:45-52 | an unknown id writes nothing; otherwise the first match is replaced by its stamped merge |
| Storage.Store.DeleteProject | src/lib/storage.ts:54-57 | the stored list keeps exactly the projects whose id differs, in order |
| Storage.Store.SaveTasks | src/lib/storage.ts:64-66 | the task list is written under `psk_tasks` |
| Storage.Store.AddTask | src/lib/storage.ts:68-72 | the task is appended |
| Storage.Store.UpdateTask | src/lib/storage.ts:74-81 | an unknown id writes nothing; otherwise the first match is merged, with no timestamp added |
| Storage.Store.DeleteTask | src/lib/storage.ts:83-86 | every task with the id is removed |
| Storage.Store.SaveTimeEntries | src/lib/storage.ts:93-95 | the entries are written under `psk_time_entries` |
| Storage.Store.AddTimeEntry | src/lib/storage.ts:97-101 | the entry is appended; a read afterwards gives the old entries and the new one, as JSON gives them back |
| Storage.Store.DeleteTimeEntry | src/lib/storage.ts:103-106 | every entry with the id is removed |
| Storage.Store.SaveFiles | src/lib/storage.ts:113-115 | the attachments are written under `psk_files` |
| Storage.Store.AddFile | src/lib/storage.ts:117-121 | the attachment is appended |
| Storage.Store.DeleteFile | src/lib/storage.ts:123-126 | every attachment with the id is removed |
| Storage.Store.SavePomodoroSettings | src/lib/storage.ts:138-140 | the settings are written, and read back as written when the write lands |
| Collections.Filter | src/lib/storage.ts:56 | `filter` keeps every element that passes, and only those, in order, and never grows the list |
| Collections.FilterConcat | src/lib/storage.ts:56 | filtering a concatenation is the concatenation of the filtered parts |
| Collections.FilterIdempotent | src/lib/storage.ts:56 | filtering twice with one predicate is filtering once |
| Collections.FilterLength | src/components/DailyTaskList.tsx:59 | a filter's `length` is the number of elements that satisfy its predicate |
| Collections.FindIndex | src/lib/storage.ts:47 | `findIndex` gives -1 exactly when no element has the id, and otherwise the first position that has it |
| Collections.Find | src/components/ClientDetails.tsx:24 | `find` gives nothing exactly when no element has the id, and otherwise the first element with that id |
| Collections.Without | src/lib/storage.ts:56 | deleting by id keeps exactly the elements whose id differs |
| Collections.WithoutAbsent | src/lib/storage.ts:56 | deleting an absent id changes nothing |
| Collections.WithoutTwice | src/lib/storage.ts:56 | deleting the same id twice is deleting it once |
| Collections.WithoutLength | src/lib/storage.ts:56 | a delete removes exactly as many elements as carry the id |
| Collections.WithoutConcat | src/lib/storage.ts:56 | a delete keeps the remaining elements in their order |
| Collections.UpdateFirst | src/lib/storage.ts:47-50 | replace-at-`findIndex` keeps the length; it changes nothing when the id is absent, and changes only the first match |
| Js.BlankIffAllWhitespace | src/components/ProjectsList.tsx:37 | `!s.trim()` holds exactly when every character is white space |
| Js.IncludesIff | src/components/ClientsList.tsx:51 | `includes` holds exactly when the query occurs at some position |
| Js.ParseInt | src/components/PomodoroTimer.tsx:147 | `parseInt` is `NaN` exactly when no digit follows the leading white space and an optional sign |
| Js.ParseIntToString | src/components/ProjectDetails.tsx:82 | `parseInt` reads back exactly the integer `toString` printed, negatives included |
| Js.JsRemainder | src/components/PomodoroTimer.tsx:91 | `%` agrees with the mathematical remainder for a non-negative dividend; for a negative one it is the negated remainder of the dividend's magnitude, so it takes the dividend's sign |
| Js.JsonRoundTrip | src/lib/storage.ts:12-28 | a number field read back from JSON is never `NaN`; every other value survives |
| Js.PadStart2 | src/components/PomodoroTimer.tsx:92 | `padStart(2, '0')` leaves strings of two or more characters alone, and pads shorter ones with zeros on the left to length 2 |
| Js.PadStart2Parses | src/components/PomodoroTimer.tsx:92 | the padded digits parse back to the same number |
| Js.OrUndefined | src/components/ProjectsList.tsx:43-45 | `s \|\| undefined` is truthy exactly when `s` is non-empty, and then holds `s` |
| Js.OrEmpty | src/components/ClientForm.tsx:16-19 | `s \|\| ''` is empty exactly when `s` is missing or empty |
| Js.OrEmptyOrUndefined | src/components/ClientForm.tsx:100-105 | a form text stored with `\|\| undefined` and loaded back with `\|\| ''` is the same text |
| Pomodoro.AfterCompletion | src/components/PomodoroTimer.tsx:40-66 | completion stops the timer. A work session counts one more session and starts a long break when the count is a multiple of the interval, and a short break otherwise, with that break's duration. A break returns to work. |
| Pomodoro.TickUpdate | src/components/PomodoroTimer.tsx:23-29 | the updater decrements a value above 1 and yields 0 otherwise |
| Pomodoro.Ticked | src/components/PomodoroTimer.tsx:20-38 | a tick above 1 second only decrements; the last tick leaves the completed state; the session count never decreases |
| Pomodoro.Reset | src/components/PomodoroTimer.tsx:75-79 | reset gives a stopped work session of the full work duration, and keeps the session count |
| Pomodoro.LongBreakEveryNthSession | src/components/PomodoroTimer.tsx:51-61 | after n work sessions, each with its break, the timer is back in work mode with n more sessions. The long breaks taken number the multiples of the interval that were passed. |
| Pomodoro.FormatTimeReadsBack | src/components/PomodoroTimer.tsx:89-93 | `formatTime` of a non-negative count ends in `:ss` with ss from 00 to 59, and the display reads back to the count |
| Pomodoro.SecondsField | src/components/PomodoroTimer.tsx:91-92 | the seconds field is always two digits worth the remainder |
| Pomodoro.FieldDefault | src/components/PomodoroTimer.tsx:147-171 | each input's fallback equals the stored default for that setting, and is positive |
| Pomodoro.SettingFromInput | src/components/PomodoroTimer.tsx:147 | `parseInt(v) \|\| fallback` takes the parsed number unless it is `NaN` or 0, and is never 0 with a non-zero fallback |
| Pomodoro.WithSetting | src/components/PomodoroTimer.tsx:147-171 | an input changes its own setting and leaves the other three alone |
| Pomodoro.FormKeepsSettingsNonZero | src/components/PomodoroTimer.tsx:147-171 | editing through the form never brings a setting to 0 |
| Pomodoro.PomodoroTimer.constructor | src/components/PomodoroTimer.tsx:12-17 | mounts with the stored settings, as a stopped work session with no sessions done |
| Pomodoro.PomodoroTimer.HandleTimerComplete | src/components/PomodoroTimer.tsx:40-66 | the state becomes `AfterCompletion` of the old state |
| Pomodoro.PomodoroTimer.Tick | src/components/PomodoroTimer.tsx:20-38 | one interval firing yields the updater's value and moves to `Ticked` |
| Pomodoro.PomodoroTimer.HandlePlayPause | src/components/PomodoroTimer.tsx:68-73 | flips running and changes nothing else |
| Pomodoro.PomodoroTimer.HandleReset | src/components/PomodoroTimer.tsx:75-79 | the state becomes `Reset` |
| Pomodoro.PomodoroTimer.HandleSettingInput | src/components/PomodoroTimer.tsx:147-171 | the settings become `WithSetting` of the typed text; the timer is untouched |
| Pomodoro.PomodoroTimer.HandleSaveSettings | src/components/PomodoroTimer.tsx:81-87 | stores the settings, resets the timer with them, and closes the dialog |
| Clients.MergeClient | src/components/ClientDetails.tsx:40-45 | an empty client patch changes nothing; notes and contacts survive a patch without those keys |
| Clients.StampedClient | src/components/ClientDetails.tsx:40-45 | an updated client carries `updatedAt = now` (assumed, as for projects) |
| Clients.ApplyClientRequest | src/components/ClientForm.tsx:111-115 | under the assumed client store contract: add appends, update keeps the length and ignores an unknown id, and delete keeps exactly the other clients |
| Clients.UpdateClientChangesFirstMatchOnly | src/components/ClientForm.tsx:111-112 | an update changes only the first client with the id, to its stamped merge |
| ClientForm.InitialForm | src/components/ClientForm.tsx:15-21 | a new form is empty. An edit form shows the client's name, email, phone, logo and palette, with a missing one as empty. |
| ClientForm.AddColor | src/components/ClientForm.tsx:67-75 | a colour is appended, and the picker reset to `#000000`, exactly when it is non-empty and not already in the palette. Otherwise nothing changes, and a palette without duplicates stays without duplicates. |
| ClientForm.RemoveColor | src/components/ClientForm.tsx:77-82 | removing an in-range index drops that one colour; an out-of-range index changes nothing |
| ClientForm.RemoveUndoesAdd | src/components/ClientForm.tsx:67-82 | removing the colour just added restores the palette |
| ClientForm.RemoveKeepsDistinct | src/components/ClientForm.tsx:77-82 | removal keeps a palette free of duplicates |
| ClientForm.CheckLogo | src/components/ClientForm.tsx:26-39 | a logo is accepted exactly when its type starts with `image/` and its size is at most 2 MiB; a non-image is refused as such |
| ClientForm.LogoLimitIsInclusive | src/components/ClientForm.tsx:36 | 2097152 bytes is accepted and 2097153 is too large |
| ClientForm.Sanitized | src/components/ClientForm.tsx:61 | the replace keeps the length, keeps letters and digits, and turns every other character into `_` |
| ClientForm.SanitizedIdempotent | src/components/ClientForm.tsx:61 | sanitising twice is sanitising once |
| ClientForm.DownloadName | src/components/ClientForm.tsx:56-65 | no download without a logo. Otherwise the name is `Sanitized` of the client name followed by `_logo.png`, and uses only safe characters. |
| ClientForm.DownloadNameOfSanitized | src/components/ClientForm.tsx:56-65 | the file name depends on the client name only through its sanitised form |
| ClientForm.ClientData | src/components/ClientForm.tsx:100-109 | the client record keeps the edited client's id and creation time and stores empty texts as `undefined`. It writes no notes and no contacts. |
| ClientForm.AsPatch | src/components/ClientForm.tsx:111-112 | updating with the form's record replaces every field but notes and contacts, which the stored client keeps |
| ClientForm.SubmitRequest | src/components/ClientForm.tsx:94-118 | a blank name sends nothing. An existing client gets an update for its own id, and applying it to any stored record gives `clientData` with that record's notes and contacts. A new client gets an add of `clientData` itself, with the fresh id and no contacts. |
| ClientForm.UnchangedEditKeepsClient | src/components/ClientForm.tsx:94-118 | opening a client's form and saving it unchanged leaves the stored client as it was, except for `updatedAt` |
| ClientForm.ClientFormState.constructor | src/components/ClientForm.tsx:14-24 | the state starts from `InitialForm` with the picker at `#000000` |
| ClientForm.ClientFormState.HandleTextInput | src/components/ClientForm.tsx:128-146 | a text input changes its own field only |
| ClientForm.ClientFormState.HandleColorInput | src/components/ClientForm.tsx:210-216 | the picker holds the typed colour and the form is unchanged |
| ClientForm.ClientFormState.HandleAddColor | src/components/ClientForm.tsx:67-75 | palette and picker become `AddColor` of the old ones, and nothing else changes |
| ClientForm.ClientFormState.HandleRemoveColor | src/components/ClientForm.tsx:77-82 | the palette becomes `RemoveColor` of the old one |
| ClientForm.ClientFormState.HandleLogoUpload | src/components/ClientForm.tsx:26-39 | no file, no verdict; otherwise the verdict is `CheckLogo` of the file |
| ClientForm.ClientFormState.HandleLogoRead | src/components/ClientForm.tsx:41-45 | the read data URL becomes the logo |
| ClientForm.ClientFormState.HandleRemoveLogo | src/components/ClientForm.tsx:49-54 | the logo becomes empty |
| ClientForm.ClientFormState.HandleDownloadLogo | src/components/ClientForm.tsx:56-65 | the downloaded name is `DownloadName` of the form |
| ClientForm.ClientFormState.HandleSubmit | src/components/ClientForm.tsx:94-118 | the request sent is `SubmitRequest` of the form |
| ClientsList.MatchesAsWritten | src/components/ClientsList.tsx:48-58 | the search callback throws exactly when the name does not contain the query and the client has no `contacts` |
| ClientsList.FilteredClientsAsWritten | src/components/ClientsList.tsx:47-59 | the list throws exactly when some client makes the callback throw |
| ClientsList.FilteredClients | src/components/ClientsList.tsx:47-59 | the corrected search keeps exactly the clients whose name or some contact contains the lower-cased query |
| ClientsList.AsWrittenAgreesWhenItReturns | src/components/ClientsList.tsx:47-59 | whenever the code as written returns a list, the list equals the corrected search |
| ClientsList.FormClientBreaksSearch | src/components/ClientsList.tsx:53 | every client the client form creates makes the search throw for any query its name does not contain |
| ClientsList.SearchThrowsOnAcme | src/components/ClientsList.tsx:53 | a client "Acme" without contacts and the query "zz" make the search throw |
| ClientsList.EmptyQueryKeepsAll | src/components/ClientsList.tsx:49-51 | an empty query lists every client |
| ClientsList.SearchPreservesOrder | src/components/ClientsList.tsx:48 | the search keeps the stored order |
| ClientsList.ContactWithoutDetailsMatchesOnName | src/components/ClientsList.tsx:53-57 | a contact without email or phone matches on its name alone |
| ClientsList.Swatches | src/components/ClientsList.tsx:136-140 | at most the first five colours of the palette are shown, in order |
| ClientsList.DeleteOnConfirm | src/components/ClientsList.tsx:27-33 | a delete of that id is sent exactly when the user confirms |
| DailyTasks.DailyTasks | src/components/DailyTaskList.tsx:18-26 | the list keeps exactly the stored tasks that are visible today |
| DailyTasks.ListedIff | src/components/DailyTaskList.tsx:22-24 | a task is listed exactly when it is daily and either not completed or completed today |
| DailyTasks.NewDailyTask | src/components/DailyTaskList.tsx:31-38 | a new task is a to-do of medium priority, daily, with no completion, and listed whatever the day |
| DailyTasks.NextStatus | src/components/DailyTaskList.tsx:46 | toggling completes every task that is not completed, and is never in-progress |
| DailyTasks.TogglePatch | src/components/DailyTaskList.tsx:45-50 | the patch sets the status, and a completion time only when completing; uncompleting clears it |
| DailyTasks.ToggleChangesOnlyStatus | src/components/DailyTaskList.tsx:45-50 | a toggle changes status and completion time and nothing else |
| DailyTasks.ToggleTwice | src/components/DailyTaskList.tsx:46 | two toggles restore a to-do or a completed task, and turn an in-progress task into a to-do |
| DailyTasks.ToggleKeepsListed | src/components/DailyTaskList.tsx:49 | a listed task stays listed after a toggle when the timestamp's date is today |
| DailyTasks.CompletedCount | src/components/DailyTaskList.tsx:59 | the completed count is the number of completed tasks, at most the list's length |
| DailyTasks.DailyTaskList.constructor | src/components/DailyTaskList.tsx:11-16 | mounts with today's list and an empty title |
| DailyTasks.DailyTaskList.LoadTasks | src/components/DailyTaskList.tsx:18-26 | the shown list becomes `DailyTasks` of the store |
| DailyTasks.DailyTaskList.HandleTitleInput | src/components/DailyTaskList.tsx:78 | the title holds the typed text |
| DailyTasks.DailyTaskList.HandleAddTask | src/components/DailyTaskList.tsx:28-43 | a blank title changes nothing; otherwise the new task is appended, the title cleared, and the list reloaded |
| DailyTasks.DailyTaskList.HandleToggleTask | src/components/DailyTaskList.tsx:45-52 | the store gets the toggle update and the list reloads |
| DailyTasks.DailyTaskList.HandleDeleteTask | src/components/DailyTaskList.tsx:54-57 | the task is deleted and the list reloads |
| DailyTasks.DailyTaskList.Progress | src/components/DailyTaskList.tsx:59-67 | the header shows completed over total, with completed at most total |
| Kanban.ColumnIndex | src/components/KanbanBoard.tsx:7-12 | every status has exactly one column |
| Kanban.ByStatus | src/components/KanbanBoard.tsx:47-49 | a column holds exactly the projects of its status |
| Kanban.ExactlyOneColumn | src/components/KanbanBoard.tsx:47-49 | a stored project shows in its status's column and in no other |
| Kanban.ColumnCountsSum | src/components/KanbanBoard.tsx:53-63 | the four column counts add up to the number of projects |
| Kanban.ColumnKeepsOrder | src/components/KanbanBoard.tsx:48 | a column keeps the stored order |
| Kanban.DropChangesOnlyStatus | src/components/KanbanBoard.tsx:42 | a dropped project changes its status and update stamp only |
| Kanban.KanbanBoard.constructor | src/components/KanbanBoard.tsx:22-28 | the board shows the stored projects |
| Kanban.KanbanBoard.HandleDrop | src/components/KanbanBoard.tsx:38-45 | an unknown id writes nothing; otherwise the status update is stored; the board reloads |
| Kanban.KanbanBoard.ColumnCount | src/components/KanbanBoard.tsx:63 | a column's count is at most the number of projects |
| ClientDetails.ProjectsForClient | src/components/ClientDetails.tsx:30-33 | lists exactly the projects linked by id or, when they have no id, by the client's name |
| ClientDetails.ListedCases | src/components/ClientDetails.tsx:31-33 | for a non-empty id, case by case: a project linked to this id is listed and one linked to another id is not. A project with no id is listed exactly when its legacy client name equals the found client's name (or is missing when no client was found). |
| ClientDetails.Load | src/components/ClientDetails.tsx:19-35 | nothing loads without an id; otherwise the client with that id, if any, and exactly its projects |
| ClientDetails.SavePatch | src/components/ClientDetails.tsx:40-45 | the update carries exactly the four edited keys |
| ClientDetails.SaveKeepsOtherFields | src/components/ClientDetails.tsx:40-45 | saving changes name, email, phone, notes and the stamp, and keeps id, logo, palette, creation time and contacts |
| ClientDetails.ClientDetailsPage.constructor | src/components/ClientDetails.tsx:13-17 | the page starts with no client, no projects and not editing |
| ClientDetails.ClientDetailsPage.LoadData | src/components/ClientDetails.tsx:19-35 | with an id, a found client replaces the shown one and the project list is recomputed |
| ClientDetails.ClientDetailsPage.HandleEdit | src/components/ClientDetails.tsx:112-216 | an edit box writes its text into the shown client only |
| ClientDetails.ClientDetailsPage.HandleStartEditing | src/components/ClientDetails.tsx:94 | editing starts |
| ClientDetails.ClientDetailsPage.HandleSaveClient | src/components/ClientDetails.tsx:37-54 | nothing without a client or an id. Otherwise it sends the four-field update for the route's id, ends editing, and re-reads the client. |
| Calendar.CalendarProjects | src/components/ProjectCalendar.tsx:19-24 | the calendar keeps exactly the projects with a due date that are not archived |
| Calendar.CalendarOnAppend | src/components/ProjectCalendar.tsx:22 | adding a project without a due date, or an archived one, leaves the calendar as it was |
| Calendar.ProjectsForDate | src/components/ProjectCalendar.tsx:37-40 | a day shows exactly the projects due on its key |
| Calendar.OneDayPerProject | src/components/ProjectCalendar.tsx:39 | a project is shown on one day at most: its due date |
| Calendar.UrgencyOf | src/components/ProjectCalendar.tsx:88-90 | overdue exactly when the due date is past, due soon within 0 to 3 days, on track beyond |
| Calendar.UrgencyMonotone | src/components/ProjectCalendar.tsx:88-90 | a later due date is never more urgent |
| Calendar.CeilDiv | src/components/ProjectCalendar.tsx:86 | `Math.ceil(a / b)` is the unique r with b(r-1) < a ≤ br |
| Calendar.DiffDays | src/components/ProjectCalendar.tsx:85-86 | the day difference is the number of whole days, counting any started day |
| Calendar.DiffDaysOfWholeDays | src/components/ProjectCalendar.tsx:79-86 | whole days apart count exactly; any part of a further day counts as a whole one |
| Calendar.MonthGrid | src/components/ProjectCalendar.tsx:97-151 | the grid has one filler per weekday before the first of the month, then one cell per day. Fillers target the days before the first, and each day cell targets its own day. |
| Calendar.RescheduleLandsOnDay | src/components/ProjectCalendar.tsx:66-73 | a drop changes only the due date and stamp, and an unarchived project lands on the target day |
| Calendar.ProjectCalendar.constructor | src/components/ProjectCalendar.tsx:15-24 | the calendar shows `CalendarProjects` of the store, with nothing dragged |
| Calendar.ProjectCalendar.HandleDragStart | src/components/ProjectCalendar.tsx:58-60 | the project becomes the dragged one |
| Calendar.ProjectCalendar.HandleDragEnd | src/components/ProjectCalendar.tsx:75-77 | nothing is dragged any more |
| Calendar.ProjectCalendar.HandleDrop | src/components/ProjectCalendar.tsx:66-73 | with nothing dragged, nothing; otherwise the dragged project's due date becomes the day, the drag ends, and the calendar reloads |
| Calendar.ProjectCalendar.ProjectsOn | src/components/ProjectCalendar.tsx:114 | a cell shows exactly the shown projects due on its day |
| ProjectDetails.EntriesFor | src/components/ProjectDetails.tsx:53-54 | the page lists exactly the time entries of its project |
| ProjectDetails.FilesFor | src/components/ProjectDetails.tsx:56-57 | the page lists exactly the files of its project |
| ProjectDetails.AddNum | src/components/ProjectDetails.tsx:133 | a sum is `NaN` exactly when an operand is, and otherwise the integer sum |
| ProjectDetails.TotalMinutes | src/components/ProjectDetails.tsx:132-134 | the `reduce` of `getTotalHours`: when no duration is `NaN`, the total is a number |
| ProjectDetails.AddDuration | src/components/ProjectDetails.tsx:133 | adding a duration gives `NaN` exactly when the sum or the duration is `NaN`; a `null` duration adds nothing |
| ProjectDetails.TotalMinutesNaN | src/components/ProjectDetails.tsx:132-134 | the total is `NaN` exactly when some entry's duration is `NaN` |
| ProjectDetails.StoredTotalSkipsNaN | src/components/ProjectDetails.tsx:132-134 | over entries read back from the store the total is a number: the total of the entries whose duration parsed |
| ProjectDetails.StoredShowsNoNaN | src/components/ProjectDetails.tsx:53-54 | a project's entries filtered from stored entries hold no `NaN` duration |
| ProjectDetails.TotalMinutesConcat | src/components/ProjectDetails.tsx:133 | the total of two lists of entries is the sum of their totals |
| ProjectDetails.TotalMinutesNonNegative | src/components/ProjectDetails.tsx:133 | entries with non-negative durations total a non-negative number |
| ProjectDetails.FileSizeUnit | src/components/ProjectDetails.tsx:136-140 | bytes below 1024 show in B, below 1 MiB in KB, and larger in MB |
| ProjectDetails.FileSizeUnitMonotone | src/components/ProjectDetails.tsx:136-140 | a larger file never shows in a smaller unit |
| ProjectDetails.ByteSizeText | src/components/ProjectDetails.tsx:137 | `bytes + ' B'` ends in " B" and reads back to the byte count |
| ProjectDetails.SaveChangesOnlySixFields | src/components/ProjectDetails.tsx:60-73 | saving copies the six edited fields and the stamp, and keeps every other stored field |
| ProjectDetails.EditThenSaveStoresEdit | src/components/ProjectDetails.tsx:186-265 | any one edit of the stored project, saved, is stored exactly as made |
| ProjectDetails.NewTimeEntry | src/components/ProjectDetails.tsx:78-85 | the entry belongs to the page's project and carries the typed description and date. Its duration is `parseInt` of the typed text, so a typed whole number is stored as that number (in the program, exactly only up to 2^53). |
| ProjectDetails.ProjectDetailsPage.constructor | src/components/ProjectDetails.tsx:23-42 | with an id, the page loads the project, its entries and its files; the time form starts empty on today |
| ProjectDetails.ProjectDetailsPage.LoadProjectData | src/components/ProjectDetails.tsx:44-58 | with an id, a found project replaces the shown one, and the entries and files are refiltered from the store; without one nothing changes |
| ProjectDetails.ProjectDetailsPage.HandleSaveProject | src/components/ProjectDetails.tsx:60-73 | nothing without a project or an id. Otherwise the six-field update is stored, editing ends, and the page shows the reloaded project, entries and files; the time form is kept. |
| ProjectDetails.ProjectDetailsPage.HandleAddTimeEntry | src/components/ProjectDetails.tsx:75-94 | an incomplete form changes nothing. Otherwise the entry is appended, the form reset to today, and the project, entries and files reloaded. Once the entry is stored, the shown total is a number even if the duration did not parse. |
| ProjectDetails.ProjectDetailsPage.HandleFileUpload | src/components/ProjectDetails.tsx:96-118 | without an id or a file nothing changes. Otherwise the first file is attached with the reader's data URL and the page reloads; editing and the time form are kept. |
| ProjectDetails.ProjectDetailsPage.HandleDeleteFile | src/components/ProjectDetails.tsx:120-125 | the file is deleted, and the page reloaded, exactly when the user confirms; a cancel changes nothing |
| ProjectDetails.ProjectDetailsPage.HandleDeleteTimeEntry | src/components/ProjectDetails.tsx:127-130 | the entry is deleted without confirmation, and the page reloads; editing and the time form are kept |
| ProjectDetails.ProjectDetailsPage.HandleToggleEditing | src/components/ProjectDetails.tsx:171 | the header button flips editing without saving |
| ProjectDetails.ProjectDetailsPage.HandleEdit | src/components/ProjectDetails.tsx:186-265 | an edit control changes the shown project only; nothing is stored |
| ProjectDetails.ProjectDetailsPage.HandleTimeInput | src/components/ProjectDetails.tsx:297-312 | a time-form input changes its own field |
| ProjectDetails.ProjectDetailsPage.ShownMinutes | src/components/ProjectDetails.tsx:132-134 | the minutes behind the shown total are `NaN` exactly when a shown entry's duration is |
| ProjectsList.NewProject | src/components/ProjectsList.tsx:36-49 | a blank name creates nothing. Otherwise a backlog project with the typed name and description; empty client fields are stored as `undefined`; there is no client id, due date or archive flag. |
| ProjectsList.NewProjectPlacement | src/components/ProjectsList.tsx:39-49 | a new project shows last in the Backlog column, leaves the other columns as they were, and is not on the calendar |
| ProjectsList.ProjectsListView.constructor | src/components/ProjectsList.tsx:16-34 | the list shows the stored projects, the dialog closed and the form empty |
| ProjectsList.ProjectsListView.HandleInput | src/components/ProjectsList.tsx:95-129 | a dialog input changes its own field |
| ProjectsList.ProjectsListView.SetDialogOpen | src/components/ProjectsList.tsx:78 | the dialog opens or closes, and the form is kept |
| ProjectsList.ProjectsListView.HandleCreateProject | src/components/ProjectsList.tsx:36-62 | a blank name changes nothing. Otherwise the project is appended, the form emptied, the dialog closed and the list reloaded. |
| ProjectsList.ProjectsListView.HandleDeleteProject | src/components/ProjectsList.tsx:64-71 | the project is deleted exactly when the user confirms, and the list reloads |

## Left out

- JSON serialisation is modelled only where it changes a record: a `NaN` duration comes back as `null`. A stored document is one of the record shapes, empty text, or unparseable text. The code casts parsed JSON without checking it; the model reads a document of the wrong shape as the default, which the code does not do.
- `generateId`, `new Date().toISOString()` and `format(new Date(), 'yyyy-MM-dd')` are parameters: clock and randomness.
- Time zones are not modelled, for these conversions:
  - `toISOString` (UTC) against the local date of `format`;
  - `new Date(dueDate)` parsing a date as UTC midnight;
  - `setHours` across daylight saving.
  The calendar takes day keys and a day difference as inputs.
- DailyTasks.ToggleKeepsListed: requires that the completion timestamp's date equals the local `today`. Near midnight the UTC and local dates differ, and then a task completed today can drop out of the list.
- Floating point is not modelled:
  - hours as minutes / 60;
  - `toFixed(1)` for hours and for KB/MB sizes;
  - the Pomodoro progress ring.
  ProjectDetails.ByteSizeText covers the whole-byte branch only.
- `setInterval`, `Notification`, `FileReader`, the clipboard copy with its `setTimeout`, `alert` and navigation are browser I/O. The interval is the `Tick` method, and the reader's result is a parameter.
- Js.ParseInt: numbers are unbounded integers, but the program's are doubles. `parseInt` of a digit string above 2^53 rounds (`parseInt("9007199254740993")` is 9007199254740992), and 309 or more digits give `Infinity`, which JSON also stores as `null`. Js.ParseIntToString, ProjectDetails.NewTimeEntry and the duration sums hold exactly only below 2^53.
- Js.Lower maps ASCII letters only, and `parseInt` reads decimal only. The `0x` prefix cannot come from the number inputs.
- ClientForm.Sanitized works on characters, not UTF-16 code units: a character outside the BMP becomes two `_` in the program.
- The client store functions are missing from `src/lib/storage.ts`. `Clients.ApplyClientRequest` gives them the project functions' contract by assumption.
- Export and import of all data, quota handling, daily-task rollover, the Electron shell, `App`, `Layout`, `Dashboard` and the dialog primitive are outside this model.
- ProjectDetails.ProjectDetailsPage.HandleFileUpload: when the file list is empty, `readAsDataURL(undefined)` throws; the model stores nothing in that case.
- Pomodoro.Ticked: the interval's updater reaches 0 and calls the completion, whose `setTimeLeft` React queues behind the updater's own return value. The model applies the completion's time last, which is the order React uses for queued updates within one batch; React's scheduling itself is not modelled.
- The store's initial contents are arbitrary: a `NaN` duration already in the map is allowed, although the program can never read one back from JSON.
- The Pomodoro mode-dependent notification text, and `getProgress`, are left out as display only.
- ClientsList's component state (`clients`, `isDialogOpen`, `searchQuery`, `editingClient`) is not a class here. `handleEditClient` and `handleDialogClose` only open and close the form dialog, set or clear the client being edited, and reload the list, so they are left out.
- Kanban.KanbanBoard.HandleDrop, ProjectsList.ProjectsListView.HandleCreateProject, ProjectsList.ProjectsListView.HandleDeleteProject: the `onProjectsChange` callback is left out. On the dashboard it bumps a key that remounts the Kanban board, which makes the board re-read the store. So a project created or deleted in the list reaches the board, as ProjectsList.NewProjectPlacement describes, only through that remount. The list is not remounted, so after a drop on the board it shows the old status until it next loads.
- ClientForm.ClientFormState.HandleSubmit: the form's `onSave` and `onCancel` callbacks and the list's dialog bookkeeping are left out. They only reload the client list.

## Findings

| source | as written | input that shows it | evidently intended | confidence | as-written member | corrected member |
|---|---|---|---|---|---|---|
| src/components/ClientsList.tsx:53 | `client.contacts.some(…)` is called on every client whose name does not contain the query, but `Client` declares no `contacts`. The client form never writes it, and clients stored with the single email/phone form have none, so the filter throws a `TypeError` and the list cannot render. The card at line 125 also reads `client.contacts[0]`, which throws for such a client even with an empty query. | a stored client `{ id: "1", name: "Acme" }` without `contacts`, and the search query `"zz"` | treat missing contacts as an empty list (`(client.contacts ?? []).some(…)`), so that such a client simply does not match; the card at line 125 needs the same guard (`client.contacts?.[0]`), which the model does not cover because it does not model the card's markup | not executed | ClientsList.SearchThrowsOnAcme | ClientsList.FilteredClients |
