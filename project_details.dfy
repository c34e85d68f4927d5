/**
 * The project page: the time entries and files of one project, logging
 * time, uploading and deleting files, the minute total, the file-size unit,
 * and the update its save button sends.
 */
module ProjectDetails {
  import opened Wrappers
  import opened Js
  import opened Types
  import opened Collections
  import opened Storage

  /** `entry.projectId === id` over the stored entries. */
  function EntriesFor(es: seq<TimeEntry>, id: string): (r: seq<TimeEntry>)
    ensures forall i :: 0 <= i < |r| ==> r[i] in es && r[i].projectId == id
    ensures forall i :: 0 <= i < |es| && es[i].projectId == id ==> es[i] in r
  {
    Filter(es, (e: TimeEntry) => e.projectId == id)
  }

  /** `file.projectId === id` over the stored files. */
  function FilesFor(fs: seq<FileAttachment>, id: string): (r: seq<FileAttachment>)
    ensures forall i :: 0 <= i < |r| ==> r[i] in fs && r[i].projectId == id
    ensures forall i :: 0 <= i < |fs| && fs[i].projectId == id ==> fs[i] in r
  {
    Filter(fs, (f: FileAttachment) => f.projectId == id)
  }

  // ------------------------------------------------------------- time totals

  /** `a + b` on numbers: `NaN` absorbs. */
  function AddNum(a: Num, b: Num): (r: Num)
    ensures r.NaN? <==> a.NaN? || b.NaN?
    ensures r.Int? ==> r.value == a.value + b.value
  {
    if a.Int? && b.Int? then Int(a.value + b.value) else NaN
  }

  /** `sum + entry.duration`: a `null` duration adds as 0, a `NaN` one absorbs. */
  function AddDuration(sum: Num, d: NumOrNull): (r: Num)
    ensures r.NaN? <==> sum.NaN? || d == Number(NaN)
    ensures d.Null? ==> r == sum
    ensures d.Number? && r.Int? ==> r.value == sum.value + d.n.value
  {
    match d
    case Number(n) => AddNum(sum, n)
    case Null => sum
  }

  /** `entries.reduce((sum, entry) => sum + entry.duration, 0)`, folded from the left. */
  function TotalMinutes(es: seq<TimeEntry>): (r: Num)
    ensures (forall i :: 0 <= i < |es| ==> es[i].duration != Number(NaN)) ==> r.Int?
    decreases |es|
  {
    if es == [] then Int(0)
    else
      assert forall i :: 0 <= i < |es| - 1 ==> es[..|es| - 1][i] == es[i];
      AddDuration(TotalMinutes(es[..|es| - 1]), es[|es| - 1].duration)
  }

  /** One entry whose duration did not parse makes the whole total `NaN`, and only that does. */
  lemma {:induction false} TotalMinutesNaN(es: seq<TimeEntry>)
    ensures TotalMinutes(es).NaN? <==> exists i :: 0 <= i < |es| && es[i].duration == Number(NaN)
    decreases |es|
  {
    if es != [] {
      var init := es[..|es| - 1];
      TotalMinutesNaN(init);
      assert forall i :: 0 <= i < |init| ==> init[i] == es[i];
      if exists i :: 0 <= i < |es| && es[i].duration == Number(NaN) {
        var i :| 0 <= i < |es| && es[i].duration == Number(NaN);
        if i < |init| {
          assert init[i].duration == Number(NaN);
        }
      }
    }
  }

  predicate DurationParsed(e: TimeEntry) {
    e.duration != Number(NaN)
  }

  /**
   * Once stored and read back, an entry whose duration did not parse counts as
   * 0 minutes: the total over the stored entries is a number, the total of the
   * entries that parsed.
   */
  lemma {:induction false} StoredTotalSkipsNaN(es: seq<TimeEntry>)
    ensures TotalMinutes(StoredEntries(es)) == TotalMinutes(Filter(es, DurationParsed))
    ensures TotalMinutes(StoredEntries(es)).Int?
    decreases |es|
  {
    TotalMinutesNaN(StoredEntries(es));
    if es != [] {
      var e, rest := es[0], es[1..];
      var se := e.(duration := JsonRoundTrip(e.duration));
      assert StoredEntries(es) == [se] + StoredEntries(rest);
      assert Filter(es, DurationParsed) == (if DurationParsed(e) then [e] else []) + Filter(rest, DurationParsed);
      StoredTotalSkipsNaN(rest);
      TotalMinutesConcat([se], StoredEntries(rest));
      assert [se][..0] == [];
      if DurationParsed(e) {
        assert se == e;
        TotalMinutesConcat([e], Filter(rest, DurationParsed));
      } else {
        assert TotalMinutes([se]) == Int(0);
        assert [] + Filter(rest, DurationParsed) == Filter(rest, DurationParsed);
      }
    }
  }

  /** The total of two lists one after the other is the sum of their totals. */
  lemma {:induction false} TotalMinutesConcat(a: seq<TimeEntry>, b: seq<TimeEntry>)
    ensures TotalMinutes(a + b) == AddNum(TotalMinutes(a), TotalMinutes(b))
    decreases |b|
  {
    if b == [] {
      assert a + b == a;
    } else {
      var b', last := b[..|b| - 1], b[|b| - 1];
      var ab := a + b;
      assert ab[..|ab| - 1] == a + b' && ab[|ab| - 1] == last;
      calc {
        TotalMinutes(ab);
        AddDuration(TotalMinutes(a + b'), last.duration);
        { TotalMinutesConcat(a, b'); }
        AddDuration(AddNum(TotalMinutes(a), TotalMinutes(b')), last.duration);
        { AddNumThenDuration(TotalMinutes(a), TotalMinutes(b'), last.duration); }
        AddNum(TotalMinutes(a), AddDuration(TotalMinutes(b'), last.duration));
      }
    }
  }

  lemma AddNumThenDuration(x: Num, y: Num, d: NumOrNull)
    ensures AddDuration(AddNum(x, y), d) == AddNum(x, AddDuration(y, d))
  {
  }

  /** Non-negative durations give a non-negative total. */
  lemma {:induction false} TotalMinutesNonNegative(es: seq<TimeEntry>)
    requires forall i :: 0 <= i < |es| ==> es[i].duration.Null? || (es[i].duration.n.Int? && es[i].duration.n.value >= 0)
    ensures TotalMinutes(es).Int? && TotalMinutes(es).value >= 0
    decreases |es|
  {
    if es != [] {
      var init := es[..|es| - 1];
      assert forall i :: 0 <= i < |init| ==> init[i] == es[i];
      TotalMinutesNonNegative(init);
    }
  }

  // --------------------------------------------------------------- file sizes

  datatype SizeUnit = B | KB | MB

  /** The branch `formatFileSize` takes. */
  function FileSizeUnit(bytes: int): (r: SizeUnit)
    ensures r == B <==> bytes < 1024
    ensures r == KB <==> 1024 <= bytes < 1024 * 1024
    ensures r == MB <==> bytes >= 1024 * 1024
  {
    if bytes < 1024 then B else if bytes < 1024 * 1024 then KB else MB
  }

  function UnitRank(u: SizeUnit): nat {
    match u
    case B => 0
    case KB => 1
    case MB => 2
  }

  /** A larger file never gets a smaller unit. */
  lemma FileSizeUnitMonotone(x: int, y: int)
    requires x <= y
    ensures UnitRank(FileSizeUnit(x)) <= UnitRank(FileSizeUnit(y))
  {
  }

  /** The exact text of the byte branch, `bytes + ' B'`. */
  function ByteSizeText(bytes: int): (r: string)
    requires bytes < 1024
    ensures |r| >= 3 && r[|r| - 2..] == " B" && ParseInt(r) == Int(bytes)
  {
    var t := IntToString(bytes);
    ParseIntToString(bytes);
    ParseIgnoresSuffix(t, " B");
    t + " B"
  }

  /** `parseInt` stops at the first character after the digits. */
  lemma ParseIgnoresSuffix(t: string, suffix: string)
    requires ParseInt(t).Int? && (|t| > 0 && (t[0] == '-' || IsDigit(t[0]))) && AllDigits(SignStripped(t))
    requires suffix != [] && !IsDigit(suffix[0])
    ensures ParseInt(t + suffix) == ParseInt(t)
  {
    var s := t + suffix;
    assert !IsWhitespace(s[0]) && !IsWhitespace(t[0]);
    assert TrimStart(s) == s && TrimStart(t) == t;
    assert SignStripped(s) == SignStripped(t) + suffix;
    DigitPrefixStopsAt(SignStripped(t), suffix);
    DigitPrefixOfDigits(SignStripped(t));
  }

  lemma {:induction false} DigitPrefixStopsAt(ds: string, suffix: string)
    requires AllDigits(ds) && suffix != [] && !IsDigit(suffix[0])
    ensures DigitPrefix(ds + suffix) == ds
  {
    if ds == [] {
      assert ds + suffix == suffix;
    } else {
      assert (ds + suffix)[1..] == ds[1..] + suffix;
      DigitPrefixStopsAt(ds[1..], suffix);
    }
  }

  // ----------------------------------------------------------------- saving

  /** `handleSaveProject`'s update: six keys, present even when their value is `undefined`. */
  function SaveProjectPatch(p: Project): ProjectPatch {
    NoProjectChanges.(name := Some(p.name), description := Some(p.description),
      clientName := Some(p.clientName), clientEmail := Some(p.clientEmail),
      clientPhone := Some(p.clientPhone), status := Some(p.status))
  }

  /** Saving copies the six edited fields and the stamp; every other stored field stays. */
  lemma SaveChangesOnlySixFields(stored: Project, edited: Project, now: string)
    ensures StampedProject(stored, SaveProjectPatch(edited), now)
      == stored.(name := edited.name, description := edited.description, clientName := edited.clientName,
                 clientEmail := edited.clientEmail, clientPhone := edited.clientPhone, status := edited.status,
                 updatedAt := now)
  {
  }

  // --------------------------------------------------------------- time form

  datatype TimeForm = TimeForm(description: string, duration: string, date: string)

  /** `!id || !description || !duration` turns a log attempt away. */
  predicate CanLogTime(routeId: Option<string>, form: TimeForm) {
    Truthy(routeId) && form.description != "" && form.duration != ""
  }

  /** The entry `handleAddTimeEntry` stores; the duration is `parseInt` of the typed text. */
  function NewTimeEntry(id: string, projectId: string, form: TimeForm, now: string): (r: TimeEntry)
    ensures r.projectId == projectId && r.description == form.description && r.date == form.date
    ensures r.duration == Number(ParseInt(form.duration))
    ensures forall m: nat :: form.duration == NatToString(m) ==> r.duration == Number(Int(m))
  {
    forall m: nat | form.duration == NatToString(m) ensures ParseInt(form.duration) == Int(m) {
      ParseIntToString(m);
    }
    TimeEntry(id, projectId, form.description, Number(ParseInt(form.duration)), form.date, now)
  }

  /** One edit control of the details card: the value it writes into the shown project. */
  datatype ProjectEdit =
    | EditName(name: string)
    | EditStatus(status: KanbanStatus)
    | EditDescription(description: string)
    | EditClientName(clientName: string)
    | EditClientEmail(clientEmail: string)
    | EditClientPhone(clientPhone: string)

  /** `setProject({ ...project, field: e.target.value })`: a cleared client field holds `''`, not `undefined`. */
  function Edited(p: Project, e: ProjectEdit): Project {
    match e
    case EditName(v) => p.(name := v)
    case EditStatus(v) => p.(status := v)
    case EditDescription(v) => p.(description := v)
    case EditClientName(v) => p.(clientName := Some(v))
    case EditClientEmail(v) => p.(clientEmail := Some(v))
    case EditClientPhone(v) => p.(clientPhone := Some(v))
  }

  /** Every edit control feeds one of the six saved fields: an edit of the stored project, saved, is stored as made. */
  lemma EditThenSaveStoresEdit(stored: Project, e: ProjectEdit, now: string)
    ensures StampedProject(stored, SaveProjectPatch(Edited(stored, e)), now) == Edited(stored, e).(updatedAt := now)
  {
    SaveChangesOnlySixFields(stored, Edited(stored, e), now);
  }

  /** The entries of one project, filtered from stored entries, hold no `NaN` duration. */
  lemma StoredShowsNoNaN(stored: seq<TimeEntry>, written: seq<TimeEntry>, id: string)
    requires stored == StoredEntries(written)
    ensures forall i :: 0 <= i < |EntriesFor(stored, id)| ==> EntriesFor(stored, id)[i].duration != Number(NaN)
  {
    var shown := EntriesFor(stored, id);
    forall i | 0 <= i < |shown| ensures shown[i].duration != Number(NaN) {
      assert shown[i] in stored;
    }
  }

  datatype TimeField = DescriptionInput | DurationInput | DateInput

  class ProjectDetailsPage {
    const routeId: Option<string>
    var project: Option<Project>
    var timeEntries: seq<TimeEntry>
    var files: seq<FileAttachment>
    var isEditing: bool
    var timeForm: TimeForm

    constructor (routeId: Option<string>, store: Store, today: string)
      ensures this.routeId == routeId && !isEditing && timeForm == TimeForm("", "", today)
      ensures Truthy(routeId) ==>
        project == Find(store.Projects(), routeId.value, ProjectId)
        && timeEntries == EntriesFor(store.TimeEntries(), routeId.value) && files == FilesFor(store.Files(), routeId.value)
      ensures !Truthy(routeId) ==> project.None? && timeEntries == [] && files == []
    {
      this.routeId := routeId;
      project := None;
      timeEntries := [];
      files := [];
      isEditing := false;
      timeForm := TimeForm("", "", today);
      new;
      LoadProjectData(store);
    }

    /**
     * What `loadProjectData` leaves on the page, given what it showed before:
     * with an id, a found project replaces the shown one and the entries and
     * files are refiltered from the store; without one, nothing changes.
     */
    predicate Reloaded(store: Store, priorProject: Option<Project>, priorEntries: seq<TimeEntry>, priorFiles: seq<FileAttachment>)
      reads this, store
    {
      if Truthy(routeId) then
        var found := Find(store.Projects(), routeId.value, ProjectId);
        project == (if found.Some? then found else priorProject)
        && timeEntries == EntriesFor(store.TimeEntries(), routeId.value)
        && files == FilesFor(store.Files(), routeId.value)
      else
        project == priorProject && timeEntries == priorEntries && files == priorFiles
    }

    /** `loadProjectData`: reads the store; editing state and the time form are untouched. */
    method LoadProjectData(store: Store)
      modifies this
      ensures Reloaded(store, old(project), old(timeEntries), old(files))
      ensures isEditing == old(isEditing) && timeForm == old(timeForm)
    {
      if !Truthy(routeId) {
        return;
      }
      var found := Find(store.Projects(), routeId.value, ProjectId);
      if found.Some? {
        project := found;
      }
      timeEntries := EntriesFor(store.TimeEntries(), routeId.value);
      files := FilesFor(store.Files(), routeId.value);
    }

    /** `handleSaveProject`: with a project and an id, the six fields are sent, editing ends, and the page reloads. */
    method HandleSaveProject(store: Store, now: string, ok: bool)
      modifies this, store
      ensures old(project).None? || !Truthy(routeId) ==>
        store.items == old(store.items) && project == old(project) && isEditing == old(isEditing)
        && timeEntries == old(timeEntries) && files == old(files)
      ensures old(project).Some? && Truthy(routeId) ==>
        (FindIndex(old(store.Projects()), routeId.value, ProjectId) == -1 ==> store.items == old(store.items))
        && (FindIndex(old(store.Projects()), routeId.value, ProjectId) != -1 ==>
              store.items == Written(old(store.items), ProjectsKey,
                ProjectList(UpdatedProjects(old(store.Projects()), routeId.value, SaveProjectPatch(old(project).value), now)), ok))
        && !isEditing && Reloaded(store, old(project), old(timeEntries), old(files))
      ensures timeForm == old(timeForm)
    {
      if project.None? || !Truthy(routeId) {
        return;
      }
      store.UpdateProject(routeId.value, SaveProjectPatch(project.value), now, ok);
      isEditing := false;
      LoadProjectData(store);
    }

    /**
     * `handleAddTimeEntry`: a complete form logs the entry, resets the form to
     * today and reloads. Once the entry is stored, the shown total is a number
     * even when the typed duration did not parse.
     */
    method HandleAddTimeEntry(store: Store, freshId: string, now: string, today: string, ok: bool)
      modifies this, store
      ensures !CanLogTime(routeId, old(timeForm)) ==>
        store.items == old(store.items) && timeForm == old(timeForm)
        && project == old(project) && timeEntries == old(timeEntries) && files == old(files)
      ensures CanLogTime(routeId, old(timeForm)) ==>
        store.items == Written(old(store.items), TimeEntriesKey,
          TimeEntryList(old(store.TimeEntries()) + [NewTimeEntry(freshId, routeId.value, old(timeForm), now)]), ok)
        && timeForm == TimeForm("", "", today)
        && Reloaded(store, old(project), old(timeEntries), old(files))
      ensures CanLogTime(routeId, old(timeForm)) && ok ==> ShownMinutes().Int?
      ensures isEditing == old(isEditing)
    {
      if !CanLogTime(routeId, timeForm) {
        return;
      }
      var entry := NewTimeEntry(freshId, routeId.value, timeForm, now);
      store.AddTimeEntry(entry, ok);
      timeForm := TimeForm("", "", today);
      LoadProjectData(store);
      if ok {
        StoredShowsNoNaN(store.TimeEntries(), old(store.TimeEntries()) + [entry], routeId.value);
      }
    }

    /**
     * `handleFileUpload` with the reader's result `url`: nothing without an id
     * or a file list; a file list with no file makes the reader throw, and
     * nothing is stored either; otherwise the first file is attached.
     */
    method HandleFileUpload(store: Store, chosen: Option<seq<UploadedFile>>, url: string, freshId: string, now: string, ok: bool)
      modifies this, store
      ensures !Truthy(routeId) || chosen.None? || chosen.value == [] ==>
        store.items == old(store.items) && project == old(project) && timeEntries == old(timeEntries) && files == old(files)
      ensures Truthy(routeId) && chosen.Some? && chosen.value != [] ==>
        var f := chosen.value[0];
        store.items == Written(old(store.items), FilesKey,
          FileList(old(store.Files()) + [FileAttachment(freshId, routeId.value, f.name, f.mimeType, f.size, url, now)]), ok)
        && Reloaded(store, old(project), old(timeEntries), old(files))
      ensures isEditing == old(isEditing) && timeForm == old(timeForm)
    {
      if !Truthy(routeId) || chosen.None? || chosen.value == [] {
        return;
      }
      var f := chosen.value[0];
      store.AddFile(FileAttachment(freshId, routeId.value, f.name, f.mimeType, f.size, url, now), ok);
      LoadProjectData(store);
    }

    /** `handleDeleteFile`: only after the user confirms. */
    method HandleDeleteFile(store: Store, fileId: string, confirmed: bool, ok: bool)
      modifies this, store
      ensures !confirmed ==>
        store.items == old(store.items) && project == old(project) && timeEntries == old(timeEntries) && files == old(files)
      ensures confirmed ==>
        store.items == Written(old(store.items), FilesKey, FileList(Without(old(store.Files()), fileId, FileId)), ok)
        && Reloaded(store, old(project), old(timeEntries), old(files))
      ensures isEditing == old(isEditing) && timeForm == old(timeForm)
    {
      if confirmed {
        store.DeleteFile(fileId, ok);
        LoadProjectData(store);
      }
    }

    /** `handleDeleteTimeEntry`: no confirmation is asked. */
    method HandleDeleteTimeEntry(store: Store, entryId: string, ok: bool)
      modifies this, store
      ensures store.items == Written(old(store.items), TimeEntriesKey,
                                     TimeEntryList(Without(old(store.TimeEntries()), entryId, TimeEntryId)), ok)
      ensures Reloaded(store, old(project), old(timeEntries), old(files))
      ensures isEditing == old(isEditing) && timeForm == old(timeForm)
    {
      store.DeleteTimeEntry(entryId, ok);
      LoadProjectData(store);
    }

    /** The header button flips editing without saving (`setIsEditing(!isEditing)`). */
    method HandleToggleEditing()
      modifies this
      ensures isEditing == !old(isEditing)
      ensures project == old(project) && timeForm == old(timeForm) && timeEntries == old(timeEntries) && files == old(files)
    {
      isEditing := !isEditing;
    }

    /** An edit control changes the shown project only; nothing is stored until a save. */
    method HandleEdit(e: ProjectEdit)
      requires project.Some?
      modifies this
      ensures project == Some(Edited(old(project.value), e))
      ensures isEditing == old(isEditing) && timeForm == old(timeForm) && timeEntries == old(timeEntries) && files == old(files)
    {
      project := Some(Edited(project.value, e));
    }

    /** Typing into the time form: `setNewTimeEntry({ ...newTimeEntry, field: e.target.value })`. */
    method HandleTimeInput(field: TimeField, value: string)
      modifies this
      ensures timeForm == (match field
        case DescriptionInput => old(timeForm).(description := value)
        case DurationInput => old(timeForm).(duration := value)
        case DateInput => old(timeForm).(date := value))
      ensures project == old(project) && isEditing == old(isEditing) && timeEntries == old(timeEntries) && files == old(files)
    {
      match field
      case DescriptionInput => timeForm := timeForm.(description := value);
      case DurationInput => timeForm := timeForm.(duration := value);
      case DateInput => timeForm := timeForm.(date := value);
    }

    /** The minutes behind `getTotalHours`, over the entries shown. */
    function ShownMinutes(): (r: Num)
      reads this
      ensures r.NaN? <==> exists i :: 0 <= i < |timeEntries| && timeEntries[i].duration == Number(NaN)
    {
      TotalMinutesNaN(timeEntries);
      TotalMinutes(timeEntries)
    }
  }
}
