/**
 * The project calendar: which projects it places, on which day, how each is
 * coloured by urgency, rescheduling by drag and drop, and the cells of the
 * month grid. Dates enter as the `yyyy-MM-dd` keys the component compares
 * and as whole-day differences; the `Date` arithmetic producing them is not
 * modelled.
 */
module Calendar {
  import opened Wrappers
  import opened Js
  import opened Types
  import opened Collections
  import opened Storage

  /** `p.dueDate && !p.isArchived` */
  predicate OnCalendar(p: Project) {
    Truthy(p.dueDate) && !TruthyFlag(p.isArchived)
  }

  /** The projects `loadProjects` keeps. */
  function CalendarProjects(ps: seq<Project>): (r: seq<Project>)
    ensures forall i :: 0 <= i < |r| ==> r[i] in ps && OnCalendar(r[i])
    ensures forall i :: 0 <= i < |ps| && OnCalendar(ps[i]) ==> ps[i] in r
  {
    Filter(ps, OnCalendar)
  }

  /** Appending a project with no due date, or an archived one, leaves the calendar as it was. */
  lemma CalendarOnAppend(ps: seq<Project>, p: Project)
    requires !OnCalendar(p)
    ensures CalendarProjects(ps + [p]) == CalendarProjects(ps)
  {
    FilterConcat(ps, [p], OnCalendar);
    assert Filter([p], OnCalendar) == [];
  }

  /** `getProjectsForDate`: the projects whose due date is the day's key. */
  function ProjectsForDate(ps: seq<Project>, dateKey: string): (r: seq<Project>)
    ensures forall i :: 0 <= i < |r| ==> r[i] in ps && r[i].dueDate == Some(dateKey)
    ensures forall i :: 0 <= i < |ps| && ps[i].dueDate == Some(dateKey) ==> ps[i] in r
  {
    Filter(ps, (p: Project) => p.dueDate == Some(dateKey))
  }

  /** A project sits on one day at most: the day of its due date. */
  lemma OneDayPerProject(ps: seq<Project>, p: Project, d1: string, d2: string)
    requires p in ProjectsForDate(ps, d1) && p in ProjectsForDate(ps, d2)
    ensures d1 == d2 && p.dueDate == Some(d1)
  {
    var i :| 0 <= i < |ProjectsForDate(ps, d1)| && ProjectsForDate(ps, d1)[i] == p;
    var j :| 0 <= j < |ProjectsForDate(ps, d2)| && ProjectsForDate(ps, d2)[j] == p;
  }

  // ----------------------------------------------------------------- urgency

  datatype Urgency = Overdue | DueSoon | OnTrack

  /** `getProjectColor`'s bucket for a due date `diffDays` whole days from today. */
  function UrgencyOf(diffDays: int): (r: Urgency)
    ensures r == Overdue <==> diffDays < 0
    ensures r == DueSoon <==> 0 <= diffDays <= 3
    ensures r == OnTrack <==> diffDays > 3
  {
    if diffDays < 0 then Overdue else if diffDays <= 3 then DueSoon else OnTrack
  }

  function Rank(u: Urgency): nat {
    match u
    case Overdue => 0
    case DueSoon => 1
    case OnTrack => 2
  }

  /** A later due date is never more urgent. */
  lemma UrgencyMonotone(d1: int, d2: int)
    requires d1 <= d2
    ensures Rank(UrgencyOf(d1)) <= Rank(UrgencyOf(d2))
  {
  }

  const MsPerDay: int := 1000 * 60 * 60 * 24

  /** `Math.ceil(a / b)` for a positive `b`. */
  function CeilDiv(a: int, b: int): (r: int)
    requires b > 0
    ensures b * (r - 1) < a <= b * r
  {
    -((-a) / b)
  }

  /** `Math.ceil((due - today) / (1000 * 60 * 60 * 24))` for two instants in milliseconds. */
  function DiffDays(dueMs: int, todayMs: int): (r: int)
    ensures MsPerDay * (r - 1) < dueMs - todayMs <= MsPerDay * r
  {
    CeilDiv(dueMs - todayMs, MsPerDay)
  }

  /** Whole days apart are that many days; any part of a further day counts as a whole one. */
  lemma DiffDaysOfWholeDays(todayMs: int, days: int, extraMs: int)
    requires 0 <= extraMs < MsPerDay
    ensures DiffDays(todayMs + days * MsPerDay, todayMs) == days
    ensures extraMs > 0 ==> DiffDays(todayMs + days * MsPerDay + extraMs, todayMs) == days + 1
  {
    var r := DiffDays(todayMs + days * MsPerDay, todayMs);
    assert MsPerDay * (r - 1) < days * MsPerDay <= MsPerDay * r;
    CeilUnique(days * MsPerDay, MsPerDay, r, days);
    if extraMs > 0 {
      var r2 := DiffDays(todayMs + days * MsPerDay + extraMs, todayMs);
      assert MsPerDay * (r2 - 1) < days * MsPerDay + extraMs <= MsPerDay * r2;
      CeilUnique(days * MsPerDay + extraMs, MsPerDay, r2, days + 1);
    }
  }

  lemma CeilUnique(a: int, b: int, r: int, s: int)
    requires b > 0 && b * (r - 1) < a <= b * r && b * (s - 1) < a <= b * s
    ensures r == s
  {
    if r < s {
      assert b * r <= b * (s - 1) by { MulMonotone(b, r, s - 1); }
    } else if s < r {
      assert b * s <= b * (r - 1) by { MulMonotone(b, s, r - 1); }
    }
  }

  lemma MulMonotone(b: int, x: int, y: int)
    requires b > 0 && x <= y
    ensures b * x <= b * y
  {
    assert b * y - b * x == b * (y - x);
  }

  // ---------------------------------------------------------------- the grid

  /** A grid cell: a filler before the first of the month, or a day of the month. Either is a drop target for `Date(year, month, dayArg)`. */
  datatype Cell = Filler(dayArg: int) | Day(dayArg: int)

  /** The two loops building `days`: `startingDayOfWeek` fillers, then one cell per day of the month. */
  method MonthGrid(startingDayOfWeek: nat, daysInMonth: nat) returns (cells: seq<Cell>)
    ensures |cells| == startingDayOfWeek + daysInMonth
    ensures forall k :: 0 <= k < startingDayOfWeek ==> cells[k] == Filler(k - startingDayOfWeek + 1)
    ensures forall k :: startingDayOfWeek <= k < |cells| ==> cells[k] == Day(k - startingDayOfWeek + 1)
  {
    cells := [];
    var i := 0;
    while i < startingDayOfWeek
      invariant 0 <= i <= startingDayOfWeek && |cells| == i
      invariant forall k :: 0 <= k < i ==> cells[k] == Filler(-(startingDayOfWeek - k - 1))
    {
      cells := cells + [Filler(-(startingDayOfWeek - i - 1))];
      i := i + 1;
    }
    var day := 1;
    while day <= daysInMonth
      invariant 1 <= day <= daysInMonth + 1 && |cells| == startingDayOfWeek + day - 1
      invariant forall k :: 0 <= k < startingDayOfWeek ==> cells[k] == Filler(k - startingDayOfWeek + 1)
      invariant forall k :: startingDayOfWeek <= k < |cells| ==> cells[k] == Day(k - startingDayOfWeek + 1)
    {
      cells := cells + [Day(day)];
      day := day + 1;
    }
  }

  // ------------------------------------------------------------ the component

  /** `{ dueDate: newDueDate }` */
  function DueDatePatch(dateKey: string): ProjectPatch {
    NoProjectChanges.(dueDate := Some(Some(dateKey)))
  }

  /** A rescheduled project changes only its due date and stamp, and an unarchived one lands on the target day. */
  lemma RescheduleLandsOnDay(p: Project, dateKey: string, now: string)
    ensures StampedProject(p, DueDatePatch(dateKey), now) == p.(dueDate := Some(dateKey), updatedAt := now)
    ensures dateKey != "" && !TruthyFlag(p.isArchived) ==>
      OnCalendar(StampedProject(p, DueDatePatch(dateKey), now))
      && ProjectsForDate([StampedProject(p, DueDatePatch(dateKey), now)], dateKey) == [StampedProject(p, DueDatePatch(dateKey), now)]
  {
  }

  class ProjectCalendar {
    var projects: seq<Project>
    var draggedProject: Option<Project>

    constructor (store: Store)
      ensures projects == CalendarProjects(store.Projects()) && draggedProject.None?
    {
      projects := CalendarProjects(store.Projects());
      draggedProject := None;
    }

    method HandleDragStart(p: Project)
      modifies this
      ensures draggedProject == Some(p) && projects == old(projects)
    {
      draggedProject := Some(p);
    }

    method HandleDragEnd()
      modifies this
      ensures draggedProject.None? && projects == old(projects)
    {
      draggedProject := None;
    }

    /** `handleDrop`: with nothing dragged, nothing; otherwise the dragged project's due date becomes the day. */
    method HandleDrop(store: Store, dateKey: string, now: string, ok: bool)
      modifies this, store
      ensures old(draggedProject).None? ==>
        store.items == old(store.items) && projects == old(projects) && draggedProject.None?
      ensures old(draggedProject).Some? ==>
        var id := old(draggedProject).value.id;
        (FindIndex(old(store.Projects()), id, ProjectId) == -1 ==> store.items == old(store.items))
        && (FindIndex(old(store.Projects()), id, ProjectId) != -1 ==>
              store.items == Written(old(store.items), ProjectsKey,
                                     ProjectList(UpdatedProjects(old(store.Projects()), id, DueDatePatch(dateKey), now)), ok))
        && draggedProject.None? && projects == CalendarProjects(store.Projects())
    {
      if draggedProject.None? {
        return;
      }
      store.UpdateProject(draggedProject.value.id, DueDatePatch(dateKey), now, ok);
      draggedProject := None;
      projects := CalendarProjects(store.Projects());
    }

    /** The projects drawn in the cell whose key is `dateKey`. */
    function ProjectsOn(dateKey: string): (r: seq<Project>)
      reads this
      ensures forall i :: 0 <= i < |r| ==> r[i] in projects && r[i].dueDate == Some(dateKey)
      ensures forall i :: 0 <= i < |projects| && projects[i].dueDate == Some(dateKey) ==> projects[i] in r
    {
      ProjectsForDate(projects, dateKey)
    }
  }
}
