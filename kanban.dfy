/**
 * The Kanban board: four fixed columns, the projects of each column, and
 * dropping a project on a column to change its status.
 */
module Kanban {
  import opened Wrappers
  import opened Types
  import opened Collections
  import opened Storage

  datatype Column = Column(status: KanbanStatus, title: string, color: string)

  /** `KANBAN_COLUMNS` */
  const Columns: seq<Column> := [
    Column(Backlog, "Backlog", "bg-background border-border"),
    Column(InProgress, "In Progress", "bg-card border-border"),
    Column(Review, "Review", "bg-card border-border"),
    Column(Completed, "Completed", "bg-card border-border")
  ]

  /** The position of a status's column on the board. */
  function ColumnIndex(s: KanbanStatus): (i: nat)
    ensures i < |Columns| && Columns[i].status == s
    ensures forall j :: 0 <= j < |Columns| && Columns[j].status == s ==> j == i
  {
    match s
    case Backlog => 0
    case InProgress => 1
    case Review => 2
    case Completed => 3
  }

  /** `getProjectsByStatus(status)` */
  function ByStatus(ps: seq<Project>, s: KanbanStatus): (r: seq<Project>)
    ensures forall i :: 0 <= i < |r| ==> r[i] in ps && r[i].status == s
    ensures forall i :: 0 <= i < |ps| && ps[i].status == s ==> ps[i] in r
  {
    Filter(ps, (p: Project) => p.status == s)
  }

  /** A stored project shows in the column of its status and in no other. */
  lemma ExactlyOneColumn(ps: seq<Project>, p: Project, s: KanbanStatus)
    requires p in ps
    ensures p in ByStatus(ps, s) <==> s == p.status
  {
    var i :| 0 <= i < |ps| && ps[i] == p;
    if p in ByStatus(ps, s) {
      var j :| 0 <= j < |ByStatus(ps, s)| && ByStatus(ps, s)[j] == p;
    }
  }

  /** The column counts add up to the number of projects. */
  lemma {:induction false} ColumnCountsSum(ps: seq<Project>)
    ensures |ByStatus(ps, Backlog)| + |ByStatus(ps, InProgress)| + |ByStatus(ps, Review)| + |ByStatus(ps, Completed)| == |ps|
  {
    if ps != [] {
      ColumnCountsSum(ps[1..]);
    }
  }

  /** A column keeps the stored order: the column of a concatenation is the two columns one after the other. */
  lemma ColumnKeepsOrder(a: seq<Project>, b: seq<Project>, s: KanbanStatus)
    ensures ByStatus(a + b, s) == ByStatus(a, s) + ByStatus(b, s)
  {
    FilterConcat(a, b, (p: Project) => p.status == s);
  }

  /** The update a drop sends: `{ status: newStatus }`. */
  function StatusPatch(s: KanbanStatus): ProjectPatch {
    NoProjectChanges.(status := Some(s))
  }

  /** A dropped project changes its status and its update stamp, nothing else. */
  lemma DropChangesOnlyStatus(p: Project, s: KanbanStatus, now: string)
    ensures StampedProject(p, StatusPatch(s), now) == p.(status := s, updatedAt := now)
  {
  }

  class KanbanBoard {
    var projects: seq<Project>

    constructor (store: Store)
      ensures projects == store.Projects()
    {
      projects := store.Projects();
    }

    /** `handleDrop`: the id read from the drag data gets the column's status; the board reloads. */
    method HandleDrop(store: Store, projectId: string, newStatus: KanbanStatus, now: string, ok: bool)
      modifies this, store
      ensures FindIndex(old(store.Projects()), projectId, ProjectId) == -1 ==> store.items == old(store.items)
      ensures FindIndex(old(store.Projects()), projectId, ProjectId) != -1 ==>
        store.items == Written(old(store.items), ProjectsKey,
                               ProjectList(UpdatedProjects(old(store.Projects()), projectId, StatusPatch(newStatus), now)), ok)
      ensures projects == store.Projects()
    {
      store.UpdateProject(projectId, StatusPatch(newStatus), now, ok);
      projects := store.Projects();
    }

    /** The number shown in each column header. */
    function ColumnCount(s: KanbanStatus): (n: nat)
      reads this
      ensures n <= |projects|
    {
      |ByStatus(projects, s)|
    }
  }
}
