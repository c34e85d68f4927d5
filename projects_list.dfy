/**
 * The project list: creating a project from the dialog's form, and deleting
 * a project on confirmation.
 */
module ProjectsList {
  import opened Wrappers
  import opened Js
  import opened Types
  import opened Collections
  import opened Storage
  import Kanban
  import Calendar

  /** The `newProject` form state. */
  datatype NewProjectForm = NewProjectForm(
    name: string,
    description: string,
    clientName: string,
    clientEmail: string,
    clientPhone: string)

  const EmptyForm: NewProjectForm := NewProjectForm("", "", "", "", "")

  /** The project `handleCreateProject` builds, or nothing for a blank name. */
  function NewProject(form: NewProjectForm, id: string, createdAt: string, updatedAt: string): (r: Option<Project>)
    ensures r.None? <==> IsBlank(form.name)
    ensures r.Some? ==>
      r.value.status == Backlog && r.value.id == id && r.value.name == form.name && r.value.description == form.description
    ensures r.Some? ==>
      r.value.clientName == OrUndefined(form.clientName) && r.value.clientEmail == OrUndefined(form.clientEmail)
      && r.value.clientPhone == OrUndefined(form.clientPhone)
    ensures r.Some? ==> r.value.clientId.None? && r.value.dueDate.None? && r.value.isArchived.None?
  {
    if IsBlank(form.name) then None
    else
      Some(Project(id, form.name, form.description, None,
        OrUndefined(form.clientName), OrUndefined(form.clientEmail), OrUndefined(form.clientPhone),
        Backlog, createdAt, updatedAt, None, None, None, None, None, None))
  }

  /** A new project shows last in the Backlog column, and not on the calendar until it gets a due date. */
  lemma NewProjectPlacement(ps: seq<Project>, form: NewProjectForm, id: string, createdAt: string, updatedAt: string)
    requires !IsBlank(form.name)
    ensures var p := NewProject(form, id, createdAt, updatedAt).value;
      Kanban.ByStatus(ps + [p], Backlog) == Kanban.ByStatus(ps, Backlog) + [p]
      && (forall s :: s != Backlog ==> Kanban.ByStatus(ps + [p], s) == Kanban.ByStatus(ps, s))
      && Calendar.CalendarProjects(ps + [p]) == Calendar.CalendarProjects(ps)
  {
    var p := NewProject(form, id, createdAt, updatedAt).value;
    forall s
      ensures Kanban.ByStatus(ps + [p], s) == Kanban.ByStatus(ps, s) + (if s == Backlog then [p] else [])
    {
      Kanban.ColumnKeepsOrder(ps, [p], s);
    }
    Calendar.CalendarOnAppend(ps, p);
  }

  datatype FormField = NameField | DescriptionField | ClientNameField | ClientEmailField | ClientPhoneField

  class ProjectsListView {
    var projects: seq<Project>
    var isDialogOpen: bool
    var form: NewProjectForm

    constructor (store: Store)
      ensures projects == store.Projects() && !isDialogOpen && form == EmptyForm
    {
      projects := store.Projects();
      isDialogOpen := false;
      form := EmptyForm;
    }

    method HandleInput(field: FormField, value: string)
      modifies this
      ensures form == (match field
        case NameField => old(form).(name := value)
        case DescriptionField => old(form).(description := value)
        case ClientNameField => old(form).(clientName := value)
        case ClientEmailField => old(form).(clientEmail := value)
        case ClientPhoneField => old(form).(clientPhone := value))
      ensures projects == old(projects) && isDialogOpen == old(isDialogOpen)
    {
      match field
      case NameField => form := form.(name := value);
      case DescriptionField => form := form.(description := value);
      case ClientNameField => form := form.(clientName := value);
      case ClientEmailField => form := form.(clientEmail := value);
      case ClientPhoneField => form := form.(clientPhone := value);
    }

    method SetDialogOpen(open: bool)
      modifies this
      ensures isDialogOpen == open && form == old(form) && projects == old(projects)
    {
      isDialogOpen := open;
    }

    /**
     * `handleCreateProject`: a blank name changes nothing; otherwise the
     * project is appended, the form is emptied, the dialog closes and the
     * list reloads, whether or not the write landed.
     */
    method HandleCreateProject(store: Store, freshId: string, createdAt: string, updatedAt: string, ok: bool)
      modifies this, store
      ensures IsBlank(old(form.name)) ==>
        store.items == old(store.items) && form == old(form) && isDialogOpen == old(isDialogOpen) && projects == old(projects)
      ensures !IsBlank(old(form.name)) ==>
        store.items == Written(old(store.items), ProjectsKey,
          ProjectList(old(store.Projects()) + [NewProject(old(form), freshId, createdAt, updatedAt).value]), ok)
        && form == EmptyForm && !isDialogOpen && projects == store.Projects()
    {
      var p := NewProject(form, freshId, createdAt, updatedAt);
      if p.None? {
        return;
      }
      store.AddProject(p.value, ok);
      form := EmptyForm;
      isDialogOpen := false;
      projects := store.Projects();
    }

    /** `handleDeleteProject`: only after the user confirms. */
    method HandleDeleteProject(store: Store, id: string, confirmed: bool, ok: bool)
      modifies this, store
      ensures !confirmed ==> store.items == old(store.items) && projects == old(projects)
      ensures confirmed ==>
        store.items == Written(old(store.items), ProjectsKey, ProjectList(Without(old(store.Projects()), id, ProjectId)), ok)
        && projects == store.Projects()
      ensures form == old(form) && isDialogOpen == old(isDialogOpen)
    {
      if confirmed {
        store.DeleteProject(id, ok);
        projects := store.Projects();
      }
    }
  }
}
