/**
 * The client page: the projects listed for a client, and the update its
 * save button sends. The client list is passed in as read from the client
 * store, which is not part of this model.
 */
module ClientDetails {
  import opened Wrappers
  import opened Js
  import opened Types
  import opened Collections
  import opened Clients

  /**
   * `p.clientId === id || (!p.clientId && p.clientName === foundClient?.name)`:
   * linked by id, or by the legacy client name when the project has no id.
   */
  predicate BelongsTo(p: Project, id: string, found: Option<Client>) {
    p.clientId == Some(id)
    || (!Truthy(p.clientId) && p.clientName == (if found.Some? then Some(found.value.name) else None))
  }

  function ProjectsForClient(ps: seq<Project>, id: string, found: Option<Client>): (r: seq<Project>)
    ensures forall i :: 0 <= i < |r| ==> r[i] in ps && BelongsTo(r[i], id, found)
    ensures forall i :: 0 <= i < |ps| && BelongsTo(ps[i], id, found) ==> ps[i] in r
  {
    Filter(ps, p => BelongsTo(p, id, found))
  }

  /** Which projects the page lists, case by case, for the non-empty id the page runs with. */
  lemma ListedCases(p: Project, id: string, found: Option<Client>)
    requires id != ""
    ensures p.clientId == Some(id) ==> BelongsTo(p, id, found)
    ensures Truthy(p.clientId) && p.clientId != Some(id) ==> !BelongsTo(p, id, found)
    ensures !Truthy(p.clientId) && found.Some? ==> (BelongsTo(p, id, found) <==> p.clientName == Some(found.value.name))
    ensures !Truthy(p.clientId) && found.None? ==> (BelongsTo(p, id, found) <==> p.clientName.None?)
  {
  }

  /** What the page shows for a route: nothing without an id; else the client, if found, and its projects. */
  datatype Loaded = Loaded(client: Option<Client>, projects: seq<Project>)

  /** The effect on `useEffect` of the route id. */
  function Load(routeId: Option<string>, clients: seq<Client>, projects: seq<Project>): (r: Option<Loaded>)
    ensures r.None? <==> !Truthy(routeId)
    ensures r.Some? ==> r.value.client == Find(clients, routeId.value, ClientId)
    ensures r.Some? ==> forall p :: p in r.value.projects <==> p in projects && BelongsTo(p, routeId.value, r.value.client)
  {
    if !Truthy(routeId) then None
    else
      var found := Find(clients, routeId.value, ClientId);
      Some(Loaded(found, ProjectsForClient(projects, routeId.value, found)))
  }

  /** The update `handleSaveClient` sends: only the four editable fields, present even when `undefined`. */
  function SavePatch(c: Client): (r: ClientPatch)
    ensures r.name == Some(c.name) && r.email == Some(c.email) && r.phone == Some(c.phone) && r.notes == Some(c.notes)
    ensures r.(name := None, email := None, phone := None, notes := None) == NoClientChanges
  {
    NoClientChanges.(name := Some(c.name), email := Some(c.email), phone := Some(c.phone), notes := Some(c.notes))
  }

  /** Saving leaves the id, logo, palette, creation time and contacts of the stored client as they were. */
  lemma SaveKeepsOtherFields(stored: Client, edited: Client, now: string)
    ensures var r := StampedClient(stored, SavePatch(edited), now);
      r == stored.(name := edited.name, email := edited.email, phone := edited.phone, notes := edited.notes, updatedAt := now)
  {
  }

  datatype EditField = NameInput | EmailInput | PhoneInput | NotesInput

  class ClientDetailsPage {
    const routeId: Option<string>
    var client: Option<Client>
    var projects: seq<Project>
    var isEditing: bool

    constructor (routeId: Option<string>)
      ensures this.routeId == routeId && client.None? && projects == [] && !isEditing
    {
      this.routeId := routeId;
      client := None;
      projects := [];
      isEditing := false;
    }

    /** The effect: with an id, a found client replaces the shown one and the project list is recomputed. */
    method LoadData(clients: seq<Client>, allProjects: seq<Project>)
      modifies this
      ensures !Truthy(routeId) ==> client == old(client) && projects == old(projects)
      ensures Truthy(routeId) ==>
        var found := Find(clients, routeId.value, ClientId);
        client == (if found.Some? then found else old(client))
        && projects == ProjectsForClient(allProjects, routeId.value, found)
      ensures isEditing == old(isEditing)
    {
      if !Truthy(routeId) {
        return;
      }
      var found := Find(clients, routeId.value, ClientId);
      if found.Some? {
        client := found;
      }
      projects := ProjectsForClient(allProjects, routeId.value, found);
    }

    /** An edit box writes the typed text into the shown client (`setClient({ ...client, field: value })`). */
    method HandleEdit(field: EditField, value: string)
      requires client.Some?
      modifies this
      ensures client == Some(match field
        case NameInput => old(client.value).(name := value)
        case EmailInput => old(client.value).(email := Some(value))
        case PhoneInput => old(client.value).(phone := Some(value))
        case NotesInput => old(client.value).(notes := Some(value)))
      ensures projects == old(projects) && isEditing == old(isEditing)
    {
      var c := client.value;
      match field
      case NameInput => client := Some(c.(name := value));
      case EmailInput => client := Some(c.(email := Some(value)));
      case PhoneInput => client := Some(c.(phone := Some(value)));
      case NotesInput => client := Some(c.(notes := Some(value)));
    }

    method HandleStartEditing()
      modifies this
      ensures isEditing && client == old(client) && projects == old(projects)
    {
      isEditing := true;
    }

    /**
     * `handleSaveClient`: nothing without a client or an id; otherwise the
     * update is sent, editing ends and the client is read back from `clientsAfter`.
     */
    method HandleSaveClient(clientsAfter: seq<Client>) returns (req: Option<ClientRequest>)
      modifies this
      ensures old(client).None? || !Truthy(routeId) ==>
        req.None? && client == old(client) && isEditing == old(isEditing)
      ensures old(client).Some? && Truthy(routeId) ==>
        req == Some(UpdateClient(routeId.value, SavePatch(old(client).value))) && !isEditing
        && var found := Find(clientsAfter, routeId.value, ClientId);
           client == (if found.Some? then found else old(client))
      ensures projects == old(projects)
    {
      if client.None? || !Truthy(routeId) {
        return None;
      }
      req := Some(UpdateClient(routeId.value, SavePatch(client.value)));
      isEditing := false;
      var found := Find(clientsAfter, routeId.value, ClientId);
      if found.Some? {
        client := found;
      }
    }
  }
}
