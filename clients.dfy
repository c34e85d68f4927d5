/**
 * Client updates. `ClientForm`, `ClientsList` and `ClientDetails` call
 * `addClient`, `updateClient`, `getClients` and `deleteClient`, which the
 * store module does not define. The components therefore produce a
 * `ClientRequest`. That request is given the same contract as the project
 * functions: add appends, update merges the first match and stamps
 * `updatedAt`, delete keeps every client whose id differs. This contract is
 * an assumption.
 */
module Clients {
  import opened Wrappers
  import opened Js
  import opened Types
  import opened Collections

  /** `Partial<Client>`, with the same convention as `ProjectPatch`. */
  datatype ClientPatch = ClientPatch(
    id: Option<string>,
    name: Option<string>,
    email: Option<Option<string>>,
    phone: Option<Option<string>>,
    logo: Option<Option<string>>,
    colorPalette: Option<Option<seq<string>>>,
    notes: Option<Option<string>>,
    createdAt: Option<string>,
    updatedAt: Option<string>,
    contacts: Option<Option<seq<Contact>>>)

  const NoClientChanges: ClientPatch := ClientPatch(None, None, None, None, None, None, None, None, None, None)

  /** `{ ...c, ...u }` */
  function MergeClient(c: Client, u: ClientPatch): (r: Client)
    ensures u == NoClientChanges ==> r == c
    ensures u.notes.None? ==> r.notes == c.notes
    ensures u.contacts.None? ==> r.contacts == c.contacts
  {
    Client(
      u.id.GetOr(c.id), u.name.GetOr(c.name), u.email.GetOr(c.email), u.phone.GetOr(c.phone),
      u.logo.GetOr(c.logo), u.colorPalette.GetOr(c.colorPalette), u.notes.GetOr(c.notes),
      u.createdAt.GetOr(c.createdAt), u.updatedAt.GetOr(c.updatedAt), u.contacts.GetOr(c.contacts))
  }

  /** The record an update writes: the merge, with `updatedAt` forced to the current time. */
  function StampedClient(c: Client, u: ClientPatch, now: string): (r: Client)
    ensures r.updatedAt == now
    ensures r == MergeClient(c, u.(updatedAt := Some(now)))
  {
    MergeClient(c, u).(updatedAt := now)
  }

  /** What a component asks of the client store. */
  datatype ClientRequest =
    | AddClient(client: Client)
    | UpdateClient(id: string, updates: ClientPatch)
    | DeleteClient(id: string)

  /** The client list after the store carries out `req` at time `now`. */
  function ApplyClientRequest(cs: seq<Client>, req: ClientRequest, now: string): (r: seq<Client>)
    ensures req.AddClient? ==> |r| == |cs| + 1 && r[..|cs|] == cs && r[|cs|] == req.client
    ensures req.UpdateClient? ==> |r| == |cs|
    ensures req.UpdateClient? && (forall i :: 0 <= i < |cs| ==> cs[i].id != req.id) ==> r == cs
    ensures req.DeleteClient? ==> forall i :: 0 <= i < |r| ==> r[i].id != req.id
    ensures req.DeleteClient? ==> forall i :: 0 <= i < |cs| && cs[i].id != req.id ==> cs[i] in r
  {
    match req
    case AddClient(c) => cs + [c]
    case UpdateClient(id, u) => UpdateFirst(cs, id, ClientId, c => StampedClient(c, u, now))
    case DeleteClient(id) => Without(cs, id, ClientId)
  }

  /** An update rewrites the first client holding the id and leaves every other position alone. */
  lemma UpdateClientChangesFirstMatchOnly(cs: seq<Client>, id: string, u: ClientPatch, now: string, k: int)
    requires 0 <= k < |cs| && cs[k].id == id && forall j :: 0 <= j < k ==> cs[j].id != id
    ensures ApplyClientRequest(cs, UpdateClient(id, u), now)[k] == StampedClient(cs[k], u, now)
    ensures forall i :: 0 <= i < |cs| && i != k ==> ApplyClientRequest(cs, UpdateClient(id, u), now)[i] == cs[i]
  {
  }
}
