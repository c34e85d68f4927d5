/**
 * The client list: the search filter, the palette swatches shown per
 * client, and deletion on confirmation.
 *
 * The search reads `client.contacts.some(...)` whenever the name does not
 * match. No client the form saves has a `contacts` field, so for such a
 * client that read throws a `TypeError`. `FilteredClientsAsWritten` models
 * that behaviour. `FilteredClients` treats a missing contact list as empty,
 * which is the evident intent.
 */
module ClientsList {
  import opened Wrappers
  import opened Js
  import opened Types
  import opened Collections
  import opened Clients
  import ClientForm

  /** One contact matches the lower-cased query on its name, or on an email or phone it has. */
  predicate ContactMatches(contact: Contact, query: string) {
    Includes(Lower(contact.name), query)
    || (contact.email.Some? && Includes(Lower(contact.email.value), query))
    || (contact.phone.Some? && Includes(Lower(contact.phone.value), query))
  }

  predicate SomeContactMatches(contacts: seq<Contact>, query: string) {
    exists i :: 0 <= i < |contacts| && ContactMatches(contacts[i], query)
  }

  /** The search predicate as written: `None` is the `TypeError` of reading `.some` on a missing contact list. */
  function MatchesAsWritten(c: Client, query: string): (r: Option<bool>)
    ensures r.None? <==> !Includes(Lower(c.name), query) && c.contacts.None?
  {
    if Includes(Lower(c.name), query) then Some(true)
    else if c.contacts.None? then None
    else Some(SomeContactMatches(c.contacts.value, query))
  }

  /** `clients.filter(...)` with the predicate as written: the first throw aborts the whole filter. */
  function FilteredClientsAsWritten(cs: seq<Client>, searchQuery: string): (r: Option<seq<Client>>)
    ensures r.None? <==> exists i :: 0 <= i < |cs| && MatchesAsWritten(cs[i], Lower(searchQuery)).None?
  {
    if cs == [] then Some([])
    else
      match MatchesAsWritten(cs[0], Lower(searchQuery))
      case None => None
      case Some(keep) =>
        match FilteredClientsAsWritten(cs[1..], searchQuery)
        case None =>
          None
        case Some(rest) =>
          Some((if keep then [cs[0]] else []) + rest)
  }

  /** The intended predicate: a missing contact list has no contact to match. */
  predicate Matches(c: Client, query: string) {
    Includes(Lower(c.name), query) || (c.contacts.Some? && SomeContactMatches(c.contacts.value, query))
  }

  /** The clients shown for `searchQuery`. */
  function FilteredClients(cs: seq<Client>, searchQuery: string): (r: seq<Client>)
    ensures forall i :: 0 <= i < |r| ==> r[i] in cs && Matches(r[i], Lower(searchQuery))
    ensures forall i :: 0 <= i < |cs| && Matches(cs[i], Lower(searchQuery)) ==> cs[i] in r
  {
    Filter(cs, c => Matches(c, Lower(searchQuery)))
  }

  /** Where the written filter does not throw, it agrees with the intended one. */
  lemma {:induction false} AsWrittenAgreesWhenItReturns(cs: seq<Client>, searchQuery: string)
    requires FilteredClientsAsWritten(cs, searchQuery).Some?
    ensures FilteredClientsAsWritten(cs, searchQuery).value == FilteredClients(cs, searchQuery)
  {
    if cs != [] {
      AsWrittenAgreesWhenItReturns(cs[1..], searchQuery);
    }
  }

  /** Every client the form adds lacks a contact list, so a query missing its name makes the search throw. */
  lemma FormClientBreaksSearch(form: ClientForm.FormData, freshId: string, createdNow: string, updatedNow: string, searchQuery: string)
    requires !IsBlank(form.name) && !Includes(Lower(form.name), Lower(searchQuery))
    ensures var req := ClientForm.SubmitRequest(form, None, freshId, createdNow, updatedNow);
      req.Some? && req.value.AddClient?
      && FilteredClientsAsWritten([req.value.client], searchQuery).None?
      && FilteredClients([req.value.client], searchQuery) == []
  {
    var c := ClientForm.SubmitRequest(form, None, freshId, createdNow, updatedNow).value.client;
    assert MatchesAsWritten(c, Lower(searchQuery)).None?;
  }

  /** A concrete instance: a client named "Acme" with no contacts, searched for "zz". */
  lemma SearchThrowsOnAcme()
    ensures FilteredClientsAsWritten([Client("1", "Acme", None, None, None, None, None, "t", "t", None)], "zz").None?
  {
    var c := Client("1", "Acme", None, None, None, None, None, "t", "t", None);
    assert Lower("zz") == "zz";
    assert Lower("Acme") == "acme";
    FirstCharAbsent("acme", "zz");
    assert MatchesAsWritten(c, "zz").None?;
  }

  /** A query whose first character does not occur in `s` is not found in `s`. */
  lemma {:induction false} FirstCharAbsent(s: string, q: string)
    requires q != [] && q[0] !in s
    ensures !Includes(s, q)
    decreases |s|
  {
    if s != [] {
      assert s[0] in s;
      assert forall c :: c in s[1..] ==> c in s;
      FirstCharAbsent(s[1..], q);
    }
  }

  /** An empty query shows every client, in order. */
  lemma EmptyQueryKeepsAll(cs: seq<Client>)
    ensures FilteredClients(cs, "") == cs
  {
    assert Lower("") == "";
    forall i | 0 <= i < |cs| ensures Matches(cs[i], "") {
      assert StartsWith(Lower(cs[i].name), "");
    }
    FilterKeepsAll(cs, c => Matches(c, Lower("")));
  }

  /** The search keeps its input order: searching two lists one after the other is searching their concatenation. */
  lemma SearchPreservesOrder(a: seq<Client>, b: seq<Client>, searchQuery: string)
    ensures FilteredClients(a + b, searchQuery) == FilteredClients(a, searchQuery) + FilteredClients(b, searchQuery)
  {
    FilterConcat(a, b, c => Matches(c, Lower(searchQuery)));
  }

  /** A contact without email and phone matches on its name alone. */
  lemma ContactWithoutDetailsMatchesOnName(contact: Contact, query: string)
    requires contact.email.None? && contact.phone.None?
    ensures ContactMatches(contact, query) <==> Includes(Lower(contact.name), query)
  {
  }

  /** `colorPalette.slice(0, 5)`, shown only for a non-empty palette. */
  function Swatches(palette: Option<seq<string>>): (r: seq<string>)
    ensures |r| <= 5
    ensures palette.Some? ==> |r| == if |palette.value| < 5 then |palette.value| else 5
    ensures palette.Some? ==> r == palette.value[..|r|]
    ensures palette.None? ==> r == []
  {
    if palette.None? || |palette.value| == 0 then []
    else if |palette.value| <= 5 then palette.value
    else palette.value[..5]
  }

  /** `handleDeleteClient`: a delete request only when the user confirms. */
  function DeleteOnConfirm(id: string, confirmed: bool): (r: Option<ClientRequest>)
    ensures r.Some? <==> confirmed
    ensures r.Some? ==> r.value.DeleteClient? && r.value.id == id
  {
    if confirmed then Some(DeleteClient(id)) else None
  }
}
