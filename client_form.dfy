/**
 * The client form: the palette editor, the logo checks, the download file
 * name, and the record a submit produces. Submitting yields a
 * `ClientRequest`; the client store itself is not part of this model.
 */
module ClientForm {
  import opened Wrappers
  import opened Js
  import opened Types
  import opened Clients

  /** The `formData` state of the form. */
  datatype FormData = FormData(
    name: string,
    email: string,
    phone: string,
    logo: string,
    colorPalette: seq<string>)

  const DefaultNewColor: string := "#000000"

  /** The form opened on `client`, or empty for a new client: `client?.field || ''`, and `|| []` for the palette. */
  function InitialForm(client: Option<Client>): (r: FormData)
    ensures client.None? ==> r == FormData("", "", "", "", [])
    ensures client.Some? ==> r.name == client.value.name && r.logo == OrEmpty(client.value.logo)
    ensures client.Some? ==> r.email == OrEmpty(client.value.email) && r.phone == OrEmpty(client.value.phone)
    ensures client.Some? ==> r.colorPalette == client.value.colorPalette.GetOr([])
  {
    match client
    case None => FormData("", "", "", "", [])
    case Some(c) => FormData(c.name, OrEmpty(c.email), OrEmpty(c.phone), OrEmpty(c.logo), c.colorPalette.GetOr([]))
  }

  // ------------------------------------------------------------------ palette

  predicate Distinct(s: seq<string>) {
    forall i, j :: 0 <= i < j < |s| ==> s[i] != s[j]
  }

  /**
   * `handleAddColor` on `(palette, newColor)`: a non-empty colour not yet in
   * the palette is appended and the picker goes back to black; otherwise
   * nothing changes, the picker included.
   */
  function AddColor(palette: seq<string>, newColor: string): (r: (seq<string>, string))
    ensures |r.0| == |palette| + 1 <==> newColor != "" && newColor !in palette
    ensures |palette| <= |r.0| && r.0[..|palette|] == palette
    ensures |r.0| == |palette| + 1 ==> r.0[|palette|] == newColor && r.1 == DefaultNewColor
    ensures |r.0| != |palette| + 1 ==> r.0 == palette && r.1 == newColor
    ensures Distinct(palette) ==> Distinct(r.0)
  {
    if newColor != "" && newColor !in palette then (palette + [newColor], DefaultNewColor)
    else (palette, newColor)
  }

  /** `palette.filter((_, idx) => idx !== index)` */
  function RemoveColor(palette: seq<string>, index: int): (r: seq<string>)
    ensures 0 <= index < |palette| ==> r == palette[..index] + palette[index + 1..]
    ensures !(0 <= index < |palette|) ==> r == palette
    decreases |palette|
  {
    if palette == [] then []
    else (if index == 0 then [] else [palette[0]]) + RemoveColor(palette[1..], index - 1)
  }

  /** Removing the colour just added at the end gives the palette back. */
  lemma RemoveUndoesAdd(palette: seq<string>, newColor: string)
    requires newColor != "" && newColor !in palette
    ensures RemoveColor(AddColor(palette, newColor).0, |palette|) == palette
  {
    var p := AddColor(palette, newColor).0;
    assert p[..|palette|] == palette;
  }

  /** Removing a position never creates a duplicate. */
  lemma RemoveKeepsDistinct(palette: seq<string>, index: int)
    requires Distinct(palette)
    ensures Distinct(RemoveColor(palette, index))
  {
    if 0 <= index < |palette| {
      var r := RemoveColor(palette, index);
      forall i, j | 0 <= i < j < |r| ensures r[i] != r[j] {
        var i' := if i < index then i else i + 1;
        var j' := if j < index then j else j + 1;
        assert r[i] == palette[i'] && r[j] == palette[j'];
      }
    }
  }

  // --------------------------------------------------------------------- logo

  const MaxLogoBytes: int := 2 * 1024 * 1024

  datatype LogoVerdict = NotAnImage | TooLarge | Accepted

  /** The two checks of `handleLogoUpload`, in order: the MIME type, then the size. */
  function CheckLogo(file: UploadedFile): (r: LogoVerdict)
    ensures r == Accepted <==> StartsWith(file.mimeType, "image/") && file.size <= MaxLogoBytes
    ensures r == NotAnImage <==> !StartsWith(file.mimeType, "image/")
  {
    if !StartsWith(file.mimeType, "image/") then NotAnImage
    else if file.size > 2 * 1024 * 1024 then TooLarge
    else Accepted
  }

  /** The size limit is inclusive: an image of exactly 2 MiB passes, one byte more does not. */
  lemma LogoLimitIsInclusive(name: string)
    ensures CheckLogo(UploadedFile(name, "image/png", 2097152)) == Accepted
    ensures CheckLogo(UploadedFile(name, "image/png", 2097153)) == TooLarge
  {
    assert StartsWith("image/png", "image/") by {
      assert "image/png"[..6] == "image/";
    }
  }

  // ---------------------------------------------------------------- download

  predicate SafeChar(c: char) {
    'a' <= c <= 'z' || 'A' <= c <= 'Z' || '0' <= c <= '9'
  }

  /** `name.replace(/[^a-zA-Z0-9]/g, '_')` */
  function Sanitized(name: string): (r: string)
    ensures |r| == |name|
    ensures forall i :: 0 <= i < |r| ==> SafeChar(r[i]) || r[i] == '_'
    ensures forall i :: 0 <= i < |r| && SafeChar(name[i]) ==> r[i] == name[i]
    ensures forall i :: 0 <= i < |r| && !SafeChar(name[i]) ==> r[i] == '_'
  {
    seq(|name|, i requires 0 <= i < |name| => if SafeChar(name[i]) then name[i] else '_')
  }

  /** Sanitizing a sanitized name changes nothing. */
  lemma SanitizedIdempotent(name: string)
    ensures Sanitized(Sanitized(name)) == Sanitized(name)
  {
    var s := Sanitized(name);
    assert forall i :: 0 <= i < |s| ==> Sanitized(s)[i] == s[i];
  }

  /** `handleDownloadLogo`: no download without a logo; else the sanitized name followed by `_logo.png`. */
  function DownloadName(form: FormData): (r: Option<string>)
    ensures r.None? <==> form.logo == ""
    ensures r.Some? ==> |r.value| == |form.name| + 9 && r.value[|form.name|..] == "_logo.png"
    ensures r.Some? ==> r.value[..|form.name|] == Sanitized(form.name)
    ensures r.Some? ==> forall i :: 0 <= i < |r.value| ==> SafeChar(r.value[i]) || r.value[i] == '_' || r.value[i] == '.'
  {
    if form.logo == "" then None else Some(Sanitized(form.name) + "_logo.png")
  }

  /** The file name depends on the client name only through its sanitized form. */
  lemma DownloadNameOfSanitized(form: FormData)
    ensures DownloadName(form.(name := Sanitized(form.name))) == DownloadName(form)
  {
    SanitizedIdempotent(form.name);
  }

  // ------------------------------------------------------------------ submit

  /** Optional texts are absent rather than empty, and an empty palette is absent. */
  predicate Tidy(c: Client) {
    Truthy(c.email) == c.email.Some? && Truthy(c.phone) == c.phone.Some? && Truthy(c.logo) == c.logo.Some?
    && (c.colorPalette.Some? ==> c.colorPalette.value != [])
  }

  /** The `clientData` object of `handleSubmit`; it has no `notes` and no `contacts` key. */
  function ClientData(form: FormData, client: Option<Client>, freshId: string, createdNow: string, updatedNow: string): (r: Client)
    ensures Tidy(r) && r.name == form.name && r.notes.None? && r.contacts.None?
    ensures r.email == OrUndefined(form.email) && r.phone == OrUndefined(form.phone) && r.logo == OrUndefined(form.logo)
    ensures r.colorPalette.GetOr([]) == form.colorPalette
    ensures client.Some? && client.value.id != "" ==> r.id == client.value.id
    ensures client.Some? && client.value.createdAt != "" ==> r.createdAt == client.value.createdAt
    ensures r.updatedAt == updatedNow
  {
    Client(
      if client.Some? && client.value.id != "" then client.value.id else freshId,
      form.name,
      OrUndefined(form.email),
      OrUndefined(form.phone),
      OrUndefined(form.logo),
      if |form.colorPalette| > 0 then Some(form.colorPalette) else None,
      None,
      if client.Some? && client.value.createdAt != "" then client.value.createdAt else createdNow,
      updatedNow,
      None)
  }

  /** `clientData` as an update: every key it declares is present, `notes` and `contacts` are not. */
  function AsPatch(c: Client): (r: ClientPatch)
    ensures r.notes.None? && r.contacts.None?
    ensures forall prior: Client :: MergeClient(prior, r) == c.(notes := prior.notes, contacts := prior.contacts)
  {
    ClientPatch(Some(c.id), Some(c.name), Some(c.email), Some(c.phone), Some(c.logo),
      Some(c.colorPalette), None, Some(c.createdAt), Some(c.updatedAt), None)
  }

  /** `handleSubmit`: nothing for a blank name; an update of the client being edited; otherwise an add. */
  function SubmitRequest(form: FormData, client: Option<Client>, freshId: string, createdNow: string, updatedNow: string): (r: Option<ClientRequest>)
    ensures r.None? <==> IsBlank(form.name)
    ensures r.Some? ==> (r.value.UpdateClient? <==> client.Some?) && (r.value.AddClient? <==> client.None?)
    ensures r.Some? && client.Some? ==> r.value.id == client.value.id
    ensures r.Some? && client.None? ==>
      var c := r.value.client;
      Tidy(c) && c.id == freshId && c.createdAt == createdNow && c.contacts.None? && c.notes.None?
    ensures r.Some? && client.None? ==> r.value.client == ClientData(form, client, freshId, createdNow, updatedNow)
    ensures r.Some? && client.Some? ==> forall prior: Client ::
      MergeClient(prior, r.value.updates)
        == ClientData(form, client, freshId, createdNow, updatedNow).(notes := prior.notes, contacts := prior.contacts)
  {
    if IsBlank(form.name) then None
    else
      var data := ClientData(form, client, freshId, createdNow, updatedNow);
      if client.Some? then Some(UpdateClient(client.value.id, AsPatch(data))) else Some(AddClient(data))
  }

  /**
   * Opening the form on a tidy client and submitting it untouched rewrites
   * only the update stamp: the form's `|| ''` and the submit's `|| undefined`
   * undo each other.
   */
  lemma UnchangedEditKeepsClient(c: Client, freshId: string, createdNow: string, updatedNow: string, now: string)
    requires Tidy(c) && c.id != "" && c.createdAt != "" && !IsBlank(c.name)
    ensures var r := SubmitRequest(InitialForm(Some(c)), Some(c), freshId, createdNow, updatedNow);
      r.Some? && ApplyClientRequest([c], r.value, now) == [c.(updatedAt := now)]
  {
    var form := InitialForm(Some(c));
    var data := ClientData(form, Some(c), freshId, createdNow, updatedNow);
    OrUndefinedOrEmpty(c.email);
    OrUndefinedOrEmpty(c.phone);
    OrUndefinedOrEmpty(c.logo);
    assert data.colorPalette == c.colorPalette;
    assert MergeClient(c, AsPatch(data).(updatedAt := Some(now))) == c.(updatedAt := now);
  }

  lemma OrUndefinedOrEmpty(s: Option<string>)
    requires Truthy(s) == s.Some?
    ensures OrUndefined(OrEmpty(s)) == s
  {
  }

  // --------------------------------------------------------------- component

  datatype TextField = NameField | EmailField | PhoneField

  class ClientFormState {
    const client: Option<Client>
    var form: FormData
    var newColor: string

    constructor (client: Option<Client>)
      ensures this.client == client && form == InitialForm(client) && newColor == DefaultNewColor
    {
      this.client := client;
      form := InitialForm(client);
      newColor := DefaultNewColor;
    }

    method HandleTextInput(field: TextField, value: string)
      modifies this
      ensures form == (match field
        case NameField => old(form).(name := value)
        case EmailField => old(form).(email := value)
        case PhoneField => old(form).(phone := value))
      ensures newColor == old(newColor)
    {
      match field
      case NameField => form := form.(name := value);
      case EmailField => form := form.(email := value);
      case PhoneField => form := form.(phone := value);
    }

    method HandleColorInput(value: string)
      modifies this
      ensures newColor == value && form == old(form)
    {
      newColor := value;
    }

    method HandleAddColor()
      modifies this
      ensures (form.colorPalette, newColor) == AddColor(old(form.colorPalette), old(newColor))
      ensures form == old(form).(colorPalette := form.colorPalette)
    {
      if newColor != "" && newColor !in form.colorPalette {
        form := form.(colorPalette := form.colorPalette + [newColor]);
        newColor := DefaultNewColor;
      }
    }

    method HandleRemoveColor(index: int)
      modifies this
      ensures form == old(form).(colorPalette := RemoveColor(old(form.colorPalette), index))
      ensures newColor == old(newColor)
    {
      form := form.(colorPalette := RemoveColor(form.colorPalette, index));
    }

    /** The synchronous part of `handleLogoUpload`: the verdict on the chosen file, if there is one. */
    method HandleLogoUpload(file: Option<UploadedFile>) returns (verdict: Option<LogoVerdict>)
      ensures verdict.None? <==> file.None?
      ensures verdict.Some? ==> verdict.value == CheckLogo(file.value)
    {
      if file.None? {
        verdict := None;
      } else {
        verdict := Some(CheckLogo(file.value));
      }
    }

    /** The `FileReader` callback of an accepted logo: the data URL becomes the logo. */
    method HandleLogoRead(dataUrl: string)
      modifies this
      ensures form == old(form).(logo := dataUrl) && newColor == old(newColor)
    {
      form := form.(logo := dataUrl);
    }

    method HandleRemoveLogo()
      modifies this
      ensures form == old(form).(logo := "") && newColor == old(newColor)
    {
      form := form.(logo := "");
    }

    method HandleDownloadLogo() returns (fileName: Option<string>)
      ensures fileName == DownloadName(form)
    {
      if form.logo == "" {
        fileName := None;
      } else {
        fileName := Some(Sanitized(form.name) + "_logo.png");
      }
    }

    method HandleSubmit(freshId: string, createdNow: string, updatedNow: string) returns (req: Option<ClientRequest>)
      ensures req == SubmitRequest(form, client, freshId, createdNow, updatedNow)
    {
      if IsBlank(form.name) {
        return None;
      }
      var data := ClientData(form, client, freshId, createdNow, updatedNow);
      if client.Some? {
        req := Some(UpdateClient(client.value.id, AsPatch(data)));
      } else {
        req := Some(AddClient(data));
      }
    }
  }
}
