/** The contacts screen: the fetched contact list, the add/edit dialog with
    its form record, saving (create or update), deleting and calling a contact. */
module Contacts {
  import opened Js
  import opened Http
  import opened CallApi

  /** A contact or the dialog's form: a plain object of fields. */
  type Record = map<string, Json>

  /** The dialog's blank form: four empty fields. */
  const EmptyForm: Record :=
    map["name" := JStr(""), "phoneNumber" := JStr(""), "email" := JStr(""), "notes" := JStr("")]

  const FetchFailedText := "Failed to fetch contacts"
  const UpdatedText := "Contact updated successfully"
  const CreatedText := "Contact created successfully"
  const SaveFailedText := "Failed to save contact"
  const DeletedText := "Contact deleted successfully"
  const DeleteFailedText := "Failed to delete contact"

  /** The path of one contact: `/contacts/${id}`, always below the list path. */
  function ContactPath(id: Json): (p: string)
    ensures |p| >= 10 && p[..10] == "/contacts/" && p != "/contacts"
    ensures id.JStr? ==> p[10..] == id.s
  {
    "/contacts/" + ToJsString(id)
  }

  /** Two contacts with different string identifiers have different paths. */
  lemma ContactPathsDistinct(a: Json, b: Json)
    requires a.JStr? && b.JStr? && a != b
    ensures ContactPath(a) != ContactPath(b)
  {
    assert ContactPath(a)[10..] == a.s;
    assert ContactPath(b)[10..] == b.s;
  }

  /** The request that saves the form: an update of the contact being edited,
      or the creation of a new one. */
  function SaveRequest(editContact: Option<Record>, formData: Record): (e: Event)
    ensures e.Request? && e.payload == JObj(formData)
    ensures e.verb == Put <==> editContact.Some?
    ensures e.verb == Post <==> editContact.None?
    ensures editContact.Some? ==> e.path == ContactPath(OptGet(JObj(editContact.value), "id"))
    ensures editContact.None? ==> e.path == "/contacts"
  {
    match editContact
    case Some(contact) => Request(Put, ContactPath(OptGet(JObj(contact), "id")), JObj(formData))
    case None => Request(Post, "/contacts", JObj(formData))
  }

  /** The list request, with the search term as its only query parameter. */
  function ListRequest(searchTerm: string): (e: Event)
    ensures e.Request? && e.verb == Get && e.path == "/contacts"
    ensures e.payload.JObj? && e.payload.fields.Keys == {"search"}
    ensures e.payload.fields["search"] == JStr(searchTerm)
  {
    Request(Get, "/contacts", JObj(map["search" := JStr(searchTerm)]))
  }

  /** The list a fetch settled by `o` leaves, given the list before:
      `data.contacts || []`, or the old list when the request failed or its
      body could not be read. */
  function FetchedContacts(before: Json, o: Outcome): (after: Json)
    ensures o.Failed? ==> after == before
    ensures o.Ok? && Prop(o.response.data, "contacts").None? ==> after == before
    ensures o.Ok? && Prop(o.response.data, "contacts").Some? ==>
              Truthy(after)
              && (Truthy(Prop(o.response.data, "contacts").value) ==> after == Prop(o.response.data, "contacts").value)
              && (!Truthy(Prop(o.response.data, "contacts").value) ==> after == JArr([]))
  {
    if o.Ok? && Prop(o.response.data, "contacts").Some? then
      var sent := Prop(o.response.data, "contacts").value;
      if Truthy(sent) then sent else JArr([])
    else before
  }

  /** The events of a fetch with term `searchTerm` settled by `o`: the
      request, and the failure toast exactly when the list was kept. */
  function FetchEvents(searchTerm: string, o: Outcome): (effects: seq<Event>)
    ensures |effects| >= 1 && effects[0] == ListRequest(searchTerm)
    ensures |effects| == 1 <==> o.Ok? && Prop(o.response.data, "contacts").Some?
    ensures |effects| != 1 ==> effects == [ListRequest(searchTerm), Say(Error, FetchFailedText)]
  {
    [ListRequest(searchTerm)]
    + if o.Ok? && Prop(o.response.data, "contacts").Some? then [] else [Say(Error, FetchFailedText)]
  }

  /** A fetch that toasts leaves the list as it was; one that does not
      leaves a truthy list. */
  lemma FetchKeepsOrReplaces(before: Json, searchTerm: string, o: Outcome)
    ensures |FetchEvents(searchTerm, o)| == 2 ==> FetchedContacts(before, o) == before
    ensures |FetchEvents(searchTerm, o)| == 1 ==> Truthy(FetchedContacts(before, o))
  {
  }

  class ContactsScreen {
    var contacts: Json
    var loading: bool
    var openDialog: bool
    var editContact: Option<Record>
    var searchTerm: string
    var formData: Record

    constructor ()
      ensures contacts == JArr([]) && loading && !openDialog && editContact.None?
      ensures searchTerm == "" && formData == EmptyForm
    {
      contacts := JArr([]);
      loading := true;
      openDialog := false;
      editContact := None;
      searchTerm := "";
      formData := EmptyForm;
    }

    /** The search field's `onChange`. */
    method SetSearchTerm(term: string)
      modifies this`searchTerm
      ensures searchTerm == term
    {
      searchTerm := term;
    }

    /** `fetchContacts`: GET /contacts, settled by `o`. The list becomes
        `data.contacts || []`; reading it from a missing body throws, and then,
        as on a failed request, the list is kept and a toast shown. */
    method FetchContacts(o: Outcome) returns (effects: seq<Event>)
      modifies this`contacts, this`loading
      ensures !loading && searchTerm == old(searchTerm)
      ensures contacts == FetchedContacts(old(contacts), o) && effects == FetchEvents(searchTerm, o)
      ensures o.Ok? && Prop(o.response.data, "contacts").Some? ==>
                effects == [ListRequest(searchTerm)]
                && contacts == (var sent := Prop(o.response.data, "contacts").value;
                                if Truthy(sent) then sent else JArr([]))
      ensures (o.Failed? || Prop(o.response.data, "contacts").None?) ==>
                contacts == old(contacts) && effects == [ListRequest(searchTerm), Say(Error, FetchFailedText)]
    {
      effects := [ListRequest(searchTerm)];
      var sent: Option<Json> := if o.Ok? then Prop(o.response.data, "contacts") else None;
      if sent.Some? {
        contacts := if Truthy(sent.value) then sent.value else JArr([]);
      } else {
        effects := effects + [Say(Error, FetchFailedText)];
      }
      loading := false;
    }

    /** `handleDialogOpen(contact)`: edit the given contact, or start a blank one. */
    method DialogOpen(contact: Option<Record>)
      modifies this`openDialog, this`editContact, this`formData
      ensures openDialog && editContact == contact
      ensures formData == if contact.Some? then contact.value else EmptyForm
    {
      if contact.Some? {
        editContact := contact;
        formData := contact.value;
      } else {
        editContact := None;
        formData := EmptyForm;
      }
      openDialog := true;
    }

    /** `handleDialogClose`. */
    method DialogClose()
      modifies this`openDialog, this`editContact, this`formData
      ensures !openDialog && editContact.None? && formData == EmptyForm
    {
      openDialog := false;
      editContact := None;
      formData := EmptyForm;
    }

    /** `handleInputChange`: set the named field, keep all others. */
    method InputChange(name: string, value: string)
      modifies this`formData
      ensures formData == old(formData)[name := JStr(value)]
      ensures forall k :: k in old(formData) && k != name ==> k in formData && formData[k] == old(formData)[k]
    {
      formData := formData[name := JStr(value)];
    }

    /** `handleSubmit`: save the form (settled by `o`); on success close the
        dialog and fetch the list again (settled by `refetch`). */
    method Submit(o: Outcome, refetch: Outcome) returns (effects: seq<Event>)
      modifies this`openDialog, this`editContact, this`formData, this`contacts, this`loading
      ensures searchTerm == old(searchTerm)
      ensures |effects| >= 2 && effects[0] == SaveRequest(old(editContact), old(formData))
      ensures o.Ok? ==>
                !openDialog && editContact.None? && formData == EmptyForm && !loading
                && contacts == FetchedContacts(old(contacts), refetch)
                && effects == [SaveRequest(old(editContact), old(formData)),
                               Say(Success, if old(editContact).Some? then UpdatedText else CreatedText)]
                              + FetchEvents(searchTerm, refetch)
      ensures o.Failed? ==>
                openDialog == old(openDialog) && editContact == old(editContact) && formData == old(formData)
                && contacts == old(contacts) && loading == old(loading)
                && effects == [SaveRequest(old(editContact), old(formData)),
                               Toast(Error, ServerMessageOr(o.error, SaveFailedText))]
    {
      var saving := editContact.Some?;
      effects := [SaveRequest(editContact, formData)];
      if o.Failed? {
        effects := effects + [Toast(Error, ServerMessageOr(o.error, SaveFailedText))];
        return;
      }
      effects := effects + [Say(Success, if saving then UpdatedText else CreatedText)];
      DialogClose();
      var fetched := FetchContacts(refetch);
      effects := effects + fetched;
    }

    /** `handleDelete(id)`: only when the confirmation is granted, DELETE the
        contact (settled by `o`) and on success fetch the list again. */
    method DeleteContact(id: Json, confirmed: bool, o: Outcome, refetch: Outcome) returns (effects: seq<Event>)
      modifies this`contacts, this`loading
      ensures !confirmed ==> effects == [] && unchanged(this)
      ensures confirmed ==> |effects| >= 2 && effects[0] == Request(Delete, ContactPath(id), JUndefined)
      ensures searchTerm == old(searchTerm)
      ensures confirmed && o.Ok? ==>
                !loading && contacts == FetchedContacts(old(contacts), refetch)
                && effects == [Request(Delete, ContactPath(id), JUndefined), Say(Success, DeletedText)]
                              + FetchEvents(searchTerm, refetch)
      ensures confirmed && o.Failed? ==>
                unchanged(this) && effects == [Request(Delete, ContactPath(id), JUndefined), Say(Error, DeleteFailedText)]
    {
      effects := [];
      if confirmed {
        effects := [Request(Delete, ContactPath(id), JUndefined)];
        if o.Ok? {
          effects := effects + [Say(Success, DeletedText)];
          var fetched := FetchContacts(refetch);
          effects := effects + fetched;
        } else {
          effects := effects + [Say(Error, DeleteFailedText)];
        }
      }
    }
  }

  /** The list's call button (`handleCall`) for a contact's `phoneNumber`:
      POST /initiateCall with the trimmed number; only toasts follow, no
      screen state changes. A number that is not a string makes `trim()`
      throw before any request, and the `catch` shows the failure toast. */
  method CallContact(phoneNumber: Json, o: Outcome) returns (effects: seq<Event>)
    ensures !phoneNumber.JStr? ==> effects == [Say(Error, InitiateFailedText)]
    ensures phoneNumber.JStr? && o.Ok? && Truthy(SidOf(o.response)) ==>
              effects == [InitiateRequest(phoneNumber.s), Say(Success, InitiatedText)]
    ensures phoneNumber.JStr? && !(o.Ok? && Truthy(SidOf(o.response))) ==>
              effects == [InitiateRequest(phoneNumber.s), Say(Error, InitiateFailedText)]
  {
    if !phoneNumber.JStr? {
      effects := [Say(Error, InitiateFailedText)];
      return;
    }
    effects := [InitiateRequest(phoneNumber.s)];
    if o.Ok? && Truthy(SidOf(o.response)) {
      effects := effects + [Say(Success, InitiatedText)];
    } else {
      effects := effects + [Say(Error, InitiateFailedText)];
    }
  }
}
