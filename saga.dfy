/** The four note workflows. Each reacts to its `*Init` intent by toggling the loading
    flag, making one request and then dispatching (`put`) a fixed, ordered series of
    actions. The network is a parameter: the `Outcome` of the request. `Store` stands
    for the Redux store the saga middleware dispatches into. */
module NotesSaga {
  import opened Interfaces
  import opened Actions
  import opened NotesReducer
  import opened Helpers

  /** What the `try` block sees of its request: the response resolved (its `ok` flag,
      its `statusText`, and the fields of the parsed body the workflow puts), or
      something in the block threw with `message` before its first `put` (the request
      was rejected, the body did not parse, or, for fetch, the body had no `data`).
      A throw raised later, by a reducer running inside a `put`, is not modelled. */
  datatype Outcome<T> = Resolved(ok: bool, statusText: string, data: T) | Rejected(message: string)

  /** `data.data` of a notes listing. */
  datatype FetchedNotes = FetchedNotes(collection: seq<Note>, folderName: string)

  datatype Verb = GET | POST | PATCH | DELETE

  /** A `fetch` call: verb, URL, headers and the fields of the JSON body, in order. */
  datatype Request = Request(verb: Verb, url: string, headers: seq<(string, string)>, body: Option<seq<(string, string)>>)

  const NoteCreated: string := "Note Successfully Created!"
  const NoteUpdated: string := "Note Successfully Updated!"
  const NoteDeleted: string := "Note Successfully Deleted!"
  const FetchingFailed: string := "Error fetching notes: "
  const CreatingFailed: string := "Error creating note: "
  const UpdatingFailed: string := "Error updating note: "
  const DeletingFailed: string := "Error deleting note: "

  const JsonContent: seq<(string, string)> := [("Content-Type", "application/json")]

  /** The client-side page listing a folder's notes, where create and delete redirect. */
  function FolderNotesPage(folderId: string): string {
    "/folders/" + folderId + "/notes"
  }

  function FetchNotesRequest(folderId: string): Request {
    Request(GET, "/api/folders/" + folderId + "/notes", [], None)
  }

  function CreateNoteRequest(newNote: NewNote): Request {
    Request(POST, "/api/folders/" + newNote.id + "/notes", JsonContent,
      Some([("name", newNote.name), ("description", newNote.description), ("id", newNote.id)]))
  }

  function UpdateNoteRequest(edit: NoteEdit): Request {
    Request(PATCH, "/api/folders/" + edit.folderId + "/notes/" + edit.noteId, JsonContent,
      Some([("name", edit.name), ("description", edit.description)]))
  }

  function DeleteNoteRequest(target: NoteRef): Request {
    Request(DELETE, "/api/folders/" + target.folderId + "/notes/" + target.noteId, JsonContent, None)
  }

  /** Create posts to the API twin of the page it then redirects to; the POST body
      names the folder as `id`; update and delete address the same note resource. */
  lemma RequestsAddressTheirResources(newNote: NewNote, edit: NoteEdit)
    ensures CreateNoteRequest(newNote).url == "/api" + FolderNotesPage(newNote.id)
    ensures CreateNoteRequest(newNote).url == FetchNotesRequest(newNote.id).url
    ensures CreateNoteRequest(newNote).body.value[2] == ("id", newNote.id)
    ensures UpdateNoteRequest(edit).url == DeleteNoteRequest(NoteRef(edit.folderId, edit.noteId)).url
  {
  }

  /** The loading flag is toggled first and exactly twice in all. */
  predicate LoadingBracketed(puts: seq<Action>) {
    |puts| > 0 && puts[0] == ToggleLoading && multiset(puts)[ToggleLoading] == 2
  }

  /** Some put reports a successful request to the notes slice. */
  predicate ReportsSuccess(puts: seq<Action>) {
    exists a :: a in puts && a.IsNoteSuccess()
  }

  predicate Redirects(puts: seq<Action>) {
    exists a :: a in puts && a.SetRedirect?
  }

  /** The `catch` block: the flag goes back, then an error alert with the message. */
  function ErrorPuts(prefix: string, message: string): seq<Action> {
    [ToggleLoading, SetAlert(Alert(Error, prefix + message))]
  }

  /** The actions `fetchNotesSaga` puts, in order. */
  function FetchNotesPuts(response: Outcome<FetchedNotes>): seq<Action> {
    match response
    case Resolved(_, _, data) =>
      [ToggleLoading, FetchNotesSuccess(data.collection), SetSelectedFolder(data.folderName), ToggleLoading]
    case Rejected(message) =>
      [ToggleLoading, ToggleLoading, SetAlert(Alert(Error, FetchingFailed + message))]
  }

  /** The actions `createNoteSaga` puts, in order. */
  function CreateNotePuts(newNote: NewNote, response: Outcome<Note>): seq<Action> {
    match response
    case Resolved(_, _, data) =>
      [ToggleLoading, CreateNoteSuccess(data), ToggleLoading,
       SetAlert(Alert(Success, NoteCreated)),
       SetRedirect(FolderNotesPage(newNote.id))]
    case Rejected(message) =>
      [ToggleLoading, ToggleLoading, SetAlert(Alert(Error, CreatingFailed + message))]
  }

  /** The actions `updateNoteSaga` puts, in order. */
  function UpdateNotePuts(edit: NoteEdit, response: Outcome<Note>): seq<Action> {
    match response
    case Resolved(_, _, data) =>
      [ToggleLoading, UpdateNoteSuccess(data),
       SetAlert(Alert(Success, NoteUpdated)),
       ToggleLoading]
    case Rejected(message) =>
      [ToggleLoading, ToggleLoading, SetAlert(Alert(Error, UpdatingFailed + message))]
  }

  /** The message `deleteNoteSaga` catches: the thrown one, or the `statusText` of a
      response that is not `ok`. */
  function DeleteFailure(response: Outcome<()>): string {
    if response.Rejected? then response.message else response.statusText
  }

  /** The actions `deleteNoteSaga` puts, in order. */
  function DeleteNotePuts(target: NoteRef, response: Outcome<()>): seq<Action> {
    if response.Resolved? && response.ok then
      [ToggleLoading, DeleteNoteSuccess(target.noteId), ToggleLoading,
       SetAlert(Alert(Success, NoteDeleted)),
       SetRedirect(FolderNotesPage(target.folderId))]
    else
      [ToggleLoading, ToggleLoading, SetAlert(Alert(Error, DeletingFailed + DeleteFailure(response)))]
  }

  /** Fetching: loading goes on first and is toggled exactly twice; the listing is
      stored and then the folder name, with no alert, only when the request resolved;
      a throw yields only the flag and the error alert; it never redirects. The `ok`
      flag of the response is not read. */
  lemma FetchNotesProtocol(response: Outcome<FetchedNotes>)
    ensures LoadingBracketed(FetchNotesPuts(response))
    ensures ReportsSuccess(FetchNotesPuts(response)) <==> response.Resolved?
    ensures !Redirects(FetchNotesPuts(response))
    ensures response.Resolved? ==>
      && FetchNotesPuts(response)[1] == FetchNotesSuccess(response.data.collection)
      && FetchNotesPuts(response)[2] == SetSelectedFolder(response.data.folderName)
      && forall a :: a in FetchNotesPuts(response) ==> !a.SetAlert?
    ensures response.Rejected? ==>
      FetchNotesPuts(response) == [ToggleLoading] + ErrorPuts(FetchingFailed, response.message)
  {
    var puts := FetchNotesPuts(response);
    if response.Resolved? {
      assert puts[1] in puts;
    }
  }

  /** Creating: loading is toggled first and exactly twice; on success the created
      note is stored, the flag goes back, the success alert follows and the last put
      redirects to the folder's notes page; a throw yields only the flag and the error
      alert. The `ok` flag is not read. */
  lemma CreateNoteProtocol(newNote: NewNote, response: Outcome<Note>)
    ensures LoadingBracketed(CreateNotePuts(newNote, response))
    ensures ReportsSuccess(CreateNotePuts(newNote, response)) <==> response.Resolved?
    ensures Redirects(CreateNotePuts(newNote, response)) <==> response.Resolved?
    ensures response.Resolved? ==>
      && CreateNotePuts(newNote, response)[1] == CreateNoteSuccess(response.data)
      && CreateNotePuts(newNote, response)[3] == SetAlert(Alert(Success, NoteCreated))
      && CreateNotePuts(newNote, response)[|CreateNotePuts(newNote, response)| - 1] == SetRedirect(FolderNotesPage(newNote.id))
    ensures response.Rejected? ==>
      CreateNotePuts(newNote, response) == [ToggleLoading] + ErrorPuts(CreatingFailed, response.message)
  {
    var puts := CreateNotePuts(newNote, response);
    if response.Resolved? {
      assert puts[1] in puts && puts[4] in puts;
    }
  }

  /** Updating: loading is toggled first and exactly twice; on success the updated
      note is stored and the success alert is raised before the flag goes back, as the
      last put; there is never a redirect. The `ok` flag is not read. */
  lemma UpdateNoteProtocol(edit: NoteEdit, response: Outcome<Note>)
    ensures LoadingBracketed(UpdateNotePuts(edit, response))
    ensures ReportsSuccess(UpdateNotePuts(edit, response)) <==> response.Resolved?
    ensures !Redirects(UpdateNotePuts(edit, response))
    ensures response.Resolved? ==>
      && UpdateNotePuts(edit, response)[1] == UpdateNoteSuccess(response.data)
      && UpdateNotePuts(edit, response)[2] == SetAlert(Alert(Success, NoteUpdated))
      && UpdateNotePuts(edit, response)[|UpdateNotePuts(edit, response)| - 1] == ToggleLoading
    ensures response.Rejected? ==>
      UpdateNotePuts(edit, response) == [ToggleLoading] + ErrorPuts(UpdatingFailed, response.message)
  {
    var puts := UpdateNotePuts(edit, response);
    if response.Resolved? {
      assert puts[1] in puts;
    }
  }

  /** Deleting: the only workflow that reads `ok`. The delete is reported, and the last
      put redirects to the folder's notes page, exactly when the response is `ok`;
      otherwise the error alert carries the thrown message or the `statusText`. */
  lemma DeleteNoteProtocol(target: NoteRef, response: Outcome<()>)
    ensures LoadingBracketed(DeleteNotePuts(target, response))
    ensures ReportsSuccess(DeleteNotePuts(target, response)) <==> response.Resolved? && response.ok
    ensures Redirects(DeleteNotePuts(target, response)) <==> response.Resolved? && response.ok
    ensures response.Resolved? && response.ok ==>
      && DeleteNotePuts(target, response)[1] == DeleteNoteSuccess(target.noteId)
      && DeleteNotePuts(target, response)[3] == SetAlert(Alert(Success, NoteDeleted))
      && DeleteNotePuts(target, response)[|DeleteNotePuts(target, response)| - 1] == SetRedirect(FolderNotesPage(target.folderId))
    ensures response.Resolved? && !response.ok ==>
      DeleteNotePuts(target, response) == [ToggleLoading] + ErrorPuts(DeletingFailed, response.statusText)
    ensures response.Rejected? ==>
      DeleteNotePuts(target, response) == [ToggleLoading] + ErrorPuts(DeletingFailed, response.message)
  {
    var puts := DeleteNotePuts(target, response);
    if response.Resolved? && response.ok {
      assert puts[1] in puts && puts[4] in puts;
    } else {
      assert puts == [ToggleLoading] + ErrorPuts(DeletingFailed, DeleteFailure(response));
    }
  }

  /** The loading flag after `actions`, under the modelling assumption that
      `toggleLoading` flips a boolean and nothing else touches it. */
  function LoadingAfter(loading: bool, actions: seq<Action>): bool
    decreases |actions|
  {
    if actions == [] then loading
    else LoadingAfter(if actions[0].ToggleLoading? then !loading else loading, actions[1..])
  }

  /** Only the parity of the number of toggles matters. */
  lemma {:induction false} LoadingAfterParity(loading: bool, actions: seq<Action>)
    ensures LoadingAfter(loading, actions) == (if multiset(actions)[ToggleLoading] % 2 == 0 then loading else !loading)
    decreases |actions|
  {
    if actions != [] {
      assert actions == [actions[0]] + actions[1..];
      assert multiset(actions) == multiset{actions[0]} + multiset(actions[1..]);
      LoadingAfterParity(if actions[0].ToggleLoading? then !loading else loading, actions[1..]);
    }
  }

  /** A run that toggles the flag exactly twice leaves it where it was. */
  lemma BracketedRestoresLoading(loading: bool, puts: seq<Action>)
    requires LoadingBracketed(puts)
    ensures LoadingAfter(loading, puts) == loading
  {
    LoadingAfterParity(loading, puts);
  }

  /** Every workflow, on every outcome, leaves the loading flag where it found it. */
  lemma WorkflowsRestoreLoading(loading: bool, newNote: NewNote, edit: NoteEdit, target: NoteRef,
                                fetched: Outcome<FetchedNotes>, created: Outcome<Note>, updated: Outcome<Note>, deleted: Outcome<()>)
    ensures LoadingAfter(loading, FetchNotesPuts(fetched)) == loading
    ensures LoadingAfter(loading, CreateNotePuts(newNote, created)) == loading
    ensures LoadingAfter(loading, UpdateNotePuts(edit, updated)) == loading
    ensures LoadingAfter(loading, DeleteNotePuts(target, deleted)) == loading
  {
    FetchNotesProtocol(fetched);
    BracketedRestoresLoading(loading, FetchNotesPuts(fetched));
    CreateNoteProtocol(newNote, created);
    BracketedRestoresLoading(loading, CreateNotePuts(newNote, created));
    UpdateNoteProtocol(edit, updated);
    BracketedRestoresLoading(loading, UpdateNotePuts(edit, updated));
    DeleteNoteProtocol(target, deleted);
    BracketedRestoresLoading(loading, DeleteNotePuts(target, deleted));
  }

  /** A failed request dispatches no notes action, so the notes state is untouched:
      in particular a failed create leaves `notes` as it was. */
  lemma {:induction false} FailedWorkflowsKeepNotesState(s: NotesState, newNote: NewNote, edit: NoteEdit, target: NoteRef,
                                                         message: string, deleted: Outcome<()>)
    requires !(deleted.Resolved? && deleted.ok)
    ensures ReduceAll(s, FetchNotesPuts(Rejected(message))) == s
    ensures ReduceAll(s, CreateNotePuts(newNote, Rejected(message))) == s
    ensures ReduceAll(s, UpdateNotePuts(edit, Rejected(message))) == s
    ensures ReduceAll(s, DeleteNotePuts(target, deleted)) == s
  {
    assert ReduceAll(s, FetchNotesPuts(Rejected(message))) == s by {
      ReduceAllNoops(s, FetchNotesPuts(Rejected(message)));
    }
    assert ReduceAll(s, CreateNotePuts(newNote, Rejected(message))) == s by {
      ReduceAllNoops(s, CreateNotePuts(newNote, Rejected(message)));
    }
    assert ReduceAll(s, UpdateNotePuts(edit, Rejected(message))) == s by {
      ReduceAllNoops(s, UpdateNotePuts(edit, Rejected(message)));
    }
    assert ReduceAll(s, DeleteNotePuts(target, deleted)) == s by {
      ReduceAllNoops(s, DeleteNotePuts(target, deleted));
    }
  }

  /** A successful fetch makes `notes` exactly the server's collection. */
  lemma FetchedNotesReachTheStore(s: NotesState, response: Outcome<FetchedNotes>)
    requires response.Resolved?
    ensures ReduceAll(s, FetchNotesPuts(response)) == s.(notes := response.data.collection)
  {
    var puts := FetchNotesPuts(response);
    ReduceAllCons(s, puts[0], puts[1..]);
    ReduceAllCons(s, puts[1], puts[2..]);
    ReduceAllNoops(s.(notes := response.data.collection), puts[2..]);
  }

  /** A successful create puts the server's note at the head and selects its `id`. */
  lemma CreatedNoteReachesTheStore(s: NotesState, newNote: NewNote, response: Outcome<Note>)
    requires response.Resolved?
    ensures ReduceAll(s, CreateNotePuts(newNote, response)) ==
      NotesState([response.data] + s.notes, response.data.id, false, s.searchQuery)
  {
    var puts := CreateNotePuts(newNote, response);
    ReduceAllCons(s, puts[0], puts[1..]);
    ReduceAllCons(s, puts[1], puts[2..]);
    ReduceAllNoops(Reduce(s, puts[1]), puts[2..]);
  }

  /** A successful update replaces the matching notes with the server's note. */
  lemma UpdatedNoteReachesTheStore(s: NotesState, edit: NoteEdit, response: Outcome<Note>)
    requires response.Resolved?
    ensures ReduceAll(s, UpdateNotePuts(edit, response)) == s.(notes := ReplaceById(s.notes, response.data))
  {
    var puts := UpdateNotePuts(edit, response);
    ReduceAllCons(s, puts[0], puts[1..]);
    ReduceAllCons(s, puts[1], puts[2..]);
    ReduceAllNoops(Reduce(s, puts[1]), puts[2..]);
  }

  /** A successful delete filters the note out and clears the selection. */
  lemma DeletedNoteLeavesTheStore(s: NotesState, target: NoteRef, response: Outcome<()>)
    requires response.Resolved? && response.ok
    ensures ReduceAll(s, DeleteNotePuts(target, response)) ==
      s.(notes := RemoveById(s.notes, target.noteId), selected := None)
  {
    var puts := DeleteNotePuts(target, response);
    ReduceAllCons(s, puts[0], puts[1..]);
    ReduceAllCons(s, puts[1], puts[2..]);
    ReduceAllNoops(Reduce(s, puts[1]), puts[2..]);
  }

  /** Reading the note back after a successful update sees the server's version,
      provided the list held a note with that `_id` before. */
  lemma UpdateThenFindNote(s: NotesState, edit: NoteEdit, response: Outcome<Note>)
    requires response.Resolved?
    requires CountId(s.notes, response.data._id) > 0
    ensures FindNote(ReduceAll(s, UpdateNotePuts(edit, response)).notes, response.data._id) == Some(response.data)
  {
    UpdatedNoteReachesTheStore(s, edit, response);
    CountIdZero(s.notes, response.data._id);
    ReplaceByIdAt(s.notes, response.data);
  }

  /** After a successful delete the note can no longer be found. */
  lemma DeleteThenFindNote(s: NotesState, target: NoteRef, response: Outcome<()>)
    requires response.Resolved? && response.ok
    ensures FindNote(ReduceAll(s, DeleteNotePuts(target, response)).notes, target.noteId) == None
  {
    DeletedNoteLeavesTheStore(s, target, response);
    var r := RemoveById(s.notes, target.noteId);
    RemoveByIdMembers(s.notes, target.noteId);
    assert forall i :: 0 <= i < |r| ==> r[i] in r;
  }

  /** A deletion of note "234" in folder "123" that the server acknowledges. */
  lemma DeleteScenario(first: Note, second: Note, s: NotesState)
    requires first._id == "234" && second._id == "235"
    requires s.notes == [first, second]
    ensures ReduceAll(s, DeleteNotePuts(NoteRef("123", "234"), Resolved(true, "OK", ()))).notes == [second]
    ensures ReduceAll(s, DeleteNotePuts(NoteRef("123", "234"), Resolved(true, "OK", ()))).selected == None
    ensures SetAlert(Alert(Success, NoteDeleted)) in DeleteNotePuts(NoteRef("123", "234"), Resolved(true, "OK", ()))
    ensures DeleteNotePuts(NoteRef("123", "234"), Resolved(true, "OK", ()))[4] == SetRedirect("/folders/123/notes")
  {
    var target, response := NoteRef("123", "234"), Resolved(true, "OK", ());
    DeletedNoteLeavesTheStore(s, target, response);
    assert RemoveById([first, second], "234") == [second] by {
      assert [first, second][1..] == [second];
      assert RemoveById([second], "234") == [second] by {
        assert [second][1..] == [];
      }
    }
    assert FolderNotesPage("123") == "/folders/123/notes";
  }

  /** The first three workflows never read `ok`: a response that is not `ok` but whose
      body parses is handled exactly like an `ok` one. */
  lemma StatusIgnoredExceptByDelete(newNote: NewNote, edit: NoteEdit, text: string, text': string,
                                    listing: FetchedNotes, note: Note)
    ensures FetchNotesPuts(Resolved(false, text, listing)) == FetchNotesPuts(Resolved(true, text', listing))
    ensures CreateNotePuts(newNote, Resolved(false, text, note)) == CreateNotePuts(newNote, Resolved(true, text', note))
    ensures UpdateNotePuts(edit, Resolved(false, text, note)) == UpdateNotePuts(edit, Resolved(true, text', note))
  {
  }

  /** A Redux store with the notes slice mounted, as the saga middleware sees it:
      every `put` runs the notes reducer on the notes slice and, by assumption, flips
      `loading` on `ToggleLoading`; `dispatched` records the puts in order. The store
      that store/index.ts configures mounts only `auth`, `folders` and `loading`, so
      there the notes actions reach no reducer; this class, like the lemmas about
      `ReduceAll` of a workflow's puts, describes the store with the slice mounted. */
  class Store {
    const slice: NotesSlice
    var loading: bool
    var dispatched: seq<Action>

    constructor (loading: bool)
      ensures fresh(slice)
      ensures slice.State() == InitialState && this.loading == loading && dispatched == []
    {
      slice := new NotesSlice();
      this.loading := loading;
      dispatched := [];
    }

    method Put(a: Action)
      modifies this, slice
      ensures dispatched == old(dispatched) + [a]
      ensures slice.State() == Reduce(old(slice.State()), a)
      ensures loading == (if a.ToggleLoading? then !old(loading) else old(loading))
    {
      slice.Dispatch(a);
      if a.ToggleLoading? {
        loading := !loading;
      }
      dispatched := dispatched + [a];
    }
  }

  /** The `catch` block shared by the four workflows: the flag goes back and an error
      alert carries the caught message after the workflow's prefix. */
  method Catch(store: Store, prefix: string, message: string)
    modifies store, store.slice
    ensures store.dispatched == old(store.dispatched) + ErrorPuts(prefix, message)
    ensures store.slice.State() == old(store.slice.State())
    ensures store.loading == !old(store.loading)
  {
    store.Put(ToggleLoading);
    store.Put(SetAlert(Alert(Error, prefix + message)));
  }

  /** The rest of `fetchNotesSaga`'s `try` block once the listing came back. */
  method FetchNotesSucceeded(store: Store, data: FetchedNotes)
    modifies store, store.slice
    ensures store.dispatched == old(store.dispatched) +
      [FetchNotesSuccess(data.collection), SetSelectedFolder(data.folderName), ToggleLoading]
    ensures store.slice.State() == old(store.slice.State()).(notes := data.collection)
    ensures store.loading == !old(store.loading)
  {
    store.Put(FetchNotesSuccess(data.collection));
    store.Put(SetSelectedFolder(data.folderName));
    store.Put(ToggleLoading);
  }

  /** The rest of `createNoteSaga`'s `try` block once the server returned the note. */
  method CreateNoteSucceeded(store: Store, folderId: string, created: Note)
    modifies store, store.slice
    ensures store.dispatched == old(store.dispatched) +
      [CreateNoteSuccess(created), ToggleLoading, SetAlert(Alert(Success, NoteCreated)), SetRedirect(FolderNotesPage(folderId))]
    ensures store.slice.State() ==
      NotesState([created] + old(store.slice.State()).notes, created.id, false, old(store.slice.State()).searchQuery)
    ensures store.loading == !old(store.loading)
  {
    store.Put(CreateNoteSuccess(created));
    store.Put(ToggleLoading);
    store.Put(SetAlert(Alert(Success, NoteCreated)));
    store.Put(SetRedirect(FolderNotesPage(folderId)));
  }

  /** The rest of `updateNoteSaga`'s `try` block once the server returned the note. */
  method UpdateNoteSucceeded(store: Store, updated: Note)
    modifies store, store.slice
    ensures store.dispatched == old(store.dispatched) +
      [UpdateNoteSuccess(updated), SetAlert(Alert(Success, NoteUpdated)), ToggleLoading]
    ensures store.slice.State() == old(store.slice.State()).(notes := ReplaceById(old(store.slice.State()).notes, updated))
    ensures store.loading == !old(store.loading)
  {
    store.Put(UpdateNoteSuccess(updated));
    store.Put(SetAlert(Alert(Success, NoteUpdated)));
    store.Put(ToggleLoading);
  }

  /** The rest of `deleteNoteSaga`'s `try` block once the DELETE came back `ok`. */
  method DeleteNoteSucceeded(store: Store, target: NoteRef)
    modifies store, store.slice
    ensures store.dispatched == old(store.dispatched) +
      [DeleteNoteSuccess(target.noteId), ToggleLoading, SetAlert(Alert(Success, NoteDeleted)), SetRedirect(FolderNotesPage(target.folderId))]
    ensures store.slice.State() == old(store.slice.State()).(notes := RemoveById(old(store.slice.State()).notes, target.noteId), selected := None)
    ensures store.loading == !old(store.loading)
  {
    store.Put(DeleteNoteSuccess(target.noteId));
    store.Put(ToggleLoading);
    store.Put(SetAlert(Alert(Success, NoteDeleted)));
    store.Put(SetRedirect(FolderNotesPage(target.folderId)));
  }

  /** `fetchNotesSaga`. */
  method FetchNotesSaga(store: Store, folderId: string, response: Outcome<FetchedNotes>) returns (request: Request)
    modifies store, store.slice
    ensures request == FetchNotesRequest(folderId)
    ensures store.dispatched == old(store.dispatched) + FetchNotesPuts(response)
    ensures store.slice.State() == ReduceAll(old(store.slice.State()), FetchNotesPuts(response))
    ensures store.loading == old(store.loading)
  {
    ghost var s0 := store.slice.State();
    store.Put(ToggleLoading);
    request := Request(GET, "/api/folders/" + folderId + "/notes", [], None);
    match response {
      case Resolved(_, _, data) =>
        FetchNotesSucceeded(store, data);
      case Rejected(message) =>
        Catch(store, FetchingFailed, message);
    }
    if response.Resolved? {
      FetchedNotesReachTheStore(s0, response);
    } else {
      ReduceAllNoops(s0, FetchNotesPuts(response));
    }
  }

  /** `createNoteSaga`. */
  method CreateNoteSaga(store: Store, newNote: NewNote, response: Outcome<Note>) returns (request: Request)
    modifies store, store.slice
    ensures request == CreateNoteRequest(newNote)
    ensures store.dispatched == old(store.dispatched) + CreateNotePuts(newNote, response)
    ensures store.slice.State() == ReduceAll(old(store.slice.State()), CreateNotePuts(newNote, response))
    ensures store.loading == old(store.loading)
  {
    ghost var s0 := store.slice.State();
    var folderId := newNote.id;
    store.Put(ToggleLoading);
    var body := [("name", newNote.name), ("description", newNote.description), ("id", folderId)];
    request := Request(POST, "/api/folders/" + folderId + "/notes", JsonContent, Some(body));
    match response {
      case Resolved(_, _, data) =>
        CreateNoteSucceeded(store, folderId, data);
      case Rejected(message) =>
        Catch(store, CreatingFailed, message);
    }
    if response.Resolved? {
      CreatedNoteReachesTheStore(s0, newNote, response);
    } else {
      ReduceAllNoops(s0, CreateNotePuts(newNote, response));
    }
  }

  /** `updateNoteSaga`. */
  method UpdateNoteSaga(store: Store, edit: NoteEdit, response: Outcome<Note>) returns (request: Request)
    modifies store, store.slice
    ensures request == UpdateNoteRequest(edit)
    ensures store.dispatched == old(store.dispatched) + UpdateNotePuts(edit, response)
    ensures store.slice.State() == ReduceAll(old(store.slice.State()), UpdateNotePuts(edit, response))
    ensures store.loading == old(store.loading)
  {
    ghost var s0 := store.slice.State();
    store.Put(ToggleLoading);
    var body := [("name", edit.name), ("description", edit.description)];
    request := Request(PATCH, "/api/folders/" + edit.folderId + "/notes/" + edit.noteId, JsonContent, Some(body));
    match response {
      case Resolved(_, _, data) =>
        UpdateNoteSucceeded(store, data);
      case Rejected(message) =>
        Catch(store, UpdatingFailed, message);
    }
    if response.Resolved? {
      UpdatedNoteReachesTheStore(s0, edit, response);
    } else {
      ReduceAllNoops(s0, UpdateNotePuts(edit, response));
    }
  }

  /** `deleteNoteSaga`: a response that is not `ok` is turned into an error carrying its
      `statusText` and joins the `catch` path. */
  method DeleteNoteSaga(store: Store, target: NoteRef, response: Outcome<()>) returns (request: Request)
    modifies store, store.slice
    ensures request == DeleteNoteRequest(target)
    ensures store.dispatched == old(store.dispatched) + DeleteNotePuts(target, response)
    ensures store.slice.State() == ReduceAll(old(store.slice.State()), DeleteNotePuts(target, response))
    ensures store.loading == old(store.loading)
  {
    ghost var s0 := store.slice.State();
    store.Put(ToggleLoading);
    request := Request(DELETE, "/api/folders/" + target.folderId + "/notes/" + target.noteId, JsonContent, None);
    match response {
      case Resolved(ok, statusText, _) =>
        if ok {
          DeleteNoteSucceeded(store, target);
        } else {
          // a response that is not `ok` throws an error carrying its `statusText`, which the `catch` handles
          Catch(store, DeletingFailed, statusText);
        }
      case Rejected(message) =>
        Catch(store, DeletingFailed, message);
    }
    if response.Resolved? && response.ok {
      DeletedNoteLeavesTheStore(s0, target, response);
    } else {
      ReduceAllNoops(s0, DeleteNotePuts(target, response));
    }
  }
}
