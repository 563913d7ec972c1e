/** Every action the notes client dispatches, as one closed type. The notes slice's own
    action creators come from `createSlice`; `ToggleLoading`, `SetAlert`,
    `SetSelectedFolder` and `SetRedirect` belong to the loading, alert, folders and
    history slices, whose reducers are not part of this model: they are opaque tags
    here, and the notes reducer ignores them. */
module Actions {
  import opened Interfaces

  /** Payload of `createNoteInit`: the new note's fields and, in `id`, its folder. */
  datatype NewNote = NewNote(name: string, description: string, id: string)

  /** Payload of `updateNoteInit`. */
  datatype NoteEdit = NoteEdit(name: string, description: string, folderId: string, noteId: string)

  /** Payload of `deleteNoteInit`. */
  datatype NoteRef = NoteRef(folderId: string, noteId: string)

  /** The `notes` part of a `HYDRATE` payload: each field is either present, and then
      overrides the live value, or absent. */
  datatype NotesPatch = NotesPatch(
    notes: Option<seq<Note>>,
    selected: Option<Option<string>>,
    isCreatingNote: Option<bool>,
    searchQuery: Option<string>)

  datatype AlertKind = Success | Error

  /** The `{ type, message }` object passed to `setAlert`. */
  datatype Alert = Alert(kind: AlertKind, message: string)

  datatype Action =
    // notes slice
    | FetchNotesInit(folderId: string)
    | FetchNotesSuccess(collection: seq<Note>)
    | FetchNotesFail
    | CreateNoteInit(newNote: NewNote)
    | CreateNoteSuccess(created: Note)
    | CreateNoteFail
    | UpdateNoteInit(edit: NoteEdit)
    | UpdateNoteSuccess(updated: Note)
    | UpdateNoteFail
    | DeleteNoteInit(target: NoteRef)
    | DeleteNoteSuccess(deletedId: string)
    | DeleteNoteFail
    | SetSearchQuery(query: string)
    | ResetNotes
    // next-redux-wrapper's HYDRATE; `None` when the payload has no `notes` field
    | Hydrate(patch: Option<NotesPatch>)
    // other slices, opaque here
    | ToggleLoading
    | SetSelectedFolder(folderName: string)
    | SetRedirect(path: string)
    | SetAlert(alert: Alert)
  {
    /** One of the four actions through which a workflow reports a successful request
        to the notes slice. */
    predicate IsNoteSuccess() {
      FetchNotesSuccess? || CreateNoteSuccess? || UpdateNoteSuccess? || DeleteNoteSuccess?
    }

    /** The `*Init` intents and the `*Fail` audit actions. */
    predicate IsInitOrFail() {
      FetchNotesInit? || FetchNotesFail? || CreateNoteInit? || CreateNoteFail? ||
      UpdateNoteInit? || UpdateNoteFail? || DeleteNoteInit? || DeleteNoteFail?
    }

    /** An action of another slice, which the notes reducer does not handle. */
    predicate IsForeign() {
      ToggleLoading? || SetSelectedFolder? || SetRedirect? || SetAlert?
    }
  }
}
