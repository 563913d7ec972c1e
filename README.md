# Notes client state: reducer, workflows and helpers

This project models the notes part of the notes-app client, a Next.js application
whose state lives in a Redux Toolkit store driven by redux-saga.

- **`NotesReducer`** (`reducer.dfy`) is the `notes` slice built by `createSlice`. It holds:
  - the state record `{ notes, selected, isCreatingNote, searchQuery }` and `initialState`;
  - every case reducer, including the empty `*Init`/`*Fail` ones, `resetNotes` and the `HYDRATE` merge of next-redux-wrapper.
  It exists in two forms:
  - the pure transition function `Reduce` and its fold `ReduceAll`;
  - the class `NotesSlice`, whose methods assign the state's fields in place, as the Immer-drafted case reducers do. `NotesSlice.Dispatch` is proved to perform exactly `Reduce`.
- **`NotesSaga`** (`saga.dfy`) covers the four workflows `fetchNotesSaga`, `createNoteSaga`, `updateNoteSaga` and `deleteNoteSaga`.
  - Each is a pure function from the outcome of its one HTTP request to the ordered list of actions it `put`s (`FetchNotesPuts` …). Together with four "protocol" lemmas, these functions form the specification.
  - Each is also a method on a `Store` that performs the same steps one `put` at a time. Each `put` runs the notes reducer and records the action. The method is proved to dispatch exactly the specified list and to leave the slice in `ReduceAll` of it.
  - `Store`, and every lemma about the slice after a workflow (`FetchedNotesReachTheStore` through `DeleteScenario`), describe a store with the notes slice mounted. The store that store/index.ts configures mounts only `auth`, `folders` and `loading` (store/index.ts:15-19). There, the notes actions the workflows put reach no reducer, and the notes state does not exist.
  - It also returns the request the workflow sends (verb, URL, headers, JSON body fields).
- **`Helpers`** (`helpers.dfy`) holds `renderDescriptionFirstLine` (with the JavaScript `split` it uses) and `findNote`.
- **`Actions`** and **`Interfaces`** hold the action type, the payloads and the `Note` record.

The network is a parameter. An `Outcome` is either `Resolved(ok, statusText, data)` or `Rejected(message)`:
- `Resolved` means the response arrived and its body parsed to the fields the workflow reads.
- `Rejected` means something in the `try` block threw with `message`.

The code decides which fields a workflow reads:
- fetching, creating and updating never look at `ok`: a non-`ok` response is handled exactly like an `ok` response with the same body (`StatusIgnoredExceptByDelete`);
- only deleting checks `ok`, and turns a non-`ok` response into an error carrying its `statusText`.

So only `deleteNoteSaga` turns a non-`ok` status, as such, into an error alert. For the other three, what an error response leads to depends only on its body. A body without `data` is covered under "## Left out".

The actions of other slices are opaque tags, and the notes reducer ignores them: `toggleLoading`, `setAlert`, `setSelectedFolder` and `setRedirect`. The `loading` flag is modelled under the assumption that `toggleLoading` flips a boolean. The loading reducer is not part of this model; see "## Left out".

## Model

| member | source | states |
|---|---|---|
| NotesReducer.ReplaceById | store/notes/reducer.ts:43-48 | the `map` in `updateNoteSuccess` keeps the list's length |
| NotesReducer.ReplaceByIdAt | store/notes/reducer.ts:43-48 | position by position, the payload replaces exactly those notes whose `_id` matches, and every other note stays |
| NotesReducer.ReplaceByIdNoMatch | store/notes/reducer.ts:43-48 | when no note has the payload's `_id`, the list is unchanged |
| NotesReducer.ReplaceByIdIdempotent | store/notes/reducer.ts:43-48 | applying the same update twice equals applying it once |
| NotesReducer.RemoveById | store/notes/reducer.ts:58 | the `filter` shortens the list by exactly the number of notes with that `_id` |
| NotesReducer.RemoveByIdMembers | store/notes/reducer.ts:58 | a note survives the filter if and only if it was in the list and its `_id` differs |
| NotesReducer.RemoveByIdAppend | store/notes/reducer.ts:58 | filtering a concatenation concatenates the filtered parts, so kept notes keep their order |
| NotesReducer.RemoveByIdNoMatch | store/notes/reducer.ts:58 | removing an `_id` no note has changes nothing |
| NotesReducer.RemoveByIdIdempotent | store/notes/reducer.ts:58 | a second removal of the same `_id` changes nothing |
| NotesReducer.HydrateMergeFields | store/notes/reducer.ts:68-73 | the `HYDRATE` spread: a field present in the payload's `notes` part replaces the live value, an absent field keeps it, and a payload without `notes` leaves the state as it is |
| NotesReducer.HydrateWithFullSnapshot | store/notes/reducer.ts:68-73 | a payload carrying every field yields exactly that snapshot, whatever the live state |
| NotesReducer.HydrateIdempotent | store/notes/reducer.ts:68-73 | hydrating twice with one payload equals hydrating once |
| NotesReducer.InitialState | store/notes/reducer.ts:5-10 | a constant with no contract of its own: no notes, nothing selected, not creating, empty query; `NotesSlice.constructor` and `ResetNotesForgetsState` state it |
| NotesReducer.HydrateMerge | store/notes/reducer.ts:68-73 | no contract of its own; the `HYDRATE` spread is specified by `HydrateMergeFields`, `HydrateWithFullSnapshot` and `HydrateIdempotent` |
| NotesReducer.Reduce | store/notes/reducer.ts:12-75 | no contract of its own; the `createSlice` reducer is specified case by case by `FetchNotesSuccessSetsNotes`, `CreateNoteSuccessPrepends`, `UpdateNoteSuccessReplaces`, `DeleteNoteSuccessRemoves`, `SetSearchQueryOnlySetsQuery`, `ResetNotesForgetsState`, `HydrateMergeFields` and `InitFailAndForeignAreNoops`, and `NotesSlice.Dispatch` is proved equal to it |
| NotesReducer.ReduceAll | store/notes/reducer.ts:12-75 | no contract of its own; the store dispatching each action in turn, specified by `ReduceAllAppend`, `ReduceAllNoops` and `IsCreatingNoteNeverSet` |
| NotesReducer.ReduceAllAppend | store/notes/reducer.ts:12-75 | dispatching `a + b` equals dispatching `a` and then `b` from its result |
| NotesReducer.ReduceAllNoops | store/notes/reducer.ts:16-61 | any run of `*Init`/`*Fail` actions and other slices' actions leaves the notes state unchanged |
| NotesReducer.FetchNotesSuccessSetsNotes | store/notes/reducer.ts:20-22 | `notes` becomes exactly the payload; `selected`, `isCreatingNote` and `searchQuery` are unchanged |
| NotesReducer.CreateNoteSuccessPrepends | store/notes/reducer.ts:30-34 | the payload becomes the head and the old notes follow in order; `selected` is the payload's `id`; `isCreatingNote` is false; the query is unchanged |
| NotesReducer.UpdateNoteSuccessReplaces | store/notes/reducer.ts:42-49 | length is kept; matching positions hold the payload and others are unchanged; with no match the state is unchanged; the other fields are unchanged |
| NotesReducer.DeleteNoteSuccessRemoves | store/notes/reducer.ts:57-60 | no remaining note has the id; every other note remains; the length drops by the match count; `selected` becomes null; the other fields are unchanged |
| NotesReducer.SetSearchQueryOnlySetsQuery | store/notes/reducer.ts:62-64 | only `searchQuery` changes, to the payload; repeating the action changes nothing; a later query overrides an earlier one |
| NotesReducer.ResetNotesForgetsState | store/notes/reducer.ts:65 | from any state the result is `initialState` (`[]`, null, false, `''`) |
| NotesReducer.InitFailAndForeignAreNoops | store/notes/reducer.ts:16-61 | the `*Init` and `*Fail` case reducers are empty, and actions of other slices fall through unchanged |
| NotesReducer.IsCreatingNoteNeverSet | store/notes/reducer.ts:5-75 | starting from a state where `isCreatingNote` is false, no sequence of non-`HYDRATE` actions ever sets it to true |
| NotesReducer.NotesSlice.constructor | store/notes/reducer.ts:5-10 | the slice starts in `initialState` |
| NotesReducer.NotesSlice.FetchNotesSuccess | store/notes/reducer.ts:20-22 | assigns `notes` in place; the other fields are unchanged |
| NotesReducer.NotesSlice.CreateNoteSuccess | store/notes/reducer.ts:30-34 | assigns `notes`, `selected` and `isCreatingNote` in place; `searchQuery` is unchanged |
| NotesReducer.NotesSlice.UpdateNoteSuccess | store/notes/reducer.ts:42-49 | assigns the mapped list to `notes`; the other fields are unchanged |
| NotesReducer.NotesSlice.DeleteNoteSuccess | store/notes/reducer.ts:57-60 | assigns the filtered list and null `selected`; the other fields are unchanged |
| NotesReducer.NotesSlice.SetSearchQuery | store/notes/reducer.ts:62-64 | assigns `searchQuery`; the other fields are unchanged |
| NotesReducer.NotesSlice.Become | store/notes/reducer.ts:65 | a case reducer that returns a new object makes it the whole new state |
| NotesReducer.NotesSlice.Dispatch | store/notes/reducer.ts:12-75 | the in-place slice performs exactly the pure transition `Reduce` for every action |
| Helpers.Split | lib/helpers.ts:28 | `split` gives one more piece than there are separators, and no piece contains the separator |
| Helpers.JoinSplit | lib/helpers.ts:28 | `split` loses nothing: joining the pieces with the separator gives back the string |
| Helpers.RenderDescriptionFirstLine | lib/helpers.ts:26-32 | without a line break the description is returned whole; otherwise the result is exactly the text before the first `\n`; it is always a prefix of the description and has no line break |
| Helpers.RenderDescriptionFirstLineIdempotent | lib/helpers.ts:26-32 | rendering a rendered line changes nothing, and the result is never longer than the input |
| Helpers.FindNote | lib/helpers.ts:34-38 | nothing is found if and only if no note has the id; otherwise the result is the first note in the list with that `_id` |
| NotesSaga.FetchNotesRequest | store/notes/saga.ts:14 | no contract of its own: `GET /api/folders/<folderId>/notes` with no headers or body; `FetchNotesSaga` returns it and `RequestsAddressTheirResources` relates it to the others |
| NotesSaga.CreateNoteRequest | store/notes/saga.ts:34-45 | no contract of its own: the POST to the folder's notes with the JSON header and the body fields `name`, `description`, `id`; `CreateNoteSaga` returns it and `RequestsAddressTheirResources` relates it to the others |
| NotesSaga.UpdateNoteRequest | store/notes/saga.ts:71-81 | no contract of its own: the PATCH to the note with the JSON header and the body fields `name`, `description`; `UpdateNoteSaga` returns it and `RequestsAddressTheirResources` relates it to the others |
| NotesSaga.DeleteNoteRequest | store/notes/saga.ts:106-111 | no contract of its own: the DELETE to the note with the JSON header and no body; `DeleteNoteSaga` returns it and `RequestsAddressTheirResources` relates it to the others |
| NotesSaga.ErrorPuts | store/notes/saga.ts:56-64 | no contract of its own: the `catch` block's two puts; `Catch` performs it and each `*Protocol` lemma states the failure path as the opening toggle followed by it |
| NotesSaga.FetchNotesPuts | store/notes/saga.ts:10-28 | no contract of its own; the ordered puts of `fetchNotesSaga`, specified by `FetchNotesProtocol`, `FetchedNotesReachTheStore` and `FailedWorkflowsKeepNotesState`; `FetchNotesSaga` is proved to put exactly it |
| NotesSaga.CreateNotePuts | store/notes/saga.ts:30-65 | no contract of its own; the ordered puts of `createNoteSaga`, specified by `CreateNoteProtocol`, `CreatedNoteReachesTheStore` and `FailedWorkflowsKeepNotesState`; `CreateNoteSaga` is proved to put exactly it |
| NotesSaga.UpdateNotePuts | store/notes/saga.ts:67-100 | no contract of its own; the ordered puts of `updateNoteSaga`, specified by `UpdateNoteProtocol`, `UpdatedNoteReachesTheStore`, `UpdateThenFindNote` and `FailedWorkflowsKeepNotesState`; `UpdateNoteSaga` is proved to put exactly it |
| NotesSaga.DeleteNotePuts | store/notes/saga.ts:102-134 | no contract of its own; the ordered puts of `deleteNoteSaga`, specified by `DeleteNoteProtocol`, `DeletedNoteLeavesTheStore`, `DeleteThenFindNote`, `DeleteScenario` and `FailedWorkflowsKeepNotesState`; `DeleteNoteSaga` is proved to put exactly it |
| NotesSaga.LoadingAfter | store/notes/saga.ts:11-126 | no contract of its own: the loading flag after a run of puts, under the assumption that `toggleLoading` flips it; specified by `LoadingAfterParity`, `BracketedRestoresLoading` and `WorkflowsRestoreLoading` |
| NotesSaga.RequestsAddressTheirResources | store/notes/saga.ts:14-111 | create posts to the URL fetch reads, which is the API twin of the page it redirects to; the POST body's `id` is the folder; update and delete address the same note URL |
| NotesSaga.FetchNotesProtocol | store/notes/saga.ts:10-28 | loading is toggled first and exactly twice; the collection and then the folder name are put, with no alert, if and only if the request resolved; a throw puts only the toggles and `Error fetching notes: <message>`; there is never a redirect |
| NotesSaga.CreateNoteProtocol | store/notes/saga.ts:30-65 | loading is toggled first and exactly twice; success is reported, and the last put redirects to `/folders/<id>/notes`, if and only if the request resolved; the fourth put is the "Note Successfully Created!" alert; a throw gives the `Error creating note: ` alert |
| NotesSaga.UpdateNoteProtocol | store/notes/saga.ts:67-100 | loading is toggled first and exactly twice; on success the note, then the "Note Successfully Updated!" alert, then the closing toggle; there is never a redirect; a throw gives the `Error updating note: ` alert |
| NotesSaga.DeleteNoteProtocol | store/notes/saga.ts:102-134 | loading is toggled first and exactly twice; the deletion is reported, and the last put redirects to the folder page, if and only if the response is `ok`; on `ok` the fourth put is the "Note Successfully Deleted!" alert; a non-`ok` response's `statusText` or a thrown message goes into `Error deleting note: ` |
| NotesSaga.LoadingAfterParity | store/notes/saga.ts:11-126 | the loading flag after a run of actions depends only on whether the run toggles it an even or odd number of times |
| NotesSaga.BracketedRestoresLoading | store/notes/saga.ts:11-126 | a run that toggles the flag exactly twice leaves it as it was |
| NotesSaga.WorkflowsRestoreLoading | store/notes/saga.ts:10-134 | every workflow, on every outcome, leaves the loading flag where it found it |
| NotesSaga.FailedWorkflowsKeepNotesState | store/notes/saga.ts:19-133 | a failed workflow dispatches nothing the notes reducer acts on, so the notes state is unchanged |
| NotesSaga.FetchedNotesReachTheStore | store/notes/saga.ts:16 | after a successful fetch, `notes` is exactly the server's collection and nothing else in the slice changed |
| NotesSaga.CreatedNoteReachesTheStore | store/notes/saga.ts:47 | after a successful create, the server's note heads `notes` and is selected, and `isCreatingNote` is false |
| NotesSaga.UpdatedNoteReachesTheStore | store/notes/saga.ts:83 | after a successful update, the slice's notes are the old ones with the server's note substituted by `_id` |
| NotesSaga.DeletedNoteLeavesTheStore | store/notes/saga.ts:112-113 | after an `ok` delete, the note is filtered out and `selected` is cleared |
| NotesSaga.UpdateThenFindNote | store/notes/saga.ts:83 | after a successful update of a note already in the list, `findNote` on its `_id` returns the server's version |
| NotesSaga.DeleteThenFindNote | store/notes/saga.ts:112-113 | after an `ok` delete, `findNote` no longer finds the note |
| NotesSaga.DeleteScenario | store/notes/saga.ts:102-134 | deleting note `234` of folder `123` from `[234, 235]` leaves `[235]`, clears `selected`, raises the success alert and redirects to `/folders/123/notes` |
| NotesSaga.StatusIgnoredExceptByDelete | store/notes/saga.ts:14-16 | fetch, create and update behave the same whether or not the response is `ok` |
| NotesSaga.Store.Put | store/notes/saga.ts:8 | a `put` records the action, runs the notes reducer on the slice, and flips `loading` on `toggleLoading` only |
| NotesSaga.Catch | store/notes/saga.ts:56-64 | the `catch` block puts the toggle and then the error alert `<prefix><message>`; the notes state is unchanged and the flag is flipped |
| NotesSaga.FetchNotesSucceeded | store/notes/saga.ts:16-18 | the rest of the fetch `try` block: listing, folder name and toggle; `notes` becomes the collection |
| NotesSaga.CreateNoteSucceeded | store/notes/saga.ts:47-55 | the rest of the create `try` block: note, toggle, success alert and redirect, in that order |
| NotesSaga.UpdateNoteSucceeded | store/notes/saga.ts:83-90 | the rest of the update `try` block: note, success alert and toggle, in that order |
| NotesSaga.DeleteNoteSucceeded | store/notes/saga.ts:113-121 | the `ok` branch of delete: id, toggle, success alert and redirect, in that order |
| NotesSaga.FetchNotesSaga | store/notes/saga.ts:10-28 | sends `GET /api/folders/<id>/notes`; puts exactly `FetchNotesPuts`; the slice ends in its `ReduceAll`; the loading flag is restored |
| NotesSaga.CreateNoteSaga | store/notes/saga.ts:30-65 | sends the POST with the JSON body `{name, description, id}`; puts exactly `CreateNotePuts`; the slice ends in its `ReduceAll`; the loading flag is restored |
| NotesSaga.UpdateNoteSaga | store/notes/saga.ts:67-100 | sends the PATCH with `{name, description}`; puts exactly `UpdateNotePuts`; the slice ends in its `ReduceAll`; the loading flag is restored |
| NotesSaga.DeleteNoteSaga | store/notes/saga.ts:102-134 | sends the DELETE; puts exactly `DeleteNotePuts`, branching on `ok`; the slice ends in its `ReduceAll`; the loading flag is restored |

## Left out

- `fetch` and `response.json()` are an `Outcome` parameter. `Rejected(message)` covers only a throw raised inside the `try` block before its first `put`: network failure, unparsable JSON, or for fetch a body without `data`. The model does not tell these apart.
- A parsed body whose `data` lacks the fields the reducers read is not modelled; `Resolved` always carries a whole listing or note.
  - Fetch with a `data` that has no `collection` does not throw. It puts `fetchNotesSuccess(undefined)`, which sets `notes` to `undefined` (store/notes/reducer.ts:21).
  - Create with no `data.data` puts `createNoteSuccess(undefined)`. The reducer throws reading `payload.id` (store/notes/reducer.ts:32), and Immer drops the draft, so the slice is unchanged.
  - Update with no `data.data` throws reading `payload._id` (store/notes/reducer.ts:44), but only on a non-empty list; on an empty list nothing happens.
  - redux-saga rethrows a reducer's error from `put` into the workflow, so the `catch` then runs. For create, the puts are then `[toggleLoading, createNoteSuccess(undefined), toggleLoading, setAlert(error)]`: an error alert after a success action. This path, a throw raised by a `put`, is not modelled.
- `JSON.stringify` is the ordered list of key/value pairs of the body. Its serialisation to text is not modelled.
- The loading, alert, folders and history reducers are not part of this model. `toggleLoading` is assumed to flip a boolean; the others are opaque tags.
- `takeEvery` concurrency, interleaving of workflows, and cancellation are not modelled: each workflow runs alone to completion.
- `selected`: JavaScript `null` and `undefined` both map to `None`.
- String encoding: Dafny strings are sequences of Unicode scalar values, while `renderDescriptionFirstLine` works on UTF-16 code units. The encoding, including lone surrogates, is not modelled. Splitting at `\n` behaves the same under both views.
- HYDRATE: fields the payload sets to `undefined`, and keys other than the four state fields, are not modelled; a field is either present with a value or absent.
- `formatDate`, `decodeHtml` and `debounce` of lib/helpers.ts (clocks, DOM, timers) are outside the modelled core, as are the selectors, the React components, the GraphQL API and the store wiring.
- Store wiring: store/index.ts:15-19 does not mount the notes reducer. The model's `Store` and the lemmas about the slice after a workflow describe a store in which it is mounted.
- The `Note` interface file is not part of this model. `Note` is built from the fields the reducer, the workflows and the helpers read.
