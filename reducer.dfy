/** The notes slice of the Redux store: its state record, the pure transition function
    that `createSlice` builds from the case reducers, and a class whose methods perform
    the same transitions in place, as the Immer-drafted case reducers do. */
module NotesReducer {
  import opened Interfaces
  import opened Actions

  datatype NotesState = NotesState(
    notes: seq<Note>,
    selected: Option<string>,
    isCreatingNote: bool,
    searchQuery: string)

  /** `initialState`: no notes, nothing selected, not creating, empty query. */
  const InitialState: NotesState := NotesState([], None, false, "")

  /** The number of notes whose `_id` is `id`. */
  function CountId(notes: seq<Note>, id: string): (n: nat)
    ensures n <= |notes|
  {
    if notes == [] then 0
    else (if notes[0]._id == id then 1 else 0) + CountId(notes[1..], id)
  }

  /** `notes.map(note => payload._id === note._id ? payload : note)`. */
  function ReplaceById(notes: seq<Note>, payload: Note): (r: seq<Note>)
    ensures |r| == |notes|
  {
    if notes == [] then []
    else [if notes[0]._id == payload._id then payload else notes[0]] + ReplaceById(notes[1..], payload)
  }

  /** No note carries `id` exactly when the count is zero. */
  lemma {:induction false} CountIdZero(notes: seq<Note>, id: string)
    ensures CountId(notes, id) == 0 <==> forall i :: 0 <= i < |notes| ==> notes[i]._id != id
  {
    if notes != [] {
      CountIdZero(notes[1..], id);
      assert forall i :: 1 <= i < |notes| ==> notes[i] == notes[1..][i - 1];
    }
  }

  /** Position by position, the map swaps in the payload exactly where the `_id`
      matches. */
  lemma {:induction false} ReplaceByIdAt(notes: seq<Note>, payload: Note)
    ensures forall i :: 0 <= i < |notes| ==>
      ReplaceById(notes, payload)[i] == (if notes[i]._id == payload._id then payload else notes[i])
  {
    if notes != [] {
      ReplaceByIdAt(notes[1..], payload);
      var r := ReplaceById(notes, payload);
      assert forall i :: 1 <= i < |notes| ==> r[i] == ReplaceById(notes[1..], payload)[i - 1];
    }
  }

  /** `notes.filter(note => note._id !== id)`. */
  function RemoveById(notes: seq<Note>, id: string): (r: seq<Note>)
    ensures |r| == |notes| - CountId(notes, id)
  {
    if notes == [] then []
    else if notes[0]._id == id then RemoveById(notes[1..], id)
    else [notes[0]] + RemoveById(notes[1..], id)
  }

  /** The filter keeps exactly the notes whose `_id` differs. */
  lemma {:induction false} RemoveByIdMembers(notes: seq<Note>, id: string)
    ensures forall n :: n in RemoveById(notes, id) <==> n in notes && n._id != id
  {
    if notes != [] {
      RemoveByIdMembers(notes[1..], id);
      assert notes == [notes[0]] + notes[1..];
    }
  }

  /** If no note carries the payload's `_id`, the list is returned unchanged. */
  lemma {:induction false} ReplaceByIdNoMatch(notes: seq<Note>, payload: Note)
    requires CountId(notes, payload._id) == 0
    ensures ReplaceById(notes, payload) == notes
  {
    CountIdZero(notes, payload._id);
    ReplaceByIdAt(notes, payload);
  }

  /** Applying the same update twice is the same as applying it once. */
  lemma {:induction false} ReplaceByIdIdempotent(notes: seq<Note>, payload: Note)
    ensures ReplaceById(ReplaceById(notes, payload), payload) == ReplaceById(notes, payload)
  {
    ReplaceByIdAt(notes, payload);
    ReplaceByIdAt(ReplaceById(notes, payload), payload);
  }

  /** The filter works element by element, so the notes it keeps stay in their order:
      filtering a concatenation is the concatenation of the filtered parts. */
  lemma {:induction false} RemoveByIdAppend(a: seq<Note>, b: seq<Note>, id: string)
    ensures RemoveById(a + b, id) == RemoveById(a, id) + RemoveById(b, id)
  {
    if a == [] {
      assert a + b == b;
    } else {
      assert (a + b)[1..] == a[1..] + b;
      RemoveByIdAppend(a[1..], b, id);
    }
  }

  /** Removing an `_id` no note carries changes nothing. */
  lemma {:induction false} RemoveByIdNoMatch(notes: seq<Note>, id: string)
    requires CountId(notes, id) == 0
    ensures RemoveById(notes, id) == notes
  {
    if notes != [] {
      RemoveByIdNoMatch(notes[1..], id);
    }
  }

  /** A second removal of the same `_id` finds nothing left to remove. */
  lemma {:induction false} RemoveByIdIdempotent(notes: seq<Note>, id: string)
    ensures RemoveById(RemoveById(notes, id), id) == RemoveById(notes, id)
  {
    var r := RemoveById(notes, id);
    RemoveByIdMembers(notes, id);
    assert forall i :: 0 <= i < |r| ==> r[i] in r;
    CountIdZero(r, id);
    RemoveByIdNoMatch(r, id);
  }

  function Override<T>(field: Option<T>, current: T): T {
    if field.Some? then field.value else current
  }

  /** The `HYDRATE` case, `{ ...state, ...action.payload.notes }`. */
  function HydrateMerge(s: NotesState, patch: Option<NotesPatch>): NotesState {
    match patch
    case None => s
    case Some(p) =>
      NotesState(
        Override(p.notes, s.notes),
        Override(p.selected, s.selected),
        Override(p.isCreatingNote, s.isCreatingNote),
        Override(p.searchQuery, s.searchQuery))
  }

  /** A field present in the payload replaces the live one, an absent field keeps its
      live value, and a payload without `notes` spreads nothing. */
  lemma HydrateMergeFields(s: NotesState, patch: Option<NotesPatch>)
    ensures patch.None? ==> HydrateMerge(s, patch) == s
    ensures patch.Some? ==>
      && HydrateMerge(s, patch).notes == (if patch.value.notes.Some? then patch.value.notes.value else s.notes)
      && HydrateMerge(s, patch).selected == (if patch.value.selected.Some? then patch.value.selected.value else s.selected)
      && HydrateMerge(s, patch).isCreatingNote == (if patch.value.isCreatingNote.Some? then patch.value.isCreatingNote.value else s.isCreatingNote)
      && HydrateMerge(s, patch).searchQuery == (if patch.value.searchQuery.Some? then patch.value.searchQuery.value else s.searchQuery)
  {
  }

  /** The patch that carries every field of `t`, as a server-rendered state does. */
  function FullPatch(t: NotesState): NotesPatch {
    NotesPatch(Some(t.notes), Some(t.selected), Some(t.isCreatingNote), Some(t.searchQuery))
  }

  /** Hydrating with a complete snapshot yields that snapshot, whatever the live state. */
  lemma HydrateWithFullSnapshot(s: NotesState, t: NotesState)
    ensures HydrateMerge(s, Some(FullPatch(t))) == t
  {
  }

  /** Hydrating twice with the same payload is the same as hydrating once. */
  lemma HydrateIdempotent(s: NotesState, patch: Option<NotesPatch>)
    ensures HydrateMerge(HydrateMerge(s, patch), patch) == HydrateMerge(s, patch)
  {
  }

  /** The slice reducer. Actions it has no case for, including those of other slices,
      leave the state as it is. */
  function Reduce(s: NotesState, a: Action): NotesState {
    match a
    case FetchNotesSuccess(collection) => s.(notes := collection)
    case CreateNoteSuccess(created) =>
      s.(notes := [created] + s.notes, selected := created.id, isCreatingNote := false)
    case UpdateNoteSuccess(updated) => s.(notes := ReplaceById(s.notes, updated))
    case DeleteNoteSuccess(deletedId) => s.(notes := RemoveById(s.notes, deletedId), selected := None)
    case SetSearchQuery(query) => s.(searchQuery := query)
    case ResetNotes => InitialState
    case Hydrate(patch) => HydrateMerge(s, patch)
    case _ => s
  }

  /** The state after the store has dispatched `actions`, in order, starting from `s`. */
  function ReduceAll(s: NotesState, actions: seq<Action>): NotesState
    decreases |actions|
  {
    if actions == [] then s else ReduceAll(Reduce(s, actions[0]), actions[1..])
  }

  /** Dispatching `a` and then `b` is dispatching `a` and continuing from its result. */
  lemma {:induction false} ReduceAllAppend(s: NotesState, a: seq<Action>, b: seq<Action>)
    ensures ReduceAll(s, a + b) == ReduceAll(ReduceAll(s, a), b)
    decreases |a|
  {
    if a == [] {
      assert a + b == b;
    } else {
      assert (a + b)[1..] == a[1..] + b;
      ReduceAllAppend(Reduce(s, a[0]), a[1..], b);
    }
  }

  /** `[x] + rest` reduces as `x` followed by `rest`. */
  lemma ReduceAllCons(s: NotesState, x: Action, rest: seq<Action>)
    ensures ReduceAll(s, [x] + rest) == ReduceAll(Reduce(s, x), rest)
  {
    assert ([x] + rest)[1..] == rest;
  }

  /** A run of actions the notes reducer does not handle leaves the state unchanged. */
  lemma {:induction false} ReduceAllNoops(s: NotesState, actions: seq<Action>)
    requires forall i :: 0 <= i < |actions| ==> actions[i].IsForeign() || actions[i].IsInitOrFail()
    ensures ReduceAll(s, actions) == s
    decreases |actions|
  {
    if actions != [] {
      ReduceAllNoops(s, actions[1..]);
    }
  }

  /** `fetchNotesSuccess` makes `notes` exactly the payload and touches nothing else. */
  lemma FetchNotesSuccessSetsNotes(s: NotesState, collection: seq<Note>)
    ensures Reduce(s, FetchNotesSuccess(collection)).notes == collection
    ensures Reduce(s, FetchNotesSuccess(collection)).selected == s.selected
    ensures Reduce(s, FetchNotesSuccess(collection)).isCreatingNote == s.isCreatingNote
    ensures Reduce(s, FetchNotesSuccess(collection)).searchQuery == s.searchQuery
  {
  }

  /** `createNoteSuccess` puts the payload at the head, keeps the old notes after it in
      their order, selects the payload's `id` and ends note creation. */
  lemma CreateNoteSuccessPrepends(s: NotesState, created: Note)
    ensures |Reduce(s, CreateNoteSuccess(created)).notes| == |s.notes| + 1
    ensures Reduce(s, CreateNoteSuccess(created)).notes[0] == created
    ensures Reduce(s, CreateNoteSuccess(created)).notes[1..] == s.notes
    ensures Reduce(s, CreateNoteSuccess(created)).selected == created.id
    ensures !Reduce(s, CreateNoteSuccess(created)).isCreatingNote
    ensures Reduce(s, CreateNoteSuccess(created)).searchQuery == s.searchQuery
  {
  }

  /** `updateNoteSuccess` keeps length and order, swaps in the payload wherever the
      `_id` matches and nowhere else, and is the identity when nothing matches. */
  lemma UpdateNoteSuccessReplaces(s: NotesState, updated: Note)
    ensures |Reduce(s, UpdateNoteSuccess(updated)).notes| == |s.notes|
    ensures forall i :: 0 <= i < |s.notes| && s.notes[i]._id == updated._id ==>
      Reduce(s, UpdateNoteSuccess(updated)).notes[i] == updated
    ensures forall i :: 0 <= i < |s.notes| && s.notes[i]._id != updated._id ==>
      Reduce(s, UpdateNoteSuccess(updated)).notes[i] == s.notes[i]
    ensures CountId(s.notes, updated._id) == 0 ==> Reduce(s, UpdateNoteSuccess(updated)) == s
    ensures Reduce(s, UpdateNoteSuccess(updated)).selected == s.selected
    ensures Reduce(s, UpdateNoteSuccess(updated)).isCreatingNote == s.isCreatingNote
    ensures Reduce(s, UpdateNoteSuccess(updated)).searchQuery == s.searchQuery
  {
    ReplaceByIdAt(s.notes, updated);
    if CountId(s.notes, updated._id) == 0 {
      ReplaceByIdNoMatch(s.notes, updated);
    }
  }

  /** `deleteNoteSuccess` drops every note with the given `_id`, keeps the others,
      shortens the list by the number of matches and clears `selected`. */
  lemma DeleteNoteSuccessRemoves(s: NotesState, id: string)
    ensures forall n :: n in Reduce(s, DeleteNoteSuccess(id)).notes ==> n._id != id
    ensures forall n :: n in s.notes && n._id != id ==> n in Reduce(s, DeleteNoteSuccess(id)).notes
    ensures |Reduce(s, DeleteNoteSuccess(id)).notes| == |s.notes| - CountId(s.notes, id)
    ensures Reduce(s, DeleteNoteSuccess(id)).selected == None
    ensures Reduce(s, DeleteNoteSuccess(id)).isCreatingNote == s.isCreatingNote
    ensures Reduce(s, DeleteNoteSuccess(id)).searchQuery == s.searchQuery
  {
    RemoveByIdMembers(s.notes, id);
  }

  /** `setSearchQuery` sets the query and nothing else; repeating it changes nothing,
      and a later query overrides an earlier one. */
  lemma SetSearchQueryOnlySetsQuery(s: NotesState, q: string, q': string)
    ensures Reduce(s, SetSearchQuery(q)) == NotesState(s.notes, s.selected, s.isCreatingNote, q)
    ensures Reduce(Reduce(s, SetSearchQuery(q)), SetSearchQuery(q)) == Reduce(s, SetSearchQuery(q))
    ensures Reduce(Reduce(s, SetSearchQuery(q)), SetSearchQuery(q')) == Reduce(s, SetSearchQuery(q'))
  {
  }

  /** `resetNotes` returns `initialState` whatever came before. */
  lemma ResetNotesForgetsState(s: NotesState)
    ensures Reduce(s, ResetNotes) == NotesState([], None, false, "")
  {
  }

  /** The `*Init` and `*Fail` case reducers are empty, and other slices' actions fall
      through: both leave the state as it is. */
  lemma InitFailAndForeignAreNoops(s: NotesState, a: Action)
    requires a.IsInitOrFail() || a.IsForeign()
    ensures Reduce(s, a) == s
  {
  }

  /** No case reducer ever sets `isCreatingNote` to true; only a hydration payload can. */
  lemma {:induction false} IsCreatingNoteNeverSet(s: NotesState, actions: seq<Action>)
    requires !s.isCreatingNote
    requires forall i :: 0 <= i < |actions| ==> !actions[i].Hydrate?
    ensures !ReduceAll(s, actions).isCreatingNote
    decreases |actions|
  {
    if actions != [] {
      IsCreatingNoteNeverSet(Reduce(s, actions[0]), actions[1..]);
    }
  }

  /** The slice's state as a mutable record: the success case reducers and
      `setSearchQuery` assign its fields in place, as the Immer draft does. */
  class NotesSlice {
    var notes: seq<Note>
    var selected: Option<string>
    var isCreatingNote: bool
    var searchQuery: string

    function State(): NotesState
      reads this
    {
      NotesState(notes, selected, isCreatingNote, searchQuery)
    }

    constructor ()
      ensures State() == InitialState
    {
      notes, selected, isCreatingNote, searchQuery := [], None, false, "";
    }

    method FetchNotesSuccess(collection: seq<Note>)
      modifies this
      ensures notes == collection
      ensures selected == old(selected) && isCreatingNote == old(isCreatingNote) && searchQuery == old(searchQuery)
    {
      notes := collection;
    }

    method CreateNoteSuccess(created: Note)
      modifies this
      ensures notes == [created] + old(notes)
      ensures selected == created.id && !isCreatingNote
      ensures searchQuery == old(searchQuery)
    {
      notes := [created] + notes;
      selected := created.id;
      isCreatingNote := false;
    }

    method UpdateNoteSuccess(updated: Note)
      modifies this
      ensures notes == ReplaceById(old(notes), updated)
      ensures selected == old(selected) && isCreatingNote == old(isCreatingNote) && searchQuery == old(searchQuery)
    {
      notes := ReplaceById(notes, updated);
    }

    method DeleteNoteSuccess(deletedId: string)
      modifies this
      ensures notes == RemoveById(old(notes), deletedId)
      ensures selected == None
      ensures isCreatingNote == old(isCreatingNote) && searchQuery == old(searchQuery)
    {
      notes := RemoveById(notes, deletedId);
      selected := None;
    }

    method SetSearchQuery(query: string)
      modifies this
      ensures searchQuery == query
      ensures notes == old(notes) && selected == old(selected) && isCreatingNote == old(isCreatingNote)
    {
      searchQuery := query;
    }

    /** A case reducer that returns a fresh object (`resetNotes`, `HYDRATE`) makes that
        object the new state. */
    method Become(s: NotesState)
      modifies this
      ensures State() == s
    {
      notes, selected, isCreatingNote, searchQuery := s.notes, s.selected, s.isCreatingNote, s.searchQuery;
    }

    /** The slice reducer applied to the live state. */
    method Dispatch(a: Action)
      modifies this
      ensures State() == Reduce(old(State()), a)
    {
      match a {
        case FetchNotesSuccess(collection) => FetchNotesSuccess(collection);
        case CreateNoteSuccess(created) => CreateNoteSuccess(created);
        case UpdateNoteSuccess(updated) => UpdateNoteSuccess(updated);
        case DeleteNoteSuccess(deletedId) => DeleteNoteSuccess(deletedId);
        case SetSearchQuery(query) => SetSearchQuery(query);
        case ResetNotes => Become(InitialState);
        case Hydrate(patch) => Become(HydrateMerge(State(), patch));
        case _ =>
      }
    }
  }
}
