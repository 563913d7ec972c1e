/** The record types the notes client exchanges with its API. The `Note` interface
    itself is not part of this model's sources; it is reconstructed from the fields
    the reducer, the workflows and the helpers read. */
module Interfaces {

  /** A value that may be absent: JavaScript's `null` and `undefined` both map to `None`. */
  datatype Option<+T> = None | Some(value: T)

  /** A note as the server returns it: `_id` is the database key every lookup and
      update matches on; `id` is a second, optional identifier that `createNoteSuccess`
      copies into `selected`; `folder` refers to the owning folder. */
  datatype Note = Note(_id: string, id: Option<string>, name: string, description: string, folder: string)
}
