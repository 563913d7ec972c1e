/** The two pure helpers of the client that the notes views rely on: cutting a
    description down to its first line and looking a note up by `_id`. */
module Helpers {
  import opened Interfaces

  /** The position of the first `c` in `s`. */
  function IndexOf(s: string, c: char): (i: nat)
    requires c in s
    ensures i < |s| && s[i] == c
    ensures c !in s[..i]
  {
    if s[0] == c then 0 else 1 + IndexOf(s[1..], c)
  }

  /** JavaScript's `s.split(sep)` for a one-character separator: the pieces between
      consecutive separators, so always one more piece than there are separators. */
  function Split(s: string, sep: char): (parts: seq<string>)
    ensures |parts| == multiset(s)[sep] + 1
    ensures forall k :: 0 <= k < |parts| ==> sep !in parts[k]
    decreases |s|
  {
    if sep in s then
      var i := IndexOf(s, sep);
      assert s == s[..i] + [sep] + s[i + 1..];
      [s[..i]] + Split(s[i + 1..], sep)
    else
      [s]
  }

  /** `parts.join(sep)`. */
  function Join(parts: seq<string>, sep: char): string
    requires |parts| >= 1
  {
    if |parts| == 1 then parts[0] else parts[0] + [sep] + Join(parts[1..], sep)
  }

  /** Splitting loses nothing: joining the pieces back gives the original string. */
  lemma {:induction false} JoinSplit(s: string, sep: char)
    ensures Join(Split(s, sep), sep) == s
    decreases |s|
  {
    if sep in s {
      var i := IndexOf(s, sep);
      JoinSplit(s[i + 1..], sep);
      assert s == s[..i] + [sep] + s[i + 1..];
    }
  }

  /** `renderDescriptionFirstLine`: the description up to its first line break. */
  function RenderDescriptionFirstLine(description: string): (line: string)
    ensures '\n' !in description ==> line == description
    ensures '\n' in description ==> line == description[..IndexOf(description, '\n')]
    ensures line <= description
    ensures '\n' !in line
  {
    if '\n' in description then Split(description, '\n')[0] else description
  }

  /** Rendering an already rendered line changes nothing, and never lengthens it. */
  lemma RenderDescriptionFirstLineIdempotent(description: string)
    ensures RenderDescriptionFirstLine(RenderDescriptionFirstLine(description)) == RenderDescriptionFirstLine(description)
    ensures |RenderDescriptionFirstLine(description)| <= |description|
  {
  }

  /** `findNote`: `notes.find(note => note._id === noteId)`, the first note with that
      `_id`, or nothing when there is none. */
  function FindNote(notes: seq<Note>, noteId: string): (found: Option<Note>)
    ensures found.None? <==> forall i :: 0 <= i < |notes| ==> notes[i]._id != noteId
    ensures found.Some? ==>
      exists i :: 0 <= i < |notes| && notes[i] == found.value && found.value._id == noteId &&
        forall j :: 0 <= j < i ==> notes[j]._id != noteId
  {
    if notes == [] then None
    else if notes[0]._id == noteId then Some(notes[0])
    else FindNote(notes[1..], noteId)
  }
}
