/**
 * The dashboard's quick notes: a list of notes, a draft, and an "adding" switch. Adding prepends
 * the draft as a new note unless it is blank; deleting removes the notes with a given id.
 */
module StickyNotes {
  import Js
  import Seqs

  /** A note; its id is the creation time in milliseconds written in decimal. */
  datatype Note = Note(id: string, content: string, createdAt: string)

  function IdIsNot(id: string): Note -> bool {
    (n: Note) => n.id != id
  }

  /** The notes without those carrying `id`, in their order. */
  function WithoutId(notes: seq<Note>, id: string): (r: seq<Note>)
    ensures |r| <= |notes|
    ensures forall i :: 0 <= i < |r| ==> r[i].id != id
  {
    Seqs.Filter(notes, IdIsNot(id))
  }

  /** Every occurrence of a note with another id survives the deletion. */
  lemma WithoutIdKeepsOthers(notes: seq<Note>, id: string, n: Note)
    requires n.id != id
    ensures multiset(WithoutId(notes, id))[n] == multiset(notes)[n]
  {
    Seqs.FilterCount(notes, IdIsNot(id), n);
  }

  /** Deleting an id no note carries changes nothing. */
  lemma WithoutAbsentId(notes: seq<Note>, id: string)
    requires forall i :: 0 <= i < |notes| ==> notes[i].id != id
    ensures WithoutId(notes, id) == notes
  {
    Seqs.FilterKeepsAll(notes, IdIsNot(id));
  }

  /** Deleting the same id twice is deleting it once. */
  lemma WithoutIdIdempotent(notes: seq<Note>, id: string)
    ensures WithoutId(WithoutId(notes, id), id) == WithoutId(notes, id)
  {
    WithoutAbsentId(WithoutId(notes, id), id);
  }

  class StickyNotesBoard {
    var notes: seq<Note>
    var newNote: string
    var isAdding: bool

    constructor(initialNotes: seq<Note>)
      ensures notes == initialNotes && newNote == "" && !isAdding
    {
      notes, newNote, isAdding := initialNotes, "", false;
    }

    method SetDraft(text: string)
      modifies this
      ensures newNote == text && notes == old(notes) && isAdding == old(isAdding)
    {
      newNote := text;
    }

    /** The "+" button flips the adding switch. */
    method ToggleAdding()
      modifies this
      ensures isAdding == !old(isAdding) && notes == old(notes) && newNote == old(newNote)
    {
      isAdding := !isAdding;
    }

    /**
     * "Add Note" at time `now`: a blank draft changes nothing; otherwise the untrimmed draft is
     * prepended as a new note, and the draft and the adding switch are cleared.
     */
    method AddNote(now: int)
      modifies this
      ensures Js.IsBlank(old(newNote)) ==> notes == old(notes) && newNote == old(newNote) && isAdding == old(isAdding)
      ensures !Js.IsBlank(old(newNote)) ==>
        notes == [Note(Js.IntToString(now), old(newNote), "Just now")] + old(notes) && newNote == "" && !isAdding
      ensures |notes| == |old(notes)| + (if Js.IsBlank(old(newNote)) then 0 else 1)
    {
      Js.TrimEmptyIffBlank(newNote);
      if Js.Trim(newNote) != "" {
        notes := [Note(Js.IntToString(now), newNote, "Just now")] + notes;
        newNote := "";
        isAdding := false;
      }
    }

    /** The delete button of a note: every note with that id goes, the others stay in order. */
    method DeleteNote(id: string)
      modifies this
      ensures notes == WithoutId(old(notes), id)
      ensures newNote == old(newNote) && isAdding == old(isAdding)
    {
      notes := Seqs.Filter(notes, IdIsNot(id));
    }

    /** "Cancel" closes the adding form and drops the draft; the notes stay. */
    method Cancel()
      modifies this
      ensures !isAdding && newNote == "" && notes == old(notes)
    {
      isAdding := false;
      newNote := "";
    }
  }
}
