/**
 * The `src` notes store: highlights and notes grouped by lesson id. Every
 * action builds new tables; a lesson with no entry reads as an empty list.
 */
module SrcNotesStore {
  import opened Wrappers
  import Seqs

  datatype NoteHighlight = NoteHighlight(id: string, lessonId: string, userId: string, text: string,
                                         startOffset: int, endOffset: int, color: string, createdAt: int,
                                         note: Option<string>)

  datatype Note = Note(id: string, lessonId: string, userId: string, content: string, position: int,
                       highlightId: Option<string>, createdAt: int, updatedAt: int)

  datatype NotesState = NotesState(highlights: map<string, seq<NoteHighlight>>, notes: map<string, seq<Note>>)

  const Empty := NotesState(map[], map[])

  /** `table[lessonId] || []`. */
  function Get<T>(table: map<string, seq<T>>, lessonId: string): (r: seq<T>)
    ensures lessonId !in table ==> r == []
  {
    if lessonId in table then table[lessonId] else []
  }

  /** Appending to one lesson's list: that list grows by the item, every other lesson's list stays. */
  function Append<T>(table: map<string, seq<T>>, lessonId: string, x: T): (r: map<string, seq<T>>)
    ensures Get(r, lessonId) == Get(table, lessonId) + [x]
    ensures forall k :: k != lessonId ==> Get(r, k) == Get(table, k)
    ensures r.Keys == table.Keys + {lessonId}
  {
    table[lessonId := Get(table, lessonId) + [x]]
  }

  /**
   * Filtering one lesson's list: the entries that pass stay in order, the
   * others go, and every other lesson's list stays. The lesson gets an
   * entry even if it had none.
   */
  function Remove<T(==)>(table: map<string, seq<T>>, lessonId: string, keep: T -> bool): (r: map<string, seq<T>>)
    ensures Get(r, lessonId) == Seqs.Filter(Get(table, lessonId), keep)
    ensures Seqs.IsSubsequence(Get(r, lessonId), Get(table, lessonId))
    ensures forall k :: k != lessonId ==> Get(r, k) == Get(table, k)
    ensures r.Keys == table.Keys + {lessonId}
  {
    Seqs.FilterIsSubsequence(Get(table, lessonId), keep);
    table[lessonId := Seqs.Filter(Get(table, lessonId), keep)]
  }

  /** Appending an item the filter drops, then filtering, gives back the filtered list. */
  lemma AppendThenRemove<T>(table: map<string, seq<T>>, lessonId: string, x: T, keep: T -> bool)
    requires !keep(x)
    ensures Get(Remove(Append(table, lessonId, x), lessonId, keep), lessonId) == Seqs.Filter(Get(table, lessonId), keep)
  {
    Seqs.FilterAppend(Get(table, lessonId), [x], keep);
  }

  predicate HasHighlightId(hs: seq<NoteHighlight>, id: string) {
    exists i :: 0 <= i < |hs| && hs[i].id == id
  }

  predicate HasNoteId(ns: seq<Note>, id: string) {
    exists i :: 0 <= i < |ns| && ns[i].id == id
  }

  /** `addHighlight`. */
  function AddHighlight(s: NotesState, lessonId: string, h: NoteHighlight): (r: NotesState)
    ensures GetHighlights(r, lessonId) == GetHighlights(s, lessonId) + [h]
    ensures forall k :: k != lessonId ==> GetHighlights(r, k) == GetHighlights(s, k)
    ensures r.notes == s.notes
  {
    s.(highlights := Append(s.highlights, lessonId, h))
  }

  /** `addNote`. */
  function AddNote(s: NotesState, lessonId: string, n: Note): (r: NotesState)
    ensures GetNotes(r, lessonId) == GetNotes(s, lessonId) + [n]
    ensures forall k :: k != lessonId ==> GetNotes(r, k) == GetNotes(s, k)
    ensures r.highlights == s.highlights
  {
    s.(notes := Append(s.notes, lessonId, n))
  }

  /** `removeHighlight`: every highlight with the id leaves that lesson's list; the rest keep their order. */
  function RemoveHighlight(s: NotesState, lessonId: string, id: string): (r: NotesState)
    ensures !HasHighlightId(GetHighlights(r, lessonId), id)
    ensures Seqs.IsSubsequence(GetHighlights(r, lessonId), GetHighlights(s, lessonId))
    ensures forall i :: 0 <= i < |GetHighlights(s, lessonId)| && GetHighlights(s, lessonId)[i].id != id
                        ==> GetHighlights(s, lessonId)[i] in GetHighlights(r, lessonId)
    ensures forall k :: k != lessonId ==> GetHighlights(r, k) == GetHighlights(s, k)
    ensures r.notes == s.notes
  {
    s.(highlights := Remove(s.highlights, lessonId, (h: NoteHighlight) => h.id != id))
  }

  /** `removeNote`: as `removeHighlight`, on the notes. */
  function RemoveNote(s: NotesState, lessonId: string, id: string): (r: NotesState)
    ensures !HasNoteId(GetNotes(r, lessonId), id)
    ensures Seqs.IsSubsequence(GetNotes(r, lessonId), GetNotes(s, lessonId))
    ensures forall i :: 0 <= i < |GetNotes(s, lessonId)| && GetNotes(s, lessonId)[i].id != id
                        ==> GetNotes(s, lessonId)[i] in GetNotes(r, lessonId)
    ensures forall k :: k != lessonId ==> GetNotes(r, k) == GetNotes(s, k)
    ensures r.highlights == s.highlights
  {
    s.(notes := Remove(s.notes, lessonId, (n: Note) => n.id != id))
  }

  /** `getHighlights`: that lesson's list, empty for a lesson never touched. */
  function GetHighlights(s: NotesState, lessonId: string): (r: seq<NoteHighlight>)
    ensures lessonId !in s.highlights ==> r == []
  {
    Get(s.highlights, lessonId)
  }

  /** `getNotes`. */
  function GetNotes(s: NotesState, lessonId: string): (r: seq<Note>)
    ensures lessonId !in s.notes ==> r == []
  {
    Get(s.notes, lessonId)
  }

  /** A highlight added under a fresh id and then removed leaves the lesson's list as it was. */
  lemma AddThenRemoveHighlight(s: NotesState, lessonId: string, h: NoteHighlight)
    requires !HasHighlightId(GetHighlights(s, lessonId), h.id)
    ensures GetHighlights(RemoveHighlight(AddHighlight(s, lessonId, h), lessonId, h.id), lessonId)
            == GetHighlights(s, lessonId)
  {
    var keep := (x: NoteHighlight) => x.id != h.id;
    AppendThenRemove(s.highlights, lessonId, h, keep);
    Seqs.FilterAll(Get(s.highlights, lessonId), keep);
  }

  /** A note added under a fresh id and then removed leaves the lesson's list as it was. */
  lemma AddThenRemoveNote(s: NotesState, lessonId: string, n: Note)
    requires !HasNoteId(GetNotes(s, lessonId), n.id)
    ensures GetNotes(RemoveNote(AddNote(s, lessonId, n), lessonId, n.id), lessonId) == GetNotes(s, lessonId)
  {
    var keep := (x: Note) => x.id != n.id;
    AppendThenRemove(s.notes, lessonId, n, keep);
    Seqs.FilterAll(Get(s.notes, lessonId), keep);
  }
}
