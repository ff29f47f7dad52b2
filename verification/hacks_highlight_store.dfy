/**
 * The `Hacks` highlight store: the reader's highlights with their notes, kept
 * as one list that every action replaces with a new one.
 */
module HacksHighlightStore {
  import opened Wrappers
  import Seqs

  datatype HighlightNote = HighlightNote(id: string, lessonId: string, userId: string,
                                         startOffset: int, endOffset: int, selectedText: string,
                                         note: string, voiceNote: Option<string>, color: string,
                                         createdAt: nat, updatedAt: nat)

  /** What `addHighlight` takes: a highlight without id or timestamps. */
  datatype HighlightInput = HighlightInput(lessonId: string, userId: string, startOffset: int, endOffset: int,
                                           selectedText: string, note: string, voiceNote: Option<string>,
                                           color: string)

  /**
   * `Partial<HighlightNote>`: a supplied field replaces the stored one. An
   * `updatedAt` in the updates would be overwritten at once, so it has no field.
   */
  datatype HighlightPatch = HighlightPatch(id: Option<string>, lessonId: Option<string>, userId: Option<string>,
                                           startOffset: Option<int>, endOffset: Option<int>,
                                           selectedText: Option<string>, note: Option<string>,
                                           voiceNote: Option<Option<string>>, color: Option<string>,
                                           createdAt: Option<nat>)

  predicate HasId(hs: seq<HighlightNote>, id: string) {
    exists i :: 0 <= i < |hs| && hs[i].id == id
  }

  /** `addHighlight`: one highlight appended, with the generated id and both timestamps `now`. */
  function AddHighlight(hs: seq<HighlightNote>, input: HighlightInput, id: string, now: nat): (r: seq<HighlightNote>)
    ensures |r| == |hs| + 1 && r[..|hs|] == hs
    ensures r[|hs|] == HighlightNote(id, input.lessonId, input.userId, input.startOffset, input.endOffset,
                                     input.selectedText, input.note, input.voiceNote, input.color, now, now)
  {
    hs + [HighlightNote(id, input.lessonId, input.userId, input.startOffset, input.endOffset,
                        input.selectedText, input.note, input.voiceNote, input.color, now, now)]
  }

  /** `{ ...highlight, ...updates, updatedAt: now }`. */
  function ApplyPatch(h: HighlightNote, p: HighlightPatch, now: nat): (r: HighlightNote)
    ensures r.updatedAt == now
    ensures r.note == p.note.GetOr(h.note) && r.color == p.color.GetOr(h.color)
    ensures r.id == p.id.GetOr(h.id) && r.lessonId == p.lessonId.GetOr(h.lessonId)
  {
    HighlightNote(p.id.GetOr(h.id), p.lessonId.GetOr(h.lessonId), p.userId.GetOr(h.userId),
                  p.startOffset.GetOr(h.startOffset), p.endOffset.GetOr(h.endOffset),
                  p.selectedText.GetOr(h.selectedText), p.note.GetOr(h.note),
                  p.voiceNote.GetOr(h.voiceNote), p.color.GetOr(h.color),
                  p.createdAt.GetOr(h.createdAt), now)
  }

  /** An empty patch only refreshes the timestamp. */
  lemma EmptyPatch(h: HighlightNote, now: nat)
    ensures ApplyPatch(h, HighlightPatch(None, None, None, None, None, None, None, None, None, None), now)
            == h.(updatedAt := now)
  {
  }

  /** `updateHighlight`: every highlight with the id is patched in place; the others are untouched. */
  function UpdateHighlight(hs: seq<HighlightNote>, id: string, p: HighlightPatch, now: nat): (r: seq<HighlightNote>)
    ensures |r| == |hs|
    ensures forall i :: 0 <= i < |hs| && hs[i].id == id ==> r[i] == ApplyPatch(hs[i], p, now)
    ensures forall i :: 0 <= i < |hs| && hs[i].id != id ==> r[i] == hs[i]
  {
    seq(|hs|, i requires 0 <= i < |hs| => if hs[i].id == id then ApplyPatch(hs[i], p, now) else hs[i])
  }

  /** Updating an id no highlight has changes nothing. */
  lemma UpdateMissing(hs: seq<HighlightNote>, id: string, p: HighlightPatch, now: nat)
    requires !HasId(hs, id)
    ensures UpdateHighlight(hs, id, p, now) == hs
  {
  }

  /** `deleteHighlight`: the highlights without that id, in their order. */
  function DeleteHighlight(hs: seq<HighlightNote>, id: string): (r: seq<HighlightNote>)
    ensures !HasId(r, id)
    ensures forall i :: 0 <= i < |hs| && hs[i].id != id ==> hs[i] in r
    ensures Seqs.IsSubsequence(r, hs)
  {
    var r := Seqs.Filter(hs, (h: HighlightNote) => h.id != id);
    Seqs.FilterIsSubsequence(hs, (h: HighlightNote) => h.id != id);
    r
  }

  /** Adding a highlight under an unused id and deleting that id gives the list back. */
  lemma AddThenDelete(hs: seq<HighlightNote>, input: HighlightInput, id: string, now: nat)
    requires !HasId(hs, id)
    ensures DeleteHighlight(AddHighlight(hs, input, id, now), id) == hs
  {
    var keep := (h: HighlightNote) => h.id != id;
    var added := AddHighlight(hs, input, id, now);
    assert added == hs + [added[|hs|]];
    Seqs.FilterAppend(hs, [added[|hs|]], keep);
    Seqs.FilterAll(hs, keep);
    Seqs.FilterNone([added[|hs|]], keep);
  }

  /** `getHighlightsForLesson`: exactly that lesson's highlights, in store order. */
  function ForLesson(hs: seq<HighlightNote>, lessonId: string): (r: seq<HighlightNote>)
    ensures forall i :: 0 <= i < |r| ==> r[i].lessonId == lessonId
    ensures forall i :: 0 <= i < |hs| && hs[i].lessonId == lessonId ==> hs[i] in r
    ensures Seqs.IsSubsequence(r, hs)
  {
    Seqs.FilterIsSubsequence(hs, (h: HighlightNote) => h.lessonId == lessonId);
    Seqs.Filter(hs, (h: HighlightNote) => h.lessonId == lessonId)
  }

  /** A new highlight shows up at the end of its own lesson's list and in no other. */
  lemma AddShowsInLesson(hs: seq<HighlightNote>, input: HighlightInput, id: string, now: nat, lessonId: string)
    ensures ForLesson(AddHighlight(hs, input, id, now), lessonId)
            == ForLesson(hs, lessonId) + (if input.lessonId == lessonId then [AddHighlight(hs, input, id, now)[|hs|]] else [])
  {
    var added := AddHighlight(hs, input, id, now);
    assert added == hs + [added[|hs|]];
    Seqs.FilterAppend(hs, [added[|hs|]], (h: HighlightNote) => h.lessonId == lessonId);
  }

  /** `clearHighlights`. */
  function ClearHighlights(hs: seq<HighlightNote>): (r: seq<HighlightNote>)
    ensures |r| == 0 && forall id :: !HasId(r, id)
  {
    []
  }
}
