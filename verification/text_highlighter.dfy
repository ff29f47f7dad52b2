/**
 * The `src` text highlighter: it splices coloured `<mark>` elements into a
 * lesson's text at the stored highlight offsets, and turns the reader's
 * selection into new highlights and notes. The markdown-to-HTML rewriting
 * applied to the result is taken as a given function `format`.
 */
module TextHighlighter {
  import opened Wrappers
  import Seqs
  import Strings
  import opened SrcNotesStore

  /** The five swatches offered for a new highlight. */
  const HighlightColors: seq<string> := ["#ffeb3b", "#4caf50", "#2196f3", "#ff9800", "#e91e63"]

  /** One stretch of the spliced text: lesson text copied as is, or a highlight. */
  datatype Piece = Gap(text: string) | Marked(color: string, text: string)

  const MarkOpen := "<mark style=\"background-color: "
  const MarkAfterColor := "\">"
  const MarkClose := "</mark>"

  function Html(p: Piece): string {
    match p
    case Gap(t) => t
    case Marked(color, t) => MarkOpen + color + MarkAfterColor + t + MarkClose
  }

  /** The pieces written out as HTML, in order. */
  function Render(ps: seq<Piece>): string {
    if ps == [] then "" else Html(ps[0]) + Render(ps[1..])
  }

  /** The pieces with every mark replaced by the text inside it. */
  function Plain(ps: seq<Piece>): string {
    if ps == [] then "" else ps[0].text + Plain(ps[1..])
  }

  function NegStart(h: NoteHighlight): int {
    -h.startOffset
  }

  /**
   * `[...highlights].sort((a, b) => a.startOffset - b.startOffset)`: a stable
   * ascending sort on a copy; highlights with one start keep their order.
   */
  function SortByStart(hs: seq<NoteHighlight>): (r: seq<NoteHighlight>)
    ensures forall i, j :: 0 <= i < j < |r| ==> r[i].startOffset <= r[j].startOffset
    ensures multiset(r) == multiset(hs) && |r| == |hs|
    ensures forall i :: 0 <= i < |r| ==> r[i] in hs
    ensures forall v :: Seqs.Filter(r, Seqs.KeyIs(NegStart, v)) == Seqs.Filter(hs, Seqs.KeyIs(NegStart, v))
  {
    var r := Seqs.SortDesc(hs, NegStart);
    assert forall i :: 0 <= i < |r| ==> r[i] in multiset(hs);
    forall v ensures Seqs.Filter(r, Seqs.KeyIs(NegStart, v)) == Seqs.Filter(hs, Seqs.KeyIs(NegStart, v)) {
      Seqs.SortDescStable(hs, NegStart, v);
    }
    r
  }

  /**
   * The pieces the splice loop produces from offset `last` on: the text
   * since the previous highlight ended, the highlight's stored colour and
   * text, and so on; after the last highlight the rest of the text.
   */
  function Pieces(c: string, hs: seq<NoteHighlight>, last: int): (r: seq<Piece>)
    ensures |r| == 2 * |hs| + 1
  {
    if hs == [] then [Gap(Strings.Slice(c, last, |c|))]
    else [Gap(Strings.Slice(c, last, hs[0].startOffset)), Marked(hs[0].color, hs[0].text)]
         + Pieces(c, hs[1..], hs[0].endOffset)
  }

  /** Where highlight i's gap starts: `last` for the first, the previous highlight's end otherwise. */
  function GapStart(hs: seq<NoteHighlight>, last: int, i: nat): int
    requires i <= |hs|
  {
    if i == 0 then last else hs[i - 1].endOffset
  }

  /** The i-th mark is the i-th highlight's stored colour and text, not the text it covers. */
  lemma {:induction false} PiecesMarks(c: string, hs: seq<NoteHighlight>, last: int)
    ensures forall i :: 0 <= i < |hs| ==> Pieces(c, hs, last)[2 * i + 1] == Marked(hs[i].color, hs[i].text)
  {
    if hs != [] {
      var rest := Pieces(c, hs[1..], hs[0].endOffset);
      PiecesMarks(c, hs[1..], hs[0].endOffset);
      forall i | 1 <= i < |hs| ensures Pieces(c, hs, last)[2 * i + 1] == Marked(hs[i].color, hs[i].text) {
        assert Pieces(c, hs, last)[2 * i + 1] == rest[2 * (i - 1) + 1];
      }
    }
  }

  /** Where highlight i's gap ends: at its start, or at the end of the text after the last highlight. */
  function GapEnd(c: string, hs: seq<NoteHighlight>, i: nat): int
    requires i <= |hs|
  {
    if i < |hs| then hs[i].startOffset else |c|
  }

  /**
   * The text before the i-th mark is copied from the lesson between the end
   * of the previous highlight and the start of this one, and after the last
   * mark comes the rest of the lesson.
   */
  lemma {:induction false} PiecesGaps(c: string, hs: seq<NoteHighlight>, last: int)
    ensures forall i :: 0 <= i <= |hs| ==>
              Pieces(c, hs, last)[2 * i] == Gap(Strings.Slice(c, GapStart(hs, last, i), GapEnd(c, hs, i)))
  {
    if hs != [] {
      var ps := Pieces(c, hs, last);
      var rest := Pieces(c, hs[1..], hs[0].endOffset);
      assert ps == [ps[0], ps[1]] + rest;
      PiecesGaps(c, hs[1..], hs[0].endOffset);
      forall i | 1 <= i <= |hs|
        ensures ps[2 * i] == Gap(Strings.Slice(c, GapStart(hs, last, i), GapEnd(c, hs, i)))
      {
        var j := i - 1;
        assert ps[2 * i] == rest[2 * j];
        assert GapStart(hs, last, i) == GapStart(hs[1..], hs[0].endOffset, j);
        assert GapEnd(c, hs, i) == GapEnd(c, hs[1..], j);
      }
    }
  }

  /** Highlights that lie inside the text, each starting no earlier than the previous one ended. */
  predicate Disjoint(c: string, hs: seq<NoteHighlight>, last: int) {
    (forall i :: 0 <= i < |hs| ==> 0 <= hs[i].startOffset <= hs[i].endOffset <= |c|)
    && (hs != [] ==> 0 <= last <= hs[0].startOffset)
    && (forall i :: 0 < i < |hs| ==> hs[i - 1].endOffset <= hs[i].startOffset)
  }

  /** The highlights after the first are disjoint from the end of the first on. */
  lemma DisjointTail(c: string, hs: seq<NoteHighlight>, last: int)
    requires hs != [] && Disjoint(c, hs, last)
    ensures Disjoint(c, hs[1..], hs[0].endOffset)
  {
    var t := hs[1..];
    forall i | 0 <= i < |t| ensures t[i] == hs[i + 1] { }
    if t != [] {
      assert hs[0].endOffset <= hs[1].startOffset;
    }
  }

  /** Every highlight's stored text is the stretch of the text it covers. */
  predicate TextsMatch(c: string, hs: seq<NoteHighlight>) {
    forall i :: 0 <= i < |hs| ==> 0 <= hs[i].startOffset <= hs[i].endOffset <= |c|
                                  && hs[i].text == c[hs[i].startOffset..hs[i].endOffset]
  }

  lemma TextsMatchTail(c: string, hs: seq<NoteHighlight>)
    requires hs != [] && TextsMatch(c, hs)
    ensures TextsMatch(c, hs[1..])
  {
    forall i | 0 <= i < |hs| - 1 ensures hs[1..][i] == hs[i + 1] { }
  }

  /**
   * For in-bounds, ordered, non-overlapping highlights whose stored text is
   * what they cover, removing the mark tags gives back the text from `last` on.
   */
  lemma {:induction false} PlainRecoversContent(c: string, hs: seq<NoteHighlight>, last: int)
    requires 0 <= last <= |c|
    requires Disjoint(c, hs, last) && TextsMatch(c, hs)
    ensures Plain(Pieces(c, hs, last)) == c[last..]
  {
    if hs == [] {
      assert Strings.Slice(c, last, |c|) == c[last..];
      assert Plain(Pieces(c, hs, last)) == c[last..] + Plain([]);
    } else {
      var h := hs[0];
      DisjointTail(c, hs, last);
      TextsMatchTail(c, hs);
      PlainRecoversContent(c, hs[1..], h.endOffset);
      PlainStep(c, hs, last);
      JoinThree(c, last, h.startOffset, h.endOffset, Strings.Slice(c, last, h.startOffset), h.text,
                Plain(Pieces(c, hs[1..], h.endOffset)));
    }
  }

  /** Three adjacent stretches of a text joined are the text from the first one's start on. */
  lemma JoinThree(c: string, a: int, b: int, e: int, gap: string, text: string, rest: string)
    requires 0 <= a <= b <= e <= |c|
    requires gap == c[a..b] && text == c[b..e] && rest == c[e..]
    ensures gap + text + rest == c[a..]
  {
    assert c[a..b] + c[b..e] == c[a..e];
  }

  /** Removing the tags from the pieces from the next highlight on: its gap, its stored text, then the rest. */
  lemma PlainStep(c: string, hs: seq<NoteHighlight>, last: int)
    requires hs != []
    ensures Plain(Pieces(c, hs, last))
            == Strings.Slice(c, last, hs[0].startOffset) + hs[0].text + Plain(Pieces(c, hs[1..], hs[0].endOffset))
  {
    var ps := Pieces(c, hs, last);
    var rest := Pieces(c, hs[1..], hs[0].endOffset);
    assert ps[1..][1..] == rest;
    assert Plain(ps[1..]) == hs[0].text + Plain(rest);
    assert Plain(ps) == Strings.Slice(c, last, hs[0].startOffset) + Plain(ps[1..]);
  }

  /** Rendering the pieces from the next highlight on: its gap, its mark, then the rest. */
  lemma RenderStep(c: string, hs: seq<NoteHighlight>, last: int)
    requires hs != []
    ensures Render(Pieces(c, hs, last))
            == Strings.Slice(c, last, hs[0].startOffset) + Html(Marked(hs[0].color, hs[0].text))
               + Render(Pieces(c, hs[1..], hs[0].endOffset))
  {
    var ps := Pieces(c, hs, last);
    var rest := Pieces(c, hs[1..], hs[0].endOffset);
    assert ps[1..][1..] == rest;
    assert Render(ps[1..]) == Html(Marked(hs[0].color, hs[0].text)) + Render(rest);
    assert Render(ps) == Strings.Slice(c, last, hs[0].startOffset) + Render(ps[1..]);
  }

  /** One turn of the splice loop: the gap and the mark move from the pieces still to render to the result. */
  lemma SpliceStep(c: string, hs: seq<NoteHighlight>, i: nat, last: int, result: string)
    requires i < |hs|
    ensures result + Render(Pieces(c, hs[i..], last))
            == result + Strings.Slice(c, last, hs[i].startOffset) + Html(Marked(hs[i].color, hs[i].text))
               + Render(Pieces(c, hs[i + 1..], hs[i].endOffset))
  {
    RenderStep(c, hs[i..], last);
    assert hs[i..][1..] == hs[i + 1..];
  }

  /** After the last highlight only the rest of the text is rendered. */
  lemma RenderTail(c: string, last: int)
    ensures Render(Pieces(c, [], last)) == Strings.Slice(c, last, |c|)
  {
    assert Render(Pieces(c, [], last)) == Strings.Slice(c, last, |c|) + Render([]);
  }

  /** The splice loop over highlights already in order, before formatting. */
  method Splice(content: string, sorted: seq<NoteHighlight>) returns (result: string)
    ensures result == Render(Pieces(content, sorted, 0))
  {
    result := "";
    var lastOffset := 0;
    var i := 0;
    while i < |sorted|
      invariant 0 <= i <= |sorted|
      invariant result + Render(Pieces(content, sorted[i..], lastOffset)) == Render(Pieces(content, sorted, 0))
    {
      var h := sorted[i];
      SpliceStep(content, sorted, i, lastOffset, result);
      var mark := MarkOpen + h.color + MarkAfterColor + h.text + MarkClose;
      assert mark == Html(Marked(h.color, h.text));
      result := result + Strings.Slice(content, lastOffset, h.startOffset) + mark;
      lastOffset := h.endOffset;
      i := i + 1;
    }
    RenderTail(content, lastOffset);
    assert sorted[i..] == [];
    result := result + Strings.Slice(content, lastOffset, |content|);
  }

  /**
   * `renderContentWithHighlights`: with no highlights the text is only
   * formatted; otherwise the highlights are spliced in ascending start
   * order and the result is formatted.
   */
  method RenderContentWithHighlights(content: string, highlights: seq<NoteHighlight>, format: string -> string)
    returns (html: string)
    ensures |highlights| == 0 ==> html == format(content)
    ensures |highlights| > 0 ==> html == format(Render(Pieces(content, SortByStart(highlights), 0)))
  {
    if |highlights| == 0 {
      return format(content);
    }
    var spliced := Splice(content, SortByStart(highlights));
    html := format(spliced);
  }

  /** What the reader has selected: the text and its offsets. */
  datatype Selection = Selection(text: string, startOffset: int, endOffset: int)

  /** The component's own state for one lesson and reader. */
  class Highlighter {
    const lessonId: string
    const userId: string
    var selectedText: Option<Selection>
    var showNoteInput: bool
    var noteContent: string

    constructor(lessonId: string, userId: string)
      ensures this.lessonId == lessonId && this.userId == userId
      ensures selectedText == None && !showNoteInput && noteContent == ""
    {
      this.lessonId := lessonId;
      this.userId := userId;
      selectedText := None;
      showNoteInput := false;
      noteContent := "";
    }

    /** `handleTextSelection`: a selection is kept only if its text is not blank. */
    method HandleTextSelection(selection: Option<Selection>)
      modifies this
      ensures selection.Some? && Strings.Trim(selection.value.text) != "" ==> selectedText == selection
      ensures !(selection.Some? && Strings.Trim(selection.value.text) != "") ==> selectedText == old(selectedText)
      ensures showNoteInput == old(showNoteInput) && noteContent == old(noteContent)
    {
      if selection.Some? && Strings.Trim(selection.value.text) != "" {
        selectedText := selection;
      }
    }

    /**
     * `createHighlight`: without a selection nothing is emitted and nothing
     * changes; otherwise the selection becomes a highlight in the given
     * colour and is cleared.
     */
    method CreateHighlight(color: string, id: string, createdAt: int) returns (emitted: Option<NoteHighlight>)
      modifies this
      ensures old(selectedText).None? ==> emitted.None? && selectedText == None
      ensures old(selectedText).Some? ==>
                emitted == Some(NoteHighlight(id, lessonId, userId, old(selectedText).value.text,
                                              old(selectedText).value.startOffset, old(selectedText).value.endOffset,
                                              color, createdAt, None))
                && selectedText == None
      ensures showNoteInput == old(showNoteInput) && noteContent == old(noteContent)
    {
      if selectedText.None? {
        return None;
      }
      var s := selectedText.value;
      emitted := Some(NoteHighlight(id, lessonId, userId, s.text, s.startOffset, s.endOffset, color, createdAt, None));
      selectedText := None;
    }

    /** The 'Add Note' button: the note editor opens. */
    method OpenNoteInput()
      modifies this
      ensures showNoteInput && selectedText == old(selectedText) && noteContent == old(noteContent)
    {
      showNoteInput := true;
    }

    /** Typing in the note editor. */
    method SetNoteContent(text: string)
      modifies this
      ensures noteContent == text && selectedText == old(selectedText) && showNoteInput == old(showNoteInput)
    {
      noteContent := text;
    }

    /** 'Cancel': the editor closes; the text typed so far is kept. */
    method CancelNote()
      modifies this
      ensures !showNoteInput && selectedText == old(selectedText) && noteContent == old(noteContent)
    {
      showNoteInput := false;
    }

    /**
     * `addNote`: a note that is blank once trimmed is not saved and nothing
     * changes. Otherwise a note at the selection's start (0 without one), with
     * no highlight attached, is emitted, and the editor and selection reset.
     */
    method AddNote(id: string, now: int) returns (emitted: Option<Note>)
      modifies this
      ensures Strings.Trim(old(noteContent)) == "" ==>
                emitted.None? && selectedText == old(selectedText) && showNoteInput == old(showNoteInput)
                && noteContent == old(noteContent)
      ensures Strings.Trim(old(noteContent)) != "" ==>
                emitted.Some? && emitted.value.content == old(noteContent)
                && emitted.value.position == (if old(selectedText).Some? then old(selectedText).value.startOffset else 0)
                && emitted.value.highlightId.None?
                && emitted.value == Note(id, lessonId, userId, old(noteContent), emitted.value.position, None, now, now)
                && noteContent == "" && !showNoteInput && selectedText == None
    {
      if Strings.Trim(noteContent) == "" {
        return None;
      }
      var position := if selectedText.Some? then selectedText.value.startOffset else 0;
      emitted := Some(Note(id, lessonId, userId, noteContent, position, None, now, now));
      noteContent := "";
      showNoteInput := false;
      selectedText := None;
    }
  }
}
