/**
 * The two counts every text analysis starts from: the non-blank sentences
 * between runs of `.`, `!` and `?`, and the lower-cased `\w+` words.
 */
module TextStats {
  import opened Strings
  import Seqs

  /** `s.trim()` is truthy. */
  predicate NonBlank(s: string) { !AllSpace(s) }

  /** `text.split(/[.!?]+/).filter(s => s.trim())`. */
  function Sentences(text: string): (r: seq<string>)
    ensures forall i :: 0 <= i < |r| ==> NonBlank(r[i])
  {
    Seqs.Filter(SplitSentences(text), NonBlank)
  }

  /** `text.toLowerCase().match(/\b\w+\b/g) || []`. */
  function TextWords(text: string): (r: seq<string>)
    ensures forall k :: 0 <= k < |r| ==> |r[k]| > 0
  {
    Words(LowerStr(text))
  }

  /** A string holding a `\w` character is not blank. */
  lemma WordCharNotBlank(s: string, c: char)
    requires c in s && IsWordChar(c)
    ensures NonBlank(s)
  {
    var j :| 0 <= j < |s| && s[j] == c;
    assert !IsSpace(s[j]);
  }

  /** The sentence around a word character is kept, so there is a non-blank sentence. */
  lemma SentenceAround(text: string, i: nat)
    requires i < |text| && IsWordChar(text[i])
    ensures Sentences(text) != []
  {
    SplitRunsCovers(text, IsSentenceEnd, i);
    var parts := SplitSentences(text);
    var k :| 0 <= k < |parts| && text[i] in parts[k];
    WordCharNotBlank(parts[k], text[i]);
  }

  /** Text that has a word also has a non-blank sentence, so words per sentence is never 0/0 then. */
  lemma WordsNeedSentences(text: string)
    ensures TextWords(text) != [] ==> Sentences(text) != []
  {
    if TextWords(text) != [] {
      WordsEmpty(LowerStr(text));
      var i :| 0 <= i < |text| && IsWordChar(LowerStr(text)[i]);
      assert IsWordChar(text[i]);
      SentenceAround(text, i);
    }
  }
}
