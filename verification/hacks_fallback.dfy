/** The `Hacks` offline stand-in for the AI service: a three-sentence summary and a translation notice. */
module HacksFallback {
  import opened Strings
  import Seqs

  predicate NonBlank(s: string) { |Trim(s)| > 0 }

  /** `text.split(/[.!?]+/).filter(s => s.trim().length > 0)`. */
  function Sentences(text: string): seq<string> {
    Seqs.Filter(SplitSentences(text), NonBlank)
  }

  /**
   * `s.reduce((longest, current) => current.length > longest.length ? current : longest, acc)`:
   * the first entry strictly longer than everything before it and `acc`
   * that no later entry beats, or `acc` when no entry is longer than it.
   */
  function LongestFrom(s: seq<string>, acc: string): (r: string)
    ensures |r| >= |acc| && forall i :: 0 <= i < |s| ==> |s[i]| <= |r|
    ensures r == acc || (r in s && |r| > |acc|)
    ensures (forall i :: 0 <= i < |s| ==> |s[i]| <= |acc|) ==> r == acc
  {
    if s == [] then acc
    else
      var next := if |s[0]| > |acc| then s[0] else acc;
      assert forall i :: 1 <= i < |s| ==> s[i] == s[1..][i - 1];
      LongestFrom(s[1..], next)
  }

  /** On a tie the earliest entry wins: every entry before the one returned is strictly shorter. */
  lemma {:induction false} LongestFromIsFirst(s: seq<string>, acc: string)
    ensures var r := LongestFrom(s, acc);
            r == acc || exists i :: 0 <= i < |s| && r == s[i] && |r| > |acc|
                                   && forall j :: 0 <= j < i ==> |s[j]| < |r|
  {
    if s != [] {
      var next := if |s[0]| > |acc| then s[0] else acc;
      var r := LongestFrom(s[1..], next);
      LongestFromIsFirst(s[1..], next);
      if r != next {
        var i :| 0 <= i < |s[1..]| && r == s[1..][i] && |r| > |next|
                 && forall j :: 0 <= j < i ==> |s[1..][j]| < |r|;
        assert r == s[i + 1] && forall j :: 1 <= j < i + 1 ==> |s[j]| < |r|;
      } else if r != acc {
        assert r == s[0] && |r| > |acc|;
      }
    }
  }

  /** `summarizeText`: short texts come back trimmed; longer ones keep first, longest middle and last sentence. */
  function SummarizeText(text: string): (r: string)
    ensures |Sentences(text)| <= 3 ==> r == Trim(text)
  {
    var sentences := Sentences(text);
    if |sentences| <= 3 then Trim(text) else Summary(sentences)
  }

  predicate NonEmpty(s: string) { |s| > 0 }

  /** The summary of four or more sentences. */
  function Summary(sentences: seq<string>): string
    requires |sentences| > 3
  {
    var first := Trim(sentences[0]);
    var last := Trim(sentences[|sentences| - 1]);
    var longestMiddle := Trim(LongestFrom(sentences[1..|sentences| - 1], ""));
    Join(Seqs.Filter([first, longestMiddle, last], NonEmpty), ". ") + "."
  }

  /**
   * With four or more sentences none of the three parts is empty, so the
   * summary is exactly three trimmed sentences: the first, the longest middle
   * one (the first of them on a tie, by `LongestFrom`), and the last, joined
   * with '. ' and closed with '.'.
   */
  lemma SummaryHasThreeParts(text: string)
    requires |Sentences(text)| > 3
    ensures var s := Sentences(text);
            var m := LongestFrom(s[1..|s| - 1], "");
            m in s[1..|s| - 1]
            && SummarizeText(text) == Trim(s[0]) + ". " + Trim(m) + ". " + Trim(s[|s| - 1]) + "."
  {
    var s := Sentences(text);
    assert forall k :: 0 <= k < |s| ==> NonBlank(s[k]);
    ThreeParts(s);
  }

  lemma ThreeParts(s: seq<string>)
    requires |s| > 3 && forall k :: 0 <= k < |s| ==> NonBlank(s[k])
    ensures var m := LongestFrom(s[1..|s| - 1], "");
            m in s[1..|s| - 1]
            && Summary(s) == Trim(s[0]) + ". " + Trim(m) + ". " + Trim(s[|s| - 1]) + "."
  {
    var m := LongestFrom(s[1..|s| - 1], "");
    MiddleNonBlank(s, m);
    assert NonBlank(s[0]) && NonBlank(s[|s| - 1]);
    JoinNonEmpty(Trim(s[0]), Trim(m), Trim(s[|s| - 1]));
  }

  /** Three non-empty parts all survive the filter and are joined with '. ', then closed with '.'. */
  lemma JoinNonEmpty(a: string, b: string, c: string)
    requires NonEmpty(a) && NonEmpty(b) && NonEmpty(c)
    ensures Join(Seqs.Filter([a, b, c], NonEmpty), ". ") + "." == a + ". " + b + ". " + c + "."
  {
    Seqs.FilterAll([a, b, c], NonEmpty);
    JoinThree(a, b, c, ". ");
  }

  /** The longest middle sentence is one of the middle sentences, and not blank. */
  lemma MiddleNonBlank(s: seq<string>, m: string)
    requires |s| > 3 && forall k :: 0 <= k < |s| ==> NonBlank(s[k])
    requires m == LongestFrom(s[1..|s| - 1], "")
    ensures m in s[1..|s| - 1] && NonBlank(m)
  {
    var middle := s[1..|s| - 1];
    assert middle[0] == s[1];
    assert |middle[0]| > 0;
    var i :| 0 <= i < |middle| && m == middle[i];
    assert middle[i] == s[i + 1];
  }

  const TranslationNoteTail := " not available without AI service)"

  /** `translateText`: the text unchanged for English, else the text followed by a note naming the language. */
  function TranslateText(text: string, targetLanguage: string): (r: string)
    ensures StartsWith(r, text)
    ensures r == text <==> LowerStr(targetLanguage) == "english"
    ensures r != text ==> r == text + " (Translation to " + targetLanguage + TranslationNoteTail
  {
    var note := if LowerStr(targetLanguage) == "english" then ""
                else " (Translation to " + targetLanguage + TranslationNoteTail;
    assert (text + note)[..|text|] == text;
    text + note
  }
}
