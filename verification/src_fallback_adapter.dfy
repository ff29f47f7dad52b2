/**
 * The `src` offline AI and translation adapters: sentence-picking summaries
 * and questions, a word-table simplifier, language detection by Unicode
 * block, word-count sentiment and a five-word English-to-Hindi glossary.
 * The speech, recognition and OCR stand-ins call browser APIs and are not
 * part of this model.
 */
module SrcFallbackAdapter {
  import Reals
  import opened Wrappers
  import opened Strings
  import Seqs
  import opened SrcTypes

  function Min(a: int, b: int): int { if a < b then a else b }

  /** `text.split(/[.!?]+/).filter(s => s.trim().length > n)`: the pieces, untrimmed. */
  function LongSentences(text: string, n: nat): (r: seq<string>)
    ensures forall i :: 0 <= i < |r| ==> |Trim(r[i])| > n && r[i] in SplitSentences(text)
  {
    Seqs.FilterIsSubsequence(SplitSentences(text), s => |Trim(s)| > n);
    Seqs.Filter(SplitSentences(text), s => |Trim(s)| > n)
  }

  // ------------------------------------------------------------ generateSummary

  /** `Math.min(3, Math.ceil(n * 0.3))`, exactly, for a count n. */
  function SummaryLength(n: nat): (k: nat)
    ensures k <= 3 && k <= n
    ensures n > 0 ==> k > 0
    ensures n >= 7 ==> k == 3
  {
    Min(3, (3 * n + 9) / 10)
  }

  /** The sentences the summary keeps: the first few longer than ten characters. */
  function SummarySentences(text: string): (r: seq<string>)
    ensures |r| <= 3 && |r| <= |LongSentences(text, 10)| && r == LongSentences(text, 10)[..|r|]
    ensures |r| == SummaryLength(|LongSentences(text, 10)|)
    ensures r == [] <==> LongSentences(text, 10) == []
  {
    var s := LongSentences(text, 10);
    s[..SummaryLength(|s|)]
  }

  /** `generateSummary`: the kept sentences joined with '. ' and closed with '.'. */
  function GenerateSummary(text: string): (r: string)
    ensures EndsWith(r, ".")
    ensures r == "." <==> LongSentences(text, 10) == []
    ensures r == Join(SummarySentences(text), ". ") + "."
  {
    var parts := SummarySentences(text);
    JoinStartsWithFirst(parts, ". ");
    assert parts != [] ==> |Trim(parts[0])| > 10;
    Join(parts, ". ") + "."
  }

  /** A join begins with its first part. */
  lemma JoinStartsWithFirst(parts: seq<string>, sep: string)
    ensures parts != [] ==> |Join(parts, sep)| >= |parts[0]|
  {
  }

  // ------------------------------------------------------------ simplifyText

  const UseWords: seq<string> := ["utilize", "demonstrate", "accomplish"]
  const AlsoWords: seq<string> := ["furthermore", "additionally", "moreover"]
  const AboutWords: seq<string> := ["approximately", "roughly"]

  /** The character at `i` ends a sentence and whitespace follows it. */
  predicate SpaceAfterEnd(s: string, i: nat)
    requires i + 1 < |s|
  {
    IsSentenceEnd(s[i]) && IsSpace(s[i + 1])
  }

  /** No sentence end in `s` is followed by whitespace. */
  predicate NoSpaceAfterSentenceEnd(s: string) {
    forall i :: 0 <= i < |s| - 1 ==> !SpaceAfterEnd(s, i)
  }

  /**
   * `s.replace(/([.!?])\s+/g, '$1\n\n')`: the whitespace after a sentence
   * end becomes a blank line; a text with no whitespace after a sentence
   * end is left as it is.
   */
  function BreakAfterSentences(s: string): (r: string)
    ensures NoSpaceAfterSentenceEnd(s) ==> r == s
    decreases |s|
  {
    if s == [] then []
    else if IsSentenceEnd(s[0]) && |s| > 1 && IsSpace(s[1]) then
      var n := RunLength(s[1..], IsSpace);
      assert SpaceAfterEnd(s, 0);
      [s[0]] + "\n\n" + BreakAfterSentences(s[1 + n..])
    else
      assert NoSpaceAfterSentenceEnd(s) ==> NoSpaceAfterSentenceEnd(s[1..]) by {
        forall i | 0 <= i < |s[1..]| - 1 && NoSpaceAfterSentenceEnd(s)
          ensures !SpaceAfterEnd(s[1..], i)
        {
          assert s[1..][i] == s[i + 1] && s[1..][i + 1] == s[i + 2];
          assert !SpaceAfterEnd(s, i + 1);
        }
      }
      assert s == [s[0]] + s[1..];
      [s[0]] + BreakAfterSentences(s[1..])
  }

  /** The cut between `a` and `b` splits no whitespace run that follows a sentence end. */
  predicate BreakCut(a: string, b: string) {
    || a == [] || b == [] || !IsSpace(b[0])
    || (!IsSentenceEnd(a[|a| - 1]) && !IsSpace(a[|a| - 1]))
  }

  /** A whitespace run that `y` does not continue is the run in `x`. */
  lemma {:induction false} RunLengthPrefix(x: string, y: string)
    requires y == [] || !IsSpace(y[0]) || RunLength(x, IsSpace) < |x|
    ensures RunLength(x + y, IsSpace) == RunLength(x, IsSpace)
    decreases |x|
  {
    if x == [] {
      assert x + y == y;
    } else if IsSpace(x[0]) {
      assert (x + y)[0] == x[0] && (x + y)[1..] == x[1..] + y;
      RunLengthPrefix(x[1..], y);
    } else {
      assert (x + y)[0] == x[0];
    }
  }

  /** Breaking `a + b`, cut where no whitespace run after a sentence end is split, is breaking `a` and `b` apart. */
  lemma {:induction false} BreakSplit(a: string, b: string)
    requires BreakCut(a, b)
    ensures BreakAfterSentences(a + b) == BreakAfterSentences(a) + BreakAfterSentences(b)
    decreases |a|
  {
    if a == [] {
      assert a + b == b;
    } else {
      var n := BreakLength(a);
      BreakStep(a, b);
      BreakSplit(a[n..], b);
      Seqs.Regroup(BreakAfterSentences(a + b), BreakHead(a), BreakAfterSentences(a[n..] + b),
                   BreakAfterSentences(a[n..]), BreakAfterSentences(b), BreakAfterSentences(a));
    }
  }

  /** The first step of the rewrite over `a + b` is the first step over `a`. */
  lemma BreakStep(a: string, b: string)
    requires BreakCut(a, b) && a != []
    ensures var n := BreakLength(a);
            && BreakAfterSentences(a + b) == BreakHead(a) + BreakAfterSentences(a[n..] + b)
            && BreakAfterSentences(a) == BreakHead(a) + BreakAfterSentences(a[n..])
            && BreakCut(a[n..], b)
  {
    BreakHeadAcross(a, b);
    BreakUnfold(a);
    BreakUnfold(a + b);
  }

  /** How many characters of `s` the rewrite consumes at its start. */
  function BreakLength(s: string): (n: nat)
    requires s != []
    ensures 0 < n <= |s|
  {
    if IsSentenceEnd(s[0]) && |s| > 1 && IsSpace(s[1]) then 1 + RunLength(s[1..], IsSpace) else 1
  }

  /** What the rewrite emits for the start of `s`. */
  function BreakHead(s: string): string
    requires s != []
  {
    if IsSentenceEnd(s[0]) && |s| > 1 && IsSpace(s[1]) then [s[0]] + "\n\n" else [s[0]]
  }

  lemma BreakUnfold(s: string)
    requires s != []
    ensures BreakAfterSentences(s) == BreakHead(s) + BreakAfterSentences(s[BreakLength(s)..])
  {
  }

  /** Across a cut that splits no whitespace run, `a + b` starts the way `a` does. */
  lemma BreakHeadAcross(a: string, b: string)
    requires BreakCut(a, b) && a != []
    ensures BreakHead(a + b) == BreakHead(a) && BreakLength(a + b) == BreakLength(a)
    ensures (a + b)[BreakLength(a)..] == a[BreakLength(a)..] + b
    ensures BreakCut(a[BreakLength(a)..], b)
  {
    assert (a + b)[0] == a[0];
    if IsSentenceEnd(a[0]) && |a| > 1 && IsSpace(a[1]) {
      BreakRunAcross(a, b);
    } else {
      assert |a| > 1 ==> (a + b)[1] == a[1];
      assert (a + b)[1..] == a[1..] + b;
      assert a[1..] != [] ==> a[1..][|a[1..]| - 1] == a[|a| - 1];
    }
  }

  /** After a sentence end and whitespace in `a`, the run in `a + b` is the run in `a`. */
  lemma BreakRunAcross(a: string, b: string)
    requires BreakCut(a, b) && |a| > 1 && IsSentenceEnd(a[0]) && IsSpace(a[1])
    ensures var m := RunLength(a[1..], IsSpace);
            && RunLength((a + b)[1..], IsSpace) == m
            && (a + b)[1 + m..] == a[1 + m..] + b
            && BreakCut(a[1 + m..], b)
  {
    var m := RunLength(a[1..], IsSpace);
    assert (a + b)[1..] == a[1..] + b;
    assert m == |a[1..]| ==> IsSpace(a[|a| - 1]) by {
      if m == |a[1..]| {
        assert a[1..][m - 1] == a[|a| - 1];
      }
    }
    RunLengthPrefix(a[1..], b);
    assert a[1 + m..] != [] ==> a[1 + m..][|a[1 + m..]| - 1] == a[|a| - 1];
  }

  /**
   * A sentence end followed by whitespace that the rest does not continue:
   * the whitespace becomes one blank line, and the text on either side is
   * broken on its own.
   */
  lemma BreakAtSentenceEnd(a: string, c: char, spaces: string, b: string)
    requires IsSentenceEnd(c) && |spaces| > 0 && AllSpace(spaces)
    requires b == [] || !IsSpace(b[0])
    ensures BreakAfterSentences(a + [c] + spaces + b)
            == BreakAfterSentences(a) + [c] + "\n\n" + BreakAfterSentences(b)
  {
    var x := [c] + spaces + b;
    Seqs.Concat3(a, [c], spaces);
    Seqs.Concat3(a, [c] + spaces, b);
    BreakBeforeEnd(a, c, x);
    BreakAfterEnd(c, spaces, b);
    Seqs.Concat3(BreakAfterSentences(a), [c] + "\n\n", BreakAfterSentences(b));
    Seqs.Concat3(BreakAfterSentences(a), [c], "\n\n");
  }

  lemma BreakBeforeEnd(a: string, c: char, x: string)
    requires IsSentenceEnd(c) && x != [] && x[0] == c
    ensures BreakAfterSentences(a + x) == BreakAfterSentences(a) + BreakAfterSentences(x)
  {
    BreakSplit(a, x);
  }

  /** A text opening with a sentence end and whitespace: the whitespace becomes one blank line. */
  lemma BreakAfterEnd(c: char, spaces: string, b: string)
    requires IsSentenceEnd(c) && |spaces| > 0 && AllSpace(spaces)
    requires b == [] || !IsSpace(b[0])
    ensures BreakAfterSentences([c] + spaces + b) == [c] + "\n\n" + BreakAfterSentences(b)
  {
    var s := [c] + spaces + b;
    assert s[1..] == spaces + b;
    RunLengthPrefix(spaces, b);
    assert RunLength(spaces, IsSpace) == |spaces|;
    assert s[0] == c && IsSpace(s[1]);
    assert s[1 + |spaces|..] == b;
    BreakUnfold(s);
  }

  /** No replacement word is on a list applied after it. */
  lemma ReplacementsUnlisted()
    ensures !IsListedWord("use", AlsoWords) && !IsListedWord("use", AboutWords) && !IsListedWord("also", AboutWords)
  {
    forall k | 0 <= k < |AlsoWords| ensures |LowerStr("use")| != |LowerStr(AlsoWords[k])| { }
    forall k | 0 <= k < |AboutWords|
      ensures |LowerStr("use")| != |LowerStr(AboutWords[k])| && |LowerStr("also")| != |LowerStr(AboutWords[k])|
    { }
  }

  /** The replacements are made of word characters. */
  lemma ReplacementsAreWords()
    ensures forall i :: 0 <= i < |"use"| ==> IsWordChar("use"[i])
    ensures forall i :: 0 <= i < |"also"| ==> IsWordChar("also"[i])
    ensures forall i :: 0 <= i < |"about"| ==> IsWordChar("about"[i])
  {
  }

  /** A text of word characters only is still one after a list pass. */
  lemma OneWordPass(w: string, ws: seq<string>, rep: string)
    requires forall k :: 0 <= k < |ws| ==> |ws[k]| > 0
    requires forall i :: 0 <= i < |w| ==> IsWordChar(w[i])
    requires forall i :: 0 <= i < |rep| ==> IsWordChar(rep[i])
    ensures ReplaceWords(w, ws, rep) == if IsListedWord(w, ws) then rep else w
    ensures var t := ReplaceWords(w, ws, rep); forall i :: 0 <= i < |t| ==> IsWordChar(t[i])
  {
    ReplaceOneWordBy(IsWordChar, w, ws, rep);
  }

  /** Three list passes over a one-word text: the first list the word is on decides its replacement. */
  lemma ThreePasses(text: string, ws1: seq<string>, r1: string, ws2: seq<string>, r2: string,
                    ws3: seq<string>, r3: string)
    requires forall k :: 0 <= k < |ws1| ==> |ws1[k]| > 0
    requires forall k :: 0 <= k < |ws2| ==> |ws2[k]| > 0
    requires forall k :: 0 <= k < |ws3| ==> |ws3[k]| > 0
    requires forall i :: 0 <= i < |text| ==> IsWordChar(text[i])
    requires forall i :: 0 <= i < |r1| ==> IsWordChar(r1[i])
    requires forall i :: 0 <= i < |r2| ==> IsWordChar(r2[i])
    requires forall i :: 0 <= i < |r3| ==> IsWordChar(r3[i])
    requires !IsListedWord(r1, ws2) && !IsListedWord(r1, ws3) && !IsListedWord(r2, ws3)
    ensures var t3 := ReplaceWords(ReplaceWords(ReplaceWords(text, ws1, r1), ws2, r2), ws3, r3);
            && (forall i :: 0 <= i < |t3| ==> IsWordChar(t3[i]))
            && t3 == if IsListedWord(text, ws1) then r1
                     else if IsListedWord(text, ws2) then r2
                     else if IsListedWord(text, ws3) then r3
                     else text
  {
    OneWordPass(text, ws1, r1);
    var t1 := ReplaceWords(text, ws1, r1);
    OneWordPass(t1, ws2, r2);
    var t2 := ReplaceWords(t1, ws2, r2);
    OneWordPass(t2, ws3, r3);
  }

  /** The list passes and the sentence breaks leave a one-word text whole or replace it as a whole. */
  lemma SimplifyOneWord(text: string)
    requires forall i :: 0 <= i < |text| ==> IsWordChar(text[i])
    ensures var t1 := ReplaceWords(text, UseWords, "use");
            var t2 := ReplaceWords(t1, AlsoWords, "also");
            var t3 := ReplaceWords(t2, AboutWords, "about");
            BreakAfterSentences(t3) ==
              if IsListedWord(text, UseWords) then "use"
              else if IsListedWord(text, AlsoWords) then "also"
              else if IsListedWord(text, AboutWords) then "about"
              else text
  {
    ReplacementsUnlisted();
    ReplacementsAreWords();
    ThreePasses(text, UseWords, "use", AlsoWords, "also", AboutWords, "about");
    WordHasNoSentenceEnd(ReplaceWords(ReplaceWords(ReplaceWords(text, UseWords, "use"), AlsoWords, "also"),
                                      AboutWords, "about"));
  }

  /** Word characters hold no sentence end, so none is followed by whitespace. */
  lemma WordHasNoSentenceEnd(s: string)
    requires forall i :: 0 <= i < |s| ==> IsWordChar(s[i])
    ensures NoSpaceAfterSentenceEnd(s)
  {
    forall i | 0 <= i < |s| - 1 ensures !SpaceAfterEnd(s, i) {
      assert IsWordChar(s[i]);
    }
  }

  /**
   * `simplifyText`: whole-word, case-insensitive replacement of three word
   * lists by 'use', 'also' and 'about', then a blank line after each
   * sentence end that whitespace follows. The reading level is ignored.
   * A one-word text that is a listed word in any capitalisation becomes
   * its replacement, and a text with none of the listed words and no
   * whitespace after a sentence end comes back unchanged.
   */
  function SimplifyText(text: string): (r: string)
    ensures (forall i | 0 <= i < |text| :: IsWordChar(text[i])) ==>
              r == if IsListedWord(text, UseWords) then "use"
                   else if IsListedWord(text, AlsoWords) then "also"
                   else if IsListedWord(text, AboutWords) then "about"
                   else text
    ensures (&& !HasWholeWord(text, UseWords) && !HasWholeWord(text, AlsoWords) && !HasWholeWord(text, AboutWords)
             && NoSpaceAfterSentenceEnd(text)) ==> r == text
  {
    var t1 := ReplaceWords(text, UseWords, "use");
    var t2 := ReplaceWords(t1, AlsoWords, "also");
    var t3 := ReplaceWords(t2, AboutWords, "about");
    assert (forall i | 0 <= i < |text| :: IsWordChar(text[i])) ==>
             BreakAfterSentences(t3) == if IsListedWord(text, UseWords) then "use"
                                        else if IsListedWord(text, AlsoWords) then "also"
                                        else if IsListedWord(text, AboutWords) then "about"
                                        else text by {
      if forall i | 0 <= i < |text| :: IsWordChar(text[i]) {
        SimplifyOneWord(text);
      }
    }
    assert (&& !HasWholeWord(text, UseWords) && !HasWholeWord(text, AlsoWords) && !HasWholeWord(text, AboutWords)
            && NoSpaceAfterSentenceEnd(text)) ==> t3 == text by {
      if !HasWholeWord(text, UseWords) && !HasWholeWord(text, AlsoWords) && !HasWholeWord(text, AboutWords) {
        ReplaceWordsUnchanged(text, UseWords, "use");
        ReplaceWordsUnchanged(text, AlsoWords, "also");
        ReplaceWordsUnchanged(text, AboutWords, "about");
      }
    }
    BreakAfterSentences(t3)
  }

  /** The three list passes of `simplifyText`, before the sentence breaks. */
  function ListPasses(text: string): string {
    ReplaceWords(ReplaceWords(ReplaceWords(text, UseWords, "use"), AlsoWords, "also"), AboutWords, "about")
  }

  /** The three lists hold words of `\w` characters only. */
  lemma ListsAreWords()
    ensures WordsOf(IsWordChar, UseWords) && WordsOf(IsWordChar, AlsoWords) && WordsOf(IsWordChar, AboutWords)
  {
  }

  /**
   * One list pass over a word standing between non-word characters: the
   * word is replaced on its own, the text around it as if it were not
   * there, and the pieces keep their non-word edges.
   */
  lemma PassInContext(p: string, x: string, q: string, ws: seq<string>, rep: string)
    requires WordsOf(IsWordChar, ws) && |rep| > 0 && forall i :: 0 <= i < |rep| ==> IsWordChar(rep[i])
    requires EndsOutside(IsWordChar, p) && StartsOutside(IsWordChar, q)
    requires |x| > 0 && forall i :: 0 <= i < |x| ==> IsWordChar(x[i])
    ensures var y := ReplaceWords(x, ws, rep);
            && ReplaceWords(p + x + q, ws, rep) == ReplaceWords(p, ws, rep) + y + ReplaceWords(q, ws, rep)
            && |y| > 0 && (forall i :: 0 <= i < |y| ==> IsWordChar(y[i]))
            && EndsOutside(IsWordChar, ReplaceWords(p, ws, rep)) && StartsOutside(IsWordChar, ReplaceWords(q, ws, rep))
  {
    WordCharCaseBlind();
    ReplaceWordInContext(IsWordChar, p, x, q, ws, rep);
    OneWordPass(x, ws, rep);
  }

  /** The list passes over a word between non-word characters treat the word and its neighbours apart. */
  lemma ListPassesInContext(p: string, x: string, q: string)
    requires EndsOutside(IsWordChar, p) && StartsOutside(IsWordChar, q)
    requires |x| > 0 && forall i :: 0 <= i < |x| ==> IsWordChar(x[i])
    ensures var y := ListPasses(x);
            && ListPasses(p + x + q) == ListPasses(p) + y + ListPasses(q)
            && |y| > 0 && (forall i :: 0 <= i < |y| ==> IsWordChar(y[i]))
  {
    ListsAreWords();
    ReplacementsAreWords();
    PassInContext(p, x, q, UseWords, "use");
    var p1, x1, q1 := ReplaceWords(p, UseWords, "use"), ReplaceWords(x, UseWords, "use"), ReplaceWords(q, UseWords, "use");
    PassInContext(p1, x1, q1, AlsoWords, "also");
    var p2, x2, q2 := ReplaceWords(p1, AlsoWords, "also"), ReplaceWords(x1, AlsoWords, "also"), ReplaceWords(q1, AlsoWords, "also");
    PassInContext(p2, x2, q2, AboutWords, "about");
  }

  /**
   * A word standing between non-word characters (or the ends of the text)
   * is simplified on its own, as a one-word text is, and the text on
   * either side is simplified as if the word were not there.
   */
  lemma SimplifyInContext(p: string, x: string, q: string)
    requires EndsOutside(IsWordChar, p) && StartsOutside(IsWordChar, q)
    requires |x| > 0 && forall i :: 0 <= i < |x| ==> IsWordChar(x[i])
    ensures SimplifyText(p + x + q) == SimplifyText(p) + SimplifyText(x) + SimplifyText(q)
  {
    ListPassesInContext(p, x, q);
    BreakAroundWord(ListPasses(p), ListPasses(x), ListPasses(q));
    SimplifyIsBreak(p + x + q);
    SimplifyIsBreak(p);
    SimplifyIsBreak(x);
    SimplifyIsBreak(q);
  }

  lemma SimplifyIsBreak(text: string)
    ensures SimplifyText(text) == BreakAfterSentences(ListPasses(text))
  {
  }

  /** A word between two pieces holds no sentence end, so the pieces are broken apart and the word kept. */
  lemma BreakAroundWord(p: string, x: string, q: string)
    requires |x| > 0 && forall i :: 0 <= i < |x| ==> IsWordChar(x[i])
    ensures BreakAfterSentences(p + x + q) == BreakAfterSentences(p) + x + BreakAfterSentences(q)
    ensures BreakAfterSentences(x) == x
  {
    assert BreakCut(p, x + q) && BreakCut(x, q) by {
      assert (x + q)[0] == x[0];
    }
    assert p + x + q == p + (x + q);
    BreakSplit(p, x + q);
    BreakSplit(x, q);
    WordHasNoSentenceEnd(x);
  }

  // ------------------------------------------------------------ generateQuestions

  const QuestionOptions: seq<string> := ["Option A", "Option B", "Option C", "Option D"]
  const ReviewAnswer := "This would require manual review"
  const QuestionOpening := "What does this mean: \""
  const QuestionClosing := "...\"?"

  /** The question asked about one sentence: its first fifty trimmed characters, quoted. */
  function QuestionAbout(sentence: string): (q: Question)
    ensures |q.options| == 4 && q.answer == ReviewAnswer
  {
    Question(QuestionOpening + Take(Trim(sentence), 50) + QuestionClosing, QuestionOptions, ReviewAnswer)
  }

  /**
   * `generateQuestions`: one question for each of the first `count`
   * sentences longer than twenty characters, in order.
   */
  method GenerateQuestions(text: string, count: int) returns (questions: seq<Question>)
    ensures |questions| == if count < 0 then 0 else Min(count, |LongSentences(text, 20)|)
    ensures forall i :: 0 <= i < |questions| ==> questions[i] == QuestionAbout(LongSentences(text, 20)[i])
    ensures forall i :: 0 <= i < |questions| ==> |questions[i].options| == 4
  {
    var sentences := LongSentences(text, 20);
    var n := if count < 0 then 0 else Min(count, |sentences|);
    questions := QuestionsFor(sentences, n);
  }

  /** The loop of `generateQuestions`: a question for each of the first `n` sentences. */
  method QuestionsFor(sentences: seq<string>, n: nat) returns (questions: seq<Question>)
    requires n <= |sentences|
    ensures |questions| == n
    ensures forall i :: 0 <= i < n ==> questions[i] == QuestionAbout(sentences[i])
  {
    questions := [];
    for i := 0 to n
      invariant |questions| == i
      invariant forall k :: 0 <= k < i ==> questions[k] == QuestionAbout(sentences[k])
    {
      var sentence := Trim(sentences[i]);
      var q := Question(QuestionOpening + Take(sentence, 50) + QuestionClosing, QuestionOptions, ReviewAnswer);
      questions := questions + [q];
    }
  }

  // ------------------------------------------------------------ detectLanguage

  /** `/[lo-hi]/.test(s)`. */
  predicate HasCharIn(s: string, lo: char, hi: char) {
    exists i :: 0 <= i < |s| && lo <= s[i] <= hi
  }

  predicate HasDevanagari(s: string) { HasCharIn(s, '\U{0900}', '\U{097F}') }
  predicate HasArabic(s: string) { HasCharIn(s, '\U{0600}', '\U{06FF}') }
  predicate HasCjk(s: string) { HasCharIn(s, '\U{4E00}', '\U{9FFF}') }

  /**
   * `detectLanguage`: the first script present, in the order Devanagari
   * ('hi'), Arabic ('ar'), CJK ('zh'); 'en' when none is.
   */
  function DetectLanguage(text: string): (r: string)
    ensures r in {"hi", "ar", "zh", "en"}
    ensures r == "hi" <==> HasDevanagari(text)
    ensures r == "ar" <==> !HasDevanagari(text) && HasArabic(text)
    ensures r == "zh" <==> !HasDevanagari(text) && !HasArabic(text) && HasCjk(text)
    ensures r == "en" <==> !HasDevanagari(text) && !HasArabic(text) && !HasCjk(text)
  {
    if HasDevanagari(text) then "hi"
    else if HasArabic(text) then "ar"
    else if HasCjk(text) then "zh"
    else "en"
  }

  // ------------------------------------------------------------ analyzeSentiment

  const PositiveWords: seq<string> := ["good", "great", "excellent", "amazing", "wonderful", "happy"]
  const NegativeWords: seq<string> := ["bad", "terrible", "awful", "sad", "angry", "frustrated"]

  /** `list.some(w => word.includes(w))`. */
  predicate MentionsAny(word: string, list: seq<string>) {
    exists k :: 0 <= k < |list| && Contains(word, list[k])
  }

  predicate IsPositive(word: string) { MentionsAny(word, PositiveWords) }
  predicate IsNegative(word: string) { MentionsAny(word, NegativeWords) }

  /** `text.toLowerCase().split(/\s+/)`. */
  function Tokens(text: string): seq<string> {
    SplitWhitespace(LowerStr(text))
  }

  /**
   * The verdict from the two counts: neutral at 0.5 when neither occurs;
   * otherwise positive exactly when positives outnumber negatives (a tie is
   * negative), with the larger share of the two as confidence.
   */
  function SentimentFrom(pos: nat, neg: nat): (r: Sentiment)
    ensures pos + neg == 0 <==> r.sentiment == Neutral
    ensures pos + neg == 0 ==> r.confidence == 0.5
    ensures pos + neg > 0 ==> (r.sentiment == Positive <==> pos > neg)
    ensures pos + neg > 0 ==> r.confidence * (pos + neg) as real == (if pos > neg then pos else neg) as real
    ensures 0.5 <= r.confidence <= 1.0
  {
    var total := pos + neg;
    if total == 0 then Sentiment(Neutral, 0.5)
    else
      var top := if pos > neg then pos else neg;
      var c := top as real / total as real;
      ShareBounds(top, total);
      Sentiment(if pos > neg then Positive else Negative, c)
  }

  /** The larger of two counts, as a share of their sum, lies between a half and one. */
  lemma ShareBounds(top: nat, total: nat)
    requires 0 < total <= 2 * top && top <= total
    ensures (top as real / total as real) * total as real == top as real
    ensures 0.5 <= top as real / total as real <= 1.0
  {
    var c := top as real / total as real;
    var t := total as real;
    assert c * t == top as real;
    assert (c - 0.5) * t == top as real - 0.5 * t;
    assert (1.0 - c) * t == t - top as real;
    Reals.SignOfFactor(c - 0.5, t);
    Reals.SignOfFactor(1.0 - c, t);
  }

  /**
   * `analyzeSentiment`: every token mentioning a positive word adds one
   * positive, every token mentioning a negative word one negative (a token
   * may count for both).
   */
  method AnalyzeSentiment(text: string) returns (r: Sentiment)
    ensures r == SentimentFrom(Seqs.Count(Tokens(text), IsPositive), Seqs.Count(Tokens(text), IsNegative))
  {
    var words := Tokens(text);
    var positiveCount, negativeCount := CountBoth(words, IsPositive, IsNegative);
    r := SentimentFrom(positiveCount, negativeCount);
  }

  /** The `forEach` of `analyzeSentiment`: one pass adding one to each count whose test the word passes. */
  method CountBoth(words: seq<string>, isPositive: string -> bool, isNegative: string -> bool)
    returns (positiveCount: nat, negativeCount: nat)
    ensures positiveCount == Seqs.Count(words, isPositive) && negativeCount == Seqs.Count(words, isNegative)
  {
    positiveCount, negativeCount := 0, 0;
    for i := 0 to |words|
      invariant positiveCount == Seqs.Count(words[..i], isPositive)
      invariant negativeCount == Seqs.Count(words[..i], isNegative)
    {
      assert words[..i + 1] == words[..i] + [words[i]];
      Seqs.FilterAppend(words[..i], [words[i]], isPositive);
      Seqs.FilterAppend(words[..i], [words[i]], isNegative);
      if isPositive(words[i]) {
        positiveCount := positiveCount + 1;
      }
      if isNegative(words[i]) {
        negativeCount := negativeCount + 1;
      }
    }
    assert words[..|words|] == words;
  }

  // ------------------------------------------------------------ translation

  /** The demo glossary, in the order it is searched. */
  const HindiGlossary: seq<(string, string)> := [
    ("hello", "\U{0928}\U{092E}\U{0938}\U{094D}\U{0924}\U{0947}"),
    ("goodbye", "\U{0905}\U{0932}\U{0935}\U{093F}\U{0926}\U{093E}"),
    ("thank you", "\U{0927}\U{0928}\U{094D}\U{092F}\U{0935}\U{093E}\U{0926}"),
    ("yes", "\U{0939}\U{093E}\U{0901}"),
    ("no", "\U{0928}\U{0939}\U{0940}\U{0902}")
  ]

  function TranslationNotice(text: string, targetLanguage: string): string {
    "[Translation to " + targetLanguage + "]: " + text
  }

  /**
   * What `translateText` answers: from English to Hindi, every
   * case-insensitive occurrence of the first glossary word the lowercased
   * text contains is replaced by its Hindi; every other request, and an
   * English text with no glossary word, gets the notice prefix.
   */
  function Translation(text: string, targetLanguage: string, sourceLanguage: Option<string>): (r: string)
    ensures targetLanguage != "hi" || sourceLanguage != Some("en") ==> r == TranslationNotice(text, targetLanguage)
    ensures (forall k :: 0 <= k < |HindiGlossary| ==> !Contains(LowerStr(text), HindiGlossary[k].0))
            ==> r == TranslationNotice(text, targetLanguage)
    ensures targetLanguage == "hi" && sourceLanguage == Some("en") ==>
              forall k :: 0 <= k < |HindiGlossary| && Contains(LowerStr(text), HindiGlossary[k].0)
                          && (forall j :: 0 <= j < k ==> !Contains(LowerStr(text), HindiGlossary[j].0))
                          ==> r == ReplaceAllIgnoreCase(text, HindiGlossary[k].0, HindiGlossary[k].1)
  {
    if targetLanguage == "hi" && sourceLanguage == Some("en") then
      match Seqs.FindIndex(HindiGlossary, (e: (string, string)) => Contains(LowerStr(text), e.0))
      case Some(k) => ReplaceAllIgnoreCase(text, HindiGlossary[k].0, HindiGlossary[k].1)
      case None => TranslationNotice(text, targetLanguage)
    else TranslationNotice(text, targetLanguage)
  }

  /** `translateText`: the glossary walk with its early return. */
  method TranslateText(text: string, targetLanguage: string, sourceLanguage: Option<string>) returns (r: string)
    ensures r == Translation(text, targetLanguage, sourceLanguage)
  {
    if targetLanguage == "hi" && sourceLanguage == Some("en") {
      var lowerText := LowerStr(text);
      var i := 0;
      while i < |HindiGlossary|
        invariant 0 <= i <= |HindiGlossary|
        invariant forall k :: 0 <= k < i ==> !Contains(lowerText, HindiGlossary[k].0)
      {
        var (en, hi) := HindiGlossary[i];
        if Contains(lowerText, en) {
          ghost var p := (e: (string, string)) => Contains(LowerStr(text), e.0);
          assert Seqs.FindIndex(HindiGlossary, p) == Some(i);
          return ReplaceAllIgnoreCase(text, en, hi);
        }
        i := i + 1;
      }
    }
    r := TranslationNotice(text, targetLanguage);
  }

  datatype Language = Language(code: string, name: string)

  /** `getSupportedLanguages`. */
  const SupportedLanguages: seq<Language> := [
    Language("en", "English"), Language("hi", "Hindi"), Language("es", "Spanish"),
    Language("fr", "French"), Language("de", "German")
  ]

  predicate Supported(code: string) {
    exists k :: 0 <= k < |SupportedLanguages| && SupportedLanguages[k].code == code
  }

  /**
   * The translation adapter's `detectLanguage` is the AI adapter's, so it can
   * answer 'ar' or 'zh', which its own supported-language list lacks.
   */
  lemma DetectedCodeNotSupported()
    ensures DetectLanguage("\U{0627}") == "ar" && !Supported("ar")
    ensures DetectLanguage("\U{4E2D}") == "zh" && !Supported("zh")
  {
    assert HasArabic("\U{0627}") by { assert "\U{0627}"[0] == '\U{0627}'; }
    assert HasCjk("\U{4E2D}") by { assert "\U{4E2D}"[0] == '\U{4E2D}'; }
  }
}
