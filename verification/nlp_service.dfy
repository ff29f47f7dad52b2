/**
 * The `src` text-analysis service: a heuristic analysis computed from the
 * word and sentence counts, and `analyzeText`, which is meant to ask the
 * language model first and to fall back on the heuristic when that fails.
 * The model's reply is an input: `None` when the call or the JSON parse
 * throws, otherwise the fields the service reads from it.
 */
module NlpService {
  import opened Wrappers
  import opened Strings
  import opened TextStats

  datatype Complexity = Easy | Medium | Hard
  datatype Sentiment = Positive | Neutral | Negative

  datatype Analysis = Analysis(wordCount: int, sentenceCount: int, readingLevel: int,
                               complexity: Complexity, keywords: seq<string>, sentiment: Sentiment)

  /** `Math.max(sentences, 1)`. */
  function Divisor(sentences: nat): (m: nat)
    ensures m >= 1 && (sentences >= 1 ==> m == sentences)
  {
    if sentences > 1 then sentences else 1
  }

  /**
   * `Math.round(words / Math.max(sentences, 1) * 0.5 + 3)` on exact
   * rationals: with m the divisor, round(words / (2m) + 3) is
   * floor((words + 7m) / (2m)).
   */
  function RoundedLevel(words: nat, sentences: nat): int {
    var m := Divisor(sentences);
    (words + 7 * m) / (2 * m)
  }

  /**
   * The rounded level r is the integer nearest to words / (2m) + 3, halves
   * going up: r - 1/2 <= words / (2m) + 3 < r + 1/2, multiplied out by 2m.
   */
  lemma RoundedLevelNearest(words: nat, sentences: nat)
    ensures var m := Divisor(sentences);
            var r := RoundedLevel(words, sentences);
            2 * m * r - m <= words + 6 * m < 2 * m * r + m
  {
    var m := Divisor(sentences);
    var q := (words + 7 * m) / (2 * m);
    var rem := (words + 7 * m) % (2 * m);
    assert words + 7 * m == 2 * m * q + rem && 0 <= rem < 2 * m;
  }

  /** A product with a positive factor has the sign of the other factor. */
  lemma FactorSign(m: int, x: int)
    requires m > 0
    ensures x <= 0 ==> m * x <= 0
    ensures x >= 0 ==> m * x >= 0
  {
  }

  /** The rounded level is never below 3: the quotient is never negative. */
  lemma RoundedLevelAtLeastThree(words: nat, sentences: nat)
    ensures RoundedLevel(words, sentences) >= 3
  {
    var m := Divisor(sentences);
    RoundedLevelNearest(words, sentences);
    var r := RoundedLevel(words, sentences);
    FactorSign(m, 2 * r - 5);
  }

  /** `Math.min(12, Math.max(1, …))` around the rounded level. */
  function ReadingLevel(words: nat, sentences: nat): (level: int)
    ensures 3 <= level <= 12
    ensures RoundedLevel(words, sentences) <= 12 ==> level == RoundedLevel(words, sentences)
    ensures RoundedLevel(words, sentences) > 12 ==> level == 12
  {
    RoundedLevelAtLeastThree(words, sentences);
    var r := RoundedLevel(words, sentences);
    if r > 12 then 12 else if r < 1 then 1 else r
  }

  /** More than 100 words is hard, more than 50 medium, the rest easy. */
  function ComplexityOf(words: nat): (c: Complexity)
    ensures c == Hard <==> words > 100
    ensures c == Medium <==> 50 < words <= 100
    ensures c == Easy <==> words <= 50
  {
    if words > 100 then Hard else if words > 50 then Medium else Easy
  }

  /** `basicAnalysis`: counts, the clamped reading level, the complexity band, no keywords, neutral. */
  function BasicAnalysis(text: string): (a: Analysis)
    ensures a.wordCount == |TextWords(text)| && a.sentenceCount == |Sentences(text)|
    ensures 3 <= a.readingLevel <= 12
    ensures a.complexity == ComplexityOf(|TextWords(text)|)
    ensures a.keywords == [] && a.sentiment == Neutral
  {
    var words := TextWords(text);
    var sentences := Sentences(text);
    Analysis(|words|, |sentences|, ReadingLevel(|words|, |sentences|), ComplexityOf(|words|), [], Neutral)
  }

  /**
   * A text with words has a non-blank sentence, so `Math.max(…, 1)` only
   * stands in for a zero sentence count when there are no words at all.
   */
  lemma DivisorIsSentenceCount(text: string)
    ensures TextWords(text) != [] ==> Divisor(|Sentences(text)|) == |Sentences(text)| >= 1
  {
    WordsNeedSentences(text);
  }

  /** A text without words reads at level 3 and is easy. */
  lemma NoWordsLevelThree(text: string)
    requires TextWords(text) == []
    ensures BasicAnalysis(text).readingLevel == 3 && BasicAnalysis(text).complexity == Easy
  {
    NoWordsRoundsToThree(|Sentences(text)|);
  }

  /** Without words the level is round(0 + 3) whatever the sentence count. */
  lemma NoWordsRoundsToThree(sentences: nat)
    ensures RoundedLevel(0, sentences) == 3
  {
    RoundedLevelNearest(0, sentences);
    var m := Divisor(sentences);
    var r := RoundedLevel(0, sentences);
    FactorSign(m, 2 * r - 5);
    FactorSign(m, 7 - 2 * r);
  }

  // ------------------------------------------------------------ analyzeText

  /** The fields `analyzeText` reads from the parsed reply; a missing field is `None`. */
  datatype Reply = Reply(wordCount: Option<int>, sentenceCount: Option<int>, readingLevel: Option<int>,
                         complexity: Option<Complexity>, keywords: Option<seq<string>>,
                         sentiment: Option<Sentiment>)

  /** `x || d` on a number: a missing field or a zero gives the default. */
  function NumberOr(x: Option<int>, d: int): (r: int)
    ensures x.Some? && x.value != 0 ==> r == x.value
    ensures x.None? || x.value == 0 ==> r == d
  {
    if x.Some? && x.value != 0 then x.value else d
  }

  /** The reply's fields with the defaults 0, 0, 8, 'medium', [] and 'neutral'. */
  function FromReply(r: Reply): (a: Analysis)
    ensures a.readingLevel != 0
    ensures a.complexity == r.complexity.GetOr(Medium) && a.sentiment == r.sentiment.GetOr(Neutral)
    ensures a.keywords == r.keywords.GetOr([])
  {
    Analysis(NumberOr(r.wordCount, 0), NumberOr(r.sentenceCount, 0), NumberOr(r.readingLevel, 8),
             r.complexity.GetOr(Medium), r.keywords.GetOr([]), r.sentiment.GetOr(Neutral))
  }

  /**
   * The service with an adapter offering `methods`: the reply is used only
   * when the adapter has `generateContent` and the call and the parse
   * succeed; anything that throws, calling a missing method included,
   * lands in the fallback.
   */
  function AnalyzeTextWith(methods: set<string>, reply: Option<Reply>, text: string): (a: Analysis)
    ensures "generateContent" in methods && reply.Some? ==> a == FromReply(reply.value)
    ensures "generateContent" !in methods || reply.None? ==> a == BasicAnalysis(text)
  {
    if "generateContent" in methods && reply.Some? then FromReply(reply.value) else BasicAnalysis(text)
  }

  /** The methods of the object the Gemini adapter factory returns. */
  const GeminiAdapterMethods: set<string> :=
    {"generateSummary", "simplifyText", "generateQuestions", "detectLanguage", "analyzeSentiment"}

  /**
   * `analyzeText` as written: it calls `generateContent` on the adapter
   * object, which has none, so whatever the model would answer the text
   * gets the basic analysis.
   */
  function AnalyzeText(reply: Option<Reply>, text: string): (a: Analysis)
    ensures a == BasicAnalysis(text)
  {
    AnalyzeTextWith(GeminiAdapterMethods, reply, text)
  }

  /** A reply of 42 words for the empty text: as written the 42 is never seen. */
  lemma AsWrittenIgnoresReply()
    ensures AnalyzeText(Some(Reply(Some(42), None, None, None, None, None)), "").wordCount == 0
    ensures AnalyzeTextCorrected(Some(Reply(Some(42), None, None, None, None, None)), "").wordCount == 42
  {
    assert TextWords("") == [] by {
      WordsEmpty(LowerStr(""));
    }
  }

  /** `analyzeText` calling the client's `generateContent`, as intended. */
  function AnalyzeTextCorrected(reply: Option<Reply>, text: string): Analysis {
    AnalyzeTextWith(GeminiAdapterMethods + {"generateContent"}, reply, text)
  }

  /** With the call reaching the model, a parsed reply decides the analysis and only a failure falls back. */
  lemma CorrectedUsesReply(reply: Option<Reply>, text: string)
    ensures reply.Some? ==> AnalyzeTextCorrected(reply, text) == FromReply(reply.value)
    ensures reply.None? ==> AnalyzeTextCorrected(reply, text) == BasicAnalysis(text)
  {
  }
}
