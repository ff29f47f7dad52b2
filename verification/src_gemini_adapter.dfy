/**
 * The `src` Gemini adapter, from the reply text on: the request itself is a
 * network call, so each operation takes the text the service answered (or
 * the parts of the HTTP response it looks at) as its input.
 */
module SrcGeminiAdapter {
  import opened Wrappers
  import opened Strings
  import Seqs
  import opened SrcTypes

  // ------------------------------------------------------------ generateContent

  /**
   * `generateContent` once the response is in: a failed response throws
   * with its status; otherwise the first candidate's first part's text, or
   * '' when that path is missing or empty.
   */
  function GenerateContent(ok: bool, status: int, statusText: string, candidateText: Option<string>): (r: Result<string>)
    ensures !ok <==> r.Err?
    ensures r.Err? ==> r.msg == "Gemini API error: " + IntToString(status) + " " + statusText
    ensures r.Ok? && candidateText.Some? ==> r.value == candidateText.value
    ensures r.Ok? && candidateText.None? ==> r.value == ""
  {
    if !ok then Err("Gemini API error: " + IntToString(status) + " " + statusText)
    else Ok(candidateText.GetOr(""))
  }

  // ------------------------------------------------------------ generateQuestions

  /** The length of a match of `/Q\s*\d*\s*:/` at the start of `t`, if one starts there. */
  function QuestionMarkerAt(t: string): (r: Option<nat>)
    ensures r.Some? ==> 2 <= r.value <= |t| && t[0] == 'Q' && t[r.value - 1] == ':'
  {
    if t == [] || t[0] != 'Q' then None
    else
      var a := 1 + RunLength(t[1..], IsSpace);
      var b := a + RunLength(t[a..], IsDigit);
      var c := b + RunLength(t[b..], IsSpace);
      if c < |t| && t[c] == ':' then Some(c + 1) else None
  }

  /** The first position at or after `from` where the question marker matches. */
  function NextMarker(t: string, from: nat): (r: Option<(nat, nat)>)
    decreases |t| - from
    ensures r.Some? ==> from <= r.value.0 && r.value.1 >= 2 && r.value.0 + r.value.1 <= |t|
                        && QuestionMarkerAt(t[r.value.0..]) == Some(r.value.1)
    ensures r.None? ==> forall j :: from <= j < |t| ==> QuestionMarkerAt(t[j..]).None?
  {
    if from >= |t| then None
    else match QuestionMarkerAt(t[from..])
      case Some(n) => Some((from, n))
      case None => NextMarker(t, from + 1)
  }

  /** `t.split(/Q\s*\d*\s*:/)`: the text between markers; one more piece than markers. */
  function SplitAtMarkers(t: string): (r: seq<string>)
    decreases |t|
    ensures |r| >= 1
    ensures NextMarker(t, 0).None? ==> r == [t]
  {
    match NextMarker(t, 0)
    case None => [t]
    case Some((i, n)) => [t[..i]] + SplitAtMarkers(t[i + n..])
  }

  /** `.slice(1)`: what follows each question marker. */
  function Blocks(response: string): seq<string> {
    SplitAtMarkers(response)[1..]
  }

  predicate NonBlank(s: string) { Trim(s) != "" }

  /** `block.trim().split('\n').filter(line => line.trim())`. */
  function BlockLines(block: string): (r: seq<string>)
    ensures forall i :: 0 <= i < |r| ==> NonBlank(r[i])
  {
    Seqs.Filter(Split(Trim(block), "\n"), NonBlank)
  }

  /** `line.trim().match(/^[ABCD]:/)`. */
  predicate IsOptionLine(line: string) {
    var t := Trim(line);
    |t| >= 2 && (t[0] == 'A' || t[0] == 'B' || t[0] == 'C' || t[0] == 'D') && t[1] == ':'
  }

  predicate IsCorrectLine(line: string) {
    StartsWith(Trim(line), "CORRECT:")
  }

  /** `line.substring(2).trim()` on the trimmed line. */
  function OptionText(line: string): string {
    Trim(Substring(Trim(line), 2))
  }

  function OptionTexts(lines: seq<string>): (r: seq<string>)
    ensures |r| == |lines| && forall k :: 0 <= k < |r| ==> r[k] == OptionText(lines[k])
  {
    seq(|lines|, k requires 0 <= k < |lines| => OptionText(lines[k]))
  }

  /** The text of the option lines among `lines`, in order. */
  function Options(lines: seq<string>): seq<string> {
    OptionTexts(Seqs.Filter(lines, IsOptionLine))
  }

  /** There is one option per option line. */
  lemma OptionsCount(lines: seq<string>)
    ensures |Options(lines)| == Seqs.Count(lines, IsOptionLine)
  {
  }

  /** `line.substring(8).trim()` on the trimmed line: what follows 'CORRECT:'. */
  function CorrectText(line: string): string {
    Trim(Substring(Trim(line), 8))
  }

  /** A line that sets the answer: a 'CORRECT:' line that is not an option line. */
  predicate IsAnswerLine(line: string) {
    !IsOptionLine(line) && IsCorrectLine(line)
  }

  /** `f` of the last element of `s` that satisfies `p`, or `d` when none does. */
  function LastMapped<T, U>(s: seq<T>, p: T -> bool, f: T -> U, d: U): U {
    if s == [] then d
    else if p(s[|s| - 1]) then f(s[|s| - 1])
    else LastMapped(s[..|s| - 1], p, f, d)
  }

  /** With no element satisfying `p` the result is `d`; otherwise it is `f` of the last such element. */
  lemma {:induction false} LastMappedIsLast<T, U>(s: seq<T>, p: T -> bool, f: T -> U, d: U)
    ensures (forall k :: 0 <= k < |s| ==> !p(s[k])) ==> LastMapped(s, p, f, d) == d
    ensures (exists k :: 0 <= k < |s| && p(s[k])) ==>
              exists k :: 0 <= k < |s| && p(s[k]) && LastMapped(s, p, f, d) == f(s[k])
                          && forall j :: k < j < |s| ==> !p(s[j])
  {
    if s != [] && !p(s[|s| - 1]) {
      var init := s[..|s| - 1];
      LastMappedIsLast(init, p, f, d);
      if exists k :: 0 <= k < |s| && p(s[k]) {
        var k :| 0 <= k < |s| && p(s[k]);
        assert p(init[k]);
        var m :| 0 <= m < |init| && p(init[m]) && LastMapped(init, p, f, d) == f(init[m])
                 && forall j :: m < j < |init| ==> !p(init[j]);
        assert init[m] == s[m];
        forall j | m < j < |s|
          ensures !p(s[j])
        {
          if j < |init| { assert s[j] == init[j]; }
        }
      } else {
        forall k | 0 <= k < |init|
          ensures !p(init[k])
        {
          assert init[k] == s[k];
        }
      }
    }
  }

  /** The answer from the last 'CORRECT:' line that is not an option line, or ''. */
  function Answer(lines: seq<string>): string {
    LastMapped(lines, IsAnswerLine, CorrectText, "")
  }

  /**
   * With no answer line the answer is ''; otherwise it is the text after
   * the last answer line.
   */
  lemma AnswerFrom(lines: seq<string>)
    ensures (forall k :: 0 <= k < |lines| ==> !IsAnswerLine(lines[k])) ==> Answer(lines) == ""
    ensures (exists k :: 0 <= k < |lines| && IsAnswerLine(lines[k])) ==>
              exists k :: 0 <= k < |lines| && IsAnswerLine(lines[k]) && Answer(lines) == CorrectText(lines[k])
                          && forall j :: k < j < |lines| ==> !IsAnswerLine(lines[j])
  {
    LastMappedIsLast(lines, IsAnswerLine, CorrectText, "");
  }

  /**
   * What one block yields: a question only when it has at least five
   * non-blank lines and exactly four of the lines after the first are
   * option lines; the question is the first line trimmed.
   */
  function QuestionOf(block: string): (r: Option<Question>)
    ensures r.Some? <==> |BlockLines(block)| >= 5 && Seqs.Count(BlockLines(block)[1..], IsOptionLine) == 4
    ensures r.Some? ==> r.value.question == Trim(BlockLines(block)[0]) && r.value.question != ""
                        && |r.value.options| == 4
                        && r.value.options == Options(BlockLines(block)[1..])
                        && r.value.answer == Answer(BlockLines(block)[1..])
  {
    var lines := BlockLines(block);
    if |lines| >= 5 then
      OptionsCount(lines[1..]);
      var question := Trim(lines[0]);
      var options := Options(lines[1..]);
      if question != "" && |options| == 4 then Some(Question(question, options, Answer(lines[1..]))) else None
    else None
  }

  /** One more line adds its option text when it is an option line. */
  lemma OptionsSnoc(lines: seq<string>, x: string)
    ensures Options(lines + [x]) == Options(lines) + (if IsOptionLine(x) then [OptionText(x)] else [])
  {
    Seqs.FilterAppend(lines, [x], IsOptionLine);
    assert Seqs.Filter([x], IsOptionLine) == (if IsOptionLine(x) then [x] else []) by {
      assert [x][1..] == [];
    }
  }

  /** One more line sets the answer when it is a 'CORRECT:' line and not an option line. */
  lemma AnswerSnoc(lines: seq<string>, x: string)
    ensures Answer(lines + [x]) == if IsAnswerLine(x) then CorrectText(x) else Answer(lines)
  {
    assert (lines + [x])[..|lines|] == lines;
  }

  /** The inner `for` loop: the options and the answer gathered from the lines after the first. */
  method ScanLines(rest: seq<string>) returns (options: seq<string>, correctAnswer: string)
    ensures options == Options(rest) && correctAnswer == Answer(rest)
  {
    options := [];
    correctAnswer := "";
    var i := 0;
    while i < |rest|
      invariant 0 <= i <= |rest|
      invariant options == Options(rest[..i])
      invariant correctAnswer == Answer(rest[..i])
    {
      assert rest[..i + 1] == rest[..i] + [rest[i]];
      OptionsSnoc(rest[..i], rest[i]);
      AnswerSnoc(rest[..i], rest[i]);
      if IsOptionLine(rest[i]) {
        options := options + [OptionText(rest[i])];
      } else if IsCorrectLine(rest[i]) {
        correctAnswer := CorrectText(rest[i]);
      }
      i := i + 1;
    }
    assert rest[..i] == rest;
  }

  /** One block: at least five lines, and exactly four options among them. */
  method ParseBlock(block: string) returns (r: Option<Question>)
    ensures r == QuestionOf(block)
  {
    var lines := BlockLines(block);
    if |lines| < 5 {
      return None;
    }
    var question := Trim(lines[0]);
    var options, correctAnswer := ScanLines(lines[1..]);
    if question != "" && |options| == 4 {
      r := Some(Question(question, options, correctAnswer));
    } else {
      r := None;
    }
  }

  /** The questions of all blocks, in order. */
  function AllQuestions(blocks: seq<string>): (r: seq<Question>)
    ensures |r| <= |blocks|
    ensures forall k :: 0 <= k < |r| ==> |r[k].options| == 4 && r[k].question != ""
  {
    if blocks == [] then []
    else
      var init := AllQuestions(blocks[..|blocks| - 1]);
      match QuestionOf(blocks[|blocks| - 1])
      case Some(q) => init + [q]
      case None => init
  }

  /** The questions of one more block: those of the blocks before, then its own if it yields one. */
  lemma AllQuestionsStep(blocks: seq<string>, i: nat, q: Option<Question>)
    requires i < |blocks| && q == QuestionOf(blocks[i])
    ensures AllQuestions(blocks[..i + 1]) == AllQuestions(blocks[..i]) + (if q.Some? then [q.value] else [])
  {
    assert blocks[..i + 1][..i] == blocks[..i];
  }

  /** The `blocks.forEach` loop: each block's question, if it yields one, in order. */
  method CollectQuestions(blocks: seq<string>) returns (all: seq<Question>)
    ensures all == AllQuestions(blocks)
  {
    all := [];
    var i := 0;
    while i < |blocks|
      invariant 0 <= i <= |blocks|
      invariant all == AllQuestions(blocks[..i])
    {
      var q := ParseBlock(blocks[i]);
      AllQuestionsStep(blocks, i, q);
      if q.Some? {
        all := all + [q.value];
      }
      i := i + 1;
    }
    assert blocks[..i] == blocks;
  }

  /**
   * `generateQuestions` from the reply: every well-formed block, in order,
   * then `slice(0, count)`; a negative count counts from the end.
   */
  method GenerateQuestions(response: string, count: int) returns (questions: seq<Question>)
    ensures questions == Slice(AllQuestions(Blocks(response)), 0, count)
    ensures count >= 0 ==> |questions| <= count
    ensures forall k :: 0 <= k < |questions| ==> |questions[k].options| == 4 && questions[k].question != ""
  {
    var all := CollectQuestions(Blocks(response));
    questions := Slice(all, 0, count);
    assert questions == all[..SliceIndex(count, |all|)];
  }

  // ------------------------------------------------------------ detectLanguage

  /** `response.trim().toLowerCase().substring(0, 2)`. */
  function DetectLanguage(response: string): (r: string)
    ensures |r| <= 2 && |r| <= |Trim(response)| && r == LowerStr(Trim(response))[..|r|]
    ensures |r| == if |Trim(response)| < 2 then |Trim(response)| else 2
    ensures forall i :: 0 <= i < |r| ==> !('A' <= r[i] <= 'Z')
  {
    Take(LowerStr(Trim(response)), 2)
  }

  // ------------------------------------------------------------ analyzeSentiment

  /** `/SENTIMENT:\s*(positive|negative|neutral)/i` at the start of `t`. */
  function SentimentAt(t: string): Option<SentimentLabel> {
    if |t| < 10 || !EqualsIgnoreCase(t[..10], "SENTIMENT:") then None
    else
      var rest := t[10 + RunLength(t[10..], IsSpace)..];
      if |rest| >= 8 && EqualsIgnoreCase(rest[..8], "positive") then Some(Positive)
      else if |rest| >= 8 && EqualsIgnoreCase(rest[..8], "negative") then Some(Negative)
      else if |rest| >= 7 && EqualsIgnoreCase(rest[..7], "neutral") then Some(Neutral)
      else None
  }

  /** The leftmost position at or after `from` where `at` finds a match, and what it finds there. */
  function FirstMatch<X>(at: string -> Option<X>, t: string, from: nat): (r: Option<X>)
    decreases |t| - from
    ensures r.None? ==> forall j :: from <= j < |t| ==> at(t[j..]).None?
    ensures r.Some? ==> exists j :: from <= j < |t| && at(t[j..]) == r &&
                                    forall i :: from <= i < j ==> at(t[i..]).None?
  {
    if from >= |t| then None
    else if at(t[from..]).Some? then at(t[from..])
    else FirstMatch(at, t, from + 1)
  }

  /** With no match at or after `from`, the search finds nothing. */
  lemma {:induction false} FirstMatchNone<X>(at: string -> Option<X>, t: string, from: nat)
    requires forall j :: from <= j < |t| ==> at(t[j..]).None?
    ensures FirstMatch(at, t, from).None?
    decreases |t| - from
  {
    if from < |t| {
      FirstMatchNone(at, t, from + 1);
    }
  }

  /** No position of `t` matches. */
  predicate NoMatch<X>(at: string -> Option<X>, t: string) {
    forall j :: 0 <= j < |t| ==> at(t[j..]).None?
  }

  /** Position `j` matches and no earlier position does. */
  predicate LeftmostMatch<X>(at: string -> Option<X>, t: string, j: int) {
    0 <= j < |t| && at(t[j..]).Some? && forall i :: 0 <= i < j ==> at(t[i..]).None?
  }

  /**
   * The search from the start finds nothing when no position matches, and
   * otherwise what the leftmost matching position gives.
   */
  lemma FirstMatchIsLeftmost<X>(at: string -> Option<X>, t: string)
    ensures NoMatch(at, t) ==> FirstMatch(at, t, 0).None?
    ensures forall j :: LeftmostMatch(at, t, j) ==> FirstMatch(at, t, 0) == at(t[j..])
  {
    if NoMatch(at, t) {
      FirstMatchNone(at, t, 0);
    }
    forall j | LeftmostMatch(at, t, j)
      ensures FirstMatch(at, t, 0) == at(t[j..])
    {
      var r := FirstMatch(at, t, 0);
      var k :| 0 <= k < |t| && at(t[k..]) == r && forall i :: 0 <= i < k ==> at(t[i..]).None?;
      assert !(k < j) && !(j < k);
    }
  }

  predicate IsNumeralChar(c: char) { IsDigit(c) || c == '.' }

  /** `/CONFIDENCE:\s*([0-9.]+)/` at the start of `t`: the captured numeral. */
  function ConfidenceAt(t: string): (r: Option<string>)
    ensures r.Some? ==> |r.value| > 0 && forall i :: 0 <= i < |r.value| ==> IsNumeralChar(r.value[i])
  {
    if !StartsWith(t, "CONFIDENCE:") then None
    else
      var rest := t[11 + RunLength(t[11..], IsSpace)..];
      var n := RunLength(rest, IsNumeralChar);
      if n == 0 then None else Some(rest[..n])
  }

  /**
   * `analyzeSentiment` from the reply: the first labelled sentiment, else
   * 'neutral'; the first labelled confidence read by `parseFloat`, else 0.5.
   */
  function AnalyzeSentiment(response: string, parseFloat: string -> real): (r: Sentiment)
    ensures NoMatch(SentimentAt, response) ==> r.sentiment == Neutral
    ensures NoMatch(ConfidenceAt, response) ==> r.confidence == 0.5
    ensures forall j :: LeftmostMatch(SentimentAt, response, j) ==> r.sentiment == SentimentAt(response[j..]).value
    ensures forall j :: LeftmostMatch(ConfidenceAt, response, j) ==> r.confidence == parseFloat(ConfidenceAt(response[j..]).value)
  {
    FirstMatchIsLeftmost(SentimentAt, response);
    FirstMatchIsLeftmost(ConfidenceAt, response);
    var verdict := FirstMatch(SentimentAt, response, 0).GetOr(Neutral);
    var found := FirstMatch(ConfidenceAt, response, 0);
    var confidence := if found.Some? then parseFloat(found.value) else 0.5;
    Sentiment(verdict, confidence)
  }

  /** A reply in the requested format is read back as written. */
  lemma WellFormedReply()
    ensures AnalyzeSentiment("SENTIMENT: positive", s => 0.9).sentiment == Positive
  {
    var t := "SENTIMENT: positive";
    assert t[..10] == "SENTIMENT:";
    assert t[10..][0] == ' ' && t[11..][0] == 'p';
    assert RunLength(t[10..], IsSpace) == 1 by {
      assert RunLength(t[11..], IsSpace) == 0;
    }
    assert SentimentAt(t[0..]) == Some(Positive);
  }

  // ------------------------------------------------------------ the speech adapter

  /** The Gemini speech adapter: never supported, no voices; its actions throw. */
  function TtsIsSupported(): (r: bool)
    ensures !r
  {
    false
  }

  function TtsGetVoices(): (r: seq<string>)
    ensures r == []
  {
    []
  }

  function TtsSpeak(text: string): (r: Result<()>)
    ensures r == Err("Gemini TTS not yet implemented. Using fallback TTS.")
  {
    Err("Gemini TTS not yet implemented. Using fallback TTS.")
  }
}
