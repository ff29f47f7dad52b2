/**
 * The `src` lesson service: for a topic it asks the language model for one
 * lesson per difficulty, in the order beginner, intermediate, advanced, and
 * derives each lesson's title, learning objectives and duration. The model
 * is reached through `fetch`, an input here: the response it gives for a
 * prompt.
 */
module LessonService {
  import opened Wrappers
  import opened Strings
  import opened Seqs

  datatype Difficulty = Beginner | Intermediate | Advanced

  function Name(d: Difficulty): string {
    match d
    case Beginner => "beginner"
    case Intermediate => "intermediate"
    case Advanced => "advanced"
  }

  /** The difficulties `generateLessons` walks through, in order. */
  const Difficulties: seq<Difficulty> := [Beginner, Intermediate, Advanced]

  // ------------------------------------------------------------ title and duration

  function Upper(c: char): char {
    if 'a' <= c <= 'z' then (c as int - 32) as char else c
  }

  /** `s.charAt(0).toUpperCase() + s.slice(1)`. */
  function Capitalise(s: string): (r: string)
    ensures |r| == |s|
    ensures s != [] ==> r[0] == Upper(s[0]) && r[1..] == s[1..]
  {
    if s == [] then [] else [Upper(s[0])] + s[1..]
  }

  /** The lesson title: the topic, a dash and the difficulty with a capital. */
  function Title(topic: string, d: Difficulty): (t: string)
    ensures d == Beginner ==> t == topic + " - Beginner"
    ensures d == Intermediate ==> t == topic + " - Intermediate"
    ensures d == Advanced ==> t == topic + " - Advanced"
  {
    topic + " - " + Capitalise(Name(d))
  }

  /** `estimateDuration`: minutes per difficulty. */
  function EstimateDuration(d: Difficulty): (minutes: nat)
    ensures d == Beginner <==> minutes == 30
    ensures d == Intermediate <==> minutes == 45
    ensures d == Advanced <==> minutes == 60
  {
    match d
    case Beginner => 30
    case Intermediate => 45
    case Advanced => 60
  }

  /** A harder lesson is estimated to take strictly longer. */
  lemma DurationGrows(i: nat, j: nat)
    requires i < j < |Difficulties|
    ensures EstimateDuration(Difficulties[i]) < EstimateDuration(Difficulties[j])
  {
  }

  // ------------------------------------------------------------ the prompt

  const PromptOpening := "Write a complete "
  const PromptLevel := " level lesson about "
  const ObjectivesHeading := "## Learning Objectives"
  const PromptGoals := "\nBy the end of this lesson, you will be able to:\n- [Write 3-4 specific learning goals here]\n\n## Introduction\n[Write a brief introduction to "
  const PromptMain := "]\n\n## Main Content\n[Explain the key concepts of "
  const PromptAt := " at "
  const PromptClosing := " level with examples]\n\n## Practice Questions\n1. [Question 1]\n2. [Question 2]\n3. [Question 3]\n\n## Summary\n[Summarize the key points]\n\nWrite the actual lesson content, not instructions. Fill in all the bracketed sections with real educational content about "

  /** The opening request, up to the topic: "Write a complete <difficulty> level lesson about <topic>". */
  function Request(topic: string, d: Difficulty): string {
    Concat([PromptOpening, Name(d), PromptLevel, topic])
  }

  /** The heading line carrying the lesson's title. */
  function TitleLine(topic: string, d: Difficulty): string {
    "# " + Title(topic, d) + " Level"
  }

  /** The sections after the objectives heading, naming the topic and the difficulty again. */
  function Body(topic: string, d: Difficulty): string {
    PromptGoals + topic + PromptMain + topic + PromptAt + Name(d) + PromptClosing + topic + "."
  }

  /** The pieces of the template, in order. */
  function PromptPieces(topic: string, d: Difficulty): seq<string> {
    [Request(topic, d), ".\n\n", TitleLine(topic, d), "\n\n", ObjectivesHeading, Body(topic, d)]
  }

  /**
   * `createPrompt`: the lesson template. It opens with the request for a
   * lesson of that difficulty about the topic, names both verbatim, and
   * holds the lesson's own title as a heading and the "Learning Objectives"
   * heading the objectives are later read from.
   */
  function CreatePrompt(topic: string, d: Difficulty): (p: string)
    ensures StartsWith(p, Request(topic, d))
    ensures Contains(p, topic) && Contains(p, Name(d))
    ensures Contains(p, TitleLine(topic, d))
    ensures Contains(p, ObjectivesHeading)
  {
    var ps := PromptPieces(topic, d);
    assert Concat(ps) == ps[0] + Concat(ps[1..]);
    ConcatFour(PromptOpening, Name(d), PromptLevel, topic);
    ConcatContains(ps, 0);
    ConcatContains([PromptOpening, Name(d), PromptLevel, topic], 3);
    ConcatContains([PromptOpening, Name(d), PromptLevel, topic], 1);
    ContainsWithin(Concat(ps), Request(topic, d), topic);
    ContainsWithin(Concat(ps), Request(topic, d), Name(d));
    ConcatContains(ps, 2);
    ConcatContains(ps, 4);
    Concat(ps)
  }

  // ------------------------------------------------------------ objectives

  /** The heading the objectives follow, in lower case: the expression carries the `i` flag. */
  const Heading := "learning objective"

  /** An ASCII letter: the class `[A-Z]` under the `i` flag. */
  predicate IsLetter(c: char) { 'a' <= Lower(c) <= 'z' }

  /** The end of the objectives block, `\n\n` or a newline and a letter, starts at t. */
  predicate TerminatorAt(s: string, t: int) {
    0 <= t && t + 1 < |s| && s[t] == '\n' && (s[t + 1] == '\n' || IsLetter(s[t + 1]))
  }

  /** The first terminator at or after `from`. */
  function FirstTerminator(s: string, from: nat): (r: Option<nat>)
    decreases |s| - from
    ensures r.Some? ==> from <= r.value && TerminatorAt(s, r.value)
    ensures r.Some? ==> forall t :: from <= t < r.value ==> !TerminatorAt(s, t)
    ensures r.None? ==> forall t :: from <= t ==> !TerminatorAt(s, t)
  {
    if from + 1 >= |s| then None
    else if TerminatorAt(s, from) then Some(from)
    else FirstTerminator(s, from + 1)
  }

  /**
   * Where the lazy capture starts for the heading at p: after an optional
   * `s`, an optional `:` and all the whitespace that follows, each taken
   * greedily.
   */
  function CaptureStart(s: string, p: nat): (e: nat)
    requires p + |Heading| <= |s|
    ensures p + |Heading| <= e <= |s|
  {
    var a := p + |Heading|;
    var b := if a < |s| && Lower(s[a]) == 's' then a + 1 else a;
    var c := if b < |s| && s[b] == ':' then b + 1 else b;
    c + LeadingSpaces(s[c..])
  }

  /**
   * The text `match(/Learning Objectives?:?\s*([\s\S]*?)(?:\n\n|\n[A-Z])/i)`
   * captures: from the greedy capture start after the first heading up to
   * the first terminator. When no terminator follows that start, the
   * backtracking alternatives of the expression capture only the optional
   * `s`, `:` and whitespace, none of which is an objective line; the block
   * is then `None`, as it is when there is no heading.
   */
  function ObjectiveBlock(content: string): (r: Option<string>)
    ensures !Contains(LowerStr(content), Heading) ==> r.None?
  {
    match BlockSpan(content)
    case None => None
    case Some((e, t)) => Some(content[e..t])
  }

  /**
   * Where the block starts and ends: it ends at the first terminator after
   * the capture start, so a terminator follows it and none starts inside.
   */
  function BlockSpan(content: string): (r: Option<(nat, nat)>)
    ensures !Contains(LowerStr(content), Heading) ==> r.None?
    ensures r.Some? ==> r.value.0 <= r.value.1 <= |content| && TerminatorAt(content, r.value.1)
    ensures r.Some? ==> forall t :: r.value.0 <= t < r.value.1 ==> !TerminatorAt(content, t)
  {
    match IndexOf(LowerStr(content), Heading)
    case None => None
    case Some(p) =>
      var e := CaptureStart(content, p);
      match FirstTerminator(content, e)
      case None => None
      case Some(t) => Some((e, t))
  }

  /** A slice of a text with no terminator starting in it holds none either. */
  lemma NoTerminatorInside(s: string, e: nat, t: nat)
    requires e <= t <= |s|
    requires forall j :: e <= j < t ==> !TerminatorAt(s, j)
    ensures forall j :: !TerminatorAt(s[e..t], j)
  {
    var b := s[e..t];
    forall j ensures !TerminatorAt(b, j) {
      if 0 <= j && j + 1 < |b| {
        assert !TerminatorAt(s, e + j);
        assert b[j] == s[e + j] && b[j + 1] == s[e + j + 1];
      }
    }
  }

  /** The block holds no terminator: the capture is as short as the lazy `*?` makes it. */
  lemma BlockIsShortest(content: string)
    requires ObjectiveBlock(content).Some?
    ensures forall t :: !TerminatorAt(ObjectiveBlock(content).value, t)
  {
    var span := BlockSpan(content).value;
    NoTerminatorInside(content, span.0, span.1);
  }

  predicate IsDash(s: string) { s != [] && s[0] == '-' }

  /** `/^\d+\./`: one or more digits and a dot. */
  predicate IsNumbered(s: string) {
    var k := RunLength(s, IsDigit);
    k >= 1 && k < |s| && s[k] == '.'
  }

  /** The lines the objectives come from: trimmed, they start with `-` or with a number and a dot. */
  predicate IsListLine(line: string) {
    IsDash(Trim(line)) || IsNumbered(Trim(line))
  }

  /** The characters of `[-\d.]`. */
  predicate IsMarkerChar(c: char) { c == '-' || IsDigit(c) || c == '.' }

  /**
   * `line.replace(/^[-\d.]\s*\/, '').trim()` on the untrimmed line: one
   * marker character at the very start goes, with the whitespace after it.
   */
  function StripAsWritten(line: string): (r: string)
    ensures r != [] ==> !IsSpace(r[0]) && !IsSpace(r[|r| - 1])
  {
    if line != [] && IsMarkerChar(line[0]) then
      var rest := line[1..];
      Trim(rest[LeadingSpaces(rest)..])
    else Trim(line)
  }

  /** The whole marker of a list line, `-` or the number with its dot, and the whitespace around it. */
  function StripMarker(line: string): (r: string)
    ensures r != [] ==> !IsSpace(r[0]) && !IsSpace(r[|r| - 1])
  {
    var t := Trim(line);
    if IsDash(t) then Trim(t[1..])
    else if IsNumbered(t) then Trim(t[RunLength(t, IsDigit) + 1..])
    else t
  }

  predicate NonEmpty(s: string) { s != [] }

  /** The lines of a block that are list lines, in order. */
  function ListLines(block: string): (r: seq<string>)
    ensures forall i :: 0 <= i < |r| ==> IsListLine(r[i]) && r[i] in Split(block, "\n")
  {
    Filter(Split(block, "\n"), IsListLine)
  }

  /** The lines of a block that hold objectives, each stripped by `strip`, empty results dropped. */
  function ObjectivesWith(block: string, strip: string -> string): (r: seq<string>)
    ensures forall i :: 0 <= i < |r| ==> r[i] != []
    ensures forall i :: 0 <= i < |r| ==> r[i] in StripAll(ListLines(block), strip)
    ensures IsSubsequence(r, StripAll(ListLines(block), strip))
    ensures |r| == Count(StripAll(ListLines(block), strip), NonEmpty)
    ensures forall line :: line in Split(block, "\n") && IsListLine(line) && strip(line) != [] ==> strip(line) in r
  {
    var ls := ListLines(block);
    var st := StripAll(ls, strip);
    FilterIsSubsequence(st, NonEmpty);
    forall line | line in Split(block, "\n") && IsListLine(line) && strip(line) != []
      ensures strip(line) in Filter(st, NonEmpty)
    {
      StrippedKept(Split(block, "\n"), IsListLine, strip, line);
    }
    Filter(st, NonEmpty)
  }

  /** A line that `keep` accepts and `strip` leaves non-empty survives keeping, stripping and dropping the empties. */
  lemma StrippedKept(all: seq<string>, keep: string -> bool, strip: string -> string, line: string)
    requires line in all && keep(line) && strip(line) != []
    ensures strip(line) in Filter(StripAll(Filter(all, keep), strip), NonEmpty)
  {
    var ls := Filter(all, keep);
    var st := StripAll(ls, strip);
    var i :| 0 <= i < |all| && all[i] == line;
    assert line in ls;
    var j :| 0 <= j < |ls| && ls[j] == line;
    assert st[j] == strip(line) && NonEmpty(st[j]);
  }

  /** `lines.map(strip)`. */
  function StripAll(lines: seq<string>, strip: string -> string): (r: seq<string>)
    ensures |r| == |lines| && forall k :: 0 <= k < |lines| ==> r[k] == strip(lines[k])
  {
    if lines == [] then [] else [strip(lines[0])] + StripAll(lines[1..], strip)
  }

  /**
   * `extractObjectives`: no heading or no block gives no objectives; each
   * objective is a non-empty, trimmed remnant of a list line of the block.
   */
  function ExtractObjectives(content: string): (r: seq<string>)
    ensures !Contains(LowerStr(content), Heading) ==> r == []
    ensures forall i :: 0 <= i < |r| ==> r[i] != [] && !IsSpace(r[i][0]) && !IsSpace(r[i][|r[i]| - 1])
    ensures ObjectiveBlock(content).None? ==> r == []
    ensures ObjectiveBlock(content).Some? ==>
              var lines := StripAll(ListLines(ObjectiveBlock(content).value), StripAsWritten);
              && IsSubsequence(r, lines)
              && |r| == Count(lines, NonEmpty)
              && forall line ::
                   (line in Split(ObjectiveBlock(content).value, "\n") && IsListLine(line) && StripAsWritten(line) != [])
                   ==> StripAsWritten(line) in r
  {
    match ObjectiveBlock(content)
    case None => []
    case Some(b) => ObjectivesWith(b, StripAsWritten)
  }

  /** `extractObjectives` stripping the whole marker of each line, as intended. */
  function ExtractObjectivesCorrected(content: string): (r: seq<string>)
    ensures !Contains(LowerStr(content), Heading) ==> r == []
    ensures forall i :: 0 <= i < |r| ==> r[i] != [] && !IsSpace(r[i][0]) && !IsSpace(r[i][|r[i]| - 1])
    ensures ObjectiveBlock(content).None? ==> r == []
    ensures ObjectiveBlock(content).Some? ==>
              var lines := StripAll(ListLines(ObjectiveBlock(content).value), StripMarker);
              && IsSubsequence(r, lines)
              && |r| == Count(lines, NonEmpty)
              && forall line ::
                   (line in Split(ObjectiveBlock(content).value, "\n") && IsListLine(line) && StripMarker(line) != [])
                   ==> StripMarker(line) in r
  {
    match ObjectiveBlock(content)
    case None => []
    case Some(b) => ObjectivesWith(b, StripMarker)
  }

  // ------------------------------------------------------------ stripping, proved

  /** A run of `p` characters in front adds its length to the run. */
  lemma {:induction false} RunLengthAfter(a: string, b: string, p: char -> bool)
    requires forall i :: 0 <= i < |a| ==> p(a[i])
    ensures RunLength(a + b, p) == |a| + RunLength(b, p)
  {
    if a == [] {
      assert a + b == b;
    } else {
      assert (a + b)[1..] == a[1..] + b;
      RunLengthAfter(a[1..], b, p);
    }
  }

  /** A text that neither starts nor ends with whitespace is its own trim. */
  lemma TrimTrimmed(s: string)
    requires s != [] && !IsSpace(s[0]) && !IsSpace(s[|s| - 1])
    ensures Trim(s) == s
  {
    assert LeadingSpaces(s) == 0;
    assert s[0..] == s;
    assert TrailingSpaces(s) == 0;
  }

  /** Trimming drops whitespace in front of a trimmed text. */
  lemma TrimAfterGap(gap: string, x: string)
    requires AllSpace(gap)
    requires x != [] && !IsSpace(x[0]) && !IsSpace(x[|x| - 1])
    ensures Trim(gap + x) == x
  {
    RunLengthAfter(gap, x, IsSpace);
    assert RunLength(x, IsSpace) == 0;
    assert (gap + x)[|gap|..] == x;
    assert TrailingSpaces(x) == 0;
  }

  /** A digit string followed by a dot. */
  predicate IsNumberMarker(m: string) {
    |m| >= 2 && m[|m| - 1] == '.' && forall i :: 0 <= i < |m| - 1 ==> IsDigit(m[i])
  }

  /** A list line: its marker, whitespace, then the objective's text with no whitespace around it. */
  predicate IsItem(marker: string, gap: string, x: string) {
    (marker == "-" || IsNumberMarker(marker)) && AllSpace(gap)
    && x != [] && !IsSpace(x[0]) && !IsSpace(x[|x| - 1])
  }

  /** As written, a dash item loses its dash and the whitespace after it. */
  lemma DashItemAsWritten(gap: string, x: string)
    requires IsItem("-", gap, x)
    ensures StripAsWritten("-" + gap + x) == x
  {
    var line := "-" + gap + x;
    assert line[1..] == gap + x;
    RunLengthAfter(gap, x, IsSpace);
    assert line[1 + LeadingSpaces(line[1..])..] == x;
    TrimTrimmed(x);
  }

  /** Corrected, a dash item gives the same text. */
  lemma DashItemCorrected(gap: string, x: string)
    requires IsItem("-", gap, x)
    ensures StripMarker("-" + gap + x) == x
  {
    var line := "-" + gap + x;
    TrimTrimmed(line);
    assert line[1..] == gap + x;
    TrimAfterGap(gap, x);
  }

  /** A numbered item is already trimmed; its digits end right before the marker's dot. */
  lemma NumberedLine(marker: string, gap: string, x: string)
    requires IsItem(marker, gap, x) && IsNumberMarker(marker)
    ensures Trim(marker + gap + x) == marker + gap + x
    ensures RunLength(marker + gap + x, IsDigit) == |marker| - 1
    ensures (marker + gap + x)[|marker| - 1] == '.'
    ensures (marker + gap + x)[|marker|..] == gap + x
  {
    var line := marker + gap + x;
    var digits := marker[..|marker| - 1];
    TrimTrimmed(line);
    assert line == digits + ("." + gap + x);
    RunLengthAfter(digits, "." + gap + x, IsDigit);
    assert RunLength("." + gap + x, IsDigit) == 0;
  }

  /** For a numbered item the whole marker goes: the corrected strip gives the item's text. */
  lemma NumberedItemCorrected(marker: string, gap: string, x: string)
    requires IsItem(marker, gap, x) && IsNumberMarker(marker)
    ensures IsListLine(marker + gap + x)
    ensures StripMarker(marker + gap + x) == x
  {
    var line := marker + gap + x;
    NumberedLine(marker, gap, x);
    assert line[0] == marker[0] && IsDigit(line[0]);
    assert !IsDash(line) && IsNumbered(line);
    TrimAfterGap(gap, x);
    assert StripMarker(line) == Trim(gap + x);
  }

  /** For a numbered item as written only the first digit goes: the rest of the number and the dot stay. */
  lemma NumberedItemAsWritten(marker: string, gap: string, x: string)
    requires IsItem(marker, gap, x) && IsNumberMarker(marker)
    ensures StripAsWritten(marker + gap + x) == marker[1..] + gap + x
  {
    var line := marker + gap + x;
    var rest := marker[1..] + gap + x;
    assert line[1..] == rest;
    assert rest[0] == marker[1];
    assert LeadingSpaces(rest) == 0;
    assert rest[0..] == rest;
    TrimTrimmed(rest);
  }

  /** "1. Read maps" keeps ". Read maps" as written, where "Read maps" is meant. */
  lemma AsWrittenKeepsDot()
    ensures StripAsWritten("1. Read maps") == ". Read maps"
    ensures StripMarker("1. Read maps") == "Read maps"
  {
    assert IsItem("1.", " ", "Read maps");
    assert "1. Read maps" == "1." + " " + "Read maps";
    NumberedItemAsWritten("1.", " ", "Read maps");
    NumberedItemCorrected("1.", " ", "Read maps");
  }

  /** An indented dash line keeps its dash as written: the marker is only looked for at the very start. */
  lemma AsWrittenKeepsIndentedDash()
    ensures StripAsWritten("  - x") == "- x"
  {
    var line := "  - x";
    assert line == "  " + "- x";
    TrimAfterGap("  ", "- x");
  }

  /** A block of one line yields that line's objective, or nothing for a line that is not a list line. */
  lemma OneLineBlock(line: string, strip: string -> string)
    requires forall j :: 0 <= j < |line| ==> line[j] != '\n'
    ensures ObjectivesWith(line, strip) ==
              if IsListLine(line) && strip(line) != [] then [strip(line)] else []
  {
    NoPiecesWithout(line, '\n');
    assert Split(line, "\n") == [line];
    var lines := Filter([line], IsListLine);
    var stripped := seq(|lines|, k requires 0 <= k < |lines| => strip(lines[k]));
    if IsListLine(line) {
      assert lines == [line];
      assert stripped == [strip(line)];
    } else {
      assert lines == [];
      assert stripped == [];
    }
  }

  // ------------------------------------------------------------ generateLessons

  /** What `fetch` gives back: the status, and the text of the first candidate's first part if there is one. */
  datatype Response = Response(ok: bool, status: int, text: Option<string>)

  datatype Lesson = Lesson(difficulty: Difficulty, title: string, content: string,
                           objectives: seq<string>, estimatedDuration: nat)

  const ContentFailed := "Content generation failed"

  /** The generated text, or the failure note when it is missing or empty. */
  function ContentOf(r: Response): (c: string)
    ensures c != []
    ensures r.text.Some? && r.text.value != [] ==> c == r.text.value
    ensures r.text.None? || r.text.value == [] ==> c == ContentFailed
  {
    if r.text.Some? && r.text.value != [] then r.text.value else ContentFailed
  }

  /** The lesson built from the content generated for one difficulty. */
  function LessonFor(topic: string, d: Difficulty, content: string): Lesson {
    Lesson(d, Title(topic, d), content, ExtractObjectives(content), EstimateDuration(d))
  }

  /** The prompt sent for the k-th difficulty. */
  function PromptFor(topic: string, k: nat): string
    requires k < |Difficulties|
  {
    CreatePrompt(topic, Difficulties[k])
  }

  /** The lesson built from the k-th answer. */
  function Expected(topic: string, answers: nat -> Response, k: nat): Lesson
    requires k < |Difficulties|
  {
    LessonFor(topic, Difficulties[k], ContentOf(answers(k)))
  }

  /** The error `generateLessons` throws for a response that is not ok. */
  function ApiError(status: int): string {
    "API error: " + IntToString(status)
  }

  /** The lessons for the difficulties, in order, each built from its own answer. */
  function Built(topic: string, answers: nat -> Response): (ls: seq<Lesson>)
    ensures |ls| == |Difficulties|
  {
    seq(|Difficulties|, k requires 0 <= k < |Difficulties| => Expected(topic, answers, k))
  }

  /**
   * The outcome after the first n calls, `answers(k)` being the k-th
   * response and `items[k]` what an ok k-th response adds: the items so
   * far, or the error of the first failed call.
   */
  function RunUpTo<T>(answers: nat -> Response, items: seq<T>, n: nat): Result<seq<T>>
    requires n <= |items|
  {
    if n == 0 then Ok([])
    else
      match RunUpTo(answers, items, n - 1)
      case Err(e) => Err(e)
      case Ok(ls) =>
        var resp := answers(n - 1);
        if !resp.ok then Err(ApiError(resp.status)) else Ok(ls + [items[n - 1]])
  }

  /** Success after n calls: every call answered ok, and the k-th item is the k-th one offered. */
  lemma {:induction false} RunInOrder<T>(answers: nat -> Response, items: seq<T>, n: nat)
    requires n <= |items| && RunUpTo(answers, items, n).Ok?
    ensures var ls := RunUpTo(answers, items, n).value;
            |ls| == n && forall k :: 0 <= k < n ==> answers(k).ok && ls[k] == items[k]
  {
    if n > 0 {
      var prev := RunUpTo(answers, items, n - 1);
      assert prev.Ok?;
      RunInOrder(answers, items, n - 1);
      var ls := RunUpTo(answers, items, n).value;
      assert ls == prev.value + [items[n - 1]];
      forall k | 0 <= k < n
        ensures answers(k).ok && ls[k] == items[k]
      {
        if k < n - 1 {
          assert ls[k] == prev.value[k];
        }
      }
    }
  }

  /**
   * The outcome after the first n difficulties, `answers(k)` being the
   * response to the k-th prompt: the lessons so far, or the error of the
   * first failed call.
   */
  function LessonsUpTo(topic: string, answers: nat -> Response, n: nat): Result<seq<Lesson>>
    requires n <= |Difficulties|
  {
    RunUpTo(answers, Built(topic, answers), n)
  }

  /** One more difficulty: its call either fails the run or adds its lesson. */
  lemma LessonsStep(topic: string, answers: nat -> Response, i: nat, lessons: seq<Lesson>)
    requires i < |Difficulties| && LessonsUpTo(topic, answers, i) == Ok(lessons)
    ensures LessonsUpTo(topic, answers, i + 1)
            == if !answers(i).ok then Err(ApiError(answers(i).status))
               else Ok(lessons + [Expected(topic, answers, i)])
  {
  }

  /** Once a call has failed, the later calls change nothing. */
  lemma {:induction false} ErrStays<T>(answers: nat -> Response, items: seq<T>, i: nat, n: nat)
    requires i <= n <= |items| && RunUpTo(answers, items, i).Err?
    ensures RunUpTo(answers, items, n) == RunUpTo(answers, items, i)
    decreases n
  {
    if n > i {
      ErrStays(answers, items, i, n - 1);
    }
  }

  /** The responses `fetch` gives to the three prompts, in order. */
  function Answers(topic: string, fetch: string -> Response): nat -> Response {
    (k: nat) => if k < |Difficulties| then fetch(PromptFor(topic, k)) else fetch("")
  }

  /** The k-th answer is what `fetch` gives for the k-th difficulty's prompt. */
  lemma AnswerIsFetch(topic: string, fetch: string -> Response, k: nat)
    requires k < |Difficulties|
    ensures Answers(topic, fetch)(k) == fetch(CreatePrompt(topic, Difficulties[k]))
  {
    assert PromptFor(topic, k) == CreatePrompt(topic, Difficulties[k]);
  }

  /** The run after the i-th call to `fetch`: a failed call is the final outcome, an ok one adds its lesson. */
  lemma FetchStep(topic: string, fetch: string -> Response, i: nat, lessons: seq<Lesson>)
    requires i < |Difficulties| && LessonsUpTo(topic, Answers(topic, fetch), i) == Ok(lessons)
    ensures var response := fetch(PromptFor(topic, i));
            && (!response.ok ==> LessonsUpTo(topic, Answers(topic, fetch), |Difficulties|) == Err(ApiError(response.status)))
            && (response.ok ==> LessonsUpTo(topic, Answers(topic, fetch), i + 1)
                                == Ok(lessons + [LessonFor(topic, Difficulties[i], ContentOf(response))]))
  {
    AnswerIsFetch(topic, fetch, i);
    LessonsStep(topic, Answers(topic, fetch), i, lessons);
    if !fetch(PromptFor(topic, i)).ok {
      ErrStays(Answers(topic, fetch), Built(topic, Answers(topic, fetch)), i + 1, |Difficulties|);
    }
  }

  /** `generateLessons`: one lesson per difficulty, or the first failed call's error. */
  method GenerateLessons(topic: string, fetch: string -> Response) returns (r: Result<seq<Lesson>>)
    ensures r == LessonsUpTo(topic, Answers(topic, fetch), |Difficulties|)
  {
    var lessons: seq<Lesson> := [];
    var i := 0;
    while i < |Difficulties|
      invariant 0 <= i <= |Difficulties|
      invariant LessonsUpTo(topic, Answers(topic, fetch), i) == Ok(lessons)
    {
      var d := Difficulties[i];
      var response := fetch(PromptFor(topic, i));
      FetchStep(topic, fetch, i, lessons);
      if !response.ok {
        return Err(ApiError(response.status));
      }
      var content := ContentOf(response);
      var lesson := LessonFor(topic, d, content);
      lessons := lessons + [lesson];
      i := i + 1;
    }
    return Ok(lessons);
  }

  /**
   * Success after n difficulties means every call so far answered ok and
   * the lessons are those difficulties in order, each built from its own
   * response.
   */
  lemma LessonsInOrder(topic: string, answers: nat -> Response, n: nat)
    requires n <= |Difficulties| && LessonsUpTo(topic, answers, n).Ok?
    ensures var ls := LessonsUpTo(topic, answers, n).value;
            |ls| == n && forall k :: 0 <= k < n ==> answers(k).ok && ls[k] == Expected(topic, answers, k)
  {
    RunInOrder(answers, Built(topic, answers), n);
  }

  /** The first call that fails ends the run with its status, whatever the later calls would give. */
  lemma {:induction false} FirstFailureWins<T>(answers: nat -> Response, items: seq<T>, n: nat, k: nat)
    requires k < n <= |items|
    requires !answers(k).ok
    requires forall j :: 0 <= j < k ==> answers(j).ok
    ensures RunUpTo(answers, items, n) == Err(ApiError(answers(k).status))
  {
    if n - 1 > k {
      FirstFailureWins(answers, items, n - 1, k);
    } else {
      OkBeforeFailure(answers, items, k);
    }
  }

  /** While every call answers ok the run goes on. */
  lemma {:induction false} OkBeforeFailure<T>(answers: nat -> Response, items: seq<T>, n: nat)
    requires n <= |items|
    requires forall j :: 0 <= j < n ==> answers(j).ok
    ensures RunUpTo(answers, items, n).Ok?
  {
    if n > 0 {
      OkBeforeFailure(answers, items, n - 1);
      assert answers(n - 1).ok;
    }
  }

  /** All three calls answering ok gives three lessons, beginner, intermediate and advanced, 30, 45 and 60 minutes. */
  lemma ThreeLessons(topic: string, answers: nat -> Response)
    requires forall j :: 0 <= j < |Difficulties| ==> answers(j).ok
    ensures LessonsUpTo(topic, answers, 3).Ok?
    ensures var ls := LessonsUpTo(topic, answers, 3).value;
            |ls| == 3 && ls[0].difficulty == Beginner && ls[1].difficulty == Intermediate
            && ls[2].difficulty == Advanced
            && ls[0].estimatedDuration == 30 && ls[1].estimatedDuration == 45 && ls[2].estimatedDuration == 60
  {
    OkBeforeFailure(answers, Built(topic, answers), 3);
    LessonsInOrder(topic, answers, 3);
  }
}
