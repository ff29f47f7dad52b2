/**
 * The command-line lesson generator: a prompt template around the topic,
 * one call to the language model per topic, and the read loop that stops
 * at `quit`. The model is `provider`, an input here: the text it answers
 * for a prompt. The loop's console is modelled as the list of texts it
 * writes (the `input` prompts and the printed lines) and the list of
 * topics typed in.
 */
module LessonGenerator {
  import opened Wrappers
  import opened Strings
  import opened Seqs

  const Intro := "Create a structured lesson on: "
  const IncludeHeading := "\n\nInclude:\n"
  const Closing := "\nKeep it concise and educational."

  /** The four parts the lesson is asked to include, in order. */
  const Labels: seq<string> := ["Learning objectives", "Key concepts", "Examples", "Practice questions"]

  /** A bulleted list, one `- label` line per label. */
  function Bullets(labels: seq<string>): string {
    if labels == [] then "" else "- " + labels[0] + "\n" + Bullets(labels[1..])
  }

  /** The prompt `generate_lesson` sends for a topic. */
  function Prompt(topic: string): string {
    Concat([Intro, topic, IncludeHeading, Bullets(Labels), Closing])
  }

  /** Every label is written out in the bulleted list. */
  lemma {:induction false} BulletsContain(labels: seq<string>, k: nat)
    requires k < |labels|
    ensures Contains(Bullets(labels), labels[k])
  {
    var rest := Bullets(labels[1..]);
    if k == 0 {
      ContainsMiddle("- ", labels[0], "\n" + rest);
      assert "- " + labels[0] + ("\n" + rest) == Bullets(labels);
    } else {
      BulletsContain(labels[1..], k - 1);
      ContainsMiddle("- " + labels[0] + "\n", rest, "");
      assert "- " + labels[0] + "\n" + rest + "" == Bullets(labels);
      ContainsWithin(Bullets(labels), rest, labels[k]);
    }
  }

  /** The prompt holds the topic verbatim and the four section labels. */
  lemma PromptMentions(topic: string)
    ensures StartsWith(Prompt(topic), "Create a structured lesson on: " + topic)
    ensures Contains(Prompt(topic), topic)
    ensures forall k :: 0 <= k < |Labels| ==> Contains(Prompt(topic), Labels[k])
  {
    var parts := [Intro, topic, IncludeHeading, Bullets(Labels), Closing];
    var tail := Concat(parts[2..]);
    assert parts[1..][1..] == parts[2..];
    assert Concat(parts) == Intro + (topic + tail);
    assert (Intro + topic + tail)[..|Intro + topic|] == Intro + topic;
    ConcatContains(parts, 1);
    ConcatContains(parts, 3);
    forall k | 0 <= k < |Labels| ensures Contains(Prompt(topic), Labels[k]) {
      BulletsContain(Labels, k);
      ContainsWithin(Prompt(topic), Bullets(Labels), Labels[k]);
    }
  }

  /** `generate_lesson`: the provider's text for the prompt, unchanged. */
  function GenerateLesson(topic: string, provider: string -> string): (r: string)
    ensures exists p :: r == provider(p) && StartsWith(p, "Create a structured lesson on: " + topic) &&
                        forall k :: 0 <= k < |Labels| ==> Contains(p, Labels[k])
  {
    PromptMentions(topic);
    provider(Prompt(topic))
  }

  // ------------------------------------------------------------ main

  const KeyMessage := "Set GEMINI_API_KEY environment variable"
  const InputPrompt := "\nEnter topic (or 'quit'): "
  const Generating := "\nGenerating lesson..."

  /** How the loop ends: no key, the quit word, or `input` running out of lines (`EOFError`). */
  datatype Ending = NoKey | Quit | EndOfInput

  /** `topic.lower() == 'quit'`: only the four letters, in any case, with nothing around them. */
  predicate IsQuit(topic: string) {
    LowerStr(topic) == "quit"
  }

  /** The topics the loop generates lessons for: those before the first input `isQuit` accepts. */
  function Topics(inputs: seq<string>, isQuit: string -> bool): (ts: seq<string>)
    ensures forall k :: 0 <= k < |ts| ==> !isQuit(ts[k])
    ensures FindIndex(inputs, isQuit).Some? ==> |ts| == FindIndex(inputs, isQuit).value
    ensures FindIndex(inputs, isQuit).None? ==> ts == inputs
    ensures ts == inputs[..|ts|]
  {
    match FindIndex(inputs, isQuit)
    case None => inputs
    case Some(q) => inputs[..q]
  }

  /** The lesson text for each topic, as `generate_lesson` returns it. */
  function Lessons(provider: string -> string): string -> string {
    (topic: string) => GenerateLesson(topic, provider)
  }

  /** What the loop writes for one topic: the `input` prompt, the progress line, the lesson. */
  function Round(topic: string, lesson: string -> string): seq<string> {
    [InputPrompt, Generating, "\n" + lesson(topic)]
  }

  /** What the loop writes for the topics, in order, given each topic's lesson text. */
  function Rounds(topics: seq<string>, lesson: string -> string): (out: seq<string>)
    ensures |out| == 3 * |topics|
  {
    if topics == [] then []
    else Rounds(topics[..|topics| - 1], lesson) + Round(topics[|topics| - 1], lesson)
  }

  /** The prompts sent to the provider for the topics, in order, given each topic's prompt. */
  function Prompts(topics: seq<string>, prompt: string -> string): (ps: seq<string>)
    ensures |ps| == |topics|
  {
    if topics == [] then [] else Prompts(topics[..|topics| - 1], prompt) + [prompt(topics[|topics| - 1])]
  }

  /**
   * `main`: without a key only the message; otherwise the read loop, with
   * the quit test and the generator's prompt and lesson.
   */
  method Run(apiKey: Option<string>, inputs: seq<string>, provider: string -> string)
    returns (out: seq<string>, calls: seq<string>, ending: Ending)
    ensures apiKey.None? || apiKey.value == "" ==> out == [KeyMessage] && calls == [] && ending == NoKey
    ensures apiKey.Some? && apiKey.value != "" ==>
              out == Rounds(Topics(inputs, IsQuit), Lessons(provider)) + [InputPrompt]
              && calls == Prompts(Topics(inputs, IsQuit), Prompt)
              && (ending == Quit <==> FindIndex(inputs, IsQuit).Some?) && ending != NoKey
  {
    if apiKey.None? || apiKey.value == "" {
      return [KeyMessage], [], NoKey;
    }
    var quit;
    out, calls, quit := ReadLoop(inputs, IsQuit, Lessons(provider), Prompt);
    ending := if quit then Quit else EndOfInput;
  }

  /**
   * The `while True` loop of `main`, given the quit test, the generator's
   * `generate_lesson` and the prompt it sends: one round per topic before
   * the first quit, then the `input` prompt that read the quit (or found no
   * more input). `calls` are the prompts the provider received.
   */
  method ReadLoop(inputs: seq<string>, isQuit: string -> bool, lesson: string -> string, prompt: string -> string)
    returns (out: seq<string>, calls: seq<string>, quit: bool)
    ensures out == Rounds(Topics(inputs, isQuit), lesson) + [InputPrompt]
    ensures calls == Prompts(Topics(inputs, isQuit), prompt)
    ensures quit <==> FindIndex(inputs, isQuit).Some?
  {
    out, calls := [], [];
    var i := 0;
    while true
      invariant 0 <= i <= |inputs|
      invariant forall k :: 0 <= k < i ==> !isQuit(inputs[k])
      invariant out == Rounds(inputs[..i], lesson) && calls == Prompts(inputs[..i], prompt)
      decreases |inputs| - i
    {
      out := out + [InputPrompt];
      if i == |inputs| {
        assert inputs[..i] == inputs;
        return out, calls, false;
      }
      var topic := inputs[i];
      if isQuit(topic) {
        assert FindIndex(inputs, isQuit) == Some(i);
        return out, calls, true;
      }
      out := out + [Generating];
      calls := calls + [prompt(topic)];
      var text := lesson(topic);
      out := out + ["\n" + text];
      RoundsStep(inputs, i, lesson);
      PromptsStep(inputs, i, prompt);
      i := i + 1;
    }
  }

  lemma RoundsStep(s: seq<string>, i: nat, lesson: string -> string)
    requires i < |s|
    ensures Rounds(s[..i + 1], lesson) == Rounds(s[..i], lesson) + Round(s[i], lesson)
  {
    assert s[..i + 1][..i] == s[..i];
  }

  lemma PromptsStep(s: seq<string>, i: nat, prompt: string -> string)
    requires i < |s|
    ensures Prompts(s[..i + 1], prompt) == Prompts(s[..i], prompt) + [prompt(s[i])]
  {
    assert s[..i + 1][..i] == s[..i];
  }

  /** The provider is called once per input before the first quit, and never for the quit itself. */
  lemma {:induction false} CallsBeforeQuit(inputs: seq<string>, q: nat)
    requires q < |inputs| && IsQuit(inputs[q]) && forall k :: 0 <= k < q ==> !IsQuit(inputs[k])
    ensures |Prompts(Topics(inputs, IsQuit), Prompt)| == q
    ensures forall k :: 0 <= k < q ==> Prompts(Topics(inputs, IsQuit), Prompt)[k] == Prompt(inputs[k])
  {
    assert FindIndex(inputs, IsQuit) == Some(q);
    PromptsAt(inputs[..q], Prompt);
  }

  /** The k-th prompt sent is the k-th topic's. */
  lemma {:induction false} PromptsAt(topics: seq<string>, prompt: string -> string)
    ensures forall k :: 0 <= k < |topics| ==> Prompts(topics, prompt)[k] == prompt(topics[k])
  {
    if topics != [] {
      var init := topics[..|topics| - 1];
      PromptsAt(init, prompt);
      assert forall k :: 0 <= k < |init| ==> topics[k] == init[k];
    }
  }

  /** In each round the progress line comes right before the lesson text. */
  lemma {:induction false} GeneratingBeforeLesson(topics: seq<string>, lesson: string -> string)
    ensures forall k :: 0 <= k < |topics| ==>
              Rounds(topics, lesson)[3 * k] == InputPrompt
              && Rounds(topics, lesson)[3 * k + 1] == Generating
              && Rounds(topics, lesson)[3 * k + 2] == "\n" + lesson(topics[k])
  {
    if topics != [] {
      var init := topics[..|topics| - 1];
      GeneratingBeforeLesson(init, lesson);
      assert forall k :: 0 <= k < |init| ==> topics[k] == init[k];
    }
  }

  /** Any capitalisation of "quit" stops the loop; surrounding spaces do not, since nothing is trimmed. */
  lemma QuitSpellings()
    ensures IsQuit("quit") && IsQuit("QUIT") && IsQuit("Quit")
    ensures !IsQuit(" quit") && !IsQuit("quit ")
  {
    assert LowerStr("QUIT") == "quit";
    assert LowerStr("Quit") == "quit";
    assert |LowerStr(" quit")| == 5;
  }
}
