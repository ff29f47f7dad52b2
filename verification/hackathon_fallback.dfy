/** The Hackathon's offline stand-in for the AI service: fixed replies and a crude summary. */
module HackathonFallback {
  import opened Strings
  import Seqs

  const SummaryReply := "Summary: This content covers key educational concepts. Please review the original material for complete information."
  const TranslateReply := "Translation not available in offline mode. Please check your internet connection."
  const GenericReply := "AI processing not available. Please check your API configuration or internet connection."

  /** A summarising prompt wins over a translating one; anything else gets the generic reply. */
  function GenerateText(prompt: string): (r: string)
    ensures Contains(prompt, "summary") || Contains(prompt, "summarize") ==> r == SummaryReply
    ensures r == TranslateReply <==>
              !Contains(prompt, "summary") && !Contains(prompt, "summarize") && Contains(prompt, "translate")
    ensures r == GenericReply <==>
              !Contains(prompt, "summary") && !Contains(prompt, "summarize") && !Contains(prompt, "translate")
  {
    if Contains(prompt, "summary") || Contains(prompt, "summarize") then SummaryReply
    else if Contains(prompt, "translate") then TranslateReply
    else GenericReply
  }

  const NoSummary := "Summary not available for this content."

  predicate LongSentence(s: string) { |Trim(s)| > 10 }

  /** The sentences the summary draws on, in order. */
  function Survivors(text: string): seq<string> {
    Seqs.Filter(SplitSentences(text), LongSentence)
  }

  /** The first three long sentences joined with ". ", or a fixed notice when there are none. */
  function GenerateSummary(text: string): (r: string)
    ensures Survivors(text) == [] ==> r == NoSummary
  {
    var summary := Trim(Join(Take(Survivors(text), 3), ". "));
    if summary == "" then NoSummary else summary
  }

  /** `parts.join(sep)` begins with the first part. */
  lemma JoinStartsWithFirst(parts: seq<string>, sep: string)
    requires parts != []
    ensures StartsWith(Join(parts, sep), parts[0])
  {
    if |parts| > 1 {
      assert Join(parts, sep) == parts[0] + (sep + Join(parts[1..], sep));
    }
  }

  /** With a long sentence in the text the summary is drawn from at most three of them. */
  lemma SummaryFromSentences(text: string)
    requires Survivors(text) != []
    ensures GenerateSummary(text) == Trim(Join(Take(Survivors(text), 3), ". "))
    ensures GenerateSummary(text) != ""
  {
    var first := Survivors(text)[0];
    var joined := Join(Take(Survivors(text), 3), ". ");
    assert LongSentence(first);
    assert Take(Survivors(text), 3)[0] == first;
    JoinStartsWithFirst(Take(Survivors(text), 3), ". ");
    var k := LeadingSpaces(first);
    assert !AllSpace(first);
    assert !IsSpace(joined[k]) by {
      assert joined[..|first|][k] == first[k];
    }
    assert !AllSpace(joined);
  }

  /**
   * The name the alt text gives an image: the part of the URL after its
   * last '/', or the whole URL when it has none; 'image' when that part is
   * empty.
   */
  function FileName(imageUrl: string): (name: string)
    ensures forall k | 0 <= k < |imageUrl| && imageUrl[k] == '/' && (forall j | k < j < |imageUrl| :: imageUrl[j] != '/') ::
              name == if k + 1 == |imageUrl| then "image" else imageUrl[k + 1..]
    ensures (forall j | 0 <= j < |imageUrl| :: imageUrl[j] != '/') ==> name == if imageUrl == "" then "image" else imageUrl
  {
    var parts := Split(imageUrl, "/");
    assert "/" == ['/'];
    forall k | 0 <= k < |imageUrl| && imageUrl[k] == '/' && (forall j | k < j < |imageUrl| :: imageUrl[j] != '/')
      ensures parts[|parts| - 1] == imageUrl[k + 1..]
    {
      LastPiece(imageUrl, '/', k);
    }
    assert (forall j | 0 <= j < |imageUrl| :: imageUrl[j] != '/') ==> parts == [imageUrl] by {
      if forall j | 0 <= j < |imageUrl| :: imageUrl[j] != '/' {
        NoPiecesWithout(imageUrl, '/');
      }
    }
    if parts[|parts| - 1] == "" then "image" else parts[|parts| - 1]
  }

  /** `generateAltText`: the description of the file the URL names. */
  function GenerateAltText(imageUrl: string): (r: string)
    ensures forall k | 0 <= k < |imageUrl| && imageUrl[k] == '/' && (forall j | k < j < |imageUrl| :: imageUrl[j] != '/') ::
              r == AltText(if k + 1 == |imageUrl| then "image" else imageUrl[k + 1..])
    ensures (forall j | 0 <= j < |imageUrl| :: imageUrl[j] != '/') ==>
              r == AltText(if imageUrl == "" then "image" else imageUrl)
  {
    AltText(FileName(imageUrl))
  }

  /** The description built around a file name. */
  function AltText(filename: string): string {
    "Educational image: " + filename + ". Please refer to surrounding context for details."
  }

  /** Whether the browser offers speech recognition is an input here. */
  function TranscribeAudio(speechRecognitionAvailable: bool): (r: string)
    ensures speechRecognitionAvailable <==>
              r == "Audio transcription requires manual activation. Please use the speech-to-text feature."
  {
    if speechRecognitionAvailable then "Audio transcription requires manual activation. Please use the speech-to-text feature."
    else "Audio transcription not available in this browser."
  }

  /** The notice names the target language and carries the original text at its end. */
  function TranslateText(text: string, targetLang: string): (r: string)
    ensures Contains(r, targetLang) && EndsWith(r, text)
  {
    var head := "Translation to ";
    var r := head + targetLang + " not available offline. Original text: " + text;
    assert OccursAt(r, targetLang, |head|);
    r
  }
}
