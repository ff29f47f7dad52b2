/**
 * The custom-language processor: a learner's text in a configured language
 * is translated word by word into English (only the vocabulary words the
 * text contains), the sentences carrying a key phrase become key points,
 * and the share of known words rates the text's difficulty. The class's
 * only state is the configuration given to its constructor, so the
 * operation takes it as a parameter.
 */
module CustomLanguageProcessor {
  import opened Wrappers
  import opened Strings
  import Seqs
  import opened WordTables
  import opened TextStats

  datatype GrammarInfo = GrammarInfo(wordOrder: string, markers: Table)

  datatype Config = Config(name: string, vocabulary: Table, grammar: GrammarInfo, keyPhrases: Table)

  datatype Level = Easy | Medium | Hard

  datatype Processed = Processed(originalText: string, translatedText: string, keyPoints: seq<string>,
                                 vocabulary: map<string, string>, complexity: Level)

  // ------------------------------------------------------------ translation

  /** `text.match(new RegExp('\\b' + word + '\\b', 'gi'))` finds something, for the boundary class `isWord`. */
  predicate Occurs(isWord: char -> bool, text: string, word: string) {
    |word| > 0 && HasWholeWordBy(isWord, text, [word])
  }

  /**
   * The translation pass: an entry rewrites the running text only when its
   * word occurs in the original text, which is what the match checks, while the
   * replacement acts on the text rewritten so far.
   */
  function TranslateUsed(isWord: char -> bool, original: string, current: string, t: Table): string
    requires Keyed(t)
    decreases |t|
  {
    if t == [] then current
    else
      var next := if Occurs(isWord, original, t[0].0) then ReplaceWordsBy(isWord, current, [t[0].0], t[0].1) else current;
      TranslateUsed(isWord, original, next, t[1..])
  }

  /** When no vocabulary word occurs in the original, the running text comes out as it went in. */
  lemma {:induction false} TranslateUsedUnchanged(isWord: char -> bool, original: string, current: string, t: Table)
    requires Keyed(t)
    requires forall k :: 0 <= k < |t| ==> !Occurs(isWord, original, t[k].0)
    ensures TranslateUsed(isWord, original, current, t) == current
    decreases |t|
  {
    if t != [] {
      assert !Occurs(isWord, original, t[0].0);
      assert forall k :: 0 <= k < |t[1..]| ==> t[1..][k] == t[k + 1];
      TranslateUsedUnchanged(isWord, original, current, t[1..]);
    }
  }

  /** When exactly one entry's word occurs in the original, the pass is that entry's replacement alone. */
  lemma {:induction false} TranslateUsedSingle(isWord: char -> bool, original: string, current: string, t: Table, j: nat)
    requires Keyed(t) && j < |t|
    requires Occurs(isWord, original, t[j].0)
    requires forall k :: 0 <= k < |t| && k != j ==> !Occurs(isWord, original, t[k].0)
    ensures TranslateUsed(isWord, original, current, t) == ReplaceWordsBy(isWord, current, [t[j].0], t[j].1)
    decreases |t|
  {
    assert forall k :: 0 <= k < |t[1..]| ==> t[1..][k] == t[k + 1];
    if j == 0 {
      TranslateUsedUnchanged(isWord, original, ReplaceWordsBy(isWord, current, [t[0].0], t[0].1), t[1..]);
    } else {
      assert !Occurs(isWord, original, t[0].0);
      TranslateUsedSingle(isWord, original, current, t[1..], j - 1);
    }
  }

  /**
   * `usedVocabulary`: a sub-map of the vocabulary holding exactly the words
   * that occur in the text, each with the English word of its entry.
   */
  function UsedVocabulary(isWord: char -> bool, original: string, t: Table): (m: map<string, string>)
    ensures m.Keys == set j | 0 <= j < |t| && Occurs(isWord, original, t[j].0) :: t[j].0
    ensures forall w :: w in m ==> exists j :: 0 <= j < |t| && t[j] == (w, m[w]) && Occurs(isWord, original, w)
    decreases |t|
  {
    if t == [] then map[]
    else
      var init := t[..|t| - 1];
      var last := t[|t| - 1];
      var m := UsedVocabulary(isWord, original, init);
      assert forall j :: 0 <= j < |init| ==> init[j] == t[j];
      if Occurs(isWord, original, last.0) then m[last.0 := last.1] else m
  }

  // ------------------------------------------------------------ key points

  /** Some key phrase is contained in the lower-cased sentence. */
  predicate HasKeyPhrase(keyPhrases: Table, sentence: string) {
    exists j :: 0 <= j < |keyPhrases| && Contains(LowerStr(sentence), keyPhrases[j].0)
  }

  function KeyPhraseTest(keyPhrases: Table): string -> bool {
    s => HasKeyPhrase(keyPhrases, s)
  }

  /** The sentences that carry a key phrase, in text order. */
  function KeySentences(config: Config, text: string): (r: seq<string>)
    ensures forall i :: 0 <= i < |r| ==> r[i] in Sentences(text) && HasKeyPhrase(config.keyPhrases, r[i])
  {
    Seqs.Filter(Sentences(text), KeyPhraseTest(config.keyPhrases))
  }

  /** One key point: the sentence with every vocabulary entry replaced, trimmed. */
  function KeyPoint(isWord: char -> bool, config: Config, sentence: string): string
    requires Keyed(config.vocabulary)
  {
    Trim(ReplaceEach(isWord, sentence, config.vocabulary))
  }

  /** `sentences.map(KeyPoint)`. */
  function KeyPointList(isWord: char -> bool, config: Config, ks: seq<string>): (r: seq<string>)
    requires Keyed(config.vocabulary)
    ensures |r| == |ks| && forall i :: 0 <= i < |ks| ==> r[i] == KeyPoint(isWord, config, ks[i])
    decreases |ks|
  {
    if ks == [] then []
    else KeyPointList(isWord, config, ks[..|ks| - 1]) + [KeyPoint(isWord, config, ks[|ks| - 1])]
  }

  /** The first five key sentences, each turned into a key point. */
  function KeyPoints(isWord: char -> bool, config: Config, text: string): (r: seq<string>)
    requires Keyed(config.vocabulary)
    ensures |r| <= 5 && |r| <= |KeySentences(config, text)|
    ensures |KeySentences(config, text)| >= 5 ==> |r| == 5
    ensures forall i :: 0 <= i < |r| ==> r[i] == KeyPoint(isWord, config, KeySentences(config, text)[i])
  {
    Take(KeyPointList(isWord, config, KeySentences(config, text)), 5)
  }

  // ------------------------------------------------------------ complexity

  function KnownTest(vocabulary: Table): string -> bool {
    w => Known(vocabulary, w)
  }

  /** `knownWords / words.length > 0.8 ? 'easy' : ... > 0.5 ? 'medium' : 'hard'`, in integers. */
  function ComplexityOf(known: nat, total: nat): Level {
    if 5 * known > 4 * total then Easy else if 2 * known > total then Medium else Hard
  }

  /** For a positive total, `known / total > p / q` is `q * known > p * total`. */
  lemma ShareAbove(known: nat, total: nat, p: nat, q: nat)
    requires total > 0 && q > 0
    ensures known as real / total as real > p as real / q as real <==> q * known > p * total
  {
    var share := known as real / total as real;
    var bound := p as real / q as real;
    assert share * total as real == known as real;
    assert bound * q as real == p as real;
    assert (q * known) as real == q as real * known as real;
    assert (p * total) as real == p as real * total as real;
    if share > bound {
      assert share * total as real > bound * total as real;
      assert q as real * (share * total as real) > q as real * (bound * total as real);
    } else {
      assert share * total as real <= bound * total as real;
      assert q as real * (share * total as real) <= q as real * (bound * total as real);
    }
  }

  /**
   * The integer tests are the quotient tests: above 0.8 is easy, above 0.5
   * medium, the rest hard; a text without words (0/0, NaN) is hard.
   */
  lemma ComplexityIsShare(known: nat, total: nat)
    requires known <= total
    ensures total == 0 ==> ComplexityOf(known, total) == Hard
    ensures total > 0 ==>
      var share := known as real / total as real;
      && (ComplexityOf(known, total) == Easy <==> share > 0.8)
      && (ComplexityOf(known, total) == Medium <==> 0.5 < share <= 0.8)
      && (ComplexityOf(known, total) == Hard <==> share <= 0.5)
  {
    if total > 0 {
      ShareAbove(known, total, 4, 5);
      ShareAbove(known, total, 1, 2);
      assert 4 as real / 5 as real == 0.8;
      assert 1 as real / 2 as real == 0.5;
    }
  }

  /** The words of the text, and how many the vocabulary knows. */
  function Tokens(isWord: char -> bool, text: string): seq<string> {
    Runs(isWord, LowerStr(text))
  }

  function KnownCount(isWord: char -> bool, config: Config, text: string): (n: nat)
    ensures n <= |Tokens(isWord, text)|
  {
    Seqs.Count(Tokens(isWord, text), KnownTest(config.vocabulary))
  }

  // ------------------------------------------------------------ processText

  /** What `processText` returns, for the boundary class `isWord` (`\w` in the source). */
  function ProcessedOf(isWord: char -> bool, config: Config, text: string): Processed
    requires Keyed(config.vocabulary)
  {
    Processed(text,
              TranslateUsed(isWord, text, text, config.vocabulary),
              KeyPoints(isWord, config, text),
              UsedVocabulary(isWord, text, config.vocabulary),
              ComplexityOf(KnownCount(isWord, config, text), |Tokens(isWord, text)|))
  }

  /** The translation loop: a running text and the vocabulary used so far, entry by entry. */
  method Translate(config: Config, text: string) returns (translatedText: string, used: map<string, string>)
    requires Keyed(config.vocabulary)
    ensures translatedText == TranslateUsed(IsWordChar, text, text, config.vocabulary)
    ensures used == UsedVocabulary(IsWordChar, text, config.vocabulary)
  {
    var vocab := config.vocabulary;
    translatedText := text;
    used := map[];
    for i := 0 to |vocab|
      invariant Keyed(vocab[i..])
      invariant TranslateUsed(IsWordChar, text, translatedText, vocab[i..]) == TranslateUsed(IsWordChar, text, text, vocab)
      invariant used == UsedVocabulary(IsWordChar, text, vocab[..i])
    {
      var (custom, english) := vocab[i];
      assert vocab[i..][1..] == vocab[i + 1..];
      assert vocab[..i + 1][..i] == vocab[..i];
      if HasWholeWord(text, [custom]) {
        translatedText := ReplaceWord(translatedText, custom, english);
        used := used[custom := english];
      }
    }
    assert vocab[..|vocab|] == vocab;
  }

  /** Each key sentence translated along the vocabulary and trimmed, in order. */
  method TranslateSentences(config: Config, ks: seq<string>) returns (points: seq<string>)
    requires Keyed(config.vocabulary)
    ensures points == KeyPointList(IsWordChar, config, ks)
  {
    points := [];
    for i := 0 to |ks|
      invariant points == KeyPointList(IsWordChar, config, ks[..i])
    {
      var translated := ReplaceAlong(IsWordChar, ks[i], config.vocabulary);
      assert ks[..i + 1][..i] == ks[..i];
      points := points + [Trim(translated)];
    }
    assert ks[..|ks|] == ks;
  }

  /** The key-point pipeline: filter the sentences, translate each, trim, keep five. */
  method CollectKeyPoints(config: Config, text: string) returns (r: seq<string>)
    requires Keyed(config.vocabulary)
    ensures r == KeyPoints(IsWordChar, config, text)
  {
    var points := TranslateSentences(config, KeySentences(config, text));
    r := Take(points, 5);
  }

  /** `processText`. */
  method ProcessText(config: Config, text: string) returns (r: Processed)
    requires Keyed(config.vocabulary)
    ensures r == ProcessedOf(IsWordChar, config, text)
  {
    var words := TextWords(text);
    var translatedText, used := Translate(config, text);
    var keyPoints := CollectKeyPoints(config, text);
    var known := Seqs.Count(words, KnownTest(config.vocabulary));
    r := Processed(text, translatedText, keyPoints, used, ComplexityOf(known, |words|));
  }

  /**
   * The original text is returned untouched, the used vocabulary is a
   * sub-map of the configured one, and a text with no vocabulary word is
   * returned as its own translation.
   */
  lemma ProcessedShape(isWord: char -> bool, config: Config, text: string)
    requires Keyed(config.vocabulary)
    ensures var r := ProcessedOf(isWord, config, text);
      && r.originalText == text
      && (forall w :: w in r.vocabulary ==> Lookup(config.vocabulary, w).Some? && exists j :: 0 <= j < |config.vocabulary| && config.vocabulary[j] == (w, r.vocabulary[w]))
      && ((forall k :: 0 <= k < |config.vocabulary| ==> !Occurs(isWord, text, config.vocabulary[k].0)) ==> r.translatedText == text && r.vocabulary == map[])
  {
    var t := config.vocabulary;
    if forall k :: 0 <= k < |t| ==> !Occurs(isWord, text, t[k].0) {
      TranslateUsedUnchanged(isWord, text, text, t);
    }
  }

  // ------------------------------------------------------------ the configurations

  const TamilLearning := Config(
    "Tamil Learning",
    [
      ("கற்று", "learn"),
      ("படிப்பு", "study"),
      ("புத்தகம்", "book"),
      ("மாணவர்", "student"),
      ("ஆசிரியர்", "teacher"),
      ("பள்ளி", "school"),
      ("வகுப்பு", "class"),
      ("பாடம்", "lesson"),
      ("அறிவு", "knowledge"),
      ("கல்வி", "education"),
      ("எழுது", "write"),
      ("படி", "read"),
      ("புரிந்து", "understand"),
      ("கேள்வி", "question"),
      ("பதில்", "answer")
    ],
    GrammarInfo("SOV", [("ஐ", "object marker"), ("இல்", "location marker")]),
    [
      ("கற்று", "learning concept"),
      ("படிப்பு", "study concept"),
      ("அறிவு", "knowledge concept")
    ])

  const MalayalamLearning := Config(
    "Malayalam Learning",
    [
      ("പഠിക്കുക", "learn"),
      ("പഠനം", "study"),
      ("പുസ്തകം", "book"),
      ("വിദ്യാർത്ഥി", "student"),
      ("അധ്യാപകൻ", "teacher"),
      ("സ്കൂൾ", "school"),
      ("ക്ലാസ്", "class"),
      ("പാഠം", "lesson"),
      ("അറിവ്", "knowledge"),
      ("വിദ്യാഭ്യാസം", "education"),
      ("എഴുതുക", "write"),
      ("വായിക്കുക", "read"),
      ("മനസ്സിലാക്കുക", "understand"),
      ("ചോദ്യം", "question"),
      ("ഉത്തരം", "answer")
    ],
    GrammarInfo("SOV", [("നെ", "object marker"), ("ൽ", "location marker")]),
    [
      ("പഠിക്കുക", "learning concept"),
      ("അറിവ്", "knowledge concept")
    ])

  const KannadaLearning := Config(
    "Kannada Learning",
    [
      ("ಕಲಿಯಿರಿ", "learn"),
      ("ಅಧ್ಯಯನ", "study"),
      ("ಪುಸ್ತಕ", "book"),
      ("ವಿದ್ಯಾರ್ಥಿ", "student"),
      ("ಶಿಕ್ಷಕ", "teacher"),
      ("ಶಾಲೆ", "school"),
      ("ತರಗತಿ", "class"),
      ("ಪಾಠ", "lesson"),
      ("ಜ್ಞಾನ", "knowledge"),
      ("ಶಿಕ್ಷಣ", "education"),
      ("ಬರೆಯಿರಿ", "write"),
      ("ಓದು", "read"),
      ("ಅರ್ಥಮಾಡಿಕೊಳ್ಳಿ", "understand"),
      ("ಪ್ರಶ್ನೆ", "question"),
      ("ಉತ್ತರ", "answer")
    ],
    GrammarInfo("SOV", [("ಅನ್ನು", "object marker"), ("ಅಲ್ಲಿ", "location marker")]),
    [
      ("ಕಲಿಯಿರಿ", "learning concept"),
      ("ಜ್ಞಾನ", "knowledge concept")
    ])

  // ------------------------------------------------------------ the boundary class

  /**
   * A letter of the scripts the configurations are written in: `\w`, or a
   * code point of the Tamil, Kannada or Malayalam block. Taking boundaries
   * between these and everything else puts a boundary around a vocabulary
   * word written in one of those scripts.
   */
  predicate IsScriptLetter(c: char) {
    || IsWordChar(c)
    || ('\U{0B80}' <= c <= '\U{0BFF}')
    || ('\U{0C80}' <= c <= '\U{0CFF}')
    || ('\U{0D00}' <= c <= '\U{0D7F}')
  }

  /** No ASCII capital: lower-casing leaves the string as it is. */
  predicate NoUpper(s: string) {
    forall i :: 0 <= i < |s| ==> !('A' <= s[i] <= 'Z')
  }

  lemma NoUpperLower(s: string)
    requires NoUpper(s)
    ensures LowerStr(s) == s
  {
  }

  /** Every vocabulary word is non-empty and begins with a character outside `\w`. */
  predicate KeysOutsideAscii(t: Table) {
    forall j :: 0 <= j < |t| ==> |t[j].0| > 0 && !IsWordChar(t[j].0[0])
  }

  /** The configurations the module ships. */
  const Shipped := [TamilLearning, MalayalamLearning, KannadaLearning]

  predicate ScriptTable(t: Table) {
    Keyed(t) && KeysOutsideAscii(t)
  }

  /** The three shipped configurations are written entirely outside ASCII. */
  lemma ConfigsOutsideAscii(k: nat)
    requires k < |Shipped|
    ensures ScriptTable(Shipped[k].vocabulary)
  {
    if k == 0 {
      TamilScriptTable();
    } else if k == 1 {
      MalayalamScriptTable();
    } else {
      KannadaScriptTable();
    }
  }

  lemma TamilScriptTable()
    ensures ScriptTable(TamilLearning.vocabulary)
  {
  }

  lemma MalayalamScriptTable()
    ensures ScriptTable(MalayalamLearning.vocabulary)
  {
  }

  lemma KannadaScriptTable()
    ensures ScriptTable(KannadaLearning.vocabulary)
  {
  }

  /**
   * As written, with the ASCII-only `\b\w+\b`: a token is made of `\w`
   * characters, so it is never a vocabulary word that starts outside `\w`;
   * no word is ever known and every text rates hard.
   */
  lemma AsWrittenNeverKnown(config: Config, text: string)
    requires Keyed(config.vocabulary) && KeysOutsideAscii(config.vocabulary)
    ensures KnownCount(IsWordChar, config, text) == 0
    ensures ProcessedOf(IsWordChar, config, text).complexity == Hard
  {
    var t := config.vocabulary;
    var toks := Tokens(IsWordChar, text);
    forall i | 0 <= i < |toks|
      ensures !KnownTest(t)(toks[i])
    {
      assert IsWordChar(toks[i][0]);
      assert forall k :: 0 <= k < |t| ==> t[k].0[0] != toks[i][0];
      assert Lookup(t, toks[i]).None?;
    }
    Seqs.FilterNone(toks, KnownTest(t));
  }

  /** As written: none of the shipped configurations ever rates a text easier than hard. */
  lemma AsWrittenAlwaysHard(k: nat, text: string)
    requires k < |Shipped|
    ensures Keyed(Shipped[k].vocabulary) && ProcessedOf(IsWordChar, Shipped[k], text).complexity == Hard
  {
    ConfigsOutsideAscii(k);
    AsWrittenNeverKnown(Shipped[k], text);
  }

  /**
   * As written: a text with no `\w` character holds no `\b`, so no
   * vocabulary word is found in it; it comes back as its own translation,
   * with no vocabulary used, and rates hard.
   */
  lemma AsWrittenScriptTextUntouched(config: Config, text: string)
    requires Keyed(config.vocabulary)
    requires forall i :: 0 <= i < |text| ==> !IsWordChar(text[i])
    ensures var r := ProcessedOf(IsWordChar, config, text);
      r.translatedText == text && r.vocabulary == map[] && r.complexity == Hard
  {
    var t := config.vocabulary;
    forall k | 0 <= k < |t|
      ensures !Occurs(IsWordChar, text, t[k].0)
    {
      NoWordCharNoWholeWord(IsWordChar, text, [t[k].0]);
    }
    ProcessedShape(IsWordChar, config, text);
    RunsEmpty(IsWordChar, LowerStr(text));
  }

  /** As written: the Tamil text `கற்று`, which the vocabulary maps to "learn", is left untranslated. */
  lemma AsWrittenTamilWord()
    ensures Lookup(TamilLearning.vocabulary, "கற்று") == Some("learn")
    ensures var r := ProcessedOf(IsWordChar, TamilLearning, "கற்று");
      r.translatedText == "கற்று" && r.vocabulary == map[] && r.complexity == Hard
  {
    TamilScriptTable();
    AsWrittenScriptTextUntouched(TamilLearning, "கற்று");
  }

  /**
   * A vocabulary entry `j` whose word is made of script letters, has no
   * capital, maps to a non-empty English word, and equals no other word of
   * the vocabulary up to case.
   */
  predicate LoneEntry(t: Table, j: nat) {
    && Keyed(t) && j < |t|
    && (forall i :: 0 <= i < |t[j].0| ==> IsScriptLetter(t[j].0[i]))
    && NoUpper(t[j].0) && t[j].1 != ""
    && (forall k :: 0 <= k < |t| && k != j ==> !EqualsIgnoreCase(t[j].0, t[k].0))
  }

  /** In the text made of entry `j`'s word alone, that entry's word is the only one found. */
  lemma LoneEntryOccurs(t: Table, j: nat)
    requires LoneEntry(t, j)
    ensures forall k :: 0 <= k < |t| ==> (Occurs(IsScriptLetter, t[j].0, t[k].0) <==> k == j)
    ensures forall k :: 0 <= k < |t| && k != j ==> t[k].0 != t[j].0
  {
    var w := t[j].0;
    forall k | 0 <= k < |t|
      ensures Occurs(IsScriptLetter, w, t[k].0) <==> k == j
    {
      OneWordWholeWord(IsScriptLetter, w, [t[k].0]);
    }
    forall k | 0 <= k < |t| && k != j
      ensures t[k].0 != w
    {
      assert !EqualsIgnoreCase(w, t[k].0);
    }
  }

  /** The lone word is translated to its English word and recorded as the only word used. */
  lemma LoneEntryTranslated(t: Table, j: nat)
    requires LoneEntry(t, j)
    ensures TranslateUsed(IsScriptLetter, t[j].0, t[j].0, t) == t[j].1
    ensures UsedVocabulary(IsScriptLetter, t[j].0, t) == map[t[j].0 := t[j].1]
  {
    var (w, e) := t[j];
    LoneEntryOccurs(t, j);
    TranslateUsedSingle(IsScriptLetter, w, w, t, j);
    ReplaceWholeText(IsScriptLetter, w, w, e);
    var m := UsedVocabulary(IsScriptLetter, w, t);
    assert m.Keys == {w};
  }

  /** The lone word is its text's only token, and a known one. */
  lemma LoneEntryKnown(config: Config, j: nat)
    requires LoneEntry(config.vocabulary, j)
    ensures KnownCount(IsScriptLetter, config, config.vocabulary[j].0) == 1
    ensures |Tokens(IsScriptLetter, config.vocabulary[j].0)| == 1
  {
    var t := config.vocabulary;
    var (w, e) := t[j];
    LoneEntryOccurs(t, j);
    assert Lookup(t, w) == Some(e);
    NoUpperLower(w);
    RunsOfOneWord(IsScriptLetter, w);
    assert Tokens(IsScriptLetter, w) == [w];
  }

  /**
   * Corrected, with the script letters as the word class: a text that is
   * exactly one vocabulary word is translated to that word's English,
   * records it as used, and rates easy.
   */
  lemma ScriptLoneWord(config: Config, j: nat)
    requires LoneEntry(config.vocabulary, j)
    ensures var r := ProcessedOf(IsScriptLetter, config, config.vocabulary[j].0);
      && r.translatedText == config.vocabulary[j].1
      && r.vocabulary == map[config.vocabulary[j].0 := config.vocabulary[j].1]
      && r.complexity == Easy
  {
    LoneEntryTranslated(config.vocabulary, j);
    LoneEntryKnown(config, j);
  }

  /** The first Tamil entry, `கற்று` for "learn", is a lone entry. */
  lemma TamilFirstEntryLone()
    ensures LoneEntry(TamilLearning.vocabulary, 0)
  {
    var t := TamilLearning.vocabulary;
    TamilScriptTable();
    forall k | 0 < k < |t|
      ensures !EqualsIgnoreCase(t[0].0, t[k].0)
    {
      if k == 9 || k == 13 {
        assert LowerStr(t[k].0)[1] != LowerStr(t[0].0)[1];
      } else {
        assert LowerStr(t[k].0)[0] != LowerStr(t[0].0)[0];
      }
    }
  }

  /** Corrected: the Tamil text `கற்று` becomes "learn", is recorded as used, and rates easy. */
  lemma ScriptTamilWord()
    ensures var r := ProcessedOf(IsScriptLetter, TamilLearning, "கற்று");
      r.translatedText == "learn" && r.vocabulary == map["கற்று" := "learn"] && r.complexity == Easy
  {
    TamilFirstEntryLone();
    ScriptLoneWord(TamilLearning, 0);
  }
}
