/**
 * Accessibility analysis of lesson text: readability from the average
 * sentence length, the complex words and long sentences, advice in the
 * reader's language, a plain-word rewrite, the first clause of every
 * paragraph, and a word-for-word translation into Tamil, Malayalam or
 * Kannada.
 */
module AccessibilityNlp {
  import opened Wrappers
  import opened Strings
  import Seqs
  import opened WordTables
  import opened TextStats

  datatype Language = English | Tamil | Malayalam | Kannada

  datatype Readability = VeryEasy | Easy | Medium | Hard

  datatype Analysis = Analysis(readabilityLevel: Readability, complexWords: seq<string>,
                               longSentences: seq<string>, suggestions: seq<string>,
                               simplifiedText: string, keyPoints: seq<string>,
                               translatedText: Option<string>)

  // ------------------------------------------------------------ measures

  predicate IsComplex(w: string) { |w| > 7 }

  /** The words longer than seven characters, in text order, repeats kept: none missing and nothing else. */
  function ComplexWords(text: string): (cw: seq<string>)
    ensures forall i :: 0 <= i < |cw| ==> IsComplex(cw[i]) && cw[i] in TextWords(text)
    ensures forall i :: 0 <= i < |TextWords(text)| && IsComplex(TextWords(text)[i]) ==> TextWords(text)[i] in cw
    ensures Seqs.IsSubsequence(cw, TextWords(text))
  {
    Seqs.FilterIsSubsequence(TextWords(text), IsComplex);
    Seqs.Filter(TextWords(text), IsComplex)
  }

  predicate IsLong(s: string) { |Split(s, " ")| > 15 }

  /** The sentences with more than fifteen space-separated pieces, in text order: none missing and nothing else. */
  function LongSentences(text: string): (ls: seq<string>)
    ensures forall i :: 0 <= i < |ls| ==> IsLong(ls[i]) && ls[i] in Sentences(text)
    ensures forall i :: 0 <= i < |Sentences(text)| && IsLong(Sentences(text)[i]) ==> Sentences(text)[i] in ls
    ensures Seqs.IsSubsequence(ls, Sentences(text))
  {
    Seqs.FilterIsSubsequence(Sentences(text), IsLong);
    Seqs.Filter(Sentences(text), IsLong)
  }

  /**
   * `words / sentences > k`, exactly, in integers: with no sentence the
   * quotient is Infinity when there are words (above every bound) and NaN
   * when there are none (above no bound).
   */
  predicate AverageAbove(nWords: nat, nSentences: nat, k: nat) {
    nWords > k * nSentences
  }

  /** With at least one sentence, the integer test agrees with the quotient. */
  lemma AverageAboveIsQuotient(nWords: nat, nSentences: nat, k: nat)
    requires nSentences > 0
    ensures AverageAbove(nWords, nSentences, k) <==> nWords as real / nSentences as real > k as real
  {
    var q := nWords as real / nSentences as real;
    assert q * nSentences as real == nWords as real;
    assert (k * nSentences) as real == k as real * nSentences as real;
    if q > k as real {
      assert q * nSentences as real > k as real * nSentences as real;
    } else {
      assert q * nSentences as real <= k as real * nSentences as real;
    }
  }

  /** The level read off the average number of words per sentence: above 20, 15, 10. */
  function ReadabilityLevel(nWords: nat, nSentences: nat): (r: Readability)
    ensures r == Hard <==> AverageAbove(nWords, nSentences, 20)
    ensures r == Medium <==> AverageAbove(nWords, nSentences, 15) && !AverageAbove(nWords, nSentences, 20)
    ensures r == Easy <==> AverageAbove(nWords, nSentences, 10) && !AverageAbove(nWords, nSentences, 15)
    ensures r == VeryEasy <==> !AverageAbove(nWords, nSentences, 10)
  {
    if AverageAbove(nWords, nSentences, 20) then Hard
    else if AverageAbove(nWords, nSentences, 15) then Medium
    else if AverageAbove(nWords, nSentences, 10) then Easy
    else VeryEasy
  }

  function Rank(r: Readability): nat {
    match r
    case VeryEasy => 0
    case Easy => 1
    case Medium => 2
    case Hard => 3
  }

  /** More words over the same sentences never reads easier. */
  lemma ReadabilityMonotone(w1: nat, w2: nat, nSentences: nat)
    requires w1 <= w2
    ensures Rank(ReadabilityLevel(w1, nSentences)) <= Rank(ReadabilityLevel(w2, nSentences))
  {
  }

  // ------------------------------------------------------------ advice

  datatype Advice = Advice(complex: string, long: string, avg: string)

  function AdviceFor(language: Language): Advice {
    match language
    case English => Advice("Use simpler words", "Break long sentences", "Shorter paragraphs needed")
    case Tamil => Advice("எளிய வார்த்தைகளைப் பயன்படுத்துங்கள்", "நீண்ட வாக்கியங்களை உடைக்கவும்", "குறுகிய பத்திகள் தேவை")
    case Malayalam => Advice("ലളിതമായ വാക്കുകൾ ഉപയോഗിക്കുക", "നീണ്ട വാക്യങ്ങൾ വിഭജിക്കുക", "ചെറിയ ഖണ്ഡികകൾ ആവശ്യം")
    case Kannada => Advice("ಸರಳ ಪದಗಳನ್ನು ಬಳಸಿ", "ದೀರ್ಘ ವಾಕ್ಯಗಳನ್ನು ಒಡೆಯಿರಿ", "ಚಿಕ್ಕ ಪ್ಯಾರಾಗಳು ಅಗತ್ಯ")
  }

  /** Where a piece of advice sits in the fixed order complex, long, average. */
  function Slot(a: Advice, x: string): nat {
    if x == a.complex then 0 else if x == a.long then 1 else 2
  }

  function Gate(b: bool, x: string): seq<string> {
    if b then [x] else []
  }

  /**
   * The advice for the counts: each piece appears exactly when its count
   * passes its bound, at most once, in the order complex, long, average.
   */
  function Suggestions(language: Language, complexWords: nat, longSentences: nat, nWords: nat, nSentences: nat)
    : (r: seq<string>)
    ensures var a := AdviceFor(language);
      && (a.complex in r <==> complexWords > 5)
      && (a.long in r <==> longSentences > 2)
      && (a.avg in r <==> AverageAbove(nWords, nSentences, 15))
      && (forall i :: 0 <= i < |r| ==> r[i] in [a.complex, a.long, a.avg])
      && (forall i, j :: 0 <= i < j < |r| ==> Slot(a, r[i]) < Slot(a, r[j]))
    ensures |r| <= 3 && Seqs.Distinct(r)
  {
    var a := AdviceFor(language);
    var b1, b2, b3 := complexWords > 5, longSentences > 2, AverageAbove(nWords, nSentences, 15);
    assert a.complex != a.long && a.long != a.avg && a.complex != a.avg;
    Gated(a, b1, b2, b3);
    Gate(b1, a.complex) + Gate(b2, a.long) + Gate(b3, a.avg)
  }

  /** Three distinct pieces of advice, each present when its test holds, keep their order. */
  lemma Gated(a: Advice, b1: bool, b2: bool, b3: bool)
    requires a.complex != a.long && a.long != a.avg && a.complex != a.avg
    ensures var r := Gate(b1, a.complex) + Gate(b2, a.long) + Gate(b3, a.avg);
      && (a.complex in r <==> b1) && (a.long in r <==> b2) && (a.avg in r <==> b3)
      && (forall i :: 0 <= i < |r| ==> r[i] in [a.complex, a.long, a.avg])
      && (forall i, j :: 0 <= i < j < |r| ==> Slot(a, r[i]) < Slot(a, r[j]))
      && |r| <= 3 && Seqs.Distinct(r)
  {
  }

  /** `getSuggestions`: three conditional pushes onto an empty list. */
  method GetSuggestions(language: Language, complexWords: nat, longSentences: nat, nWords: nat, nSentences: nat)
    returns (r: seq<string>)
    ensures r == Suggestions(language, complexWords, longSentences, nWords, nSentences)
  {
    var a := AdviceFor(language);
    r := [];
    if complexWords > 5 {
      r := r + [a.complex];
    }
    if longSentences > 2 {
      r := r + [a.long];
    }
    if AverageAbove(nWords, nSentences, 15) {
      r := r + [a.avg];
    }
    assert r == Gate(complexWords > 5, a.complex) + Gate(longSentences > 2, a.long)
                + Gate(AverageAbove(nWords, nSentences, 15), a.avg);
  }

  // ------------------------------------------------------------ rewriting

  const SimplifyTable: Table := [
    ("utilize", "use"),
    ("demonstrate", "show"),
    ("approximately", "about"),
    ("consequently", "so"),
    ("furthermore", "also"),
    ("nevertheless", "but"),
    ("significant", "important"),
    ("comprehend", "understand"),
    ("facilitate", "help"),
    ("implement", "do")
  ]

  function TranslationTable(language: Language): (t: Table)
    ensures language == English <==> t == []
  {
    match language
    case English => []
    case Tamil => TamilTable
    case Malayalam => MalayalamTable
    case Kannada => KannadaTable
  }

  const TamilTable: Table := [
    ("learn", "கற்று"),
    ("study", "படிப்பு"),
    ("read", "படி"),
    ("write", "எழுது"),
    ("understand", "புரிந்து"),
    ("lesson", "பாடம்"),
    ("student", "மாணவர்"),
    ("teacher", "ஆசிரியர்"),
    ("book", "புத்தகம்"),
    ("knowledge", "அறிவு"),
    ("education", "கல்வி"),
    ("school", "பள்ளி"),
    ("class", "வகுப்பு"),
    ("homework", "வீட்டுப்பாடம்"),
    ("exam", "தேர்வு"),
    ("question", "கேள்வி"),
    ("answer", "பதில்"),
    ("practice", "பயிற்சி")
  ]

  const MalayalamTable: Table := [
    ("learn", "പഠിക്കുക"),
    ("study", "പഠനം"),
    ("read", "വായിക്കുക"),
    ("write", "എഴുതുക"),
    ("understand", "മനസ്സിലാക്കുക"),
    ("lesson", "പാഠം"),
    ("student", "വിദ്യാർത്ഥി"),
    ("teacher", "അധ്യാപകൻ"),
    ("book", "പുസ്തകം"),
    ("knowledge", "അറിവ്"),
    ("education", "വിദ്യാഭ്യാസം"),
    ("school", "സ്കൂൾ"),
    ("class", "ക്ലാസ്"),
    ("homework", "ഗൃഹപാഠം"),
    ("exam", "പരീക്ഷ"),
    ("question", "ചോദ്യം"),
    ("answer", "ഉത്തരം"),
    ("practice", "അഭ്യാസം")
  ]

  const KannadaTable: Table := [
    ("learn", "ಕಲಿಯಿರಿ"),
    ("study", "ಅಧ್ಯಯನ"),
    ("read", "ಓದು"),
    ("write", "ಬರೆಯಿರಿ"),
    ("understand", "ಅರ್ಥಮಾಡಿಕೊಳ್ಳಿ"),
    ("lesson", "ಪಾಠ"),
    ("student", "ವಿದ್ಯಾರ್ಥಿ"),
    ("teacher", "ಶಿಕ್ಷಕ"),
    ("book", "ಪುಸ್ತಕ"),
    ("knowledge", "ಜ್ಞಾನ"),
    ("education", "ಶಿಕ್ಷಣ"),
    ("school", "ಶಾಲೆ"),
    ("class", "ತರಗತಿ"),
    ("homework", "ಮನೆಕೆಲಸ"),
    ("exam", "ಪರೀಕ್ಷೆ"),
    ("question", "ಪ್ರಶ್ನೆ"),
    ("answer", "ಉತ್ತರ"),
    ("practice", "ಅಭ್ಯಾಸ")
  ]

  /** Both tables have only non-empty words as keys. */
  lemma TablesKeyed(language: Language)
    ensures Keyed(SimplifyTable) && Keyed(TranslationTable(language))
  {
    SimplifyKeyed();
    match language
    case English =>
    case Tamil => TamilKeyed();
    case Malayalam => MalayalamKeyed();
    case Kannada => KannadaKeyed();
  }

  lemma SimplifyKeyed()
    ensures Keyed(SimplifyTable)
  {
  }

  lemma TamilKeyed()
    ensures Keyed(TamilTable)
  {
  }

  lemma MalayalamKeyed()
    ensures Keyed(MalayalamTable)
  {
  }

  lemma KannadaKeyed()
    ensures Keyed(KannadaTable)
  {
  }

  /** Table check: the formal words are words of letters, and each plain value is no later key. */
  lemma SimplifyTableWords()
    ensures WordKeyed(IsWordChar, SimplifyTable) && ValuesStay(IsWordChar, SimplifyTable)
  {
    SimplifyKeysAreWords();
    SimplifyValuesAreWords();
    SimplifyValuesAreNoKeys();
    WordValuesStay(IsWordChar, SimplifyTable);
  }

  lemma SimplifyKeysAreWords()
    ensures WordKeyed(IsWordChar, SimplifyTable)
  {
  }

  lemma SimplifyValuesAreWords()
    ensures Keyed(SimplifyTable)
    ensures forall k, i :: 0 <= k < |SimplifyTable| && 0 <= i < |SimplifyTable[k].1| ==> IsWordChar(SimplifyTable[k].1[i])
  {
  }

  /** The two plain values as long as a later formal word differ from it in one letter. */
  lemma SimplifyValuesAreNoKeys()
    ensures forall k, j :: 0 <= k < j < |SimplifyTable| ==>
              |SimplifyTable[k].1| != |SimplifyTable[j].0| || !EqualsIgnoreCase(SimplifyTable[k].1, SimplifyTable[j].0)
  {
    assert LowerStr("important")[3] != LowerStr("implement")[3];
    assert LowerStr("understand")[0] != LowerStr("facilitate")[0];
  }

  /** Table check: the study words are words of letters, and the values, in Indic script, stay. */
  lemma TranslationTableWords(language: Language)
    ensures WordKeyed(IsWordChar, TranslationTable(language)) && ValuesStay(IsWordChar, TranslationTable(language))
  {
    TablesKeyed(language);
    match language
    case English =>
    case Tamil => TamilWords();
    case Malayalam => MalayalamWords();
    case Kannada => KannadaWords();
    ValuesOutsideStay(IsWordChar, TranslationTable(language));
  }

  lemma TamilWords()
    ensures WordKeyed(IsWordChar, TamilTable)
    ensures forall k, i :: 0 <= k < |TamilTable| && 0 <= i < |TamilTable[k].1| ==> !IsWordChar(TamilTable[k].1[i])
  {
    TamilKeys();
    TamilScript();
  }

  lemma TamilKeys()
    ensures WordKeyed(IsWordChar, TamilTable)
  {
  }

  lemma TamilScript()
    ensures forall k, i :: 0 <= k < |TamilTable| && 0 <= i < |TamilTable[k].1| ==> !IsWordChar(TamilTable[k].1[i])
  {
  }

  lemma MalayalamWords()
    ensures WordKeyed(IsWordChar, MalayalamTable)
    ensures forall k, i :: 0 <= k < |MalayalamTable| && 0 <= i < |MalayalamTable[k].1| ==> !IsWordChar(MalayalamTable[k].1[i])
  {
    MalayalamKeys();
    MalayalamScript();
  }

  lemma MalayalamKeys()
    ensures WordKeyed(IsWordChar, MalayalamTable)
  {
  }

  lemma MalayalamScript()
    ensures forall k, i :: 0 <= k < |MalayalamTable| && 0 <= i < |MalayalamTable[k].1| ==> !IsWordChar(MalayalamTable[k].1[i])
  {
  }

  lemma KannadaWords()
    ensures WordKeyed(IsWordChar, KannadaTable)
    ensures forall k, i :: 0 <= k < |KannadaTable| && 0 <= i < |KannadaTable[k].1| ==> !IsWordChar(KannadaTable[k].1[i])
  {
    KannadaKeys();
    KannadaScript();
  }

  lemma KannadaKeys()
    ensures WordKeyed(IsWordChar, KannadaTable)
  {
  }

  lemma KannadaScript()
    ensures forall k, i :: 0 <= k < |KannadaTable| && 0 <= i < |KannadaTable[k].1| ==> !IsWordChar(KannadaTable[k].1[i])
  {
  }

  /** A single word after `simplifyText`: the plain value of the first formal word equal to it up to case, else the word. */
  function PlainWord(x: string): string {
    match FirstEntry(SimplifyTable, x)
    case None => x
    case Some(k) => SimplifyTable[k].1
  }

  /** A single word after `translateText`: the local value of the first study word equal to it up to case, else the word. */
  function LocalWord(x: string, language: Language): string {
    match FirstEntry(TranslationTable(language), x)
    case None => x
    case Some(k) => TranslationTable(language)[k].1
  }

  /**
   * `simplifyText` on a word standing between non-word characters: the word
   * becomes its plain form when it is a formal word in any capitalisation
   * and stays otherwise, and the text on either side is simplified on its own.
   */
  lemma SimplifiedInContext(p: string, x: string, q: string)
    requires EndsOutside(IsWordChar, p) && StartsOutside(IsWordChar, q)
    requires |x| > 0 && forall i :: 0 <= i < |x| ==> IsWordChar(x[i])
    ensures Simplified(p + x + q) == Simplified(p) + PlainWord(x) + Simplified(q)
  {
    WordCharCaseBlind();
    SimplifyTableWords();
    ReplaceEachInContext(IsWordChar, p, x, q, SimplifyTable);
  }

  /**
   * `translateText` on a word standing between non-word characters: a study
   * word in any capitalisation becomes the language's word, any other word
   * stays, and the text on either side is translated on its own.
   */
  lemma TranslatedInContext(p: string, x: string, q: string, language: Language)
    requires EndsOutside(IsWordChar, p) && StartsOutside(IsWordChar, q)
    requires |x| > 0 && forall i :: 0 <= i < |x| ==> IsWordChar(x[i])
    ensures ReplaceEach(IsWordChar, p + x + q, TranslationTable(language))
            == ReplaceEach(IsWordChar, p, TranslationTable(language)) + LocalWord(x, language)
               + ReplaceEach(IsWordChar, q, TranslationTable(language))
  {
    WordCharCaseBlind();
    TranslationTableWords(language);
    ReplaceEachInContext(IsWordChar, p, x, q, TranslationTable(language));
  }

  /** The text with each of the ten formal words replaced, in table order. */
  function Simplified(text: string): string {
    SimplifyKeyed();
    ReplaceEach(IsWordChar, text, SimplifyTable)
  }

  /** None of the ten formal words occurs in the text. */
  predicate NoFormalWords(text: string) {
    SimplifyKeyed();
    NoneOccur(IsWordChar, text, SimplifyTable)
  }

  /** `simplifyText`: the ten formal words become plain ones; text without them is returned as is. */
  method SimplifyText(text: string) returns (r: string)
    ensures r == Simplified(text)
    ensures NoFormalWords(text) ==> r == text
  {
    SimplifyKeyed();
    r := ReplaceAlong(IsWordChar, text, SimplifyTable);
  }

  /** `translateText`: the language's eighteen study words are swapped for the local word. */
  method TranslateText(text: string, language: Language) returns (r: string)
    ensures r == ReplaceEach(IsWordChar, text, TranslationTable(language))
    ensures language == English ==> r == text
    ensures NoneOccur(IsWordChar, text, TranslationTable(language)) ==> r == text
  {
    TablesKeyed(language);
    r := ReplaceAlong(IsWordChar, text, TranslationTable(language));
  }

  // ------------------------------------------------------------ key points

  /** `p.split('.')[0]`: the paragraph up to its first full stop. */
  function FirstClause(p: string): (r: string)
    ensures '.' !in r
    ensures StartsWith(p, r)
  {
    FirstPieceWithout(p, '.');
    match IndexOf(p, ".")
    case None => p
    case Some(i) => p[..i]
  }

  function Paragraphs(text: string): seq<string> {
    Split(text, "\n\n")
  }

  /** The first clause of each paragraph, in paragraph order. */
  function FirstClauses(text: string): (cs: seq<string>)
    ensures |cs| == |Paragraphs(text)|
    ensures forall k :: 0 <= k < |cs| ==> cs[k] == FirstClause(Paragraphs(text)[k])
  {
    var ps := Paragraphs(text);
    seq(|ps|, k requires 0 <= k < |ps| => FirstClause(ps[k]))
  }

  /**
   * `text.split('\n\n').map(p => p.split('.')[0]).filter(p => p.trim()).slice(0, 5)`:
   * the first five non-blank first clauses, in paragraph order; a non-blank
   * first clause is left out only when five were found before it.
   */
  function KeyPoints(text: string): (r: seq<string>)
    ensures |r| <= 5
    ensures forall i :: 0 <= i < |r| ==> NonBlank(r[i]) && '.' !in r[i]
    ensures forall i :: 0 <= i < |r| ==>
      exists k :: 0 <= k < |Paragraphs(text)| && StartsWith(Paragraphs(text)[k], r[i])
    ensures var kept := Seqs.Filter(FirstClauses(text), NonBlank);
            |r| == (if |kept| < 5 then |kept| else 5) && r == kept[..|r|]
    ensures Seqs.IsSubsequence(r, FirstClauses(text))
    ensures forall k :: 0 <= k < |FirstClauses(text)| && NonBlank(FirstClauses(text)[k]) ==>
              FirstClauses(text)[k] in r || |r| == 5
  {
    KeyPointsKept(text);
    KeyPointsInOrder(text);
    Take(Seqs.Filter(FirstClauses(text), NonBlank), 5)
  }

  /** The key points are kept clauses, at most five, and the first of them. */
  lemma KeyPointsKept(text: string)
    ensures var kept := Seqs.Filter(FirstClauses(text), NonBlank);
            var r := Take(kept, 5);
            && |r| == (if |kept| < 5 then |kept| else 5) && r == kept[..|r|]
            && forall i :: 0 <= i < |r| ==>
                 NonBlank(r[i]) && '.' !in r[i] &&
                 exists k :: 0 <= k < |Paragraphs(text)| && StartsWith(Paragraphs(text)[k], r[i])
  {
    var kept := Seqs.Filter(FirstClauses(text), NonBlank);
    var r := Take(kept, 5);
    KeptClauses(text);
    assert forall i :: 0 <= i < |r| ==> r[i] in kept;
  }

  /** The key points keep paragraph order, and miss a non-blank clause only when there are five. */
  lemma KeyPointsInOrder(text: string)
    ensures var r := Take(Seqs.Filter(FirstClauses(text), NonBlank), 5);
            && Seqs.IsSubsequence(r, FirstClauses(text))
            && forall k :: 0 <= k < |FirstClauses(text)| && NonBlank(FirstClauses(text)[k]) ==>
                 FirstClauses(text)[k] in r || |r| == 5
  {
    var clauses := FirstClauses(text);
    var kept := Seqs.Filter(clauses, NonBlank);
    var r := Take(kept, 5);
    Seqs.FilterIsSubsequence(clauses, NonBlank);
    Seqs.PrefixSubsequence(kept, clauses, |r|);
  }

  /** Each kept clause is non-blank, holds no full stop and opens a paragraph. */
  lemma KeptClauses(text: string)
    ensures forall c :: c in Seqs.Filter(FirstClauses(text), NonBlank) ==>
              NonBlank(c) && '.' !in c && exists k :: 0 <= k < |Paragraphs(text)| && StartsWith(Paragraphs(text)[k], c)
  {
    var clauses := FirstClauses(text);
    forall c | c in Seqs.Filter(clauses, NonBlank)
      ensures NonBlank(c) && '.' !in c && exists k :: 0 <= k < |Paragraphs(text)| && StartsWith(Paragraphs(text)[k], c)
    {
      var k :| 0 <= k < |clauses| && clauses[k] == c;
      assert StartsWith(Paragraphs(text)[k], c);
    }
  }

  // ------------------------------------------------------------ analysis

  /**
   * `[...new Set(complexWords)].slice(0, 10)`: the first ten distinct long
   * words of the text, in order of first appearance; a long word is left out
   * only when ten were found before it.
   */
  function ReportedComplexWords(text: string): (cw: seq<string>)
    ensures |cw| <= 10 && Seqs.Distinct(cw)
    ensures forall i :: 0 <= i < |cw| ==> IsComplex(cw[i]) && cw[i] in TextWords(text)
    ensures var distinct := Seqs.Dedupe(ComplexWords(text));
            |cw| == (if |distinct| < 10 then |distinct| else 10) && cw == distinct[..|cw|]
    ensures forall w :: w in TextWords(text) && IsComplex(w) && w !in cw ==> |cw| == 10
  {
    var distinct := Seqs.Dedupe(ComplexWords(text));
    var cw := Take(distinct, 10);
    assert forall i :: 0 <= i < |cw| ==> cw[i] in distinct;
    cw
  }

  /**
   * `longSentences.slice(0, 3)`: the first three sentences of the text with
   * more than 15 pieces, in text order; a long sentence is left out only
   * when three were found before it.
   */
  function ReportedLongSentences(text: string): (ls: seq<string>)
    ensures |ls| <= 3
    ensures forall i :: 0 <= i < |ls| ==> IsLong(ls[i]) && ls[i] in Sentences(text)
    ensures |ls| == (if |LongSentences(text)| < 3 then |LongSentences(text)| else 3)
    ensures ls == LongSentences(text)[..|ls|] && Seqs.IsSubsequence(ls, Sentences(text))
    ensures forall s :: s in Sentences(text) && IsLong(s) && s !in ls ==> |ls| == 3
  {
    var ls := Take(LongSentences(text), 3);
    assert forall i :: 0 <= i < |ls| ==> ls[i] in LongSentences(text);
    Seqs.PrefixSubsequence(LongSentences(text), Sentences(text), |ls|);
    ls
  }

  /** `language !== 'english' ? translateText(text, language) : undefined`. */
  function Translation(text: string, language: Language): (r: Option<string>)
    ensures r.None? <==> language == English
    ensures NoneOccur(IsWordChar, text, TranslationTable(language)) ==> r.Some? ==> r.value == text
  {
    TablesKeyed(language);
    var t := TranslationTable(language);
    if language == English then None
    else if NoneOccur(IsWordChar, text, t) then
      ReplaceEachUnchanged(IsWordChar, text, t);
      Some(ReplaceEach(IsWordChar, text, t))
    else Some(ReplaceEach(IsWordChar, text, t))
  }

  /** The analysis `analyzeForAccessibility` returns. */
  function AnalysisOf(text: string, language: Language): Analysis {
    TablesKeyed(language);
    var words := TextWords(text);
    var sentences := Sentences(text);
    Analysis(ReadabilityLevel(|words|, |sentences|),
             ReportedComplexWords(text),
             ReportedLongSentences(text),
             Suggestions(language, |ComplexWords(text)|, |LongSentences(text)|, |words|, |sentences|),
             Simplified(text),
             KeyPoints(text),
             Translation(text, language))
  }

  /** `analyzeForAccessibility`. */
  method AnalyzeForAccessibility(text: string, language: Language) returns (r: Analysis)
    ensures r == AnalysisOf(text, language)
  {
    var words := TextWords(text);
    var sentences := Sentences(text);
    var complex := ComplexWords(text);
    var long := LongSentences(text);
    var simplified := SimplifyText(text);
    var translated: Option<string> := None;
    if language != English {
      var t := TranslateText(text, language);
      translated := Some(t);
    }
    assert translated == Translation(text, language);
    var suggestions := GetSuggestions(language, |complex|, |long|, |words|, |sentences|);
    r := Analysis(ReadabilityLevel(|words|, |sentences|), ReportedComplexWords(text), ReportedLongSentences(text),
                  suggestions, simplified, KeyPoints(text), translated);
  }
}
