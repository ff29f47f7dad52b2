/**
 * The HACKNO portal's language helper: a word-list language guess, the
 * words-per-sentence complexity band, keyword extraction by frequency,
 * the interface translations and the current language, a summary of the
 * user's highlights and the readability suggestions. Speech, the page
 * update and the screen-reader announcement are browser calls and are not
 * modelled.
 */
module HacknoAiAdapter {
  import opened Wrappers
  import opened Strings
  import opened Seqs

  // ------------------------------------------------------------ language detection

  const SpanishWords: seq<string> := ["el", "la", "de", "que", "y", "en", "un", "es", "se", "no",
                                      "te", "lo", "le", "da", "su", "por", "son", "con", "para", "al"]

  /** The English marker words; `extractKeywords` uses the same list as its stop words. */
  const EnglishWords: seq<string> := ["the", "be", "to", "of", "and", "a", "in", "that", "have", "i",
                                      "it", "for", "not", "on", "with", "he", "as", "you", "do", "at"]

  predicate IsSpanish(w: string) { w in SpanishWords }
  predicate IsEnglish(w: string) { w in EnglishWords }

  /** The pieces `detectLanguage` scores: the lower-cased text split at whitespace runs. */
  function LanguageWords(text: string): seq<string> {
    SplitWhitespace(LowerStr(text))
  }

  /** 'es' when more pieces are Spanish marker words than English ones, 'en' otherwise (ties included). */
  function Detected(text: string): string {
    var words := LanguageWords(text);
    if Count(words, IsSpanish) > Count(words, IsEnglish) then "es" else "en"
  }

  /** The score loop: how many pieces each of the two word tests accepts. */
  method Scores(words: seq<string>, isSpanish: string -> bool, isEnglish: string -> bool)
    returns (spanishScore: nat, englishScore: nat)
    ensures spanishScore == Count(words, isSpanish) && englishScore == Count(words, isEnglish)
  {
    spanishScore, englishScore := 0, 0;
    for i := 0 to |words|
      invariant spanishScore == Count(words[..i], isSpanish) && englishScore == Count(words[..i], isEnglish)
    {
      var word := words[i];
      if isSpanish(word) {
        spanishScore := spanishScore + 1;
      }
      if isEnglish(word) {
        englishScore := englishScore + 1;
      }
      assert words[..i + 1] == words[..i] + [word];
      CountSnoc(words[..i], word, isSpanish);
      CountSnoc(words[..i], word, isEnglish);
    }
    assert words[..|words|] == words;
  }

  /** A text without Spanish marker words is English. */
  lemma NoSpanishIsEnglish(text: string)
    requires forall k :: 0 <= k < |LanguageWords(text)| ==> !IsSpanish(LanguageWords(text)[k])
    ensures Detected(text) == "en"
  {
    FilterNone(LanguageWords(text), IsSpanish);
  }

  /** A text with Spanish marker words and no English ones is Spanish. */
  lemma SpanishOnlyIsSpanish(text: string, k: nat)
    requires k < |LanguageWords(text)| && IsSpanish(LanguageWords(text)[k])
    requires forall j :: 0 <= j < |LanguageWords(text)| ==> !IsEnglish(LanguageWords(text)[j])
    ensures Detected(text) == "es"
  {
    var words := LanguageWords(text);
    FilterNone(words, IsEnglish);
    assert words[k] in Filter(words, IsSpanish);
  }

  // ------------------------------------------------------------ complexity

  datatype Complexity = Low | Medium | High

  /** `words / sentences` above 20 is high, above 15 medium, otherwise low (exact division). */
  function Band(words: nat, sentences: nat): (c: Complexity)
    requires sentences >= 1
    ensures c == High <==> words > 20 * sentences
    ensures c == Medium <==> 15 * sentences < words <= 20 * sentences
    ensures c == Low <==> words <= 15 * sentences
  {
    if words > 20 * sentences then High else if words > 15 * sentences then Medium else Low
  }

  /** `text.split(/\s+/).length`: one more than the whitespace runs, so never zero. */
  function WordCount(text: string): (n: nat)
    ensures n >= 1
  {
    |SplitWhitespace(text)|
  }

  /** `calculateComplexity`: the band of the piece counts of the whitespace and `[.!?]+` splits. */
  function ComplexityOf(text: string): Complexity {
    Band(WordCount(text), |SplitSentences(text)|)
  }

  /** `Math.ceil(wordCount / 200)`: the least number of 200-word minutes covering the words. */
  function ReadingTime(wordCount: nat): (t: nat)
    ensures wordCount <= 200 * t < wordCount + 200
  {
    (wordCount + 199) / 200
  }

  // ------------------------------------------------------------ keywords

  /** A frequency table: the words in first-seen order, each with its count. */
  type Table = seq<(string, nat)>

  function HasKey(w: string): ((string, nat)) -> bool {
    (e: (string, nat)) => e.0 == w
  }

  function Is(w: string): string -> bool {
    (x: string) => x == w
  }

  /** `wordFreq[word] = (wordFreq[word] || 0) + 1`: count one more, adding the word at the end when new. */
  function Bump(table: Table, w: string): Table {
    match FindIndex(table, HasKey(w))
    case None => table + [(w, 1)]
    case Some(j) => table[j := (w, table[j].1 + 1)]
  }

  /** The table the counting loop builds from the words `eligible` admits. */
  function Freqs(words: seq<string>, eligible: string -> bool): Table {
    if words == [] then []
    else
      var table := Freqs(words[..|words| - 1], eligible);
      var w := words[|words| - 1];
      if eligible(w) then Bump(table, w) else table
  }

  /** Each entry is an admitted word with its number of occurrences. */
  predicate Counted(words: seq<string>, eligible: string -> bool, table: Table) {
    forall j :: 0 <= j < |table| ==>
      eligible(table[j].0) && table[j].1 >= 1 && table[j].1 == Count(words, Is(table[j].0))
  }

  /** Every admitted word has an entry. */
  predicate Covers(words: seq<string>, eligible: string -> bool, table: Table) {
    forall i :: 0 <= i < |words| && eligible(words[i]) ==> FindIndex(table, HasKey(words[i])).Some?
  }

  /** No word has two entries. */
  predicate KeysDistinct(table: Table) {
    forall i, j :: 0 <= i < j < |table| ==> table[i].0 != table[j].0
  }

  /** The table's meaning: each admitted word once, with its number of occurrences. */
  predicate Tallies(words: seq<string>, eligible: string -> bool, table: Table) {
    Counted(words, eligible, table) && Covers(words, eligible, table) && KeysDistinct(table)
  }

  /** Bumping keeps every entry's word in place and leaves the bumped word with an entry. */
  lemma BumpKeys(table: Table, x: string)
    ensures |table| <= |Bump(table, x)|
    ensures forall k :: 0 <= k < |table| ==> Bump(table, x)[k].0 == table[k].0
    ensures FindIndex(Bump(table, x), HasKey(x)).Some?
  {
    var r := Bump(table, x);
    match FindIndex(table, HasKey(x))
    case None =>
      assert HasKey(x)(r[|table|]);
    case Some(j) =>
      assert HasKey(x)(table[j]) && HasKey(x)(r[j]);
  }

  /** An admitted word keeps the table covering the words. */
  lemma BumpCovers(init: seq<string>, eligible: string -> bool, table: Table, x: string)
    requires Covers(init, eligible, table) && eligible(x)
    ensures Covers(init + [x], eligible, Bump(table, x))
  {
    var ws := init + [x];
    var r := Bump(table, x);
    BumpKeys(table, x);
    forall i | 0 <= i < |ws| && eligible(ws[i])
      ensures FindIndex(r, HasKey(ws[i])).Some?
    {
      if i < |init| {
        var m := FindIndex(table, HasKey(init[i])).value;
        assert HasKey(init[i])(table[m]);
        assert HasKey(ws[i])(r[m]);
      }
    }
  }

  /** Bumping a word that has an entry raises that count by one and keeps the others. */
  lemma BumpKnownCounted(init: seq<string>, eligible: string -> bool, table: Table, x: string)
    requires Counted(init, eligible, table) && KeysDistinct(table)
    requires eligible(x) && FindIndex(table, HasKey(x)).Some?
    ensures Counted(init + [x], eligible, Bump(table, x)) && KeysDistinct(Bump(table, x))
  {
    var j := FindIndex(table, HasKey(x)).value;
    var r := Bump(table, x);
    assert HasKey(x)(table[j]);
    forall k | 0 <= k < |r|
      ensures eligible(r[k].0) && r[k].1 >= 1 && r[k].1 == Count(init + [x], Is(r[k].0))
    {
      CountSnoc(init, x, Is(r[k].0));
      if k < j {
        assert r[k] == table[k] && table[k].0 != table[j].0;
      } else if k > j {
        assert r[k] == table[k] && table[j].0 != table[k].0;
      }
    }
  }

  /** An admitted word without an entry in a covering table has not occurred yet. */
  lemma Unseen(init: seq<string>, eligible: string -> bool, table: Table, x: string)
    requires Covers(init, eligible, table) && eligible(x) && FindIndex(table, HasKey(x)).None?
    ensures Count(init, Is(x)) == 0
  {
    forall i | 0 <= i < |init| ensures !Is(x)(init[i]) {
      assert !eligible(init[i]) || FindIndex(table, HasKey(init[i])).Some?;
    }
    FilterNone(init, Is(x));
  }

  /** A word without an entry gets one, with count one; the other entries keep theirs. */
  lemma BumpNewCounted(init: seq<string>, eligible: string -> bool, table: Table, x: string)
    requires Counted(init, eligible, table) && Covers(init, eligible, table)
    requires eligible(x) && FindIndex(table, HasKey(x)).None?
    ensures Counted(init + [x], eligible, Bump(table, x))
  {
    var r := Bump(table, x);
    assert r == table + [(x, 1)];
    Unseen(init, eligible, table, x);
    forall k | 0 <= k < |r|
      ensures eligible(r[k].0) && r[k].1 >= 1 && r[k].1 == Count(init + [x], Is(r[k].0))
    {
      CountSnoc(init, x, Is(r[k].0));
      if k < |table| {
        assert r[k] == table[k] && !HasKey(x)(table[k]);
      }
    }
  }

  /** The new entry's word differs from every listed one. */
  lemma BumpNewDistinct(table: Table, x: string)
    requires KeysDistinct(table) && FindIndex(table, HasKey(x)).None?
    ensures KeysDistinct(Bump(table, x))
  {
    var r := Bump(table, x);
    assert r == table + [(x, 1)];
    forall a, b | 0 <= a < b < |r| ensures r[a].0 != r[b].0 {
      if b == |table| {
        assert !HasKey(x)(table[a]);
      }
    }
  }

  /** Passing over a word the filter rejects. */
  lemma SkipIneligible(init: seq<string>, eligible: string -> bool, table: Table, x: string)
    requires Tallies(init, eligible, table) && !eligible(x)
    ensures Tallies(init + [x], eligible, table)
  {
    var ws := init + [x];
    forall k | 0 <= k < |table| ensures table[k].1 == Count(ws, Is(table[k].0)) {
      CountSnoc(init, x, Is(table[k].0));
    }
    forall i | 0 <= i < |ws| && eligible(ws[i]) ensures FindIndex(table, HasKey(ws[i])).Some? {
      assert ws[i] == init[i];
    }
  }

  /** The counting loop tallies exactly the admitted words. */
  lemma {:induction false} FreqsTally(words: seq<string>, eligible: string -> bool)
    ensures Tallies(words, eligible, Freqs(words, eligible))
  {
    if words != [] {
      var init := words[..|words| - 1];
      var x := words[|words| - 1];
      FreqsTally(init, eligible);
      assert words == init + [x];
      var table := Freqs(init, eligible);
      if !eligible(x) {
        SkipIneligible(init, eligible, table, x);
      } else {
        BumpCovers(init, eligible, table, x);
        if FindIndex(table, HasKey(x)).Some? {
          BumpKnownCounted(init, eligible, table, x);
        } else {
          BumpNewCounted(init, eligible, table, x);
          BumpNewDistinct(table, x);
        }
      }
    }
  }

  function Freq(e: (string, nat)): int {
    e.1
  }

  function Keys(table: Table): (ws: seq<string>)
    ensures |ws| == |table| && forall i :: 0 <= i < |table| ==> ws[i] == table[i].0
  {
    seq(|table|, i requires 0 <= i < |table| => table[i].0)
  }

  /** The `n` most frequent admitted words, ties in first-seen order. */
  function Top(words: seq<string>, eligible: string -> bool, n: nat): seq<string> {
    Keys(Take(SortDesc(Freqs(words, eligible), Freq), n))
  }

  /** A reordering of a counted table is counted: each of its entries is an admitted word that occurs. */
  lemma ReorderedEntry(words: seq<string>, eligible: string -> bool, table: Table, sorted: Table, k: nat)
    requires Counted(words, eligible, table) && multiset(sorted) == multiset(table) && k < |sorted|
    ensures eligible(sorted[k].0) && sorted[k].1 >= 1 && sorted[k].1 == Count(words, Is(sorted[k].0))
    ensures sorted[k].0 in words
  {
    assert sorted[k] in multiset(table);
    var j :| 0 <= j < |table| && table[j] == sorted[k];
    CountWitness(words, Is(sorted[k].0));
  }

  /** Each entry of the sorted table is a counted admitted word. */
  lemma SortedEntry(words: seq<string>, eligible: string -> bool, k: nat)
    requires k < |SortDesc(Freqs(words, eligible), Freq)|
    ensures var e := SortDesc(Freqs(words, eligible), Freq)[k];
            eligible(e.0) && e.1 >= 1 && e.1 == Count(words, Is(e.0)) && e.0 in words
  {
    FreqsTally(words, eligible);
    ReorderedEntry(words, eligible, Freqs(words, eligible), SortDesc(Freqs(words, eligible), Freq), k);
  }

  /** The keywords: at most `n`, each admitted and occurring in the words. */
  lemma TopBounded(words: seq<string>, eligible: string -> bool, n: nat)
    ensures |Top(words, eligible, n)| <= n
    ensures forall i :: 0 <= i < |Top(words, eligible, n)| ==>
              eligible(Top(words, eligible, n)[i]) && Top(words, eligible, n)[i] in words
  {
    var top := Top(words, eligible, n);
    forall i | 0 <= i < |top| ensures eligible(top[i]) && top[i] in words {
      SortedEntry(words, eligible, i);
    }
  }

  /** The keywords come in non-increasing order of occurrences. */
  lemma TopOrdered(words: seq<string>, eligible: string -> bool, n: nat)
    ensures forall i, j :: 0 <= i < j < |Top(words, eligible, n)| ==>
              Count(words, Is(Top(words, eligible, n)[i])) >= Count(words, Is(Top(words, eligible, n)[j]))
  {
    var top := Top(words, eligible, n);
    forall i, j | 0 <= i < j < |top| ensures Count(words, Is(top[i])) >= Count(words, Is(top[j])) {
      SortedEntry(words, eligible, i);
      SortedEntry(words, eligible, j);
    }
  }

  /** No keyword is listed twice. */
  lemma TopDistinct(words: seq<string>, eligible: string -> bool, n: nat)
    ensures Distinct(Top(words, eligible, n))
  {
    var table := Freqs(words, eligible);
    var sorted := SortDesc(table, Freq);
    var top := Top(words, eligible, n);
    FreqsTally(words, eligible);
    assert Distinct(table);
    PermutationDistinct(table, sorted);
    forall i, j | 0 <= i < j < |top| ensures top[i] != top[j] {
      assert sorted[i] != sorted[j];
      assert sorted[i] in multiset(sorted) && sorted[j] in multiset(sorted);
      var a :| 0 <= a < |table| && table[a] == sorted[i];
      var b :| 0 <= b < |table| && table[b] == sorted[j];
    }
  }

  /**
   * The keywords are a true top `n`: an admitted word of the text left out
   * means the list is full and every listed word occurs at least as often.
   */
  lemma TopComplete(words: seq<string>, eligible: string -> bool, n: nat)
    ensures forall w :: w in words && eligible(w) && w !in Top(words, eligible, n) ==>
              |Top(words, eligible, n)| == n &&
              forall i :: 0 <= i < |Top(words, eligible, n)| ==>
                Count(words, Is(Top(words, eligible, n)[i])) >= Count(words, Is(w))
  {
    forall w | w in words && eligible(w) && w !in Top(words, eligible, n)
      ensures |Top(words, eligible, n)| == n
      ensures forall i :: 0 <= i < |Top(words, eligible, n)| ==>
                Count(words, Is(Top(words, eligible, n)[i])) >= Count(words, Is(w))
    {
      var m := SortedPlace(words, eligible, w);
      OmittedBelow(words, eligible, n, w, m);
    }
  }

  /** An admitted word of the text has an entry in the sorted table. */
  lemma SortedPlace(words: seq<string>, eligible: string -> bool, w: string) returns (m: nat)
    requires w in words && eligible(w)
    ensures m < |SortDesc(Freqs(words, eligible), Freq)| && SortDesc(Freqs(words, eligible), Freq)[m].0 == w
  {
    var table := Freqs(words, eligible);
    var sorted := SortDesc(table, Freq);
    FreqsTally(words, eligible);
    var p :| 0 <= p < |words| && words[p] == w;
    var j := FindIndex(table, HasKey(words[p])).value;
    assert table[j] in multiset(sorted);
    m :| 0 <= m < |sorted| && sorted[m] == table[j];
  }

  /** A word whose entry lies past the keywords: the list is full and no listed word is rarer. */
  lemma OmittedBelow(words: seq<string>, eligible: string -> bool, n: nat, w: string, m: nat)
    requires m < |SortDesc(Freqs(words, eligible), Freq)| && SortDesc(Freqs(words, eligible), Freq)[m].0 == w
    requires w !in Top(words, eligible, n)
    ensures |Top(words, eligible, n)| == n
    ensures forall i :: 0 <= i < |Top(words, eligible, n)| ==>
              Count(words, Is(Top(words, eligible, n)[i])) >= Count(words, Is(w))
  {
    var sorted := SortDesc(Freqs(words, eligible), Freq);
    var top := Top(words, eligible, n);
    assert forall i :: 0 <= i < |top| ==> top[i] == sorted[i].0;
    assert m >= |top|;
    SortedEntry(words, eligible, m);
    forall i | 0 <= i < |top| ensures Count(words, Is(top[i])) >= Count(words, Is(w)) {
      SortedEntry(words, eligible, i);
      assert Freq(sorted[i]) >= Freq(sorted[m]);
    }
  }

  /** `extractKeywords`' filter: not one of the stop words and longer than three characters. */
  predicate Eligible(w: string) {
    w !in EnglishWords && |w| > 3
  }

  /**
   * `extractKeywords`: the five most frequent admitted `\w+` tokens of the
   * lower-cased text, each once, the more frequent first.
   */
  function Keywords(text: string): (r: seq<string>)
    ensures |r| <= 5 && Distinct(r)
    ensures forall i :: 0 <= i < |r| ==> Eligible(r[i]) && r[i] in Words(LowerStr(text))
    ensures forall i, j :: 0 <= i < j < |r| ==>
              Count(Words(LowerStr(text)), Is(r[i])) >= Count(Words(LowerStr(text)), Is(r[j]))
    ensures forall w :: w in Words(LowerStr(text)) && Eligible(w) && w !in r ==>
              |r| == 5 && forall i :: 0 <= i < |r| ==> Count(Words(LowerStr(text)), Is(r[i])) >= Count(Words(LowerStr(text)), Is(w))
  {
    var words := Words(LowerStr(text));
    TopBounded(words, Eligible, 5);
    TopOrdered(words, Eligible, 5);
    TopDistinct(words, Eligible, 5);
    TopComplete(words, Eligible, 5);
    Top(words, Eligible, 5)
  }

  /** The counting loop of `extractKeywords` over the tokens. */
  method CountWords(words: seq<string>) returns (wordFreq: Table)
    ensures wordFreq == Freqs(words, Eligible)
  {
    wordFreq := [];
    for i := 0 to |words|
      invariant wordFreq == Freqs(words[..i], Eligible)
    {
      var word := words[i];
      assert words[..i + 1][..i] == words[..i];
      if word !in EnglishWords && |word| > 3 {
        wordFreq := Bump(wordFreq, word);
      }
    }
    assert words[..|words|] == words;
  }

  // ------------------------------------------------------------ translations

  const SupportedLanguages: map<string, string> := map["en" := "English", "es" := "Español"]

  const English: map<string, string> := map[
    "login" := "Login", "register" := "Register", "dashboard" := "Dashboard",
    "progress" := "Your Progress", "badges" := "Badges Earned", "highlights" := "Your Highlights & Notes",
    "scoreboard" := "Scoreboard", "level" := "Level", "points" := "Points", "rank" := "Rank",
    "user" := "User", "export_data" := "Export Data", "view_all_users" := "View All Users",
    "admin_panel" := "Admin Panel"]

  const Spanish: map<string, string> := map[
    "login" := "Iniciar Sesión", "register" := "Registrarse", "dashboard" := "Panel de Control",
    "progress" := "Tu Progreso", "badges" := "Insignias Obtenidas", "highlights" := "Tus Resaltados y Notas",
    "scoreboard" := "Tabla de Puntuaciones", "level" := "Nivel", "points" := "Puntos", "rank" := "Rango",
    "user" := "Usuario", "export_data" := "Exportar Datos", "view_all_users" := "Ver Todos los Usuarios",
    "admin_panel" := "Panel de Administración"]

  const Translations: map<string, map<string, string>> := map["en" := English, "es" := Spanish]

  /** `translations[language]?.[key] || key`: the table's text when there is a non-empty one, the key otherwise. */
  function TranslateIn(language: string, key: string): (r: string)
    ensures language !in Translations || key !in Translations[language] ==> r == key
    ensures language in Translations && key in Translations[language] && Translations[language][key] != ""
            ==> r == Translations[language][key]
  {
    if language in Translations && key in Translations[language] && Translations[language][key] != ""
    then Translations[language][key] else key
  }

  /** A language without a table shows every key as it is. */
  lemma UnsupportedShowsKeys(language: string, key: string)
    requires language !in SupportedLanguages
    ensures TranslateIn(language, key) == key
  {
  }

  /** Both tables cover the same keys, so switching language never turns a translated label back into its key. */
  lemma SameKeys()
    ensures English.Keys == Spanish.Keys
  {
  }

  // ------------------------------------------------------------ summary

  /** `calculateComplexity` as the score the summary averages: high 3, medium 2, low 1. */
  function Score(c: Complexity): nat {
    match c
    case High => 3
    case Medium => 2
    case Low => 1
  }

  /** The summed word counts of the highlights' contents. */
  function TotalWords(contents: seq<string>): nat {
    if contents == [] then 0 else TotalWords(contents[..|contents| - 1]) + WordCount(contents[|contents| - 1])
  }

  /** The summed complexity scores of the highlights' contents. */
  function ScoreSum(contents: seq<string>): (s: nat)
    ensures |contents| <= s <= 3 * |contents|
  {
    if contents == [] then 0 else ScoreSum(contents[..|contents| - 1]) + Score(ComplexityOf(contents[|contents| - 1]))
  }

  /** The average score above 2.5 is high, above 1.5 medium, otherwise low (on exact rationals). */
  function AverageLevel(sum: nat, n: nat): (c: Complexity)
    requires n >= 1
    ensures c == High <==> 2 * sum > 5 * n
    ensures c == Medium <==> 3 * n < 2 * sum <= 5 * n
    ensures c == Low <==> 2 * sum <= 3 * n
  {
    if 2 * sum > 5 * n then High else if 2 * sum > 3 * n then Medium else Low
  }

  function LevelName(c: Complexity): string {
    match c
    case High => "high"
    case Medium => "medium"
    case Low => "low"
  }

  const NoHighlights := "No highlights yet."

  /** `generateSummary` over the highlights' contents. */
  function Summary(contents: seq<string>): (r: string)
    ensures contents == [] <==> r == NoHighlights
  {
    if contents == [] then NoHighlights
    else
      var r := "You have " + NatToString(|contents|) + " highlights with " + NatToString(TotalWords(contents))
               + " total words. Average complexity: " + LevelName(AverageLevel(ScoreSum(contents), |contents|)) + ".";
      assert r[0] == 'Y' && NoHighlights[0] == 'N';
      r
  }

  /** When every highlight has the same complexity, the average reports that complexity. */
  lemma {:induction false} UniformScore(contents: seq<string>, c: Complexity)
    requires forall k :: 0 <= k < |contents| ==> ComplexityOf(contents[k]) == c
    ensures ScoreSum(contents) == |contents| * Score(c)
  {
    if contents != [] {
      var init := contents[..|contents| - 1];
      assert forall k :: 0 <= k < |init| ==> init[k] == contents[k];
      UniformScore(init, c);
    }
  }

  lemma UniformLevel(contents: seq<string>, c: Complexity)
    requires contents != [] && forall k :: 0 <= k < |contents| ==> ComplexityOf(contents[k]) == c
    ensures AverageLevel(ScoreSum(contents), |contents|) == c
  {
    UniformScore(contents, c);
  }

  // ------------------------------------------------------------ suggestions

  const BreakSentences := "Consider breaking long sentences into shorter ones"
  const SimplerWords := "Use simpler vocabulary where possible"
  const AddSubheadings := "Consider adding subheadings to break up the text"

  /** Two suggestions for a high complexity, one more for over 500 words. */
  function Suggestions(complexity: Complexity, wordCount: nat): (r: seq<string>)
    ensures |r| == (if complexity == High then 2 else 0) + (if wordCount > 500 then 1 else 0)
    ensures AddSubheadings in r <==> wordCount > 500
  {
    (if complexity == High then [BreakSentences, SimplerWords] else [])
    + (if wordCount > 500 then [AddSubheadings] else [])
  }

  /** What `processText` reports for a text. */
  datatype Analysis = Analysis(language: string, wordCount: nat, readingTime: nat,
                               complexity: Complexity, keywords: seq<string>)

  // ------------------------------------------------------------ the adapter

  class AIAdapter {
    var currentLanguage: string

    constructor()
      ensures currentLanguage == "en"
    {
      currentLanguage := "en";
    }

    /** `translate(key, language = this.currentLanguage)`. */
    function Translate(key: string, language: Option<string>): (r: string)
      reads this
      ensures language.None? ==> r == TranslateIn(currentLanguage, key)
      ensures language.Some? ==> r == TranslateIn(language.value, key)
    {
      TranslateIn(language.GetOr(currentLanguage), key)
    }

    /** `setLanguage`: only a supported code replaces the current language. */
    method SetLanguage(language: string)
      modifies this
      ensures currentLanguage == if language in SupportedLanguages then language else old(currentLanguage)
      ensures old(currentLanguage) in SupportedLanguages ==> currentLanguage in SupportedLanguages
    {
      if language in SupportedLanguages {
        currentLanguage := language;
      }
    }

    /** `detectLanguage`. */
    method DetectLanguage(text: string) returns (language: string)
      ensures language == Detected(text)
    {
      var words := SplitWhitespace(LowerStr(text));
      var spanishScore, englishScore := Scores(words, IsSpanish, IsEnglish);
      language := if spanishScore > englishScore then "es" else "en";
    }

    /** `extractKeywords`: count, sort by count (stable), keep five. */
    method ExtractKeywords(text: string) returns (keywords: seq<string>)
      ensures keywords == Keywords(text)
      ensures |keywords| <= 5 && Distinct(keywords)
      ensures forall i :: 0 <= i < |keywords| ==> Eligible(keywords[i])
      ensures forall w :: w in Words(LowerStr(text)) && Eligible(w) && w !in keywords ==> |keywords| == 5
    {
      var words := Words(LowerStr(text));
      var wordFreq := CountWords(words);
      var sorted := SortDesc(wordFreq, Freq);
      keywords := Keys(Take(sorted, 5));
      TopBounded(words, Eligible, 5);
      TopDistinct(words, Eligible, 5);
      TopComplete(words, Eligible, 5);
    }

    /** `processText`. */
    method ProcessText(text: string) returns (a: Analysis)
      ensures a == Analysis(Detected(text), WordCount(text), ReadingTime(WordCount(text)),
                            ComplexityOf(text), Keywords(text))
    {
      var language := DetectLanguage(text);
      var keywords := ExtractKeywords(text);
      var wordCount := |SplitWhitespace(text)|;
      a := Analysis(language, wordCount, ReadingTime(wordCount), ComplexityOf(text), keywords);
    }

    /** `getReadabilitySuggestions`: the advice for the text's complexity and length. */
    method GetReadabilitySuggestions(text: string) returns (suggestions: seq<string>)
      ensures suggestions == Suggestions(ComplexityOf(text), WordCount(text))
    {
      var analysis := ProcessText(text);
      suggestions := Advice(analysis.complexity, analysis.wordCount);
    }
  }

  /** The suggestions list of `getReadabilitySuggestions`, pushed one by one. */
  method Advice(complexity: Complexity, wordCount: nat) returns (suggestions: seq<string>)
    ensures suggestions == Suggestions(complexity, wordCount)
  {
    suggestions := [];
    if complexity == High {
      suggestions := suggestions + [BreakSentences];
      suggestions := suggestions + [SimplerWords];
    }
    if wordCount > 500 {
      suggestions := suggestions + [AddSubheadings];
    }
  }
}
