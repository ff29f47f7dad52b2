/**
 * NLP for a learner-defined language: a vocabulary from custom words to
 * English, grammar rules applied as text rewrites, word-by-word parsing and
 * a known-word score. The class's only state is the language given to its
 * constructor, so each operation here takes that language as a parameter.
 */
module CustomLanguageNlp {
  import Reals
  import opened Wrappers
  import opened Strings
  import Seqs
  import opened WordTables
  import opened TextStats

  datatype RuleKind = Grammar | Vocabulary | Syntax

  /**
   * A rule: `rewrite` stands for `s => s.replace(rule.pattern, rule.replacement)`,
   * the whole effect of one regular-expression rule on a text.
   */
  datatype Rule = Rule(rewrite: string -> string, kind: RuleKind)

  datatype WordOrder = SVO | SOV | VSO | VOS | OSV | OVS

  datatype GrammarInfo = GrammarInfo(wordOrder: WordOrder, articles: seq<string>, pronouns: seq<string>)

  datatype CustomLanguage = CustomLanguage(name: string, rules: seq<Rule>, vocabulary: Table, grammar: GrammarInfo)

  datatype Parsed = Parsed(words: seq<string>, sentences: seq<string>, translations: map<string, string>)

  datatype Complexity = Complexity(knownWords: nat, unknownWords: seq<string>, grammarScore: Option<real>)

  // ------------------------------------------------------------ parseText

  /**
   * `parseText`: the sentences, the lower-cased words, and a dictionary
   * holding exactly the words the vocabulary knows, each with its translation.
   */
  method ParseText(language: CustomLanguage, text: string) returns (r: Parsed)
    ensures r.words == TextWords(text) && r.sentences == Sentences(text)
    ensures r.translations.Keys == set w | w in r.words && Known(language.vocabulary, w)
    ensures forall w :: w in r.translations ==> Lookup(language.vocabulary, w) == Some(r.translations[w])
  {
    var words := TextWords(text);
    var translations: map<string, string> := map[];
    for i := 0 to |words|
      invariant translations.Keys == set w | w in words[..i] && Known(language.vocabulary, w)
      invariant forall w :: w in translations ==> Lookup(language.vocabulary, w) == Some(translations[w])
    {
      var w := words[i];
      var v := Lookup(language.vocabulary, w);
      if v.Some? && v.value != "" {
        translations := translations[w := v.value];
      }
      assert words[..i + 1] == words[..i] + [w];
    }
    assert words[..|words|] == words;
    r := Parsed(words, Sentences(text), translations);
  }

  // ------------------------------------------------------------ translateToEnglish

  /**
   * `translateToEnglish`: every vocabulary entry in turn replaces its custom
   * word, as a whole word and ignoring case, by the English one; a text
   * with no vocabulary word is returned unchanged.
   */
  method TranslateToEnglish(language: CustomLanguage, text: string) returns (r: string)
    requires Keyed(language.vocabulary)
    ensures r == ReplaceEach(IsWordChar, text, language.vocabulary)
    ensures NoneOccur(IsWordChar, text, language.vocabulary) ==> r == text
  {
    r := ReplaceAlong(IsWordChar, text, language.vocabulary);
  }

  /**
   * `translateToEnglish` on a word standing between non-word characters: the
   * first vocabulary entry whose custom word equals it up to case decides,
   * the later entries then apply to that English word, and the text on
   * either side is translated on its own. When no English word is itself a
   * later custom word, the English word is the result.
   */
  lemma TranslateWordInContext(language: CustomLanguage, p: string, x: string, q: string)
    requires WordKeyed(IsWordChar, language.vocabulary)
    requires EndsOutside(IsWordChar, p) && StartsOutside(IsWordChar, q)
    requires |x| > 0 && forall i :: 0 <= i < |x| ==> IsWordChar(x[i])
    ensures ReplaceEach(IsWordChar, p + x + q, language.vocabulary)
            == ReplaceEach(IsWordChar, p, language.vocabulary)
               + (match FirstEntry(language.vocabulary, x)
                  case None => x
                  case Some(k) => ReplaceEach(IsWordChar, language.vocabulary[k].1, language.vocabulary[k + 1..]))
               + ReplaceEach(IsWordChar, q, language.vocabulary)
    ensures ValuesStay(IsWordChar, language.vocabulary) ==>
              ReplaceEach(IsWordChar, p + x + q, language.vocabulary)
              == ReplaceEach(IsWordChar, p, language.vocabulary)
                 + (match FirstEntry(language.vocabulary, x)
                    case None => x
                    case Some(k) => language.vocabulary[k].1)
                 + ReplaceEach(IsWordChar, q, language.vocabulary)
  {
    WordCharCaseBlind();
    ReplaceEachInContext(IsWordChar, p, x, q, language.vocabulary);
  }

  // ------------------------------------------------------------ applyGrammarRules

  /** The rules applied one after another, each to the output of the one before. */
  function ApplyRules(text: string, rules: seq<Rule>): string
    decreases |rules|
  {
    if rules == [] then text else ApplyRules(rules[0].rewrite(text), rules[1..])
  }

  /** Rules run in list order: a list split in two is its first part, then its second. */
  lemma {:induction false} ApplyRulesAppend(text: string, r1: seq<Rule>, r2: seq<Rule>)
    ensures ApplyRules(text, r1 + r2) == ApplyRules(ApplyRules(text, r1), r2)
    decreases |r1|
  {
    if r1 == [] {
      assert r1 + r2 == r2;
    } else {
      assert (r1 + r2)[1..] == r1[1..] + r2;
      ApplyRulesAppend(r1[0].rewrite(text), r1[1..], r2);
    }
  }

  /** `applyGrammarRules`: the language's rules, in order. */
  method ApplyGrammarRules(language: CustomLanguage, text: string) returns (r: string)
    ensures r == ApplyRules(text, language.rules)
  {
    var rules := language.rules;
    r := text;
    for i := 0 to |rules|
      invariant ApplyRules(text, rules) == ApplyRules(r, rules[i..])
    {
      assert rules[i..][1..] == rules[i + 1..];
      r := rules[i].rewrite(r);
    }
    assert rules[|rules|..] == [];
  }

  // ------------------------------------------------------------ analyzeComplexity

  /** `(part / whole) * 100` lies between 0 and 100, and is 100 just when the part is the whole. */
  lemma Percentage(part: nat, whole: nat)
    requires 0 < whole && part <= whole
    ensures 0.0 <= part as real / whole as real * 100.0 <= 100.0
    ensures part as real / whole as real * 100.0 == 100.0 <==> part == whole
  {
    var w := whole as real;
    var share := part as real / w;
    assert share * w == part as real;
    assert (1.0 - share) * w == w - part as real;
    Reals.SignOfFactor(share, w);
    Reals.SignOfFactor(1.0 - share, w);
  }

  /** `word => this.language.vocabulary[word]` as a test. */
  function KnownIn(language: CustomLanguage): string -> bool {
    w => Known(language.vocabulary, w)
  }

  /**
   * `(knownWords / words.length) * 100`: the known share as a percentage,
   * `None` for the NaN of 0/0.
   */
  function GrammarScore(known: nat, total: nat): (score: Option<real>)
    requires known <= total
    ensures score.None? <==> total == 0
    ensures score.Some? ==> 0.0 <= score.value <= 100.0 && score.value == known as real / total as real * 100.0
    ensures score == Some(100.0) <==> total > 0 && known == total
  {
    if total == 0 then None
    else
      Percentage(known, total);
      Some(known as real / total as real * 100.0)
  }

  /** The unknown words are the words the vocabulary lacks, in order, and the known ones make up the rest. */
  lemma UnknownSplit(language: CustomLanguage, words: seq<string>)
    ensures var unknown := Seqs.Filter(words, Seqs.Not(KnownIn(language)));
            && Seqs.Count(words, KnownIn(language)) + |unknown| == |words|
            && Seqs.IsSubsequence(unknown, words)
            && (forall i :: 0 <= i < |unknown| ==> unknown[i] in words && !Known(language.vocabulary, unknown[i]))
            && (forall i :: 0 <= i < |words| && !Known(language.vocabulary, words[i]) ==> words[i] in unknown)
  {
    var known := KnownIn(language);
    Seqs.FilterPartition(words, known);
    Seqs.FilterIsSubsequence(words, Seqs.Not(known));
    var unknown := Seqs.Filter(words, Seqs.Not(known));
    forall i | 0 <= i < |unknown| ensures !Known(language.vocabulary, unknown[i]) {
      assert Seqs.Not(known)(unknown[i]);
    }
    forall i | 0 <= i < |words| && !Known(language.vocabulary, words[i]) ensures words[i] in unknown {
      assert Seqs.Not(known)(words[i]);
    }
  }

  /**
   * `analyzeComplexity` once `parseText` has given the words: the words
   * split into known and unknown, and the known share as a percentage.
   */
  function Tally(language: CustomLanguage, words: seq<string>): (r: Complexity)
    ensures r.knownWords + |r.unknownWords| == |words|
    ensures forall i :: 0 <= i < |r.unknownWords| ==>
      r.unknownWords[i] in words && !Known(language.vocabulary, r.unknownWords[i])
    ensures forall i :: 0 <= i < |words| && !Known(language.vocabulary, words[i]) ==> words[i] in r.unknownWords
    ensures Seqs.IsSubsequence(r.unknownWords, words)
    ensures r.knownWords == Seqs.Count(words, KnownIn(language))
    ensures r.grammarScore == GrammarScore(r.knownWords, |words|)
  {
    UnknownSplit(language, words);
    Complexity(Seqs.Count(words, KnownIn(language)), Seqs.Filter(words, Seqs.Not(KnownIn(language))),
               GrammarScore(Seqs.Count(words, KnownIn(language)), |words|))
  }

  /**
   * `analyzeComplexity`: the words split into known and unknown; the score
   * is the known share as a percentage, and 0/0 (NaN, here `None`) for a
   * text without words.
   */
  function AnalyzeComplexity(language: CustomLanguage, text: string): (r: Complexity)
    ensures r.knownWords + |r.unknownWords| == |TextWords(text)|
    ensures forall i :: 0 <= i < |r.unknownWords| ==>
      r.unknownWords[i] in TextWords(text) && !Known(language.vocabulary, r.unknownWords[i])
    ensures r.grammarScore.None? <==> TextWords(text) == []
    ensures r.grammarScore.Some? ==> 0.0 <= r.grammarScore.value <= 100.0
    ensures r.grammarScore == Some(100.0) <==> TextWords(text) != [] && r.unknownWords == []
    ensures r.knownWords == Seqs.Count(TextWords(text), KnownIn(language))
    ensures Seqs.IsSubsequence(r.unknownWords, TextWords(text))
    ensures forall i :: 0 <= i < |TextWords(text)| && !Known(language.vocabulary, TextWords(text)[i]) ==>
              TextWords(text)[i] in r.unknownWords
    ensures r.grammarScore == GrammarScore(r.knownWords, |TextWords(text)|)
  {
    Tally(language, TextWords(text))
  }

  // ------------------------------------------------------------ the example language

  /**
   * The captures of `(\w+)\s+li\s+(\w+)` at the start of `t`, with the
   * length of the match. Each run is taken whole: a shorter run would be
   * followed by a character of its own class, which the next part rejects.
   */
  function MatchLi(t: string): (r: Option<(nat, string, string)>)
    ensures r.Some? ==> 0 < r.value.0 <= |t|
  {
    var n1 := RunLength(t, IsWordChar);
    if n1 == 0 then None else AfterSubject(t[..n1], t[n1..])
  }

  /** The rest of a match once the subject word is read: spaces, then `li`. */
  function AfterSubject(subject: string, t1: string): (r: Option<(nat, string, string)>)
    ensures r.Some? ==> |subject| < r.value.0 <= |subject| + |t1|
  {
    var m1 := RunLength(t1, IsSpace);
    if m1 == 0 || !StartsWith(t1[m1..], "li") then None
    else AfterParticle(subject, |subject| + m1 + 2, t1[m1 + 2..])
  }

  /** The rest of a match once `li` is read: spaces, then the second word. */
  function AfterParticle(subject: string, used: nat, t2: string): (r: Option<(nat, string, string)>)
    ensures r.Some? ==> used < r.value.0 <= used + |t2|
  {
    var m2 := RunLength(t2, IsSpace);
    var t3 := t2[m2..];
    var n2 := RunLength(t3, IsWordChar);
    if m2 == 0 || n2 == 0 then None else Some((used + m2 + n2, subject, t3[..n2]))
  }

  /** A match of the example rule contains the particle `li`. */
  lemma MatchLiHasParticle(t: string)
    requires MatchLi(t).Some?
    ensures Contains(t, "li")
  {
    var n1 := RunLength(t, IsWordChar);
    var m1 := RunLength(t[n1..], IsSpace);
    assert t[n1 + m1..n1 + m1 + 2] == t[n1..][m1..][..2];
    assert OccursAt(t, "li", n1 + m1);
  }

  /**
   * The example rule: `t.replace(/(\w+)\s+li\s+(\w+)/g, '$1 is $2')`. A text
   * without the particle `li` passes through it unchanged.
   */
  function ReplaceLi(t: string): (r: string)
    decreases |t|
    ensures !Contains(t, "li") ==> r == t
  {
    if t == [] then []
    else match MatchLi(t)
      case Some((n, subject, complement)) =>
        MatchLiHasParticle(t);
        subject + " is " + complement + ReplaceLi(t[n..])
      case None =>
        assert !Contains(t, "li") ==> !Contains(t[1..], "li") by {
          forall j | 0 <= j <= |t[1..]| - 2 && OccursAt(t[1..], "li", j) ensures OccursAt(t, "li", j + 1) {
            assert t[1..][j..j + 2] == t[j + 1..j + 3];
          }
        }
        [t[0]] + ReplaceLi(t[1..])
  }

  /** A non-empty run of `\w` characters. */
  predicate IsWord(w: string) {
    w != [] && RunLength(w, IsWordChar) == |w|
  }

  /** The run a prefix of which is exactly `k` characters satisfying `p`. */
  lemma RunLengthIs(s: string, p: char -> bool, k: nat)
    requires k <= |s| && (forall i :: 0 <= i < k ==> p(s[i])) && (k < |s| ==> !p(s[k]))
    ensures RunLength(s, p) == k
  {
  }

  lemma SubjectRead(x: string, tail: string)
    requires IsWord(x) && tail != [] && !IsWordChar(tail[0])
    ensures MatchLi(x + tail) == AfterSubject(x, tail)
  {
    var t := x + tail;
    RunLengthIs(t, IsWordChar, |x|);
    assert t[..|x|] == x && t[|x|..] == tail;
  }

  lemma ParticleRead(x: string, u: string)
    ensures AfterSubject(x, " li " + u) == AfterParticle(x, |x| + 3, " " + u)
  {
    var t1 := " li " + u;
    RunLengthIs(t1, IsSpace, 1);
    assert t1[1..][..2] == "li";
    assert t1[3..] == " " + u;
  }

  lemma ComplementRead(x: string, used: nat, y: string, rest: string, v: string)
    requires IsWord(y)
    requires rest == [] || !IsWordChar(rest[0])
    requires v == " " + (y + rest)
    ensures AfterParticle(x, used, v) == Some((used + 1 + |y|, x, y))
  {
    RunLengthIs(v, IsSpace, 1);
    var t3 := v[1..];
    assert t3 == y + rest;
    RunLengthIs(t3, IsWordChar, |y|);
    assert t3[..|y|] == y;
  }

  /** Regrouping the pieces of "X li Y" and what follows it. */
  lemma Regroup(x: string, y: string, rest: string)
    ensures x + " li " + y + rest == x + (" li " + (y + rest))
  {
  }

  /** On "X li Y" followed by a non-word character or nothing, the rule captures X and Y. */
  lemma MatchLiReads(x: string, y: string, rest: string)
    requires IsWord(x) && IsWord(y)
    requires rest == [] || !IsWordChar(rest[0])
    ensures MatchLi(x + " li " + y + rest) == Some((|x| + 4 + |y|, x, y))
  {
    var tail := " li " + (y + rest);
    Regroup(x, y, rest);
    SubjectRead(x, tail);
    ParticleRead(x, y + rest);
    ComplementRead(x, |x| + 3, y, rest, " " + (y + rest));
    assert MatchLi(x + tail) == Some((|x| + 4 + |y|, x, y));
  }

  /** The example rule reads "X li Y" (X is Y, in the constructed language) as "X is Y". */
  lemma ReplaceLiSentence(x: string, y: string)
    requires IsWord(x) && IsWord(y)
    ensures ReplaceLi(x + " li " + y) == x + " is " + y
  {
    MatchLiReads(x, y, []);
    assert x + " li " + y + [] == x + " li " + y;
    assert (x + " li " + y)[|x| + 4 + |y|..] == [];
  }

  /** `EXAMPLE_LANGUAGE`: thirteen words and the one rule for the particle `li`. */
  const ExampleLanguage := CustomLanguage(
    "SimpleLang",
    [Rule(ReplaceLi, Grammar)],
    [
      ("mi", "I"),
      ("yu", "you"),
      ("li", "he/she"),
      ("kama", "come"),
      ("tawa", "go"),
      ("pona", "good"),
      ("ike", "bad"),
      ("tomo", "house"),
      ("jan", "person"),
      ("sona", "know"),
      ("wile", "want"),
      ("moku", "eat"),
      ("telo", "water")
    ],
    GrammarInfo(SVO, ["la"], ["mi", "yu", "li"]))

  /** The example language has only non-empty custom words, and its rules are just the `li` rule. */
  lemma ExampleLanguageShape(text: string)
    ensures Keyed(ExampleLanguage.vocabulary)
    ensures ApplyRules(text, ExampleLanguage.rules) == ReplaceLi(text)
  {
    assert ExampleLanguage.rules[1..] == [];
  }
}
