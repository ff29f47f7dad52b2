/**
 * The JavaScript string primitives the portal relies on, written out with
 * their exact edge cases: `\s`, `\w` and `\b` of regular expressions, `trim`,
 * `split` by a string or by a `+`-repeated character class, `match(/\w+/g)`,
 * `slice`/`substring` index clamping, `includes`, `indexOf`, `replace` and
 * `toLowerCase` (ASCII letters only).
 */
module Strings {
  import opened Wrappers
  import Seqs

  // ---------------------------------------------------------------- characters

  /** JavaScript's `\s`; also the characters `String.prototype.trim` removes. */
  predicate IsSpace(c: char) {
    c == ' ' || c == '\t' || c == '\n' || c == '\r' || c == '\U{000B}' || c == '\U{000C}'
    || c == '\U{00A0}' || c == '\U{1680}' || ('\U{2000}' <= c <= '\U{200A}')
    || c == '\U{2028}' || c == '\U{2029}' || c == '\U{202F}' || c == '\U{205F}'
    || c == '\U{3000}' || c == '\U{FEFF}'
  }

  /** JavaScript's `\w`: `[A-Za-z0-9_]`. */
  predicate IsWordChar(c: char) {
    ('a' <= c <= 'z') || ('A' <= c <= 'Z') || ('0' <= c <= '9') || c == '_'
  }

  predicate IsDigit(c: char) { '0' <= c <= '9' }

  /** One of the sentence terminators of the class `[.!?]`. */
  predicate IsSentenceEnd(c: char) { c == '.' || c == '!' || c == '?' }

  function Lower(c: char): (r: char)
    ensures !('A' <= r <= 'Z')
  {
    if 'A' <= c <= 'Z' then (c as int + 32) as char else c
  }

  /** `toLowerCase`, for the ASCII letters. */
  function LowerStr(s: string): (r: string)
    ensures |r| == |s| && forall i :: 0 <= i < |s| ==> r[i] == Lower(s[i])
  {
    seq(|s|, i requires 0 <= i < |s| => Lower(s[i]))
  }

  predicate AllSpace(s: string) { forall i :: 0 <= i < |s| ==> IsSpace(s[i]) }

  // ------------------------------------------------------------ substrings

  predicate OccursAt(s: string, t: string, i: int) {
    0 <= i && i + |t| <= |s| && s[i..i + |t|] == t
  }

  /** `s.includes(t)`. */
  predicate Contains(s: string, t: string) {
    exists i | 0 <= i <= |s| - |t| :: OccursAt(s, t, i)
  }

  predicate StartsWith(s: string, p: string) {
    |p| <= |s| && s[..|p|] == p
  }

  predicate EndsWith(s: string, p: string) {
    |p| <= |s| && s[|s| - |p|..] == p
  }

  /** The leftmost occurrence of `t` in `s` at or after `from`. */
  function IndexOfFrom(s: string, t: string, from: nat): (r: Option<nat>)
    decreases |s| - from
    ensures r.Some? ==> from <= r.value && OccursAt(s, t, r.value)
    ensures r.Some? ==> forall j :: from <= j < r.value ==> !OccursAt(s, t, j)
    ensures r.None? ==> forall j :: from <= j ==> !OccursAt(s, t, j)
  {
    if from + |t| > |s| then None
    else if s[from..from + |t|] == t then Some(from)
    else IndexOfFrom(s, t, from + 1)
  }

  /** `s.indexOf(t)`, with None for -1. */
  function IndexOf(s: string, t: string): (r: Option<nat>)
    ensures r.Some? ==> OccursAt(s, t, r.value) && forall j :: 0 <= j < r.value ==> !OccursAt(s, t, j)
    ensures r.None? <==> !Contains(s, t)
  {
    IndexOfFrom(s, t, 0)
  }

  // ------------------------------------------------------------ scanning

  /** Index of the first character satisfying `p`, or |s|. */
  function FirstWhere(s: string, p: char -> bool): (k: nat)
    ensures k <= |s|
    ensures forall i :: 0 <= i < k ==> !p(s[i])
    ensures k < |s| ==> p(s[k])
  {
    if s == [] then 0 else if p(s[0]) then 0 else 1 + FirstWhere(s[1..], p)
  }

  /** Length of the longest prefix of `s` whose characters all satisfy `p`. */
  function RunLength(s: string, p: char -> bool): (k: nat)
    ensures k <= |s|
    ensures forall i :: 0 <= i < k ==> p(s[i])
    ensures k < |s| ==> !p(s[k])
  {
    if s == [] then 0 else if !p(s[0]) then 0 else 1 + RunLength(s[1..], p)
  }

  /** Index of the last character satisfying `p`, or None. */
  function LastWhere(s: string, p: char -> bool): (r: Option<nat>)
    ensures r.Some? ==> r.value < |s| && p(s[r.value]) && forall i :: r.value < i < |s| ==> !p(s[i])
    ensures r.None? ==> forall i :: 0 <= i < |s| ==> !p(s[i])
  {
    if s == [] then None
    else if p(s[|s| - 1]) then Some(|s| - 1)
    else LastWhere(s[..|s| - 1], p)
  }

  // ------------------------------------------------------------ trimming

  function LeadingSpaces(s: string): (k: nat)
    ensures k <= |s| && (k < |s| ==> !IsSpace(s[k]))
    ensures forall i :: 0 <= i < k ==> IsSpace(s[i])
  {
    RunLength(s, IsSpace)
  }

  function TrailingSpaces(s: string): (k: nat)
    ensures k <= |s| && (k < |s| ==> !IsSpace(s[|s| - 1 - k]))
    ensures forall i :: |s| - k <= i < |s| ==> IsSpace(s[i])
  {
    if s == [] then 0
    else if IsSpace(s[|s| - 1]) then 1 + TrailingSpaces(s[..|s| - 1])
    else 0
  }

  /** `s.trimStart()`. */
  function TrimStart(s: string): (r: string)
    ensures |r| <= |s| && r == s[|s| - |r|..]
    ensures r != [] ==> !IsSpace(r[0])
    ensures AllSpace(s[..|s| - |r|])
  {
    s[LeadingSpaces(s)..]
  }

  /** `s.trim()`: the characters between the leading and trailing whitespace. */
  function Trim(s: string): (r: string)
    ensures |r| <= |s| && LeadingSpaces(s) + |r| <= |s|
    ensures r == s[LeadingSpaces(s)..LeadingSpaces(s) + |r|]
    ensures r != [] ==> !IsSpace(r[0]) && !IsSpace(r[|r| - 1])
    ensures r == [] <==> AllSpace(s)
  {
    var a := LeadingSpaces(s);
    var t := s[a..];
    var r := t[..|t| - TrailingSpaces(t)];
    assert r == s[a..a + |r|];
    assert r == [] ==> a == |s| by {
      if |t| > 0 { assert !IsSpace(t[0]); }
    }
    r
  }

  // ------------------------------------------------------------ splitting

  /** `s.split(re)` where `re` is `C+` for a character class C that `isSep` decides. */
  function SplitRuns(s: string, isSep: char -> bool): (r: seq<string>)
    decreases |s|
    ensures |r| >= 1
    ensures forall i :: 0 <= i < |r| ==> |r[i]| <= |s|
  {
    var i := FirstWhere(s, isSep);
    if i == |s| then [s]
    else
      var j := i + RunLength(s[i..], isSep);
      [s[..i]] + SplitRuns(s[j..], isSep)
  }

  /** `s.split(/\s+/)`. */
  function SplitWhitespace(s: string): (r: seq<string>)
    ensures |r| >= 1
  {
    SplitRuns(s, IsSpace)
  }

  /** `s.split(/[.!?]+/)`. */
  function SplitSentences(s: string): (r: seq<string>)
    ensures |r| >= 1
  {
    SplitRuns(s, IsSentenceEnd)
  }

  /** `s.split(sep)` for a non-empty separator string. */
  function Split(s: string, sep: string): (r: seq<string>)
    requires |sep| > 0
    decreases |s|
    ensures |r| >= 1
  {
    match IndexOf(s, sep)
    case None => [s]
    case Some(i) => [s[..i]] + Split(s[i + |sep|..], sep)
  }

  /** `parts.join(sep)`. */
  function Join(parts: seq<string>, sep: string): string
  {
    if parts == [] then ""
    else if |parts| == 1 then parts[0]
    else parts[0] + sep + Join(parts[1..], sep)
  }

  /** Three parts joined: each separator sits between two of them. */
  lemma JoinThree(a: string, b: string, c: string, sep: string)
    ensures Join([a, b, c], sep) == a + sep + b + sep + c
  {
    assert Join([c], sep) == c;
    assert [b, c][1..] == [c];
    assert Join([b, c], sep) == b + sep + c;
    assert [a, b, c][1..] == [b, c];
  }

  /** Splitting by a string and joining with it gives the string back. */
  lemma {:induction false} JoinSplit(s: string, sep: string)
    requires |sep| > 0
    ensures Join(Split(s, sep), sep) == s
    decreases |s|
  {
    match IndexOf(s, sep)
    case None =>
    case Some(i) =>
      var rest := s[i + |sep|..];
      var tail := Split(rest, sep);
      JoinSplit(rest, sep);
      var parts := [s[..i]] + tail;
      assert Split(s, sep) == parts;
      assert parts[0] == s[..i] && parts[1..] == tail && |parts| > 1;
      assert Join(parts, sep) == s[..i] + sep + Join(tail, sep);
      assert s == s[..i] + sep + rest;
  }

  /** A piece between two others occurs in the whole. */
  lemma ContainsMiddle(a: string, b: string, c: string)
    ensures Contains(a + b + c, b)
  {
    assert OccursAt(a + b + c, b, |a|) by {
      assert (a + b + c)[|a|..|a| + |b|] == b;
    }
  }

  /** What occurs in a part occurs in the whole. */
  lemma ContainsWithin(s: string, part: string, t: string)
    requires Contains(s, part) && Contains(part, t)
    ensures Contains(s, t)
  {
    var i :| 0 <= i <= |s| - |part| && OccursAt(s, part, i);
    var j :| 0 <= j <= |part| - |t| && OccursAt(part, t, j);
    forall k | 0 <= k < |t| ensures s[i + j + k] == t[k] {
      assert s[i..i + |part|][j + k] == part[j + k];
      assert part[j..j + |t|][k] == t[k];
    }
    assert s[i + j..i + j + |t|] == t;
    assert OccursAt(s, t, i + j);
  }

  /** `parts.join('')`. */
  function Concat(parts: seq<string>): string {
    if parts == [] then "" else parts[0] + Concat(parts[1..])
  }

  /** Four parts concatenated. */
  lemma ConcatFour(a: string, b: string, c: string, d: string)
    ensures Concat([a, b, c, d]) == a + b + c + d
  {
    assert [a, b, c, d][1..] == [b, c, d] && [b, c, d][1..] == [c, d] && [c, d][1..] == [d] && [d][1..] == [];
    assert Concat([d]) == d;
    assert Concat([c, d]) == c + d;
    assert Concat([b, c, d]) == b + (c + d);
  }

  /** Every piece occurs in the concatenation. */
  lemma {:induction false} ConcatContains(parts: seq<string>, k: nat)
    requires k < |parts|
    ensures Contains(Concat(parts), parts[k])
  {
    if k == 0 {
      ContainsMiddle("", parts[0], Concat(parts[1..]));
      assert "" + parts[0] + Concat(parts[1..]) == Concat(parts);
    } else {
      ConcatContains(parts[1..], k - 1);
      ContainsMiddle(parts[0], Concat(parts[1..]), "");
      assert parts[0] + Concat(parts[1..]) + "" == Concat(parts);
      ContainsWithin(Concat(parts), Concat(parts[1..]), parts[k]);
    }
  }

  lemma CharAt(s: string, c: char, j: int)
    ensures OccursAt(s, [c], j) <==> 0 <= j < |s| && s[j] == c
  {
    if 0 <= j < |s| {
      assert s[j..j + 1] == [s[j]];
    }
  }

  /** The first piece of `s.split(c)` holds no `c`. */
  lemma FirstPieceWithout(s: string, c: char)
    ensures c !in Split(s, [c])[0]
  {
    match IndexOf(s, [c])
    case None =>
      forall j | 0 <= j < |s| ensures s[j] != c {
        CharAt(s, c, j);
        assert !OccursAt(s, [c], j);
      }
    case Some(i) =>
      forall j | 0 <= j < i ensures s[..i][j] != c {
        CharAt(s, c, j);
      }
  }

  /** Every character outside the separator class lands in some piece of `SplitRuns`. */
  lemma {:induction false} SplitRunsCovers(s: string, isSep: char -> bool, i: nat)
    requires i < |s| && !isSep(s[i])
    ensures exists k :: 0 <= k < |SplitRuns(s, isSep)| && s[i] in SplitRuns(s, isSep)[k]
    decreases |s|
  {
    var f := FirstWhere(s, isSep);
    if f == |s| {
      assert SplitRuns(s, isSep)[0] == s;
    } else if i < f {
      assert s[..f][i] == s[i];
      assert SplitRuns(s, isSep)[0] == s[..f];
    } else {
      var j := f + RunLength(s[f..], isSep);
      var rest := SplitRuns(s[j..], isSep);
      assert SplitRuns(s, isSep) == [s[..f]] + rest;
      assert !isSep(s[f..][i - f]);
      assert i >= j;
      SplitRunsCovers(s[j..], isSep, i - j);
      assert s[j..][i - j] == s[i];
      var k :| 0 <= k < |rest| && s[i] in rest[k];
      assert SplitRuns(s, isSep)[k + 1] == rest[k];
    }
  }

  /** Splitting at a character that does not occur gives the whole string. */
  lemma NoPiecesWithout(s: string, c: char)
    requires forall j :: 0 <= j < |s| ==> s[j] != c
    ensures Split(s, [c]) == [s]
  {
    forall j ensures !OccursAt(s, [c], j) {
      CharAt(s, c, j);
    }
  }

  /** The last piece of `s.split(c)` is what follows the last `c`. */
  lemma {:induction false} LastPiece(s: string, c: char, k: nat)
    requires k < |s| && s[k] == c
    requires forall j :: k < j < |s| ==> s[j] != c
    ensures var parts := Split(s, [c]); parts[|parts| - 1] == s[k + 1..]
    decreases |s|
  {
    CharAt(s, c, k);
    var i := IndexOf(s, [c]).value;
    CharAt(s, c, i);
    var rest := s[i + 1..];
    assert Split(s, [c]) == [s[..i]] + Split(rest, [c]);
    if i == k {
      NoPiecesWithout(rest, c);
    } else {
      assert rest[k - i - 1] == s[k];
      LastPiece(rest, c, k - i - 1);
      assert rest[k - i..] == s[k + 1..];
    }
  }

  /** The maximal runs of `isWord` characters of `s`, in order: `s.match(/[C]+/g) || []` for the class C. */
  function Runs(isWord: char -> bool, s: string): (r: seq<string>)
    decreases |s|
    ensures forall k :: 0 <= k < |r| ==> |r[k]| > 0 && forall j :: 0 <= j < |r[k]| ==> isWord(r[k][j])
  {
    var i := FirstWhere(s, isWord);
    if i == |s| then []
    else
      var n := RunLength(s[i..], isWord);
      [s[i..i + n]] + Runs(isWord, s[i + n..])
  }

  /** A text with no character of the class has no run, and conversely. */
  lemma {:induction false} RunsEmpty(isWord: char -> bool, s: string)
    ensures Runs(isWord, s) == [] <==> forall i :: 0 <= i < |s| ==> !isWord(s[i])
  {
  }

  /** A non-empty string made only of characters of the class is its own single run. */
  lemma RunsOfOneWord(isWord: char -> bool, w: string)
    requires w != [] && forall i :: 0 <= i < |w| ==> isWord(w[i])
    ensures Runs(isWord, w) == [w]
  {
    assert FirstWhere(w, isWord) == 0;
    assert w[0..] == w;
    assert RunLength(w, isWord) == |w|;
    calc {
      Runs(isWord, w);
      [w[0..|w|]] + Runs(isWord, w[|w|..]);
      { assert w[0..|w|] == w && w[|w|..] == []; }
      [w] + Runs(isWord, []);
    }
  }

  /** The `\w+` tokens of `s`: `s.match(/\b\w+\b/g) || []`. */
  function Words(s: string): (r: seq<string>)
    ensures forall k :: 0 <= k < |r| ==> |r[k]| > 0 && forall j :: 0 <= j < |r[k]| ==> IsWordChar(r[k][j])
  {
    Runs(IsWordChar, s)
  }

  /** A text with no word character has no `\w+` token, and conversely. */
  lemma WordsEmpty(s: string)
    ensures Words(s) == [] <==> forall i :: 0 <= i < |s| ==> !IsWordChar(s[i])
  {
    RunsEmpty(IsWordChar, s);
  }

  // ------------------------------------------------------------ slicing

  /** How `slice` reads an index: negative counts from the end, then clamp to [0, len]. */
  function SliceIndex(i: int, len: nat): (k: nat)
    ensures k <= len
  {
    if i < 0 then (if len + i < 0 then 0 else len + i) else if i > len then len else i
  }

  /** `s.slice(start, end)` on a string or an array. */
  function Slice<T>(s: seq<T>, start: int, end: int): (r: seq<T>)
    ensures |r| <= |s|
    ensures 0 <= start <= end <= |s| ==> r == s[start..end]
  {
    var a := SliceIndex(start, |s|);
    var b := SliceIndex(end, |s|);
    if a < b then s[a..b] else []
  }

  /** `s.slice(0, n)` for a count n >= 0: at most the first n entries. */
  function Take<T>(s: seq<T>, n: nat): (r: seq<T>)
    ensures |r| <= n && |r| <= |s| && r == s[..|r|]
    ensures |s| <= n ==> r == s
  {
    if n < |s| then s[..n] else s
  }

  /** `s.substring(start)`: clamps to [0, len]. */
  function Substring(s: string, start: int): (r: string)
    ensures 0 <= start <= |s| ==> r == s[start..]
  {
    if start <= 0 then s else if start >= |s| then [] else s[start..]
  }

  // ------------------------------------------------------------ numbers

  function DigitChar(d: nat): char
    requires d < 10
  {
    ('0' as int + d) as char
  }

  /** The decimal text JavaScript writes for a non-negative integer. */
  function NatToString(n: nat): (r: string)
    ensures |r| >= 1 && forall i :: 0 <= i < |r| ==> IsDigit(r[i])
  {
    if n < 10 then [DigitChar(n)] else NatToString(n / 10) + [DigitChar(n % 10)]
  }

  function IntToString(n: int): string
  {
    if n < 0 then "-" + NatToString(-n) else NatToString(n)
  }

  // ------------------------------------------------------------ replacing

  /** `s.replace(pat, rep)` with a string pattern: only the first occurrence. */
  function ReplaceFirst(s: string, pat: string, rep: string): (r: string)
    ensures !Contains(s, pat) ==> r == s
  {
    match IndexOf(s, pat)
    case None => s
    case Some(i) => s[..i] + rep + s[i + |pat|..]
  }

  /** Case-insensitive equality of two strings (ASCII letters). */
  predicate EqualsIgnoreCase(a: string, b: string) {
    LowerStr(a) == LowerStr(b)
  }

  /** `s.replace(new RegExp(pat, 'gi'), rep)` for a pattern of literal characters. */
  function ReplaceAllIgnoreCase(s: string, pat: string, rep: string): string
    requires |pat| > 0
    decreases |s|
  {
    if |s| < |pat| then s
    else if EqualsIgnoreCase(s[..|pat|], pat) then rep + ReplaceAllIgnoreCase(s[|pat|..], pat, rep)
    else [s[0]] + ReplaceAllIgnoreCase(s[1..], pat, rep)
  }

  /**
   * `\bw\b` (flag `i`) matches at the start of `t`: a boundary before `t`,
   * `w` itself up to ASCII case, and a boundary after it.
   */
  predicate FitsAt(isWord: char -> bool, t: string, prevIsWord: bool, w: string)
    requires |w| > 0
  {
    && prevIsWord != (|t| > 0 && isWord(t[0]))
    && |w| <= |t| && EqualsIgnoreCase(t[..|w|], w)
    && isWord(t[|w| - 1]) != (|w| < |t| && isWord(t[|w|]))
  }

  /**
   * The first alternative of `\b(w1|w2|...)\b` (flag `i`) that matches at the
   * start of `t`, where `isWord` is the character class the boundaries
   * separate and `prevIsWord` says whether the character before `t` in the
   * searched string is in it.
   */
  function MatchWordAt(isWord: char -> bool, t: string, prevIsWord: bool, ws: seq<string>): (r: Option<nat>)
    requires forall k :: 0 <= k < |ws| ==> |ws[k]| > 0
    ensures r.Some? ==> r.value < |ws| && |ws[r.value]| <= |t|
  {
    if ws == [] then None
    else
      if FitsAt(isWord, t, prevIsWord, ws[0]) then Some(0)
      else match MatchWordAt(isWord, t, prevIsWord, ws[1..])
        case None => None
        case Some(k) => Some(k + 1)
  }

  function ReplaceWordsFrom(isWord: char -> bool, t: string, prevIsWord: bool, ws: seq<string>, rep: string): string
    requires forall k :: 0 <= k < |ws| ==> |ws[k]| > 0
    decreases |t|
  {
    if t == [] then []
    else match MatchWordAt(isWord, t, prevIsWord, ws)
      case Some(k) =>
        var n := |ws[k]|;
        rep + ReplaceWordsFrom(isWord, t[n..], isWord(t[n - 1]), ws, rep)
      case None => [t[0]] + ReplaceWordsFrom(isWord, t[1..], isWord(t[0]), ws, rep)
  }

  /** Global whole-word replacement, with boundaries taken between `isWord` and other characters. */
  function ReplaceWordsBy(isWord: char -> bool, s: string, ws: seq<string>, rep: string): string
    requires forall k :: 0 <= k < |ws| ==> |ws[k]| > 0
  {
    ReplaceWordsFrom(isWord, s, false, ws, rep)
  }

  /** Some alternative matches as a whole word somewhere in `s`. */
  predicate HasWholeWordBy(isWord: char -> bool, s: string, ws: seq<string>)
    requires forall k :: 0 <= k < |ws| ==> |ws[k]| > 0
  {
    exists i | 0 <= i < |s| :: MatchWordAt(isWord, s[i..], i > 0 && isWord(s[i - 1]), ws).Some?
  }

  lemma {:induction false} ReplaceWordsFromUnchanged(isWord: char -> bool, s: string, i: nat, ws: seq<string>, rep: string)
    requires forall k :: 0 <= k < |ws| ==> |ws[k]| > 0
    requires i <= |s| && !HasWholeWordBy(isWord, s, ws)
    ensures ReplaceWordsFrom(isWord, s[i..], i > 0 && isWord(s[i - 1]), ws, rep) == s[i..]
    decreases |s| - i
  {
    if i < |s| {
      assert MatchWordAt(isWord, s[i..], i > 0 && isWord(s[i - 1]), ws).None?;
      ReplaceWordsFromUnchanged(isWord, s, i + 1, ws, rep);
      assert s[i..][1..] == s[i + 1..];
      assert s[i..] == [s[i]] + s[i + 1..];
    }
  }

  /** A text with no whole-word occurrence of the listed words is left unchanged. */
  lemma ReplaceWordsByUnchanged(isWord: char -> bool, s: string, ws: seq<string>, rep: string)
    requires forall k :: 0 <= k < |ws| ==> |ws[k]| > 0
    requires !HasWholeWordBy(isWord, s, ws)
    ensures ReplaceWordsBy(isWord, s, ws, rep) == s
  {
    ReplaceWordsFromUnchanged(isWord, s, 0, ws, rep);
    assert s[0..] == s;
  }

  /** Some alternative matches at the start of `t` exactly when one of them fits there. */
  lemma {:induction false} MatchWordAtFits(isWord: char -> bool, t: string, prevIsWord: bool, ws: seq<string>)
    requires forall k :: 0 <= k < |ws| ==> |ws[k]| > 0
    ensures MatchWordAt(isWord, t, prevIsWord, ws).Some?
            <==> exists k :: 0 <= k < |ws| && FitsAt(isWord, t, prevIsWord, ws[k])
    decreases |ws|
  {
    if ws != [] {
      MatchWordAtFits(isWord, t, prevIsWord, ws[1..]);
      assert forall k :: 0 <= k < |ws[1..]| ==> ws[1..][k] == ws[k + 1];
      if exists k :: 0 <= k < |ws| && FitsAt(isWord, t, prevIsWord, ws[k]) {
        var k :| 0 <= k < |ws| && FitsAt(isWord, t, prevIsWord, ws[k]);
        if k > 0 {
          assert FitsAt(isWord, t, prevIsWord, ws[1..][k - 1]);
        }
      }
    }
  }

  /** A text with no character of the class holds no boundary, so no word matches anywhere in it. */
  lemma NoWordCharNoWholeWord(isWord: char -> bool, s: string, ws: seq<string>)
    requires forall k :: 0 <= k < |ws| ==> |ws[k]| > 0
    requires forall i :: 0 <= i < |s| ==> !isWord(s[i])
    ensures !HasWholeWordBy(isWord, s, ws)
  {
    forall i | 0 <= i < |s|
      ensures MatchWordAt(isWord, s[i..], i > 0 && isWord(s[i - 1]), ws).None?
    {
      MatchWordAtFits(isWord, s[i..], i > 0 && isWord(s[i - 1]), ws);
    }
  }

  /**
   * In a text made only of characters of the class, a word matches exactly
   * when it is the whole text up to ASCII case: inside the text there is no
   * boundary.
   */
  lemma OneWordWholeWord(isWord: char -> bool, w: string, ws: seq<string>)
    requires forall k :: 0 <= k < |ws| ==> |ws[k]| > 0
    requires forall i :: 0 <= i < |w| ==> isWord(w[i])
    ensures HasWholeWordBy(isWord, w, ws) <==> exists k :: 0 <= k < |ws| && |ws[k]| == |w| && EqualsIgnoreCase(w, ws[k])
  {
    forall i | 0 < i < |w|
      ensures MatchWordAt(isWord, w[i..], isWord(w[i - 1]), ws).None?
    {
      MatchWordAtFits(isWord, w[i..], isWord(w[i - 1]), ws);
    }
    if w != [] {
      assert w[0..] == w;
      MatchWordAtFits(isWord, w, false, ws);
      forall k | 0 <= k < |ws|
        ensures FitsAt(isWord, w, false, ws[k]) <==> |ws[k]| == |w| && EqualsIgnoreCase(w, ws[k])
      {
        if |ws[k]| == |w| {
          assert w[..|ws[k]|] == w;
        }
      }
    }
  }

  /** A text made only of characters of the class, equal to the word up to case, is replaced as a whole. */
  lemma ReplaceWholeText(isWord: char -> bool, w: string, word: string, rep: string)
    requires |word| == |w| > 0 && EqualsIgnoreCase(w, word)
    requires forall i :: 0 <= i < |w| ==> isWord(w[i])
    ensures ReplaceWordsBy(isWord, w, [word], rep) == rep
  {
    assert w[..|word|] == w;
    assert FitsAt(isWord, w, false, word);
    assert MatchWordAt(isWord, w, false, [word]) == Some(0);
    assert w[|word|..] == [];
    assert ReplaceWordsFrom(isWord, [], isWord(w[|word| - 1]), [word], rep) == [];
  }

  /** The alternative `MatchWordAt` picks does fit at the start of `t`. */
  lemma {:induction false} MatchWordAtFound(isWord: char -> bool, t: string, prevIsWord: bool, ws: seq<string>)
    requires forall k :: 0 <= k < |ws| ==> |ws[k]| > 0
    ensures var r := MatchWordAt(isWord, t, prevIsWord, ws);
            r.Some? ==> FitsAt(isWord, t, prevIsWord, ws[r.value])
    decreases |ws|
  {
    if ws != [] && !FitsAt(isWord, t, prevIsWord, ws[0]) {
      MatchWordAtFound(isWord, t, prevIsWord, ws[1..]);
    }
  }

  /** Some alternative equals `w` up to ASCII case. */
  predicate IsListedWord(w: string, ws: seq<string>) {
    exists k :: 0 <= k < |ws| && EqualsIgnoreCase(w, ws[k])
  }

  /** A text made only of characters of the class that is one of the alternatives up to case is replaced as a whole. */
  lemma ReplaceListedWordBy(isWord: char -> bool, w: string, ws: seq<string>, rep: string)
    requires forall k :: 0 <= k < |ws| ==> |ws[k]| > 0
    requires forall i :: 0 <= i < |w| ==> isWord(w[i])
    requires IsListedWord(w, ws)
    ensures ReplaceWordsBy(isWord, w, ws, rep) == rep
  {
    var k :| 0 <= k < |ws| && EqualsIgnoreCase(w, ws[k]);
    assert |LowerStr(w)| == |LowerStr(ws[k])|;
    assert w[..|ws[k]|] == w;
    assert FitsAt(isWord, w, false, ws[k]);
    MatchWordAtFits(isWord, w, false, ws);
    MatchWordAtFound(isWord, w, false, ws);
    var j := MatchWordAt(isWord, w, false, ws).value;
    var n := |ws[j]|;
    assert n == |w| by {
      assert isWord(w[n - 1]);
    }
    assert ReplaceWordsFrom(isWord, w, false, ws, rep) == rep + ReplaceWordsFrom(isWord, w[n..], isWord(w[n - 1]), ws, rep);
    assert w[n..] == [];
  }

  /**
   * A text made only of characters of the class is replaced as a whole
   * when it is one of the alternatives up to case, and kept otherwise.
   */
  lemma ReplaceOneWordBy(isWord: char -> bool, w: string, ws: seq<string>, rep: string)
    requires forall k :: 0 <= k < |ws| ==> |ws[k]| > 0
    requires forall i :: 0 <= i < |w| ==> isWord(w[i])
    ensures ReplaceWordsBy(isWord, w, ws, rep) == if IsListedWord(w, ws) then rep else w
  {
    if IsListedWord(w, ws) {
      ReplaceListedWordBy(isWord, w, ws, rep);
    } else {
      OneWordWholeWord(isWord, w, ws);
      ReplaceWordsByUnchanged(isWord, w, ws, rep);
    }
  }

  // ------------------------------------------------------------ words in context

  /** Membership in the class does not depend on ASCII case (true of `\w`). */
  predicate CaseBlind(isWord: char -> bool) {
    forall c {:trigger Lower(c)} :: isWord(Lower(c)) == isWord(c)
  }

  /** Every alternative is a non-empty run of characters of the class. */
  predicate WordsOf(isWord: char -> bool, ws: seq<string>) {
    forall k :: 0 <= k < |ws| ==> |ws[k]| > 0 && forall j :: 0 <= j < |ws[k]| ==> isWord(ws[k][j])
  }

  /** `s` is empty or ends outside the class. */
  predicate EndsOutside(isWord: char -> bool, s: string) {
    s == [] || !isWord(s[|s| - 1])
  }

  /** `s` is empty or starts outside the class. */
  predicate StartsOutside(isWord: char -> bool, s: string) {
    s == [] || !isWord(s[0])
  }

  /** The cut between `a` and `b` does not fall between two characters of the class. */
  predicate AtBoundary(isWord: char -> bool, a: string, b: string) {
    EndsOutside(isWord, a) || StartsOutside(isWord, b)
  }

  lemma WordCharCaseBlind()
    ensures CaseBlind(IsWordChar)
  {
  }

  /** What matches a word of the class up to case is itself made of characters of the class. */
  lemma MatchedInClass(isWord: char -> bool, s: string, w: string)
    requires CaseBlind(isWord)
    requires |s| == |w| && EqualsIgnoreCase(s, w)
    requires forall j :: 0 <= j < |w| ==> isWord(w[j])
    ensures forall j :: 0 <= j < |s| ==> isWord(s[j])
  {
    forall j | 0 <= j < |s| ensures isWord(s[j]) {
      assert LowerStr(s)[j] == LowerStr(w)[j];
      assert Lower(s[j]) == Lower(w[j]);
    }
  }

  /** A word of the class fits at the start of `a + b` exactly when it fits at the start of `a`. */
  lemma FitsAcross(isWord: char -> bool, a: string, b: string, prev: bool, w: string)
    requires CaseBlind(isWord) && AtBoundary(isWord, a, b)
    requires |w| > 0 && forall j :: 0 <= j < |w| ==> isWord(w[j])
    requires a != []
    ensures FitsAt(isWord, a + b, prev, w) <==> FitsAt(isWord, a, prev, w)
  {
    var t := a + b;
    if b == [] {
      assert t == a;
    } else if |w| <= |t| && EqualsIgnoreCase(t[..|w|], w) {
      MatchedInClass(isWord, t[..|w|], w);
      assert forall m :: 0 <= m < |w| ==> isWord(t[m]) by {
        forall m | 0 <= m < |w| ensures isWord(t[m]) {
          assert t[..|w|][m] == t[m];
        }
      }
      assert t[|a| - 1] == a[|a| - 1] && t[|a|] == b[0];
      assert t[..|w|] == a[..|w|];
      if |w| < |a| {
        assert t[|w|] == a[|w|];
      }
    } else if |w| <= |a| {
      assert t[..|w|] == a[..|w|];
    }
  }

  lemma {:induction false} MatchAcross(isWord: char -> bool, a: string, b: string, prev: bool, ws: seq<string>)
    requires CaseBlind(isWord) && AtBoundary(isWord, a, b) && WordsOf(isWord, ws)
    requires a != []
    ensures MatchWordAt(isWord, a + b, prev, ws) == MatchWordAt(isWord, a, prev, ws)
    decreases |ws|
  {
    if ws != [] {
      FitsAcross(isWord, a, b, prev, ws[0]);
      assert forall k :: 0 <= k < |ws[1..]| ==> ws[1..][k] == ws[k + 1];
      MatchAcross(isWord, a, b, prev, ws[1..]);
    }
  }

  /** A word of the class matched at the start of a text makes its first character one of the class. */
  lemma MatchOpensInClass(isWord: char -> bool, b: string, w: string)
    requires CaseBlind(isWord) && b != []
    requires |w| > 0 && forall j :: 0 <= j < |w| ==> isWord(w[j])
    ensures |w| <= |b| && EqualsIgnoreCase(b[..|w|], w) ==> isWord(b[0])
  {
    if |w| <= |b| && EqualsIgnoreCase(b[..|w|], w) {
      MatchedInClass(isWord, b[..|w|], w);
      assert b[..|w|][0] == b[0];
    }
  }

  /** Before a character outside the class no word can start, whatever came before it. */
  lemma StartIgnoresFlag(isWord: char -> bool, b: string, prev: bool, ws: seq<string>, rep: string)
    requires CaseBlind(isWord) && WordsOf(isWord, ws) && StartsOutside(isWord, b)
    ensures ReplaceWordsFrom(isWord, b, prev, ws, rep) == ReplaceWordsBy(isWord, b, ws, rep)
  {
    if b != [] {
      forall k | 0 <= k < |ws| ensures !FitsAt(isWord, b, prev, ws[k]) && !FitsAt(isWord, b, false, ws[k]) {
        MatchOpensInClass(isWord, b, ws[k]);
      }
      MatchWordAtFits(isWord, b, prev, ws);
      MatchWordAtFits(isWord, b, false, ws);
    }
  }

  lemma {:induction false} ScanAcross(isWord: char -> bool, a: string, b: string, prev: bool, ws: seq<string>, rep: string)
    requires CaseBlind(isWord) && AtBoundary(isWord, a, b) && WordsOf(isWord, ws)
    requires a == [] && prev ==> StartsOutside(isWord, b)
    ensures ReplaceWordsFrom(isWord, a + b, prev, ws, rep)
            == ReplaceWordsFrom(isWord, a, prev, ws, rep) + ReplaceWordsBy(isWord, b, ws, rep)
    decreases |a|
  {
    if a == [] {
      assert a + b == b;
      if prev {
        StartIgnoresFlag(isWord, b, prev, ws, rep);
      }
    } else {
      MatchAcross(isWord, a, b, prev, ws);
      var n := ScanLength(isWord, a, prev, ws);
      ScanAcross(isWord, a[n..], b, isWord(a[n - 1]), ws, rep);
      ScanUnfold(isWord, a, prev, ws, rep);
      ScanHeadAcross(isWord, a, b, prev, ws, rep);
      Seqs.Concat3(ScanHead(isWord, a, prev, ws, rep), ReplaceWordsFrom(isWord, a[n..], isWord(a[n - 1]), ws, rep),
                   ReplaceWordsBy(isWord, b, ws, rep));
    }
  }

  /** How many characters of `t` the scan consumes at its start: a matched word, or one character. */
  function ScanLength(isWord: char -> bool, t: string, prev: bool, ws: seq<string>): (n: nat)
    requires forall k :: 0 <= k < |ws| ==> |ws[k]| > 0
    requires t != []
    ensures 0 < n <= |t|
  {
    match MatchWordAt(isWord, t, prev, ws)
    case Some(k) => |ws[k]|
    case None => 1
  }

  /** What the scan emits for the start of `t`: the replacement for a matched word, else the first character. */
  function ScanHead(isWord: char -> bool, t: string, prev: bool, ws: seq<string>, rep: string): string
    requires forall k :: 0 <= k < |ws| ==> |ws[k]| > 0
    requires t != []
  {
    if MatchWordAt(isWord, t, prev, ws).Some? then rep else [t[0]]
  }

  /** The first step over `a + b` is the first step over `a`, when both see the same match. */
  lemma ScanHeadAcross(isWord: char -> bool, a: string, b: string, prev: bool, ws: seq<string>, rep: string)
    requires forall k :: 0 <= k < |ws| ==> |ws[k]| > 0
    requires a != [] && MatchWordAt(isWord, a + b, prev, ws) == MatchWordAt(isWord, a, prev, ws)
    ensures var n := ScanLength(isWord, a, prev, ws);
            ReplaceWordsFrom(isWord, a + b, prev, ws, rep)
            == ScanHead(isWord, a, prev, ws, rep) + ReplaceWordsFrom(isWord, a[n..] + b, isWord(a[n - 1]), ws, rep)
  {
    var n := ScanLength(isWord, a, prev, ws);
    ScanUnfold(isWord, a + b, prev, ws, rep);
    assert ScanLength(isWord, a + b, prev, ws) == n;
    assert (a + b)[n..] == a[n..] + b;
    assert (a + b)[n - 1] == a[n - 1] && (a + b)[0] == a[0];
  }

  /** The scan emits the replacement for a matched word, or else the first character, then goes on. */
  lemma ScanUnfold(isWord: char -> bool, t: string, prev: bool, ws: seq<string>, rep: string)
    requires forall k :: 0 <= k < |ws| ==> |ws[k]| > 0
    requires t != []
    ensures var n := ScanLength(isWord, t, prev, ws);
            ReplaceWordsFrom(isWord, t, prev, ws, rep)
            == ScanHead(isWord, t, prev, ws, rep) + ReplaceWordsFrom(isWord, t[n..], isWord(t[n - 1]), ws, rep)
  {
  }

  /** Replacing in `a + b`, cut where no word can straddle, is replacing in `a` and in `b` apart. */
  lemma ReplaceWordsSplit(isWord: char -> bool, a: string, b: string, ws: seq<string>, rep: string)
    requires CaseBlind(isWord) && WordsOf(isWord, ws) && AtBoundary(isWord, a, b)
    ensures ReplaceWordsBy(isWord, a + b, ws, rep) == ReplaceWordsBy(isWord, a, ws, rep) + ReplaceWordsBy(isWord, b, ws, rep)
  {
    ScanAcross(isWord, a, b, false, ws, rep);
  }

  /** Replacement keeps a last and a first character outside the class, and the empty text empty. */
  lemma ReplaceKeepsEdges(isWord: char -> bool, s: string, ws: seq<string>, rep: string)
    requires CaseBlind(isWord) && WordsOf(isWord, ws)
    ensures EndsOutside(isWord, s) ==> EndsOutside(isWord, ReplaceWordsBy(isWord, s, ws, rep))
    ensures StartsOutside(isWord, s) ==> StartsOutside(isWord, ReplaceWordsBy(isWord, s, ws, rep))
  {
    if s != [] {
      if !isWord(s[|s| - 1]) {
        var c := s[|s| - 1];
        NoWordCharNoWholeWord(isWord, [c], ws);
        ReplaceWordsByUnchanged(isWord, [c], ws, rep);
        assert s == s[..|s| - 1] + [c];
        ReplaceWordsSplit(isWord, s[..|s| - 1], [c], ws, rep);
      }
      if !isWord(s[0]) {
        NoWordCharNoWholeWord(isWord, [s[0]], ws);
        ReplaceWordsByUnchanged(isWord, [s[0]], ws, rep);
        assert s == [s[0]] + s[1..];
        ReplaceWordsSplit(isWord, [s[0]], s[1..], ws, rep);
      }
    }
  }

  /**
   * A word standing between characters outside the class (or the ends of
   * the text) is replaced on its own, when it is listed up to case, and
   * kept otherwise; the text on either side is replaced as if the word
   * were not there, and keeps its outside edge.
   */
  lemma ReplaceWordInContext(isWord: char -> bool, p: string, x: string, q: string, ws: seq<string>, rep: string)
    requires CaseBlind(isWord) && WordsOf(isWord, ws)
    requires EndsOutside(isWord, p) && StartsOutside(isWord, q)
    requires |x| > 0 && forall i :: 0 <= i < |x| ==> isWord(x[i])
    ensures ReplaceWordsBy(isWord, p + x + q, ws, rep)
            == ReplaceWordsBy(isWord, p, ws, rep) + (if IsListedWord(x, ws) then rep else x) + ReplaceWordsBy(isWord, q, ws, rep)
    ensures EndsOutside(isWord, ReplaceWordsBy(isWord, p, ws, rep)) && StartsOutside(isWord, ReplaceWordsBy(isWord, q, ws, rep))
  {
    ReplaceAround(isWord, p, x, q, ws, rep);
    ReplaceOneWordBy(isWord, x, ws, rep);
    ReplaceKeepsEdges(isWord, p, ws, rep);
    ReplaceKeepsEdges(isWord, q, ws, rep);
  }

  /** A piece flanked by characters outside the class (or the ends of the text) is replaced apart from its neighbours. */
  lemma ReplaceAround(isWord: char -> bool, p: string, y: string, q: string, ws: seq<string>, rep: string)
    requires CaseBlind(isWord) && WordsOf(isWord, ws)
    requires EndsOutside(isWord, p) && StartsOutside(isWord, q)
    ensures ReplaceWordsBy(isWord, p + y + q, ws, rep)
            == ReplaceWordsBy(isWord, p, ws, rep) + ReplaceWordsBy(isWord, y, ws, rep) + ReplaceWordsBy(isWord, q, ws, rep)
  {
    assert p + y + q == p + (y + q);
    ReplaceWordsSplit(isWord, p, y + q, ws, rep);
    ReplaceWordsSplit(isWord, y, q, ws, rep);
  }

  /** `s.replace(/\b(w1|w2|...)\b/gi, rep)`: JavaScript's `\b` separates `\w` from everything else. */
  function ReplaceWords(s: string, ws: seq<string>, rep: string): string
    requires forall k :: 0 <= k < |ws| ==> |ws[k]| > 0
  {
    ReplaceWordsBy(IsWordChar, s, ws, rep)
  }

  /** `s.replace(new RegExp('\\b' + w + '\\b', 'gi'), rep)`. */
  function ReplaceWord(s: string, w: string, rep: string): string
    requires |w| > 0
  {
    ReplaceWords(s, [w], rep)
  }

  /** `s.match(/\b(w1|...)\b/gi)` finds something. */
  predicate HasWholeWord(s: string, ws: seq<string>)
    requires forall k :: 0 <= k < |ws| ==> |ws[k]| > 0
  {
    HasWholeWordBy(IsWordChar, s, ws)
  }

  /** A text with no whole-word occurrence of the listed words is left unchanged. */
  lemma ReplaceWordsUnchanged(s: string, ws: seq<string>, rep: string)
    requires forall k :: 0 <= k < |ws| ==> |ws[k]| > 0
    requires !HasWholeWord(s, ws)
    ensures ReplaceWords(s, ws, rep) == s
  {
    ReplaceWordsByUnchanged(IsWordChar, s, ws, rep);
  }
}
