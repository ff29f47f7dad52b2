/**
 * Word tables: the `{ word: replacement }` object literals that several
 * text helpers walk with `Object.entries(...).forEach`, replacing each
 * word as a whole word, case-insensitively, in table order. Whole words are
 * delimited by a character class `isWord`; JavaScript's `\b` uses `\w`
 * (`Strings.IsWordChar`).
 */
module WordTables {
  import opened Wrappers
  import opened Strings

  /** An object literal's entries, in insertion order. */
  type Table = seq<(string, string)>

  /** Every key is a non-empty word (an empty key would make `\b\b` match at every boundary). */
  predicate Keyed(t: Table) {
    forall k :: 0 <= k < |t| ==> |t[k].0| > 0
  }

  /** No key of the table occurs as a whole word in `text`. */
  predicate NoneOccur(isWord: char -> bool, text: string, t: Table)
    requires Keyed(t)
  {
    forall k :: 0 <= k < |t| ==> !HasWholeWordBy(isWord, text, [t[k].0])
  }

  /**
   * `entries.forEach(([w, r]) => { s = s.replace(new RegExp('\\b' + w + '\\b', 'gi'), r) })`:
   * each entry rewrites the text left by the entries before it.
   */
  function ReplaceEach(isWord: char -> bool, text: string, t: Table): string
    requires Keyed(t)
    decreases |t|
  {
    if t == [] then text else ReplaceEach(isWord, ReplaceWordsBy(isWord, text, [t[0].0], t[0].1), t[1..])
  }

  /** Replacing with a table split in two is replacing with the first part, then the second. */
  lemma {:induction false} ReplaceEachAppend(isWord: char -> bool, text: string, t1: Table, t2: Table)
    requires Keyed(t1) && Keyed(t2)
    ensures Keyed(t1 + t2)
    ensures ReplaceEach(isWord, text, t1 + t2) == ReplaceEach(isWord, ReplaceEach(isWord, text, t1), t2)
    decreases |t1|
  {
    if t1 != [] {
      assert (t1 + t2)[1..] == t1[1..] + t2;
      ReplaceEachAppend(isWord, ReplaceWordsBy(isWord, text, [t1[0].0], t1[0].1), t1[1..], t2);
    } else {
      assert t1 + t2 == t2;
    }
  }

  /** A text in which no key occurs as a whole word comes out unchanged. */
  lemma {:induction false} ReplaceEachUnchanged(isWord: char -> bool, text: string, t: Table)
    requires Keyed(t) && NoneOccur(isWord, text, t)
    ensures ReplaceEach(isWord, text, t) == text
    decreases |t|
  {
    if t != [] {
      ReplaceWordsByUnchanged(isWord, text, [t[0].0], t[0].1);
      assert NoneOccur(isWord, text, t[1..]) by {
        forall k | 0 <= k < |t[1..]| ensures !HasWholeWordBy(isWord, text, [t[1..][k].0]) {
          assert t[1..][k] == t[k + 1];
        }
      }
      ReplaceEachUnchanged(isWord, text, t[1..]);
    }
  }

  /** Every key is a non-empty run of characters of the class. */
  predicate WordKeyed(isWord: char -> bool, t: Table) {
    forall k :: 0 <= k < |t| ==> |t[k].0| > 0 && forall j :: 0 <= j < |t[k].0| ==> isWord(t[k].0[j])
  }

  /** No value contains, as a whole word, the key of a later entry: once replaced, a word stays. */
  predicate ValuesStay(isWord: char -> bool, t: Table)
    requires Keyed(t)
  {
    forall k, j :: 0 <= k < j < |t| ==> !HasWholeWordBy(isWord, t[k].1, [t[j].0])
  }

  /** The index of the first entry whose key is `x` up to case. */
  function FirstEntry(t: Table, x: string): (r: Option<nat>)
    ensures r.None? <==> forall k :: 0 <= k < |t| ==> !EqualsIgnoreCase(x, t[k].0)
    ensures r.Some? ==> r.value < |t| && EqualsIgnoreCase(x, t[r.value].0)
                        && forall k :: 0 <= k < r.value ==> !EqualsIgnoreCase(x, t[k].0)
  {
    if t == [] then None
    else if EqualsIgnoreCase(x, t[0].0) then Some(0)
    else match FirstEntry(t[1..], x)
      case None =>
        assert forall k :: 1 <= k < |t| ==> t[k] == t[1..][k - 1];
        None
      case Some(k) =>
        assert forall i :: 1 <= i < |t| ==> t[i] == t[1..][i - 1];
        Some(k + 1)
  }

  /**
   * A single word of the class comes out as the value of the first entry
   * whose key it is up to case, rewritten by the entries after that one,
   * or unchanged when no key is that word; when values stay, it is that
   * value itself.
   */
  lemma {:induction false} ReplaceEachWord(isWord: char -> bool, x: string, t: Table)
    requires Keyed(t)
    requires |x| > 0 && forall i :: 0 <= i < |x| ==> isWord(x[i])
    ensures ReplaceEach(isWord, x, t) == match FirstEntry(t, x)
              case None => x
              case Some(k) => ReplaceEach(isWord, t[k].1, t[k + 1..])
    ensures ValuesStay(isWord, t) ==>
              ReplaceEach(isWord, x, t) == match FirstEntry(t, x)
                case None => x
                case Some(k) => t[k].1
    decreases |t|
  {
    if t != [] {
      ReplaceOneWordBy(isWord, x, [t[0].0], t[0].1);
      assert IsListedWord(x, [t[0].0]) <==> EqualsIgnoreCase(x, t[0].0) by {
        assert [t[0].0][0] == t[0].0;
      }
      if !EqualsIgnoreCase(x, t[0].0) {
        ReplaceEachWord(isWord, x, t[1..]);
        match FirstEntry(t[1..], x)
        case None =>
        case Some(k) =>
          assert t[1..][k] == t[k + 1] && t[1..][k + 1..] == t[k + 2..];
      }
      if ValuesStay(isWord, t) && FirstEntry(t, x).Some? {
        ValueStays(isWord, t, FirstEntry(t, x).value);
      }
    }
  }

  /** In a table whose values stay, no later entry rewrites a value. */
  lemma ValueStays(isWord: char -> bool, t: Table, k: nat)
    requires Keyed(t) && ValuesStay(isWord, t) && k < |t|
    ensures ReplaceEach(isWord, t[k].1, t[k + 1..]) == t[k].1
  {
    assert NoneOccur(isWord, t[k].1, t[k + 1..]);
    ReplaceEachUnchanged(isWord, t[k].1, t[k + 1..]);
  }

  /** Values without a character of the class hold no key, so they stay. */
  lemma ValuesOutsideStay(isWord: char -> bool, t: Table)
    requires Keyed(t)
    requires forall k, i :: 0 <= k < |t| && 0 <= i < |t[k].1| ==> !isWord(t[k].1[i])
    ensures ValuesStay(isWord, t)
  {
    forall k, j | 0 <= k < j < |t| ensures !HasWholeWordBy(isWord, t[k].1, [t[j].0]) {
      NoWordCharNoWholeWord(isWord, t[k].1, [t[j].0]);
    }
  }

  /** One-word values that are no later key up to case stay. */
  lemma WordValuesStay(isWord: char -> bool, t: Table)
    requires Keyed(t)
    requires forall k, i :: 0 <= k < |t| && 0 <= i < |t[k].1| ==> isWord(t[k].1[i])
    requires forall k, j :: 0 <= k < j < |t| ==> |t[k].1| != |t[j].0| || !EqualsIgnoreCase(t[k].1, t[j].0)
    ensures ValuesStay(isWord, t)
  {
    forall k, j | 0 <= k < j < |t| ensures !HasWholeWordBy(isWord, t[k].1, [t[j].0]) {
      OneWordWholeWord(isWord, t[k].1, [t[j].0]);
    }
  }

  /** Replacing with a table in `a + b`, cut where no word can straddle, is replacing in `a` and in `b` apart. */
  lemma {:induction false} ReplaceEachSplit(isWord: char -> bool, a: string, b: string, t: Table)
    requires CaseBlind(isWord) && WordKeyed(isWord, t) && AtBoundary(isWord, a, b)
    ensures ReplaceEach(isWord, a + b, t) == ReplaceEach(isWord, a, t) + ReplaceEach(isWord, b, t)
    decreases |t|
  {
    if t != [] {
      var ws := [t[0].0];
      assert WordsOf(isWord, ws);
      ReplaceWordsSplit(isWord, a, b, ws, t[0].1);
      ReplaceKeepsEdges(isWord, a, ws, t[0].1);
      ReplaceKeepsEdges(isWord, b, ws, t[0].1);
      assert WordKeyed(isWord, t[1..]) by {
        forall k | 0 <= k < |t[1..]| ensures t[1..][k] == t[k + 1] { }
      }
      ReplaceEachSplit(isWord, ReplaceWordsBy(isWord, a, ws, t[0].1), ReplaceWordsBy(isWord, b, ws, t[0].1), t[1..]);
    }
  }

  /**
   * A piece flanked by characters outside the class (or the ends of the
   * text) is rewritten by the table apart from its neighbours.
   */
  lemma ReplaceEachAround(isWord: char -> bool, p: string, y: string, q: string, t: Table)
    requires CaseBlind(isWord) && WordKeyed(isWord, t)
    requires EndsOutside(isWord, p) && StartsOutside(isWord, q)
    ensures ReplaceEach(isWord, p + y + q, t) == ReplaceEach(isWord, p, t) + ReplaceEach(isWord, y, t) + ReplaceEach(isWord, q, t)
  {
    assert p + y + q == p + (y + q);
    ReplaceEachSplit(isWord, p, y + q, t);
    ReplaceEachSplit(isWord, y, q, t);
  }

  /**
   * A table applied to a word flanked by characters outside the class: the
   * first entry whose key equals the word up to case decides, the later
   * entries then apply to its value (which stays when values stay), and the
   * text on either side is rewritten on its own.
   */
  lemma ReplaceEachInContext(isWord: char -> bool, p: string, x: string, q: string, t: Table)
    requires CaseBlind(isWord) && WordKeyed(isWord, t)
    requires EndsOutside(isWord, p) && StartsOutside(isWord, q)
    requires |x| > 0 && forall i :: 0 <= i < |x| ==> isWord(x[i])
    ensures ReplaceEach(isWord, p + x + q, t)
            == ReplaceEach(isWord, p, t)
               + (match FirstEntry(t, x)
                  case None => x
                  case Some(k) => ReplaceEach(isWord, t[k].1, t[k + 1..]))
               + ReplaceEach(isWord, q, t)
    ensures ValuesStay(isWord, t) ==>
              ReplaceEach(isWord, p + x + q, t)
              == ReplaceEach(isWord, p, t)
                 + (match FirstEntry(t, x)
                    case None => x
                    case Some(k) => t[k].1)
                 + ReplaceEach(isWord, q, t)
  {
    ReplaceEachAround(isWord, p, x, q, t);
    ReplaceEachWord(isWord, x, t);
  }

  /** Walks a table over the text, one whole-word replacement per entry, in table order. */
  method ReplaceAlong(isWord: char -> bool, text: string, table: Table) returns (r: string)
    requires Keyed(table)
    ensures r == ReplaceEach(isWord, text, table)
    ensures NoneOccur(isWord, text, table) ==> r == text
  {
    r := text;
    var i := 0;
    while i < |table|
      invariant 0 <= i <= |table|
      invariant Keyed(table[i..])
      invariant ReplaceEach(isWord, r, table[i..]) == ReplaceEach(isWord, text, table)
    {
      assert table[i..][1..] == table[i + 1..];
      r := ReplaceWordsBy(isWord, r, [table[i].0], table[i].1);
      i := i + 1;
    }
    assert table[i..] == [];
    if NoneOccur(isWord, text, table) {
      ReplaceEachUnchanged(isWord, text, table);
    }
  }

  /** `table[key]` for a key the literal defines: the value of its entry. */
  function Lookup(t: Table, key: string): (r: Option<string>)
    ensures r.None? <==> forall k :: 0 <= k < |t| ==> t[k].0 != key
    ensures r.Some? ==> exists k :: 0 <= k < |t| && t[k] == (key, r.value)
  {
    if t == [] then None
    else if t[0].0 == key then Some(t[0].1)
    else Lookup(t[1..], key)
  }

  /** `table[key]` is truthy: the key is defined and its value is not the empty string. */
  predicate Known(t: Table, key: string) {
    var v := Lookup(t, key);
    v.Some? && v.value != ""
  }
}
