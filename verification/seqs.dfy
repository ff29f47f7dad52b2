/**
 * The array primitives the portal relies on: `filter`, counting, the stable
 * descending `sort((a, b) => key(b) - key(a))`, and de-duplication through a
 * `Set` (which keeps first occurrences in insertion order).
 */
module Seqs {
  import opened Wrappers

  /** `s.filter(p)`. */
  function Filter<T(==)>(s: seq<T>, p: T -> bool): (r: seq<T>)
    ensures |r| <= |s|
    ensures forall i :: 0 <= i < |r| ==> p(r[i]) && r[i] in s
    ensures forall i :: 0 <= i < |s| && p(s[i]) ==> s[i] in r
  {
    if s == [] then [] else (if p(s[0]) then [s[0]] else []) + Filter(s[1..], p)
  }

  /** `a` is `b` with some entries removed and the rest kept in order. */
  predicate IsSubsequence<T(==)>(a: seq<T>, b: seq<T>)
    decreases |b|
  {
    if a == [] then true
    else if b == [] then false
    else if a[0] == b[0] then IsSubsequence(a[1..], b[1..])
    else IsSubsequence(a, b[1..])
  }

  /** Concatenation is associative. */
  lemma Concat3<T>(a: seq<T>, b: seq<T>, c: seq<T>)
    ensures a + b + c == a + (b + c)
  {
  }

  /** Regrouping a concatenation: `x == h + y`, `y == r + t` and `z == h + r` give `x == z + t`. */
  lemma Regroup<T>(x: seq<T>, h: seq<T>, y: seq<T>, r: seq<T>, t: seq<T>, z: seq<T>)
    requires x == h + y && y == r + t && z == h + r
    ensures x == z + t
  {
  }

  /** A prefix of a subsequence is a subsequence. */
  lemma {:induction false} PrefixSubsequence<T>(a: seq<T>, b: seq<T>, n: nat)
    requires IsSubsequence(a, b) && n <= |a|
    ensures IsSubsequence(a[..n], b)
    decreases |b|
  {
    if n > 0 {
      if a[0] == b[0] {
        PrefixSubsequence(a[1..], b[1..], n - 1);
        assert a[..n][1..] == a[1..][..n - 1];
      } else {
        PrefixSubsequence(a, b[1..], n);
      }
    }
  }

  /** `filter` keeps the surviving entries in their original order. */
  lemma {:induction false} FilterIsSubsequence<T>(s: seq<T>, p: T -> bool)
    ensures IsSubsequence(Filter(s, p), s)
  {
    if s != [] {
      FilterIsSubsequence(s[1..], p);
      var r := Filter(s, p);
      if p(s[0]) {
        assert r[0] == s[0] && r[1..] == Filter(s[1..], p);
      } else {
        assert r == Filter(s[1..], p);
        assert r != [] ==> p(r[0]) && r[0] != s[0];
      }
    }
  }

  /** Keeping every entry changes nothing. */
  lemma {:induction false} FilterAll<T>(s: seq<T>, p: T -> bool)
    requires forall i :: 0 <= i < |s| ==> p(s[i])
    ensures Filter(s, p) == s
  {
    if s != [] {
      FilterAll(s[1..], p);
    }
  }

  /** Keeping no entry leaves nothing. */
  lemma FilterNone<T>(s: seq<T>, p: T -> bool)
    requires forall i :: 0 <= i < |s| ==> !p(s[i])
    ensures Filter(s, p) == []
  {
  }

  /** Filtering a concatenation filters each part. */
  lemma {:induction false} FilterAppend<T>(a: seq<T>, b: seq<T>, p: T -> bool)
    ensures Filter(a + b, p) == Filter(a, p) + Filter(b, p)
  {
    if a != [] {
      assert (a + b)[0] == a[0] && (a + b)[1..] == a[1..] + b;
      FilterAppend(a[1..], b, p);
    } else {
      assert a + b == b;
    }
  }

  /** A filter drops something exactly when some entry fails `p`. */
  lemma {:induction false} FilterShorter<T>(s: seq<T>, p: T -> bool)
    ensures |Filter(s, p)| == |s| <==> forall i :: 0 <= i < |s| ==> p(s[i])
  {
    if s != [] {
      FilterShorter(s[1..], p);
      assert forall i :: 1 <= i < |s| ==> s[i] == s[1..][i - 1];
    }
  }

  /** The number of entries satisfying `p`: `s.filter(p).length`. */
  function Count<T(==)>(s: seq<T>, p: T -> bool): (n: nat)
    ensures n == |Filter(s, p)|
    ensures n <= |s|
  {
    if s == [] then 0 else (if p(s[0]) then 1 else 0) + Count(s[1..], p)
  }

  /** Counting over a sequence extended by one entry. */
  lemma CountSnoc<T>(s: seq<T>, x: T, p: T -> bool)
    ensures Count(s + [x], p) == Count(s, p) + (if p(x) then 1 else 0)
  {
    FilterAppend(s, [x], p);
    assert Filter([x], p) == (if p(x) then [x] else []) + Filter([], p);
  }

  /** A positive count has a witness in the sequence. */
  lemma CountWitness<T>(s: seq<T>, p: T -> bool)
    requires Count(s, p) >= 1
    ensures exists x :: x in s && p(x)
  {
    var f := Filter(s, p);
    assert f[0] in s && p(f[0]);
  }

  /** The negation of a predicate, as one term so that both filters name the same function. */
  function Not<T>(p: T -> bool): T -> bool {
    x => !p(x)
  }

  /** What a filter keeps and what it drops add up to the whole sequence. */
  lemma {:induction false} FilterPartition<T>(s: seq<T>, p: T -> bool)
    ensures |Filter(s, p)| + |Filter(s, Not(p))| == |s|
  {
    if s != [] {
      FilterPartition(s[1..], p);
    }
  }

  /** `s.findIndex(p)`: the first index whose entry satisfies `p`, or `None` for -1. */
  function FindIndex<T>(s: seq<T>, p: T -> bool): (r: Option<nat>)
    ensures r.None? <==> forall i :: 0 <= i < |s| ==> !p(s[i])
    ensures r.Some? ==> r.value < |s| && p(s[r.value]) && forall i :: 0 <= i < r.value ==> !p(s[i])
  {
    if s == [] then None
    else if p(s[0]) then Some(0)
    else
      match FindIndex(s[1..], p)
      case None => None
      case Some(k) => Some(k + 1)
  }

  /** `a[index] = v` on a JavaScript array: the array grows with holes as needed. */
  function StoreAt<T>(a: seq<Option<T>>, index: nat, v: T): (r: seq<Option<T>>)
    ensures |r| == if index < |a| then |a| else index + 1
    ensures r[index] == Some(v)
    ensures forall i :: 0 <= i < |r| && i != index ==> r[i] == (if i < |a| then a[i] else None)
  {
    if index < |a| then a[index := Some(v)]
    else a + seq(index - |a|, _ => None) + [Some(v)]
  }

  // ------------------------------------------------------------ sorting

  predicate SortedDesc<T>(s: seq<T>, key: T -> int) {
    forall i, j :: 0 <= i < j < |s| ==> key(s[i]) >= key(s[j])
  }

  lemma HeadDominates<T>(s: seq<T>, key: T -> int)
    requires SortedDesc(s, key) && s != []
    ensures forall y :: y in s[1..] ==> key(s[0]) >= key(y)
  {
    forall y | y in s[1..] ensures key(s[0]) >= key(y) {
      var k :| 0 <= k < |s[1..]| && s[1..][k] == y;
      assert s[k + 1] == y;
    }
  }

  /** Inserts `x` after every entry whose key is at least key(x). */
  function InsertDesc<T(==)>(x: T, s: seq<T>, key: T -> int): (r: seq<T>)
    requires SortedDesc(s, key)
    ensures |r| == |s| + 1
    ensures forall i :: 0 <= i < |r| ==> r[i] == x || r[i] in s
    ensures multiset(r) == multiset(s) + multiset{x}
  {
    if s == [] then [x]
    else if key(s[0]) >= key(x) then
      assert s == [s[0]] + s[1..];
      [s[0]] + InsertDesc(x, s[1..], key)
    else [x] + s
  }

  /** Inserting into a sorted sequence keeps it sorted. */
  lemma {:induction false} InsertDescSorted<T>(x: T, s: seq<T>, key: T -> int)
    requires SortedDesc(s, key)
    ensures SortedDesc(InsertDesc(x, s, key), key)
  {
    if s != [] {
      HeadDominates(s, key);
      if key(s[0]) >= key(x) {
        InsertDescSorted(x, s[1..], key);
      }
    }
  }

  /**
   * `s.slice().sort((a, b) => key(b) - key(a))`: JavaScript's sort is
   * stable, so entries with equal keys keep their relative order; inserting
   * the entries one by one, each after the equal-keyed ones, does the same.
   */
  function SortDesc<T(==)>(s: seq<T>, key: T -> int): (r: seq<T>)
    ensures SortedDesc(r, key)
    ensures multiset(r) == multiset(s)
    ensures |r| == |s|
  {
    if s == [] then []
    else
      var init := s[..|s| - 1];
      assert s == init + [s[|s| - 1]];
      var r := InsertDesc(s[|s| - 1], SortDesc(init, key), key);
      InsertDescSorted(s[|s| - 1], SortDesc(init, key), key);
      assert |r| == |multiset(r)|;
      r
  }

  /** The entries whose key is `v`. */
  function KeyIs<T>(key: T -> int, v: int): T -> bool {
    (x: T) => key(x) == v
  }

  /** Inserting keeps the entries of each key in order, `x` after those sharing its key. */
  lemma {:induction false} InsertDescStable<T>(x: T, s: seq<T>, key: T -> int, v: int)
    requires SortedDesc(s, key)
    ensures Filter(InsertDesc(x, s, key), KeyIs(key, v)) == Filter(s, KeyIs(key, v)) + Filter([x], KeyIs(key, v))
    decreases |s|
  {
    if s == [] {
    } else if key(s[0]) >= key(x) {
      var t := s[1..];
      assert SortedDesc(t, key) by {
        forall i, j | 0 <= i < j < |t| ensures key(t[i]) >= key(t[j]) {
          assert t[i] == s[i + 1] && t[j] == s[j + 1];
        }
      }
      InsertDescStable(x, t, key, v);
      assert s == [s[0]] + t;
      assert InsertDesc(x, s, key) == [s[0]] + InsertDesc(x, t, key);
      ConsFilterSplit(s[0], t, InsertDesc(x, t, key), [x], KeyIs(key, v));
    } else {
      InsertInFront(x, s, key, v);
    }
  }

  /** Filtering distributes over a head put in front of both sides of a split. */
  lemma ConsFilterSplit<T>(h: T, t: seq<T>, u: seq<T>, w: seq<T>, p: T -> bool)
    requires Filter(u, p) == Filter(t, p) + Filter(w, p)
    ensures Filter([h] + u, p) == Filter([h] + t, p) + Filter(w, p)
  {
    FilterAppend([h], u, p);
    FilterAppend([h], t, p);
    Regroup(Filter([h] + u, p), Filter([h], p), Filter(u, p), Filter(t, p), Filter(w, p), Filter([h] + t, p));
  }

  /** `x` goes in front: every entry's key is below key(x), so none shares it. */
  lemma InsertInFront<T>(x: T, s: seq<T>, key: T -> int, v: int)
    requires SortedDesc(s, key) && s != [] && key(s[0]) < key(x)
    ensures Filter(InsertDesc(x, s, key), KeyIs(key, v)) == Filter(s, KeyIs(key, v)) + Filter([x], KeyIs(key, v))
  {
    var p := KeyIs(key, v);
    assert InsertDesc(x, s, key) == [x] + s;
    if key(x) == v {
      forall i | 0 <= i < |s| ensures !p(s[i]) {
        assert key(s[0]) >= key(s[i]);
      }
      FilterNone(s, p);
    }
    FilterAppend([x], s, p);
  }

  /** `SortDesc` is stable: the entries with any one key come out in their input order. */
  lemma {:induction false} SortDescStable<T>(s: seq<T>, key: T -> int, v: int)
    ensures Filter(SortDesc(s, key), KeyIs(key, v)) == Filter(s, KeyIs(key, v))
  {
    if s != [] {
      var init := s[..|s| - 1];
      assert s == init + [s[|s| - 1]];
      SortDescStable(init, key, v);
      InsertDescStable(s[|s| - 1], SortDesc(init, key), key, v);
      FilterAppend(init, [s[|s| - 1]], KeyIs(key, v));
    }
  }

  // ------------------------------------------------------------ de-duplication

  predicate Distinct<T(==)>(s: seq<T>) {
    forall i, j :: 0 <= i < j < |s| ==> s[i] != s[j]
  }

  /** A sequence without repeats holds every value at most once. */
  lemma {:induction false} DistinctOnce<T>(s: seq<T>)
    requires Distinct(s)
    ensures forall x :: multiset(s)[x] <= 1
  {
    if s != [] {
      DistinctOnce(s[1..]);
      assert s == [s[0]] + s[1..];
      assert s[0] !in s[1..];
    }
  }

  /** A sequence holding every value at most once has no repeats. */
  lemma OnceDistinct<T>(s: seq<T>)
    requires forall x :: multiset(s)[x] <= 1
    ensures Distinct(s)
  {
    forall i, j | 0 <= i < j < |s| ensures s[i] != s[j] {
      var x := s[j];
      assert s == s[..j] + s[j..];
      assert x in s[j..] && x in multiset(s[j..]);
      assert multiset(s) == multiset(s[..j]) + multiset(s[j..]);
      assert multiset(s)[x] <= 1;
      assert multiset(s[..j])[x] == 0;
      assert s[i] in s[..j];
    }
  }

  /** Reordering keeps a sequence free of repeats. */
  lemma PermutationDistinct<T>(s: seq<T>, r: seq<T>)
    requires Distinct(s) && multiset(r) == multiset(s)
    ensures Distinct(r)
  {
    DistinctOnce(s);
    OnceDistinct(r);
  }

  /** `[...new Set(s)]`: the first occurrence of every value, in order. */
  function Dedupe<T(==)>(s: seq<T>): (r: seq<T>)
    ensures Distinct(r)
    ensures forall i :: 0 <= i < |r| ==> r[i] in s
    ensures forall i :: 0 <= i < |s| ==> s[i] in r
    ensures |r| <= |s|
  {
    DedupeFrom(s, [])
  }

  function DedupeFrom<T(==)>(s: seq<T>, seen: seq<T>): (r: seq<T>)
    requires Distinct(seen)
    ensures Distinct(r)
    ensures forall i :: 0 <= i < |r| ==> r[i] in s || r[i] in seen
    ensures forall i :: 0 <= i < |s| ==> s[i] in r
    ensures |r| <= |s| + |seen|
    ensures |seen| <= |r| && r[..|seen|] == seen
  {
    if s == [] then seen
    else if s[0] in seen then
      var r := DedupeFrom(s[1..], seen);
      assert s[0] in r[..|seen|];
      r
    else
      var seen' := seen + [s[0]];
      var r := DedupeFrom(s[1..], seen');
      assert r[..|seen|] == r[..|seen'|][..|seen|];
      assert s[0] == r[..|seen'|][|seen|];
      r
  }
}
