/**
 * The sorts the plugin relies on: PHP's sort() on string lists (modelled
 * as lexicographic order by code point), array_unique (first occurrence
 * kept) and PHP 8's stable usort with a numeric key.
 */
module Sorting {
  import opened Strings

  // ---------------------------------------------------------------------------
  // Sorting strings

  predicate Sorted(s: seq<string>) {
    forall i, j :: 0 <= i < j < |s| ==> LexLe(s[i], s[j])
  }

  /** Every element strictly before the next one: sorted and without duplicates. */
  predicate StrictlySorted(s: seq<string>) {
    forall i, j :: 0 <= i < j < |s| ==> LexLe(s[i], s[j]) && s[i] != s[j]
  }

  function Insert(x: string, s: seq<string>): (r: seq<string>)
    requires Sorted(s)
    ensures Sorted(r)
    ensures multiset(r) == multiset(s) + multiset{x}
  {
    if s == [] then [x]
    else if LexLe(x, s[0]) then
      assert forall j :: 0 <= j < |s| ==> LexLe(x, s[j]) by {
        forall j | 0 <= j < |s| ensures LexLe(x, s[j]) {
          if j > 0 { LexLeTrans(x, s[0], s[j]); }
        }
      }
      [x] + s
    else
      LexLeTotal(x, s[0]);
      var t := Insert(x, s[1..]);
      assert forall j :: 0 <= j < |s[1..]| ==> LexLe(s[0], s[1..][j]) by {
        forall j | 0 <= j < |s[1..]| ensures LexLe(s[0], s[1..][j]) {
          assert s[1..][j] == s[j + 1];
        }
      }
      LowerBoundKept(s[0], x, s[1..], t);
      assert s == [s[0]] + s[1..];
      [s[0]] + t
  }

  /** A lower bound of `x` and of every element of `rest` bounds every rearrangement of them. */
  lemma LowerBoundKept(lo: string, x: string, rest: seq<string>, t: seq<string>)
    requires multiset(t) == multiset(rest) + multiset{x}
    requires LexLe(lo, x) && forall j :: 0 <= j < |rest| ==> LexLe(lo, rest[j])
    ensures forall j :: 0 <= j < |t| ==> LexLe(lo, t[j])
  {
    forall j | 0 <= j < |t| ensures LexLe(lo, t[j]) {
      assert t[j] in multiset(t);
      if t[j] != x {
        assert t[j] in multiset(rest);
        var k :| 0 <= k < |rest| && rest[k] == t[j];
      }
    }
  }

  /** PHP sort() on a list of strings: ascending and a permutation of the input. */
  function SortStrings(s: seq<string>): (r: seq<string>)
    ensures Sorted(r)
    ensures multiset(r) == multiset(s)
  {
    if s == [] then []
    else
      assert s == [s[0]] + s[1..];
      Insert(s[0], SortStrings(s[1..]))
  }

  /** A sorted list without repeated elements is strictly increasing. */
  lemma SortedDistinct(s: seq<string>)
    requires Sorted(s)
    requires forall i, j :: 0 <= i < j < |s| ==> s[i] != s[j]
    ensures StrictlySorted(s)
  {
  }

  /** No element occurs twice. */
  predicate Distinct(s: seq<string>) {
    forall i, j :: 0 <= i < j < |s| ==> s[i] != s[j]
  }

  /** In a list without repeats every element occurs at most once. */
  lemma {:induction false} DistinctCount(s: seq<string>, x: string)
    requires Distinct(s)
    ensures multiset(s)[x] <= 1
  {
    if s != [] {
      DistinctCount(s[1..], x);
      assert s == [s[0]] + s[1..];
      if s[0] == x {
        assert x !in s[1..];
      }
    }
  }

  /** A rearrangement of a list without repeats has no repeats either. */
  lemma DistinctPermutation(a: seq<string>, b: seq<string>)
    requires Distinct(a) && multiset(a) == multiset(b)
    ensures Distinct(b)
  {
    forall i, j | 0 <= i < j < |b| ensures b[i] != b[j] {
      if b[i] == b[j] {
        var x := b[i];
        assert b == b[..j] + b[j..];
        assert x in b[..j] && x in b[j..];
        assert multiset(b)[x] == multiset(b[..j])[x] + multiset(b[j..])[x];
        DistinctCount(a, x);
        assert false;
      }
    }
  }

  // ---------------------------------------------------------------------------
  // array_unique followed by array_values

  /** Keeps the first occurrence of each element, in order. */
  function Dedupe(s: seq<string>): (r: seq<string>)
    ensures forall i, j :: 0 <= i < j < |r| ==> r[i] != r[j]
    ensures forall x :: x in r <==> x in s
    ensures |r| <= |s|
  {
    if s == [] then []
    else
      var rest := Dedupe(s[..|s| - 1]);
      assert forall x :: x in s <==> x in s[..|s| - 1] || x == s[|s| - 1];
      if s[|s| - 1] in rest then rest else rest + [s[|s| - 1]]
  }

  // ---------------------------------------------------------------------------
  // Stable sort by a numeric key (PHP 8 usort with a <=> comparator)

  /** `a` strictly precedes `b`: a smaller key, or a larger one when descending. */
  predicate Before<T>(key: T -> real, desc: bool, a: T, b: T) {
    if desc then key(a) > key(b) else key(a) < key(b)
  }

  predicate SortedBy<T>(s: seq<T>, key: T -> real, desc: bool) {
    forall i, j :: 0 <= i < j < |s| ==> !Before(key, desc, s[j], s[i])
  }

  /** The elements of `s` whose key is `k`, in their order in `s`. */
  function WithKey<T>(s: seq<T>, key: T -> real, k: real): (r: seq<T>)
    ensures |r| <= |s|
  {
    if s == [] then []
    else (if key(s[0]) == k then [s[0]] else []) + WithKey(s[1..], key, k)
  }

  lemma WithKeyCons<T>(x: T, s: seq<T>, key: T -> real, k: real)
    ensures WithKey([x] + s, key, k) == (if key(x) == k then [x] else []) + WithKey(s, key, k)
  {
    assert ([x] + s)[1..] == s;
  }

  /** Inserts `x` ahead of the first element that does not strictly precede it. */
  function InsertBy<T>(x: T, s: seq<T>, key: T -> real, desc: bool): (r: seq<T>)
    requires SortedBy(s, key, desc)
    ensures SortedBy(r, key, desc)
    ensures multiset(r) == multiset(s) + multiset{x}
  {
    if s == [] then [x]
    else if !Before(key, desc, s[0], x) then [x] + s
    else
      var t := InsertBy(x, s[1..], key, desc);
      assert forall j :: 0 <= j < |s[1..]| ==> !Before(key, desc, s[1..][j], s[0]) by {
        forall j | 0 <= j < |s[1..]| ensures !Before(key, desc, s[1..][j], s[0]) {
          assert s[1..][j] == s[j + 1];
        }
      }
      NotBeforeKept(s[0], x, s[1..], t, key, desc);
      assert s == [s[0]] + s[1..];
      [s[0]] + t
  }

  /** When neither `x` nor any element of `rest` precedes `a`, no rearrangement of them does. */
  lemma NotBeforeKept<T>(a: T, x: T, rest: seq<T>, t: seq<T>, key: T -> real, desc: bool)
    requires multiset(t) == multiset(rest) + multiset{x}
    requires !Before(key, desc, x, a) && forall j :: 0 <= j < |rest| ==> !Before(key, desc, rest[j], a)
    ensures forall j :: 0 <= j < |t| ==> !Before(key, desc, t[j], a)
  {
    forall j | 0 <= j < |t| ensures !Before(key, desc, t[j], a) {
      assert t[j] in multiset(t);
      if t[j] != x {
        assert t[j] in multiset(rest);
        var k :| 0 <= k < |rest| && rest[k] == t[j];
      }
    }
  }

  /** Inserting `x` puts it ahead of every element with its key and leaves the other key classes alone. */
  lemma {:induction false} InsertByWithKey<T>(x: T, s: seq<T>, key: T -> real, desc: bool, k: real)
    requires SortedBy(s, key, desc)
    ensures WithKey(InsertBy(x, s, key, desc), key, k) == (if key(x) == k then [x] else []) + WithKey(s, key, k)
  {
    var r := InsertBy(x, s, key, desc);
    if s == [] {
      assert r == [x] + [];
      WithKeyCons(x, [], key, k);
    } else if !Before(key, desc, s[0], x) {
      assert r == [x] + s;
      WithKeyCons(x, s, key, k);
    } else {
      var t := InsertBy(x, s[1..], key, desc);
      assert r == [s[0]] + t;
      InsertByWithKey(x, s[1..], key, desc, k);
      assert s == [s[0]] + s[1..];
      // s[0] strictly precedes x, so their keys differ.
      WithKeySwap(s[0], x, t, s[1..], key, k);
    }
  }

  /** An element ahead of `x` with a different key does not disturb x's place in its key class. */
  lemma WithKeySwap<T>(a: T, x: T, t: seq<T>, rest: seq<T>, key: T -> real, k: real)
    requires key(a) != key(x)
    requires WithKey(t, key, k) == (if key(x) == k then [x] else []) + WithKey(rest, key, k)
    ensures WithKey([a] + t, key, k) == (if key(x) == k then [x] else []) + WithKey([a] + rest, key, k)
  {
    WithKeyCons(a, t, key, k);
    WithKeyCons(a, rest, key, k);
    var mine := if key(x) == k then [x] else [];
    if key(a) == k {
      assert mine == [];
      assert WithKey([a] + t, key, k) == [a] + WithKey(rest, key, k) == WithKey([a] + rest, key, k);
    } else {
      assert WithKey([a] + t, key, k) == mine + WithKey(rest, key, k);
      assert WithKey([a] + rest, key, k) == WithKey(rest, key, k);
    }
  }

  /**
   * usort with a <=> comparator on `key` (reversed when `desc`): ordered by key
   * and a permutation of the input.
   */
  function StableSortBy<T>(s: seq<T>, key: T -> real, desc: bool): (r: seq<T>)
    ensures SortedBy(r, key, desc)
    ensures multiset(r) == multiset(s)
  {
    if s == [] then []
    else
      assert s == [s[0]] + s[1..];
      InsertBy(s[0], StableSortBy(s[1..], key, desc), key, desc)
  }

  /** The sort is stable: the elements sharing any key keep their input order. */
  lemma {:induction false} StableSortByStable<T>(s: seq<T>, key: T -> real, desc: bool, k: real)
    ensures WithKey(StableSortBy(s, key, desc), key, k) == WithKey(s, key, k)
  {
    if s != [] {
      StableSortByStable(s[1..], key, desc, k);
      InsertByWithKey(s[0], StableSortBy(s[1..], key, desc), key, desc, k);
    }
  }
}
