/**
 * Python's ordering of `str` values (lexicographic by code point) and a
 * stable sort, which `list.sort()` and `sorted(..., key=...)` stand for in
 * the scripts.
 */
module Order {

  /** Python's `a < b` on strings. */
  predicate StrLess(a: string, b: string)
    decreases |a|
  {
    if a == [] then b != []
    else if b == [] then false
    else if a[0] != b[0] then a[0] < b[0]
    else StrLess(a[1..], b[1..])
  }

  predicate StrLessEq(a: string, b: string)
  {
    a == b || StrLess(a, b)
  }

  lemma {:induction false} StrLessIrreflexive(a: string)
    ensures !StrLess(a, a)
  {
    if a != [] {
      StrLessIrreflexive(a[1..]);
    }
  }

  lemma {:induction false} StrLessTransitive(a: string, b: string, c: string)
    requires StrLess(a, b) && StrLess(b, c)
    ensures StrLess(a, c)
  {
    if a != [] && b != [] && c != [] && a[0] == b[0] && b[0] == c[0] {
      StrLessTransitive(a[1..], b[1..], c[1..]);
    }
  }

  lemma {:induction false} StrLessTotal(a: string, b: string)
    ensures a == b || StrLess(a, b) || StrLess(b, a)
  {
    if a != [] && b != [] && a[0] == b[0] {
      StrLessTotal(a[1..], b[1..]);
      if a[1..] == b[1..] {
        assert a == [a[0]] + a[1..] && b == [b[0]] + b[1..];
      }
    }
  }

  lemma StrLessAsymmetric(a: string, b: string)
    requires StrLess(a, b)
    ensures !StrLess(b, a)
  {
    if StrLess(b, a) {
      StrLessTransitive(a, b, a);
      StrLessIrreflexive(a);
    }
  }

  lemma StrLessEqTransitive(a: string, b: string, c: string)
    requires StrLessEq(a, b) && StrLessEq(b, c)
    ensures StrLessEq(a, c)
  {
    if a != b && b != c {
      StrLessTransitive(a, b, c);
    }
  }

  /** `s` is in non-decreasing order of `key`. */
  ghost predicate SortedBy<T>(s: seq<T>, key: T -> string)
  {
    forall i, j :: 0 <= i < j < |s| ==> StrLessEq(key(s[i]), key(s[j]))
  }

  /** Inserts `x` after every element whose key is not greater than its own. */
  function InsertBy<T>(x: T, s: seq<T>, key: T -> string): (r: seq<T>)
    ensures multiset(r) == multiset(s) + multiset{x}
    ensures |r| == |s| + 1
  {
    if s == [] then [x]
    else if StrLess(key(x), key(s[0])) then [x] + s
    else
      assert s == [s[0]] + s[1..];
      [s[0]] + InsertBy(x, s[1..], key)
  }

  lemma {:induction false} InsertBySorted<T>(x: T, s: seq<T>, key: T -> string)
    requires SortedBy(s, key)
    ensures SortedBy(InsertBy(x, s, key), key)
  {
    if s != [] && !StrLess(key(x), key(s[0])) {
      InsertBySorted(x, s[1..], key);
      StrLessTotal(key(x), key(s[0]));
      forall k | 0 <= k < |s[1..]| ensures StrLessEq(key(s[0]), key(s[1..][k])) {
        assert s[1..][k] == s[k + 1];
      }
      InsertByBounded(x, s[1..], key, key(s[0]));
      SortedCons(s[0], InsertBy(x, s[1..], key), key);
    } else if s != [] {
      forall k | 0 <= k < |s| ensures StrLessEq(key(x), key(s[k])) {
        StrLessEqTransitive(key(x), key(s[0]), key(s[k]));
      }
      SortedCons(x, s, key);
    }
  }

  /** A sorted sequence after an element no greater than any of it is sorted. */
  lemma SortedCons<T>(h: T, t: seq<T>, key: T -> string)
    requires SortedBy(t, key)
    requires forall k :: 0 <= k < |t| ==> StrLessEq(key(h), key(t[k]))
    ensures SortedBy([h] + t, key)
  {
    var r := [h] + t;
    forall i, j | 0 <= i < j < |r| ensures StrLessEq(key(r[i]), key(r[j])) {
      assert r[j] == t[j - 1];
      if i > 0 {
        assert r[i] == t[i - 1];
      }
    }
  }

  /** Inserting an element no smaller than `lo` among elements no smaller than `lo` keeps them all so. */
  lemma InsertByBounded<T>(x: T, s: seq<T>, key: T -> string, lo: string)
    requires StrLessEq(lo, key(x))
    requires forall k :: 0 <= k < |s| ==> StrLessEq(lo, key(s[k]))
    ensures forall j :: 0 <= j < |InsertBy(x, s, key)| ==> StrLessEq(lo, key(InsertBy(x, s, key)[j]))
  {
    var r := InsertBy(x, s, key);
    forall j | 0 <= j < |r| ensures StrLessEq(lo, key(r[j])) {
      assert r[j] in multiset(s) + multiset{x};
      if r[j] != x {
        assert r[j] in s;
        var k :| 0 <= k < |s| && s[k] == r[j];
      }
    }
  }

  /** `sorted(s, key=key)`: a stable insertion sort. */
  function SortBy<T>(s: seq<T>, key: T -> string): (r: seq<T>)
    ensures multiset(r) == multiset(s)
    ensures |r| == |s|
  {
    if s == [] then []
    else
      assert s == s[..|s| - 1] + [s[|s| - 1]];
      InsertBy(s[|s| - 1], SortBy(s[..|s| - 1], key), key)
  }

  lemma {:induction false} SortBySorted<T>(s: seq<T>, key: T -> string)
    ensures SortedBy(SortBy(s, key), key)
  {
    if s != [] {
      SortBySorted(s[..|s| - 1], key);
      InsertBySorted(s[|s| - 1], SortBy(s[..|s| - 1], key), key);
    }
  }

  function Identity(s: string): string { s }

  /** `sorted(names)` for a list of strings. */
  function SortStrings(names: seq<string>): (r: seq<string>)
    ensures multiset(r) == multiset(names)
    ensures |r| == |names|
  {
    SortBy(names, Identity)
  }

  ghost predicate Distinct<T>(s: seq<T>)
  {
    forall i, j :: 0 <= i < j < |s| ==> s[i] != s[j]
  }

  /** Sorted distinct names are strictly increasing. */
  lemma SortStringsStrict(names: seq<string>)
    requires Distinct(names)
    ensures forall i, j :: 0 <= i < j < |SortStrings(names)| ==>
              StrLess(SortStrings(names)[i], SortStrings(names)[j])
  {
    var r := SortStrings(names);
    SortBySorted(names, Identity);
    DistinctByMultiset(names, r);
    forall i, j | 0 <= i < j < |r| ensures StrLess(r[i], r[j]) {
      assert StrLessEq(Identity(r[i]), Identity(r[j]));
    }
  }

  /** A rearrangement of a duplicate-free sequence is duplicate-free. */
  lemma DistinctByMultiset<T>(s: seq<T>, r: seq<T>)
    requires Distinct(s) && multiset(r) == multiset(s)
    ensures Distinct(r)
  {
    forall x | x in multiset(s) ensures multiset(s)[x] == 1 {
      DistinctCount(s, x);
    }
    forall i, j | 0 <= i < j < |r| ensures r[i] != r[j] {
      if r[i] == r[j] {
        RepeatCounted(r, i, j);
        assert false;
      }
    }
  }

  lemma RepeatCounted<T>(r: seq<T>, i: nat, j: nat)
    requires i < j < |r| && r[i] == r[j]
    ensures multiset(r)[r[i]] >= 2
  {
    assert r == r[..i] + [r[i]] + r[i + 1..j] + [r[j]] + r[j + 1..];
  }

  lemma {:induction false} DistinctCount<T>(s: seq<T>, x: T)
    requires Distinct(s) && x in multiset(s)
    ensures multiset(s)[x] == 1
  {
    var k := |s| - 1;
    assert s == s[..k] + [s[k]];
    if s[k] == x {
      assert x !in s[..k];
      assert multiset(s[..k])[x] == 0;
    } else {
      assert x in multiset(s[..k]);
      DistinctCount(s[..k], x);
    }
  }
}
