/**
 * Kotlin's list `filter` and stable `sortedBy` / `sortedByDescending` on a
 * string key, as used by the product lists of the view-models.
 */
module Listing {
  import opened Text

  /** `a` is an order-preserving subsequence of `b`. */
  predicate IsSubseq<T(==)>(a: seq<T>, b: seq<T>)
    decreases |b|
  {
    a == [] || (b != [] && ((a[0] == b[0] && IsSubseq(a[1..], b[1..])) || IsSubseq(a, b[1..])))
  }

  /** `filter`: the elements satisfying `p`, in their original order. */
  function Filter<T(==)>(s: seq<T>, p: T -> bool): (r: seq<T>)
    ensures |r| <= |s|
    ensures forall i :: 0 <= i < |r| ==> r[i] in s && p(r[i])
    ensures forall i :: 0 <= i < |s| && p(s[i]) ==> s[i] in r
    ensures IsSubseq(r, s)
  {
    if s == [] then []
    else
      var rest := Filter(s[1..], p);
      if p(s[0]) then
        var r := [s[0]] + rest;
        assert r[1..] == rest;
        r
      else
        rest
  }

  /**
   * `filter` keeps every copy of an element that passes the test and no
   * copy of one that fails it.
   */
  lemma {:induction false} FilterCount<T>(s: seq<T>, p: T -> bool, v: T)
    ensures multiset(Filter(s, p))[v] == if p(v) then multiset(s)[v] else 0
  {
    if s != [] {
      FilterCount(s[1..], p, v);
      assert s == [s[0]] + s[1..];
      if p(s[0]) {
        assert Filter(s, p) == [s[0]] + Filter(s[1..], p);
      }
    }
  }

  /** A filter whose predicate holds everywhere changes nothing. */
  lemma {:induction false} FilterAll<T>(s: seq<T>, p: T -> bool)
    requires forall i :: 0 <= i < |s| ==> p(s[i])
    ensures Filter(s, p) == s
  {
    if s != [] {
      FilterAll(s[1..], p);
    }
  }

  /** Filtering twice is filtering by the conjunction. */
  lemma {:induction false} FilterFilter<T>(s: seq<T>, p: T -> bool, q: T -> bool)
    ensures Filter(Filter(s, p), q) == Filter(s, x => p(x) && q(x))
  {
    if s != [] {
      FilterFilter(s[1..], p, q);
      if p(s[0]) {
        assert Filter(s, p)[1..] == Filter(s[1..], p);
      }
    }
  }

  /** `a` goes before (or next to) `b` in the requested direction. */
  predicate InOrder(a: string, b: string, descending: bool) {
    if descending then LexLe(b, a) else LexLe(a, b)
  }

  predicate SortedBy<T>(s: seq<T>, key: T -> string, descending: bool) {
    forall i, j :: 0 <= i < j < |s| ==> InOrder(key(s[i]), key(s[j]), descending)
  }

  /** Places `x` in front of the first element it may precede. */
  function InsertBy<T>(x: T, s: seq<T>, key: T -> string, descending: bool): seq<T> {
    if s == [] || InOrder(key(x), key(s[0]), descending) then [x] + s
    else [s[0]] + InsertBy(x, s[1..], key, descending)
  }

  /** Stable insertion sort on `key`: `sortedBy` when ascending, `sortedByDescending` otherwise. */
  function SortBy<T>(s: seq<T>, key: T -> string, descending: bool): seq<T> {
    if s == [] then [] else InsertBy(s[0], SortBy(s[1..], key, descending), key, descending)
  }

  lemma InOrderRefl(a: string, descending: bool)
    ensures InOrder(a, a, descending)
  {
    LexLeRefl(a);
  }

  lemma InOrderTrans(a: string, b: string, c: string, descending: bool)
    requires InOrder(a, b, descending) && InOrder(b, c, descending)
    ensures InOrder(a, c, descending)
  {
    if descending { LexLeTrans(c, b, a); } else { LexLeTrans(a, b, c); }
  }

  lemma InOrderTotal(a: string, b: string, descending: bool)
    ensures InOrder(a, b, descending) || InOrder(b, a, descending)
  {
    LexLeTotal(a, b);
  }

  lemma {:induction false} InsertByMultiset<T>(x: T, s: seq<T>, key: T -> string, descending: bool)
    ensures multiset(InsertBy(x, s, key, descending)) == multiset(s) + multiset{x}
  {
    if s != [] && !InOrder(key(x), key(s[0]), descending) {
      InsertByMultiset(x, s[1..], key, descending);
      assert s == [s[0]] + s[1..];
    }
  }

  lemma {:induction false} InsertBySorted<T>(x: T, s: seq<T>, key: T -> string, descending: bool)
    requires SortedBy(s, key, descending)
    ensures SortedBy(InsertBy(x, s, key, descending), key, descending)
    ensures |InsertBy(x, s, key, descending)| == |s| + 1
    ensures forall i :: 0 <= i < |InsertBy(x, s, key, descending)| ==>
              InsertBy(x, s, key, descending)[i] == x || InsertBy(x, s, key, descending)[i] in s
  {
    var r := InsertBy(x, s, key, descending);
    if s == [] {
    } else if InOrder(key(x), key(s[0]), descending) {
      forall i, j | 0 <= i < j < |r| ensures InOrder(key(r[i]), key(r[j]), descending) {
        if i == 0 {
          if j > 1 { InOrderTrans(key(x), key(s[0]), key(s[j - 1]), descending); }
        } else {
          assert r[i] == s[i - 1] && r[j] == s[j - 1];
        }
      }
    } else {
      InOrderTotal(key(x), key(s[0]), descending);
      var t := InsertBy(x, s[1..], key, descending);
      InsertBySorted(x, s[1..], key, descending);
      assert r == [s[0]] + t;
      forall i, j | 0 <= i < j < |r| ensures InOrder(key(r[i]), key(r[j]), descending) {
        if i == 0 {
          assert r[j] == t[j - 1];
          if t[j - 1] != x {
            assert t[j - 1] in s[1..];
            var k :| 0 <= k < |s[1..]| && s[1..][k] == t[j - 1];
            assert s[k + 1] == t[j - 1];
          }
        } else {
          assert r[i] == t[i - 1] && r[j] == t[j - 1];
        }
      }
      forall i | 0 <= i < |r| ensures r[i] == x || r[i] in s {
        if i > 0 { assert r[i] == t[i - 1]; }
      }
    }
  }

  /** `sortedBy` orders the list by the key, ascending or descending. */
  lemma {:induction false} SortBySorted<T>(s: seq<T>, key: T -> string, descending: bool)
    ensures SortedBy(SortBy(s, key, descending), key, descending)
  {
    if s != [] {
      SortBySorted(s[1..], key, descending);
      InsertBySorted(s[0], SortBy(s[1..], key, descending), key, descending);
    }
  }

  /** `sortedBy` rearranges the list without adding or dropping elements. */
  lemma {:induction false} SortByPermutes<T>(s: seq<T>, key: T -> string, descending: bool)
    ensures multiset(SortBy(s, key, descending)) == multiset(s)
  {
    if s != [] {
      SortByPermutes(s[1..], key, descending);
      InsertByMultiset(s[0], SortBy(s[1..], key, descending), key, descending);
      assert s == [s[0]] + s[1..];
    }
  }

  /** The elements whose key is `k`, in order. */
  function WithKey<T>(s: seq<T>, key: T -> string, k: string): seq<T> {
    if s == [] then []
    else if key(s[0]) == k then [s[0]] + WithKey(s[1..], key, k)
    else WithKey(s[1..], key, k)
  }

  lemma {:induction false} InsertByWithKey<T>(x: T, s: seq<T>, key: T -> string, descending: bool, k: string)
    ensures WithKey(InsertBy(x, s, key, descending), key, k) ==
            if key(x) == k then [x] + WithKey(s, key, k) else WithKey(s, key, k)
  {
    if s != [] && !InOrder(key(x), key(s[0]), descending) {
      InsertByWithKey(x, s[1..], key, descending, k);
      InOrderRefl(key(x), descending);
    }
  }

  /**
   * Stability: the elements sharing any one key come out in the order they
   * went in.
   */
  lemma {:induction false} SortByStable<T>(s: seq<T>, key: T -> string, descending: bool, k: string)
    ensures WithKey(SortBy(s, key, descending), key, k) == WithKey(s, key, k)
  {
    if s != [] {
      SortByStable(s[1..], key, descending, k);
      InsertByWithKey(s[0], SortBy(s[1..], key, descending), key, descending, k);
    }
  }

  /** No element occurs twice. */
  predicate Distinct<T(==)>(s: seq<T>) {
    forall i, j :: 0 <= i < j < |s| ==> s[i] != s[j]
  }

  lemma {:induction false} IsSubseqRefl<T>(s: seq<T>)
    ensures IsSubseq(s, s)
  {
    if s != [] {
      IsSubseqRefl(s[1..]);
    }
  }

  /** `remove(x)` on a mutable list: drops the first occurrence of `x`, if there is one. */
  function RemoveFirst<T(==)>(s: seq<T>, x: T): (r: seq<T>)
    ensures x in s ==> multiset(r) == multiset(s) - multiset{x}
    ensures x !in s ==> r == s
    ensures IsSubseq(r, s)
  {
    if s == [] then []
    else if s[0] == x then
      IsSubseqRefl(s[1..]);
      assert s == [s[0]] + s[1..];
      s[1..]
    else
      var r := [s[0]] + RemoveFirst(s[1..], x);
      assert r[1..] == RemoveFirst(s[1..], x);
      assert s == [s[0]] + s[1..];
      r
  }

  /**
   * The occurrence `remove` drops is the first one: the list is cut at the
   * first index holding `x`, and that one element is left out.
   */
  lemma {:induction false} RemoveFirstAt<T>(s: seq<T>, x: T) returns (i: nat)
    requires x in s
    ensures i < |s| && s[i] == x && x !in s[..i]
    ensures RemoveFirst(s, x) == s[..i] + s[i + 1..]
  {
    if s[0] == x {
      i := 0;
      assert s[..0] == [];
    } else {
      var j := RemoveFirstAt(s[1..], x);
      i := j + 1;
      ConsCut(s, j);
    }
  }

  /** Cutting `s` just after index `j + 1` is cutting its tail just after `j`. */
  lemma ConsCut<T>(s: seq<T>, j: nat)
    requires j + 1 < |s|
    ensures s[..j + 1] == [s[0]] + s[1..][..j]
    ensures s[j + 2..] == s[1..][j + 1..]
  {
  }

  /** In a list without duplicates, removing `x` removes every `x` and keeps the list duplicate-free. */
  lemma RemoveFirstDistinct<T>(s: seq<T>, x: T)
    requires Distinct(s)
    ensures x !in RemoveFirst(s, x)
    ensures Distinct(RemoveFirst(s, x))
  {
    var r := RemoveFirst(s, x);
    if x in s {
      assert multiset(r)[x] == 0 by {
        var i :| 0 <= i < |s| && s[i] == x;
        assert multiset(s)[x] == 1 by {
          DistinctCount(s, i);
        }
      }
    }
    forall i, j | 0 <= i < j < |r| ensures r[i] != r[j] {
      if r[i] == r[j] {
        DistinctCountAtMostOne(s, r[i]);
        TwoOccurrences(r, i, j);
      }
    }
  }

  /** In a duplicate-free list, the element at `i` occurs once. */
  lemma {:induction false} DistinctCount<T>(s: seq<T>, i: int)
    requires Distinct(s) && 0 <= i < |s|
    ensures multiset(s)[s[i]] == 1
  {
    assert s == s[..i] + [s[i]] + s[i + 1..];
    assert s[i] !in s[..i] && s[i] !in s[i + 1..];
  }

  lemma DistinctCountAtMostOne<T>(s: seq<T>, x: T)
    requires Distinct(s)
    ensures multiset(s)[x] <= 1
  {
    if x in s {
      var i :| 0 <= i < |s| && s[i] == x;
      DistinctCount(s, i);
    }
  }

  /** An element found at two positions occurs at least twice. */
  lemma {:induction false} TwoOccurrences<T>(s: seq<T>, i: int, j: int)
    requires 0 <= i < j < |s| && s[i] == s[j]
    ensures multiset(s)[s[i]] >= 2
  {
    assert s == s[..j] + [s[j]] + s[j + 1..];
    assert s[i] in s[..j];
  }

  /** Appending an element that is absent keeps a list duplicate-free. */
  lemma AppendDistinct<T>(s: seq<T>, x: T)
    requires Distinct(s) && x !in s
    ensures Distinct(s + [x])
  {
  }
}
