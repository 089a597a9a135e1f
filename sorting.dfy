/** Stable sorting by a real-valued key: `List.sort(Comparator.comparingDouble(key))`.
  * Java's list sort is stable, so elements with equal keys keep their order. */
module Sorting {
  predicate SortedBy<X>(s: seq<X>, key: X -> real)
  {
    forall i, j :: 0 <= i < j < |s| ==> key(s[i]) <= key(s[j])
  }

  /** The elements of `s` whose key is `k`, in their order in `s`. */
  function WithKey<X>(s: seq<X>, key: X -> real, k: real): seq<X>
  {
    if s == [] then []
    else (if key(s[0]) == k then [s[0]] else []) + WithKey(s[1..], key, k)
  }

  /** `x` placed after every element whose key is not greater than its own. */
  function Insert<X>(x: X, s: seq<X>, key: X -> real): seq<X>
  {
    if s == [] then [x]
    else if key(x) < key(s[0]) then [x] + s
    else [s[0]] + Insert(x, s[1..], key)
  }

  function SortBy<X>(s: seq<X>, key: X -> real): seq<X>
  {
    if s == [] then [] else Insert(s[|s| - 1], SortBy(s[..|s| - 1], key), key)
  }

  lemma {:induction false} WithKeyAppend<X>(a: seq<X>, b: seq<X>, key: X -> real, k: real)
    ensures WithKey(a + b, key, k) == WithKey(a, key, k) + WithKey(b, key, k)
  {
    if a == [] {
      assert a + b == b;
    } else {
      var head := if key(a[0]) == k then [a[0]] else [];
      assert (a + b)[0] == a[0] && (a + b)[1..] == a[1..] + b;
      assert WithKey(a + b, key, k) == head + WithKey(a[1..] + b, key, k);
      WithKeyAppend(a[1..], b, key, k);
      assert WithKey(a, key, k) == head + WithKey(a[1..], key, k);
    }
  }

  lemma {:induction false} WithKeyAbove<X>(s: seq<X>, key: X -> real, k: real)
    requires forall i :: 0 <= i < |s| ==> key(s[i]) > k
    ensures WithKey(s, key, k) == []
  {
    if s != [] {
      WithKeyAbove(s[1..], key, k);
    }
  }

  lemma {:induction false} InsertLowerBound<X>(x: X, s: seq<X>, key: X -> real, m: real)
    requires key(x) >= m
    requires forall i :: 0 <= i < |s| ==> key(s[i]) >= m
    ensures |Insert(x, s, key)| == |s| + 1
    ensures forall i :: 0 <= i < |Insert(x, s, key)| ==> key(Insert(x, s, key)[i]) >= m
  {
    if s != [] && key(x) >= key(s[0]) {
      InsertLowerBound(x, s[1..], key, m);
    }
  }

  lemma {:induction false} InsertSorted<X>(x: X, s: seq<X>, key: X -> real)
    requires SortedBy(s, key)
    ensures SortedBy(Insert(x, s, key), key)
  {
    if s != [] && key(x) >= key(s[0]) {
      InsertSorted(x, s[1..], key);
      InsertLowerBound(x, s[1..], key, key(s[0]));
    }
  }

  lemma {:induction false} InsertMultiset<X>(x: X, s: seq<X>, key: X -> real)
    ensures multiset(Insert(x, s, key)) == multiset(s) + multiset{x}
  {
    if s != [] && key(x) >= key(s[0]) {
      InsertMultiset(x, s[1..], key);
      assert s == [s[0]] + s[1..];
    }
  }

  lemma {:induction false} InsertWithKey<X>(x: X, s: seq<X>, key: X -> real, k: real)
    requires SortedBy(s, key)
    ensures WithKey(Insert(x, s, key), key, k) == WithKey(s, key, k) + (if key(x) == k then [x] else [])
  {
    if s == [] {
    } else if key(x) < key(s[0]) {
      assert ([x] + s)[1..] == s;
      if key(x) == k {
        WithKeyAbove(s, key, k);
      }
    } else {
      var r := Insert(x, s[1..], key);
      InsertWithKey(x, s[1..], key, k);
      assert ([s[0]] + r)[1..] == r;
    }
  }

  /** The sorted list is in key order, holds the same elements, and keeps the
    * original order among elements with equal keys. */
  lemma {:induction false} SortByProperties<X>(s: seq<X>, key: X -> real)
    ensures SortedBy(SortBy(s, key), key)
    ensures |SortBy(s, key)| == |s|
    ensures multiset(SortBy(s, key)) == multiset(s)
    ensures forall k :: WithKey(SortBy(s, key), key, k) == WithKey(s, key, k)
  {
    if s != [] {
      var init, last := s[..|s| - 1], s[|s| - 1];
      SortByProperties(init, key);
      InsertSorted(last, SortBy(init, key), key);
      InsertMultiset(last, SortBy(init, key), key);
      assert s == init + [last];
      forall k ensures WithKey(SortBy(s, key), key, k) == WithKey(s, key, k)
      {
        InsertWithKey(last, SortBy(init, key), key, k);
        WithKeyAppend(init, [last], key, k);
        assert [last][1..] == [];
      }
      assert |multiset(SortBy(s, key))| == |multiset(s)|;
    }
  }

  /** An already sorted list is left as it is. */
  lemma {:induction false} SortBySorted<X>(s: seq<X>, key: X -> real)
    requires SortedBy(s, key)
    ensures SortBy(s, key) == s
  {
    if s != [] {
      var init, last := s[..|s| - 1], s[|s| - 1];
      assert SortedBy(init, key);
      SortBySorted(init, key);
      InsertAtEnd(last, init, key);
      assert s == init + [last];
    }
  }

  lemma {:induction false} InsertAtEnd<X>(x: X, s: seq<X>, key: X -> real)
    requires forall i :: 0 <= i < |s| ==> key(s[i]) <= key(x)
    ensures Insert(x, s, key) == s + [x]
  {
    if s != [] {
      InsertAtEnd(x, s[1..], key);
      assert s == [s[0]] + s[1..];
    }
  }
}
