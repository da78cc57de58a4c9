/** Python's ordering of `str` values (lexicographic by code point) and
    `list.sort(key=...)`, which is a stable sort on that ordering. */
module StrOrder {

  /** `a <= b` on Python strings. */
  predicate Le(a: string, b: string)
    decreases |a|
  {
    |a| == 0 || (|b| > 0 && (a[0] < b[0] || (a[0] == b[0] && Le(a[1..], b[1..]))))
  }

  lemma {:induction false} LeReflexive(a: string)
    ensures Le(a, a)
    decreases |a|
  {
    if |a| > 0 {
      LeReflexive(a[1..]);
    }
  }

  lemma {:induction false} LeTotal(a: string, b: string)
    ensures Le(a, b) || Le(b, a)
    decreases |a|
  {
    if |a| > 0 && |b| > 0 && a[0] == b[0] {
      LeTotal(a[1..], b[1..]);
    }
  }

  lemma {:induction false} LeAntisymmetric(a: string, b: string)
    requires Le(a, b) && Le(b, a)
    ensures a == b
    decreases |a|
  {
    if |a| > 0 {
      LeAntisymmetric(a[1..], b[1..]);
      assert a == [a[0]] + a[1..] && b == [b[0]] + b[1..];
    }
  }

  lemma {:induction false} LeTransitive(a: string, b: string, c: string)
    requires Le(a, b) && Le(b, c)
    ensures Le(a, c)
    decreases |a|
  {
    if |a| > 0 && a[0] == b[0] && b[0] == c[0] {
      LeTransitive(a[1..], b[1..], c[1..]);
    }
  }
}

module Sorting {
  import opened StrOrder

  /** The keys of `s` never decrease. */
  predicate SortedBy<T>(s: seq<T>, key: T -> string) {
    forall i, j | 0 <= i < j < |s| :: Le(key(s[i]), key(s[j]))
  }

  /** Every element of `s` has a key at least `lo`. */
  predicate AllAtLeast<T>(s: seq<T>, key: T -> string, lo: string) {
    forall i | 0 <= i < |s| :: Le(lo, key(s[i]))
  }

  /** Insert `x` before the first element whose key is not below `x`'s. */
  function Insert<T(==)>(x: T, s: seq<T>, key: T -> string): (r: seq<T>)
    ensures |r| == |s| + 1
    ensures multiset(r) == multiset(s) + multiset{x}
  {
    if |s| == 0 then [x]
    else if Le(key(x), key(s[0])) then [x] + s
    else
      assert s == [s[0]] + s[1..];
      [s[0]] + Insert(x, s[1..], key)
  }

  lemma {:induction false} InsertAtLeast<T>(x: T, s: seq<T>, key: T -> string, lo: string)
    requires Le(lo, key(x)) && AllAtLeast(s, key, lo)
    ensures AllAtLeast(Insert(x, s, key), key, lo)
    decreases |s|
  {
    if |s| > 0 && !Le(key(x), key(s[0])) {
      InsertAtLeast(x, s[1..], key, lo);
    }
  }

  lemma {:induction false} InsertSorted<T>(x: T, s: seq<T>, key: T -> string)
    requires SortedBy(s, key)
    ensures SortedBy(Insert(x, s, key), key)
    decreases |s|
  {
    if |s| == 0 {
    } else if Le(key(x), key(s[0])) {
      forall j | 0 < j < |s|
        ensures Le(key(x), key(s[j]))
      {
        LeTransitive(key(x), key(s[0]), key(s[j]));
      }
    } else {
      var t := s[1..];
      LeTotal(key(x), key(s[0]));
      InsertSorted(x, t, key);
      InsertAtLeast(x, t, key, key(s[0]));
    }
  }

  /** `list.sort(key=key)` (Python's sort is stable). */
  function SortBy<T(==)>(s: seq<T>, key: T -> string): (r: seq<T>)
    ensures multiset(r) == multiset(s)
    ensures SortedBy(r, key)
  {
    if |s| == 0 then []
    else
      var rest := SortBy(s[1..], key);
      InsertSorted(s[0], rest, key);
      assert s == [s[0]] + s[1..];
      Insert(s[0], rest, key)
  }

  /** The elements of `s` whose key is `k`, in their order in `s`. */
  function WithKey<T>(s: seq<T>, key: T -> string, k: string): seq<T> {
    if |s| == 0 then [] else (if key(s[0]) == k then [s[0]] else []) + WithKey(s[1..], key, k)
  }

  lemma {:induction false} InsertWithKey<T>(x: T, s: seq<T>, key: T -> string, k: string)
    requires SortedBy(s, key)
    ensures WithKey(Insert(x, s, key), key, k)
         == (if key(x) == k then [x] else []) + WithKey(s, key, k)
    decreases |s|
  {
    if |s| == 0 {
    } else if Le(key(x), key(s[0])) {
      assert ([x] + s)[1..] == s;
    } else {
      LeReflexive(key(x));
      InsertWithKey(x, s[1..], key, k);
      assert ([s[0]] + Insert(x, s[1..], key))[1..] == Insert(x, s[1..], key);
    }
  }

  /** Stability: elements with equal keys keep their relative order. */
  lemma {:induction false} SortByStable<T>(s: seq<T>, key: T -> string, k: string)
    ensures WithKey(SortBy(s, key), key, k) == WithKey(s, key, k)
    decreases |s|
  {
    if |s| > 0 {
      SortByStable(s[1..], key, k);
      InsertWithKey(s[0], SortBy(s[1..], key), key, k);
    }
  }
  /** No two elements of `s` share a tag. */
  predicate DistinctBy<T, U(==)>(s: seq<T>, tag: T -> U) {
    forall i, j | 0 <= i < j < |s| :: tag(s[i]) != tag(s[j])
  }

  lemma {:induction false} InsertDistinct<T, U>(x: T, s: seq<T>, key: T -> string, tag: T -> U)
    requires DistinctBy(s, tag)
    requires forall k | 0 <= k < |s| :: tag(x) != tag(s[k])
    ensures DistinctBy(Insert(x, s, key), tag)
    decreases |s|
  {
    if |s| > 0 && !Le(key(x), key(s[0])) {
      var t := s[1..];
      var r := Insert(x, t, key);
      InsertDistinct(x, t, key, tag);
      forall k | 0 <= k < |r|
        ensures tag(s[0]) != tag(r[k])
      {
        assert r[k] in multiset(r);
        if r[k] != x {
          assert r[k] in multiset(t);
          var j :| 0 <= j < |t| && t[j] == r[k];
          assert s[j + 1] == r[k];
        }
      }
      assert Insert(x, s, key) == [s[0]] + r;
    }
  }

  /** Sorting never makes two elements share a tag. */
  lemma {:induction false} SortByDistinct<T, U>(s: seq<T>, key: T -> string, tag: T -> U)
    requires DistinctBy(s, tag)
    ensures DistinctBy(SortBy(s, key), tag)
    decreases |s|
  {
    if |s| > 0 {
      var t := s[1..];
      var r := SortBy(t, key);
      SortByDistinct(t, key, tag);
      forall k | 0 <= k < |r|
        ensures tag(s[0]) != tag(r[k])
      {
        assert r[k] in multiset(r);
        assert r[k] in multiset(t);
        var j :| 0 <= j < |t| && t[j] == r[k];
        assert s[j + 1] == r[k];
      }
      InsertDistinct(s[0], r, key, tag);
    }
  }

  /** Sorting an already sorted list leaves it as it is. */
  lemma {:induction false} SortBySorted<T>(s: seq<T>, key: T -> string)
    requires SortedBy(s, key)
    ensures SortBy(s, key) == s
    decreases |s|
  {
    if |s| > 0 {
      SortBySorted(s[1..], key);
      assert s == [s[0]] + s[1..];
    }
  }
  /** Sorting keeps exactly the same elements. */
  lemma {:induction false} SortByMembers<T>(s: seq<T>, key: T -> string)
    ensures forall x :: x in SortBy(s, key) <==> x in s
  {
    var r := SortBy(s, key);
    forall x
      ensures x in r <==> x in s
    {
      assert x in r <==> x in multiset(r);
      assert x in s <==> x in multiset(s);
    }
  }

  /** Putting an element with a fresh tag in front keeps the tags distinct. */
  lemma {:induction false} ConsDistinct<T, U>(x: T, s: seq<T>, tag: T -> U)
    requires DistinctBy(s, tag)
    requires forall k | 0 <= k < |s| :: tag(x) != tag(s[k])
    ensures DistinctBy([x] + s, tag)
  {
    var t := [x] + s;
    forall i, j | 0 <= i < j < |t|
      ensures tag(t[i]) != tag(t[j])
    {
      assert t[j] == s[j - 1];
      if i > 0 {
        assert t[i] == s[i - 1];
      }
    }
  }
  /** Every element whose key is `key(x)` becomes `x`; when there is none,
      `x` is appended. The keys are listed first and searched for `key(x)`. */
  function ReplaceOrAppendBy<T>(s: seq<T>, x: T, key: T -> string): (r: seq<T>)
    ensures (exists i | 0 <= i < |s| :: key(s[i]) == key(x)) ==>
      |r| == |s| && forall i | 0 <= i < |s| :: r[i] == if key(s[i]) == key(x) then x else s[i]
    ensures (forall i | 0 <= i < |s| :: key(s[i]) != key(x)) ==> r == s + [x]
  {
    var keys := seq(|s|, i requires 0 <= i < |s| => key(s[i]));
    assert forall i | 0 <= i < |s| :: keys[i] == key(s[i]);
    if key(x) in keys then
      seq(|s|, i requires 0 <= i < |s| => if keys[i] == key(x) then x else s[i])
    else
      s + [x]
  }

  /** `x` is present afterwards and is the only element with its key; every
      other element comes from `s`, and every element of `s` with another key
      stays. */
  lemma {:induction false} ReplaceOrAppendContents<T>(s: seq<T>, x: T, key: T -> string)
    ensures var r := ReplaceOrAppendBy(s, x, key);
      && x in r
      && (forall y | y in r :: key(y) == key(x) ==> y == x)
      && (forall y | y in r :: y == x || (y in s && key(y) != key(x)))
      && (forall y | y in s && key(y) != key(x) :: y in r)
    ensures |ReplaceOrAppendBy(s, x, key)| ==
      if exists i | 0 <= i < |s| :: key(s[i]) == key(x) then |s| else |s| + 1
  {
    var r := ReplaceOrAppendBy(s, x, key);
    if exists i | 0 <= i < |s| :: key(s[i]) == key(x) {
      var i :| 0 <= i < |s| && key(s[i]) == key(x);
      assert r[i] == x;
      forall y | y in r
        ensures y == x || (y in s && key(y) != key(x))
      {
        var k :| 0 <= k < |r| && r[k] == y;
      }
      forall y | y in s && key(y) != key(x)
        ensures y in r
      {
        var j :| 0 <= j < |s| && s[j] == y;
        assert r[j] == y;
      }
    } else {
      assert r[|s|] == x;
      forall y | y in r
        ensures y == x || (y in s && key(y) != key(x))
      {
        var k :| 0 <= k < |r| && r[k] == y;
        if k < |s| {
          assert y == s[k];
        }
      }
    }
  }

  /** Sorting after the replacement keeps its contents. */
  lemma {:induction false} SortedReplaceContents<T>(s: seq<T>, x: T, key: T -> string)
    ensures var r := SortBy(ReplaceOrAppendBy(s, x, key), key);
      && x in r
      && (forall y | y in r :: key(y) == key(x) ==> y == x)
      && (forall y | y in r :: y == x || (y in s && key(y) != key(x)))
      && (forall y | y in s && key(y) != key(x) :: y in r)
    ensures |SortBy(ReplaceOrAppendBy(s, x, key), key)| ==
      if exists i | 0 <= i < |s| :: key(s[i]) == key(x) then |s| else |s| + 1
  {
    var m := ReplaceOrAppendBy(s, x, key);
    ReplaceOrAppendContents(s, x, key);
    SortByMembers(m, key);
    var r := SortBy(m, key);
    forall y | y in r
      ensures key(y) == key(x) ==> y == x
      ensures y == x || (y in s && key(y) != key(x))
    {
      assert y in multiset(r);
      assert y in m;
    }
    assert |r| == |m| by {
      assert |multiset(r)| == |multiset(m)|;
    }
  }

  /** Replacing by an element that is already the only one with its key
      changes nothing. */
  lemma {:induction false} ReplaceOrAppendPresent<T>(s: seq<T>, x: T, key: T -> string)
    requires x in s
    requires forall y | y in s :: key(y) == key(x) ==> y == x
    ensures ReplaceOrAppendBy(s, x, key) == s
  {
    var i :| 0 <= i < |s| && s[i] == x;
    var r := ReplaceOrAppendBy(s, x, key);
    assert key(s[i]) == key(x);
    forall k | 0 <= k < |s|
      ensures r[k] == s[k]
    {
      assert s[k] in s;
    }
  }
  /** In a list with distinct tags, every element other than `x` has a tag
      other than `x`'s. */
  lemma {:induction false} DistinctByOthers<T, U>(s: seq<T>, x: T, tag: T -> U)
    requires DistinctBy(s, tag) && x in s
    ensures forall k | 0 <= k < |s| && s[k] != x :: tag(s[k]) != tag(x)
  {
    var p :| 0 <= p < |s| && s[p] == x;
    forall k | 0 <= k < |s| && s[k] != x
      ensures tag(s[k]) != tag(x)
    {
      if k < p {
        assert tag(s[k]) != tag(s[p]);
      } else {
        assert tag(s[p]) != tag(s[k]);
      }
    }
  }
}
