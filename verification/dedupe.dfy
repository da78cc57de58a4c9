/** Keeping the first element of each tag, as the loop of `handle_variations`
    does with stub letters: an element whose tag is already seen is dropped,
    and an element without a tag stops the loop. */
module Dedupe {
  import opened Results
  import opened Sorting

  /** `s[i]` survives: it has a tag, the tag is not in `seen`, and no earlier
      element has the same tag. */
  predicate KeptAt<T, U>(s: seq<T>, seen: set<U>, tag: T -> Option<U>, i: int) {
    && 0 <= i < |s|
    && tag(s[i]).Some?
    && tag(s[i]).value !in seen
    && forall j | 0 <= j < i :: tag(s[j]) != tag(s[i])
  }

  /** The elements of `s` whose tag is new, in order; `None` as soon as an
      element has no tag. */
  function DedupBy<T, U(==)>(s: seq<T>, seen: set<U>, tag: T -> Option<U>): (r: Option<seq<T>>)
    ensures r.Some? <==> forall i | 0 <= i < |s| :: tag(s[i]).Some?
    ensures r.Some? ==> DistinctBy(r.value, tag)
    ensures r.Some? ==> forall k | 0 <= k < |r.value| :: tag(r.value[k]).Some? && tag(r.value[k]).value !in seen
    decreases |s|
  {
    if |s| == 0 then Some([])
    else
      assert forall i | 0 <= i < |s| - 1 :: s[1..][i] == s[i + 1];
      match tag(s[0])
      case None => None
      case Some(t) =>
        if t in seen then DedupBy(s[1..], seen, tag)
        else match DedupBy(s[1..], seen + {t}, tag)
          case None => None
          case Some(rest) =>
            ConsDistinct(s[0], rest, tag);
            Some([s[0]] + rest)
  }

  /** Shifting `KeptAt` past the head of the list. */
  lemma {:induction false} KeptAtShift<T, U>(s: seq<T>, seen: set<U>, tag: T -> Option<U>, i: int)
    requires |s| > 0 && tag(s[0]).Some? && 1 <= i < |s|
    ensures var t := tag(s[0]).value;
      KeptAt(s, seen, tag, i) <==> KeptAt(s[1..], if t in seen then seen else seen + {t}, tag, i - 1)
  {
    assert forall j | 0 <= j < i - 1 :: s[1..][j] == s[j + 1];
  }

  /** The elements `DedupBy` keeps are exactly those at the `KeptAt`
      positions. */
  lemma {:induction false} DedupByMembers<T, U>(s: seq<T>, seen: set<U>, tag: T -> Option<U>)
    requires DedupBy(s, seen, tag).Some?
    ensures forall x :: x in DedupBy(s, seen, tag).value <==> exists i :: KeptAt(s, seen, tag, i) && s[i] == x
    decreases |s|
  {
    if |s| > 0 {
      var t := tag(s[0]).value;
      var seen' := if t in seen then seen else seen + {t};
      DedupByMembers(s[1..], seen', tag);
      forall i | 1 <= i < |s| {
        KeptAtShift(s, seen, tag, i);
      }
      var r := DedupBy(s, seen, tag).value;
      var rest := DedupBy(s[1..], seen', tag).value;
      assert r == if t in seen then rest else [s[0]] + rest;
      forall x
        ensures x in r <==> exists i :: KeptAt(s, seen, tag, i) && s[i] == x
      {
        if x in r {
          if t !in seen && x == s[0] {
            assert KeptAt(s, seen, tag, 0);
          } else {
            assert x in rest;
            var i :| KeptAt(s[1..], seen', tag, i) && s[1..][i] == x;
            assert KeptAt(s, seen, tag, i + 1);
          }
        }
        if exists i :: KeptAt(s, seen, tag, i) && s[i] == x {
          var i :| KeptAt(s, seen, tag, i) && s[i] == x;
          if i > 0 {
            assert KeptAt(s[1..], seen', tag, i - 1);
            assert x in rest;
          }
        }
      }
    }
  }

  /** A kept element comes from the input. */
  lemma {:induction false} DedupByElement<T, U>(s: seq<T>, seen: set<U>, tag: T -> Option<U>, x: T)
    requires DedupBy(s, seen, tag).Some? && x in DedupBy(s, seen, tag).value
    ensures x in s
  {
    DedupByMembers(s, seen, tag);
    assert x in DedupBy(s, seen, tag).value <==> exists i :: KeptAt(s, seen, tag, i) && s[i] == x;
  }

  /** Every kept element comes from the input. */
  lemma {:induction false} DedupBySubset<T, U>(s: seq<T>, seen: set<U>, tag: T -> Option<U>)
    requires DedupBy(s, seen, tag).Some?
    ensures forall x | x in DedupBy(s, seen, tag).value :: x in s
  {
    forall x | x in DedupBy(s, seen, tag).value
      ensures x in s
    {
      DedupByElement(s, seen, tag, x);
    }
  }
}
