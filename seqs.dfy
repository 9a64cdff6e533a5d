/** Order-preserving selection over sequences: the operation behind pandas
    boolean-mask indexing (`df[mask]`) and `Series.dropna()`. */
module Seqs {

  /** The elements of `s` for which `keep` holds, in their original order. */
  function Filter<T(==,!new)>(s: seq<T>, keep: T -> bool): (r: seq<T>)
    ensures |r| <= |s|
    ensures forall x :: x in r <==> x in s && keep(x)
    decreases |s|
  {
    if |s| == 0 then []
    else
      assert s == s[..|s| - 1] + [s[|s| - 1]];
      Filter(s[..|s| - 1], keep) + (if keep(s[|s| - 1]) then [s[|s| - 1]] else [])
  }

  /** The positions of `s` whose element satisfies `keep`, in increasing order. */
  function KeptPositions<T>(s: seq<T>, keep: T -> bool): (ix: seq<nat>)
    ensures forall k :: 0 <= k < |ix| ==> ix[k] < |s|
    ensures forall i :: i in ix <==> 0 <= i < |s| && keep(s[i])
    ensures forall k, l :: 0 <= k < l < |ix| ==> ix[k] < ix[l]
    decreases |s|
  {
    if |s| == 0 then []
    else KeptPositions(s[..|s| - 1], keep) + (if keep(s[|s| - 1]) then [|s| - 1] else [])
  }

  /** `ix` maps each position of `r` to a position of `s` holding the same
      element, and keeps them in increasing order. */
  predicate Embeds<T(==)>(ix: seq<nat>, r: seq<T>, s: seq<T>)
  {
    && |ix| == |r|
    && (forall k :: 0 <= k < |ix| ==> ix[k] < |s| && r[k] == s[ix[k]])
    && (forall k, l :: 0 <= k < l < |ix| ==> ix[k] < ix[l])
  }

  /** `r` is `s` with some elements deleted and none reordered. */
  ghost predicate IsSubsequence<T>(r: seq<T>, s: seq<T>)
  {
    exists ix: seq<nat> :: Embeds(ix, r, s)
  }

  predicate StrictlyIncreasing(s: seq<int>)
  {
    forall i, j :: 0 <= i < j < |s| ==> s[i] < s[j]
  }

  /** Filter keeps exactly the positions KeptPositions lists, in that order:
      every element satisfying `keep` (each occurrence), and nothing else. */
  lemma {:induction false} FilterSelectsKeptPositions<T(!new)>(s: seq<T>, keep: T -> bool)
    ensures Embeds(KeptPositions(s, keep), Filter(s, keep), s)
    decreases |s|
  {
    if |s| > 0 {
      var n := |s| - 1;
      var p, x := s[..n], s[n];
      FilterSelectsKeptPositions(p, keep);
      EmbedsSnoc(KeptPositions(p, keep), Filter(p, keep), p, x, keep(x));
      assert p + [x] == s;
    }
  }

  /** Appending an element to `s`, and to `r` with its position when it is
      kept, preserves an embedding. */
  lemma EmbedsSnoc<T>(ix: seq<nat>, r: seq<T>, s: seq<T>, x: T, kept: bool)
    requires Embeds(ix, r, s)
    ensures Embeds(ix + (if kept then [|s|] else []), r + (if kept then [x] else []), s + [x])
  {
    var ix', r', s' := ix + (if kept then [|s|] else []), r + (if kept then [x] else []), s + [x];
    forall k | 0 <= k < |ix'|
      ensures ix'[k] < |s'| && r'[k] == s'[ix'[k]]
    {
      if k < |ix| {
        assert ix'[k] == ix[k] && r'[k] == r[k];
      }
    }
  }

  lemma FilterIsSubsequence<T(!new)>(s: seq<T>, keep: T -> bool)
    ensures IsSubsequence(Filter(s, keep), s)
  {
    FilterSelectsKeptPositions(s, keep);
  }

  /** Each occurrence of a kept value survives; no other value does. */
  lemma {:induction false} FilterCount<T(!new)>(s: seq<T>, keep: T -> bool, x: T)
    ensures multiset(Filter(s, keep))[x] == if keep(x) then multiset(s)[x] else 0
    decreases |s|
  {
    if |s| > 0 {
      var p := s[..|s| - 1];
      FilterCount(p, keep, x);
      assert s == p + [s[|s| - 1]];
      assert multiset(s) == multiset(p) + multiset{s[|s| - 1]};
    }
  }

  /** Two tests that agree on every element of `s` select the same elements. */
  lemma {:induction false} FilterCongruent<T(!new)>(s: seq<T>, keep: T -> bool, keep': T -> bool)
    requires forall x :: x in s ==> keep(x) == keep'(x)
    ensures Filter(s, keep) == Filter(s, keep')
    decreases |s|
  {
    if |s| > 0 {
      FilterCongruent(s[..|s| - 1], keep, keep');
    }
  }

  /** A test that holds of every element keeps the whole sequence. */
  lemma {:induction false} FilterKeepsAll<T(!new)>(s: seq<T>, keep: T -> bool)
    requires forall x :: x in s ==> keep(x)
    ensures Filter(s, keep) == s
    decreases |s|
  {
    if |s| > 0 {
      FilterKeepsAll(s[..|s| - 1], keep);
      assert s == s[..|s| - 1] + [s[|s| - 1]];
    }
  }

  /** When only the first element fails the test, Filter drops exactly it. */
  lemma {:induction false} FilterDropsOnlyFirst<T(!new)>(s: seq<T>, keep: T -> bool)
    requires |s| > 0 && !keep(s[0])
    requires forall i :: 1 <= i < |s| ==> keep(s[i])
    ensures Filter(s, keep) == s[1..]
    decreases |s|
  {
    if |s| > 1 {
      var p := s[..|s| - 1];
      FilterDropsOnlyFirst(p, keep);
      assert s[1..] == p[1..] + [s[|s| - 1]];
    }
  }

  /** A subsequence of a strictly increasing sequence is strictly increasing. */
  lemma FilterKeepsIncreasing(s: seq<int>, keep: int -> bool)
    requires StrictlyIncreasing(s)
    ensures StrictlyIncreasing(Filter(s, keep))
  {
    FilterSelectsKeptPositions(s, keep);
  }

  /** The last element of a strictly increasing sequence is its largest. */
  lemma LastIsLargest(a: seq<int>, x: int)
    requires StrictlyIncreasing(a) && x in a
    ensures x <= a[|a| - 1]
  {
    var i :| 0 <= i < |a| && a[i] == x;
  }

  /** Below the last element means in the prefix before it. */
  lemma BelowLastInPrefix(a: seq<int>, x: int)
    requires StrictlyIncreasing(a) && x in a && x < a[|a| - 1]
    ensures x in a[..|a| - 1]
  {
    var i :| 0 <= i < |a| && a[i] == x;
    assert a[..|a| - 1][i] == x;
  }

  /** Everything before the last element is below it. */
  lemma PrefixBelowLast(a: seq<int>, x: int)
    requires StrictlyIncreasing(a) && |a| > 0 && x in a[..|a| - 1]
    ensures x in a && x < a[|a| - 1]
  {
    var i :| 0 <= i < |a| - 1 && a[..|a| - 1][i] == x;
    assert a[i] == x;
  }

  /** With equal last elements, the prefixes before them hold the same
      elements. */
  lemma PrefixesSameElements(a: seq<int>, b: seq<int>, a': seq<int>, b': seq<int>)
    requires StrictlyIncreasing(a) && StrictlyIncreasing(b)
    requires forall x :: x in a <==> x in b
    requires |a| > 0 && |b| > 0 && a[|a| - 1] == b[|b| - 1]
    requires a' == a[..|a| - 1] && b' == b[..|b| - 1]
    ensures forall x :: x in a' <==> x in b'
  {
    forall x | x in a'
      ensures x in b'
    {
      PrefixBelowLast(a, x);
      BelowLastInPrefix(b, x);
    }
    forall x | x in b'
      ensures x in a'
    {
      PrefixBelowLast(b, x);
      BelowLastInPrefix(a, x);
    }
  }

  /** Strictly increasing sequences are determined by their elements. */
  lemma {:induction false} IncreasingSameElementsEqual(a: seq<int>, b: seq<int>)
    requires StrictlyIncreasing(a) && StrictlyIncreasing(b)
    requires forall x :: x in a <==> x in b
    ensures a == b
    decreases |a| + |b|
  {
    assert |a| > 0 ==> a[0] in a;
    assert |b| > 0 ==> b[0] in b;
    if |a| > 0 && |b| > 0 {
      var m, n := |a| - 1, |b| - 1;
      assert a[m] == b[n] by {
        assert a[m] in a && b[n] in b;
        LastIsLargest(a, b[n]);
        LastIsLargest(b, a[m]);
      }
      var a', b' := a[..m], b[..n];
      PrefixesSameElements(a, b, a', b');
      IncreasingSameElementsEqual(a', b');
      assert a == a' + [a[m]] && b == b' + [b[n]];
    }
  }
}
