/** Sequence helpers: Python's list comprehension filter, slicing and subsequences. */
module Seqs {

  /** `[x for x in s if p(x)]`. */
  function Filter<T>(s: seq<T>, p: T -> bool): (r: seq<T>)
    ensures |r| <= |s|
    ensures forall x :: x in r ==> x in s && p(x)
    ensures forall x :: x in s && p(x) ==> x in r
  {
    if s == [] then []
    else if p(s[0]) then [s[0]] + Filter(s[1..], p)
    else Filter(s[1..], p)
  }

  /** Python's `s[:k]`; a negative `k` counts from the end. */
  function PyTake<T>(s: seq<T>, k: int): (r: seq<T>)
    ensures r <= s
    ensures k >= 0 ==> |r| == if k <= |s| then k else |s|
    ensures k < 0 ==> |r| == if |s| + k >= 0 then |s| + k else 0
  {
    if k >= 0 then
      (if k <= |s| then s[..k] else s)
    else
      (if |s| + k >= 0 then s[..|s| + k] else [])
  }

  /** `a` can be obtained from `b` by deleting elements. */
  ghost predicate IsSubsequence<T>(a: seq<T>, b: seq<T>)
    decreases |b|
  {
    if a == [] then true
    else if b == [] then false
    else if a[0] == b[0] then IsSubsequence(a[1..], b[1..])
    else IsSubsequence(a, b[1..])
  }

  ghost predicate Distinct<T>(s: seq<T>) {
    forall i, j :: 0 <= i < j < |s| ==> s[i] != s[j]
  }

  lemma {:induction false} SubsequenceRefl<T>(a: seq<T>)
    ensures IsSubsequence(a, a)
    decreases |a|
  {
    if a != [] { SubsequenceRefl(a[1..]); }
  }

  lemma {:induction false} FilterIsSubsequence<T>(s: seq<T>, p: T -> bool)
    ensures IsSubsequence(Filter(s, p), s)
    decreases |s|
  {
    if s != [] {
      FilterIsSubsequence(s[1..], p);
      if !p(s[0]) {
        Weaken(Filter(s[1..], p), s);
      }
    }
  }

  /** A subsequence stays one when its first element is removed. */
  lemma {:induction false} SubsequenceTail<T>(a: seq<T>, b: seq<T>)
    requires a != [] && IsSubsequence(a, b)
    ensures IsSubsequence(a[1..], b)
    decreases |b|, 1
  {
    if a[0] == b[0] {
      Weaken(a[1..], b);
    } else {
      SubsequenceTail(a, b[1..]);
      Weaken(a[1..], b);
    }
  }

  /** Adding an element in front of the larger sequence keeps a subsequence. */
  lemma {:induction false} Weaken<T>(a: seq<T>, b: seq<T>)
    requires b != [] && IsSubsequence(a, b[1..])
    ensures IsSubsequence(a, b)
    decreases |b|, 0
  {
    if a != [] && a[0] == b[0] {
      SubsequenceTail(a, b[1..]);
    }
  }

  /** A prefix of a subsequence is a subsequence. */
  lemma {:induction false} SubsequencePrefix<T>(p: seq<T>, a: seq<T>, b: seq<T>)
    requires p <= a && IsSubsequence(a, b)
    ensures IsSubsequence(p, b)
    decreases |b|
  {
    if p != [] {
      assert a != [] && p[0] == a[0];
      if a[0] == b[0] {
        assert p[1..] <= a[1..];
        SubsequencePrefix(p[1..], a[1..], b[1..]);
      } else {
        SubsequencePrefix(p, a, b[1..]);
      }
    }
  }

  /** A sequence without repetitions has as many distinct elements as it has positions. */
  lemma {:induction false} DistinctCard<T>(s: seq<T>)
    requires Distinct(s)
    ensures |set x | x in s| == |s|
  {
    if s != [] {
      DistinctCard(s[1..]);
      assert (set x | x in s) == {s[0]} + (set x | x in s[1..]);
      assert s[0] !in s[1..];
    }
  }

  /** Every element of `p` lies in `0..n-1`. */
  predicate InRange(p: seq<int>, n: int) {
    forall k :: 0 <= k < |p| ==> 0 <= p[k] < n
  }

  lemma {:induction false} SubsetCard<T>(a: set<T>, b: set<T>)
    requires a <= b
    ensures |a| <= |b|
    decreases |b|
  {
    if a != {} {
      if forall x :: x !in a { assert false; }
      var x :| x in a;
      SubsetCard(a - {x}, b - {x});
    }
  }

  /** The positions `0..n-1` as a set. */
  function Below(n: nat): (r: set<int>)
    ensures forall i :: i in r <==> 0 <= i < n
    ensures |r| == n
  {
    if n == 0 then {} else Below(n - 1) + {n - 1}
  }

  /**
   * Distinct positions below `n` number at most `n`, and exactly `n` when every position
   * below `n` is among them.
   */
  lemma DistinctInRange(p: seq<int>, n: nat)
    requires Distinct(p) && InRange(p, n)
    ensures |p| <= n
    ensures (forall i :: 0 <= i < n ==> i in p) ==> |p| == n
  {
    var s := set x | x in p;
    var r := Below(n);
    DistinctCard(p);
    assert s <= r;
    SubsetCard(s, r);
    if forall i :: 0 <= i < n ==> i in p {
      assert r <= s;
      SubsetCard(r, s);
    }
  }

  /** Two duplicate-free sequences with no element in common concatenate to a duplicate-free one. */
  lemma DistinctAppend<T>(a: seq<T>, b: seq<T>)
    requires Distinct(a) && Distinct(b)
    requires forall k :: 0 <= k < |b| ==> b[k] !in a
    ensures Distinct(a + b)
  {
    var c := a + b;
    forall i, j | 0 <= i < j < |c| ensures c[i] != c[j] {
      if j >= |a| {
        assert c[j] == b[j - |a|];
        if i >= |a| {
          assert c[i] == b[i - |a|];
        } else {
          assert c[i] in a;
        }
      }
    }
  }

  /** The middle part of a three-part concatenation. */
  lemma MiddleSlice<T>(a: seq<T>, b: seq<T>, c: seq<T>)
    ensures (a + b + c)[|a|..|a| + |b|] == b
  {
    assert forall k :: 0 <= k < |b| ==> (a + b + c)[|a| + k] == b[k];
  }

  /** A slice of the middle part of a three-part concatenation. */
  lemma SliceShift<T>(a: seq<T>, t: seq<T>, c: seq<T>, i: int, j: int)
    requires 0 <= i <= j <= |t|
    ensures (a + t + c)[|a| + i..|a| + j] == t[i..j]
  {
    assert forall k :: i <= k < j ==> (a + t + c)[|a| + k] == t[k];
  }
}
