/**
 * Python's `sorted(xs, key=k, reverse=True)`: a stable sort by descending key.
 * Stability means elements with equal keys keep their original relative order,
 * which Python guarantees also when `reverse=True`.
 */
module Sorting {

  /** `s` is in descending order of `key`. */
  ghost predicate SortedDesc<T>(s: seq<T>, key: T -> real) {
    forall i, j :: 0 <= i < j < |s| ==> key(s[i]) >= key(s[j])
  }

  /**
   * Inserts `x` before the first element whose key is not greater than its own,
   * so that `x` lands ahead of the elements it ties with.
   */
  function InsertDesc<T>(x: T, t: seq<T>, key: T -> real): (r: seq<T>)
    ensures |r| == |t| + 1
  {
    if t == [] then [x]
    else if key(t[0]) <= key(x) then [x] + t
    else [t[0]] + InsertDesc(x, t[1..], key)
  }

  /** Inserting adds `x` and loses nothing. */
  lemma {:induction false} InsertDescMultiset<T>(x: T, t: seq<T>, key: T -> real)
    ensures multiset(InsertDesc(x, t, key)) == multiset(t) + multiset{x}
  {
    if t != [] && key(t[0]) > key(x) {
      InsertDescMultiset(x, t[1..], key);
      assert t == [t[0]] + t[1..];
    }
  }

  /** Insertion sort from the back: the model of `sorted(s, key=key, reverse=True)`. */
  function SortDesc<T>(s: seq<T>, key: T -> real): (r: seq<T>)
    ensures |r| == |s|
    ensures multiset(r) == multiset(s)
  {
    if s == [] then []
    else
      assert s == [s[0]] + s[1..];
      InsertDescMultiset(s[0], SortDesc(s[1..], key), key);
      InsertDesc(s[0], SortDesc(s[1..], key), key)
  }

  /** The elements of `s` whose key equals `v`, in their order in `s`. */
  function Ties<T>(s: seq<T>, key: T -> real, v: real): seq<T> {
    if s == [] then []
    else Tie(s[0], key, v) + Ties(s[1..], key, v)
  }

  lemma {:induction false} InsertDescSorted<T>(x: T, t: seq<T>, key: T -> real)
    requires SortedDesc(t, key)
    ensures SortedDesc(InsertDesc(x, t, key), key)
  {
    if t != [] && key(t[0]) > key(x) {
      InsertDescSorted(x, t[1..], key);
      var r := InsertDesc(x, t, key);
      var rest := InsertDesc(x, t[1..], key);
      InsertDescMultiset(x, t[1..], key);
      assert r == [t[0]] + rest;
      forall j | 0 < j < |r| ensures key(r[0]) >= key(r[j]) {
        assert r[j] in multiset(rest);
        assert r[j] in multiset(t[1..]) + multiset{x};
        if r[j] != x {
          assert r[j] in t[1..];
        }
      }
    }
  }

  /** The result is ordered by descending key. */
  lemma {:induction false} SortDescSorted<T>(s: seq<T>, key: T -> real)
    ensures SortedDesc(SortDesc(s, key), key)
  {
    if s != [] {
      SortDescSorted(s[1..], key);
      InsertDescSorted(s[0], SortDesc(s[1..], key), key);
    }
  }

  /** `[y]` when `y` has key `v`, else nothing: what one element adds to `Ties`. */
  function Tie<T>(y: T, key: T -> real, v: real): seq<T> {
    if key(y) == v then [y] else []
  }

  lemma EmptyAppend<T>(w: seq<T>)
    ensures [] + w == w
  {
  }

  lemma TiesCons<T>(y: T, s: seq<T>, key: T -> real, v: real)
    ensures Ties([y] + s, key, v) == Tie(y, key, v) + Ties(s, key, v)
  {
    assert ([y] + s)[0] == y && ([y] + s)[1..] == s;
  }

  /**
   * Prepending `y` to both sides keeps the ties of `rest` equal to those of `x` followed by
   * `tail`, when `y`'s key is greater than `x`'s: at most one of the two has key `v`.
   */
  lemma TiesPast<T>(y: T, x: T, rest: seq<T>, tail: seq<T>, key: T -> real, v: real)
    requires key(y) > key(x)
    requires Ties(rest, key, v) == Tie(x, key, v) + Ties(tail, key, v)
    ensures Ties([y] + rest, key, v) == Tie(x, key, v) + Ties([y] + tail, key, v)
  {
    TiesCons(y, rest, key, v);
    TiesCons(y, tail, key, v);
    var u := Ties(tail, key, v);
    if key(x) == v {
      assert Tie(y, key, v) == [];
      EmptyAppend(Tie(x, key, v) + u);
      EmptyAppend(u);
    } else {
      assert Tie(x, key, v) == [];
      EmptyAppend(u);
      EmptyAppend(Tie(y, key, v) + u);
    }
  }

  lemma {:induction false} TiesInsert<T>(x: T, t: seq<T>, key: T -> real, v: real)
    ensures Ties(InsertDesc(x, t, key), key, v) == Tie(x, key, v) + Ties(t, key, v)
  {
    if t == [] {
      assert InsertDesc(x, t, key) == [x] + [];
      TiesCons(x, [], key, v);
    } else if key(t[0]) <= key(x) {
      assert InsertDesc(x, t, key) == [x] + t;
      TiesCons(x, t, key, v);
    } else {
      var rest := InsertDesc(x, t[1..], key);
      TiesInsert(x, t[1..], key, v);
      TiesPast(t[0], x, rest, t[1..], key, v);
      assert InsertDesc(x, t, key) == [t[0]] + rest;
      assert t == [t[0]] + t[1..];
    }
  }

  /** Stability: for every key value, the elements with that key appear in their original order. */
  lemma {:induction false} SortDescStable<T>(s: seq<T>, key: T -> real, v: real)
    ensures Ties(SortDesc(s, key), key, v) == Ties(s, key, v)
  {
    if s != [] {
      SortDescStable(s[1..], key, v);
      TiesInsert(s[0], SortDesc(s[1..], key), key, v);
    }
  }

  /** `a` may precede `b`: a greater key, or an equal key and a smaller tag. */
  predicate Precedes<T>(a: T, b: T, key: T -> real, tag: T -> int) {
    key(a) > key(b) || (key(a) == key(b) && tag(a) < tag(b))
  }

  /** Descending by `key`, and ascending by `tag` among elements with equal keys. */
  ghost predicate LexOrdered<T>(s: seq<T>, key: T -> real, tag: T -> int) {
    forall i, j :: 0 <= i < j < |s| ==> Precedes(s[i], s[j], key, tag)
  }

  /** `tag` strictly increases along `s`. */
  ghost predicate TagsIncreasing<T>(s: seq<T>, tag: T -> int) {
    forall i, j :: 0 <= i < j < |s| ==> tag(s[i]) < tag(s[j])
  }

  /** Prepending an element that precedes every element keeps a sequence lexicographically ordered. */
  lemma ConsLex<T>(x: T, t: seq<T>, key: T -> real, tag: T -> int)
    requires LexOrdered(t, key, tag)
    requires forall y :: y in multiset(t) ==> Precedes(x, y, key, tag)
    ensures LexOrdered([x] + t, key, tag)
  {
    var r := [x] + t;
    forall i, j | 0 <= i < j < |r| ensures Precedes(r[i], r[j], key, tag) {
      assert r[j] == t[j - 1];
      if i == 0 {
        assert t[j - 1] in multiset(t);
      } else {
        assert r[i] == t[i - 1];
      }
    }
  }

  /** The head of a lexicographically ordered sequence precedes all of its elements but itself. */
  lemma HeadPrecedesLex<T>(x: T, t: seq<T>, key: T -> real, tag: T -> int)
    requires t != [] && LexOrdered(t, key, tag)
    requires key(t[0]) <= key(x) && tag(x) < tag(t[0])
    ensures forall y :: y in multiset(t) ==> Precedes(x, y, key, tag)
  {
    forall y | y in multiset(t) ensures Precedes(x, y, key, tag) {
      var k :| 0 <= k < |t| && t[k] == y;
      if k > 0 {
        assert Precedes(t[0], t[k], key, tag);
      }
    }
  }

  /** The tail of a lexicographically ordered sequence is ordered and holds only elements of it. */
  lemma TailLex<T>(t: seq<T>, key: T -> real, tag: T -> int)
    requires t != [] && LexOrdered(t, key, tag)
    ensures LexOrdered(t[1..], key, tag)
    ensures forall y :: y in multiset(t[1..]) ==> y in multiset(t)
  {
    assert t == [t[0]] + t[1..];
    var u := t[1..];
    forall i, j | 0 <= i < j < |u| ensures Precedes(u[i], u[j], key, tag) {
      assert u[i] == t[i + 1] && u[j] == t[j + 1];
    }
  }

  /** The head of `t`, with a greater key than `x`, precedes everything in `rest`, the tail with `x` inserted. */
  lemma HeadPrecedesInsert<T>(x: T, t: seq<T>, rest: seq<T>, key: T -> real, tag: T -> int)
    requires t != [] && LexOrdered(t, key, tag) && key(t[0]) > key(x)
    requires multiset(rest) == multiset(t[1..]) + multiset{x}
    ensures forall y :: y in multiset(rest) ==> Precedes(t[0], y, key, tag)
  {
    forall y | y in multiset(rest) ensures Precedes(t[0], y, key, tag) {
      assert y in multiset(t[1..]) + multiset{x};
      if y != x {
        var k :| 0 <= k < |t[1..]| && t[1..][k] == y;
        assert t[k + 1] == y;
      }
    }
  }

  lemma {:induction false} InsertDescLex<T>(x: T, t: seq<T>, key: T -> real, tag: T -> int)
    requires LexOrdered(t, key, tag)
    requires forall y :: y in multiset(t) ==> tag(x) < tag(y)
    ensures LexOrdered(InsertDesc(x, t, key), key, tag)
  {
    if t == [] {
    } else if key(t[0]) <= key(x) {
      assert t[0] in multiset(t);
      HeadPrecedesLex(x, t, key, tag);
      ConsLex(x, t, key, tag);
    } else {
      var rest := InsertDesc(x, t[1..], key);
      TailLex(t, key, tag);
      InsertDescLex(x, t[1..], key, tag);
      InsertDescMultiset(x, t[1..], key);
      HeadPrecedesInsert(x, t, rest, key, tag);
      ConsLex(t[0], rest, key, tag);
    }
  }

  /**
   * When the elements carry strictly increasing tags (such as their original positions),
   * the stable descending sort orders them by descending key and then by ascending tag.
   */
  lemma {:induction false} SortDescLex<T>(s: seq<T>, key: T -> real, tag: T -> int)
    requires TagsIncreasing(s, tag)
    ensures LexOrdered(SortDesc(s, key), key, tag)
  {
    if s != [] {
      SortDescLex(s[1..], key, tag);
      var t := SortDesc(s[1..], key);
      forall y | y in multiset(t) ensures tag(s[0]) < tag(y) {
        assert y in multiset(s[1..]);
        var k :| 0 <= k < |s[1..]| && s[1..][k] == y;
        assert s[k + 1] == y;
      }
      InsertDescLex(s[0], t, key, tag);
    }
  }
}
