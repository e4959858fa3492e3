/** Arithmetic helpers over the reals and integers used by the scores and counters. */
module Numbers {

  function Abs(x: real): (r: real)
    ensures r >= 0.0 && (r == x || r == -x)
  {
    if x < 0.0 then -x else x
  }

  function Min(a: int, b: int): (r: int)
    ensures r <= a && r <= b && (r == a || r == b)
  {
    if a <= b then a else b
  }

  /** `m` is the largest element of `s`. */
  predicate IsMax(s: set<real>, m: real) {
    m in s && forall x :: x in s ==> x <= m
  }

  lemma {:induction false} MaxExists(s: set<real>)
    requires s != {}
    ensures exists m :: IsMax(s, m)
    decreases |s|
  {
    if forall y :: y !in s { assert false; }
    var y :| y in s;
    var rest := s - {y};
    if rest == {} {
      forall x | x in s ensures x <= y { assert x !in rest; }
      assert IsMax(s, y);
    } else {
      MaxExists(rest);
      var m :| IsMax(rest, m);
      var best := if y <= m then m else y;
      forall x | x in s ensures x <= best {
        if x != y { assert x in rest; }
      }
      assert IsMax(s, best);
    }
  }

  /** Python's `max()` over a non-empty collection of floats. */
  function Max(s: set<real>): (m: real)
    requires s != {}
    ensures m in s && forall x :: x in s ==> x <= m
  {
    MaxExists(s);
    var m :| IsMax(s, m); m
  }

  /** `b` raised to the `n`-th power. */
  function Pow(b: real, n: nat): (r: real)
    ensures b >= 1.0 ==> r >= 1.0
  {
    if n == 0 then 1.0 else b * Pow(b, n - 1)
  }

  function SumInts(s: seq<int>): int {
    if s == [] then 0 else SumInts(s[..|s| - 1]) + s[|s| - 1]
  }

  function SumReals(s: seq<real>): real {
    if s == [] then 0.0 else SumReals(s[..|s| - 1]) + s[|s| - 1]
  }

  lemma {:induction false} SumIntsAppend(a: seq<int>, b: seq<int>)
    ensures SumInts(a + b) == SumInts(a) + SumInts(b)
    decreases |b|
  {
    if b == [] {
      assert a + b == a;
    } else {
      assert (a + b)[..|a + b| - 1] == a + b[..|b| - 1];
      SumIntsAppend(a, b[..|b| - 1]);
    }
  }
}
