/**
 * The rank-based retrieval metrics of the benchmark scripts: the rank of the first gold
 * document, recall at k and mean reciprocal rank over per-query ranks.
 */
module BenchmarkUtils {
  import opened Wrappers
  import opened Types

  /**
   * `get_found_rank`: the 1-based position of the first document whose id is gold, or None
   * when there is none.
   */
  method GetFoundRank(outputDocs: seq<ScoredDocument>, goldIds: set<string>) returns (rank: Option<int>)
    ensures rank.Some? ==> 1 <= rank.value <= |outputDocs| && outputDocs[rank.value - 1].id in goldIds
    ensures rank.Some? ==> forall j :: 0 <= j < rank.value - 1 ==> outputDocs[j].id !in goldIds
    ensures rank.None? <==> forall j :: 0 <= j < |outputDocs| ==> outputDocs[j].id !in goldIds
  {
    for i := 0 to |outputDocs|
      invariant forall j :: 0 <= j < i ==> outputDocs[j].id !in goldIds
    {
      if outputDocs[i].id in goldIds {
        return Some(i + 1);
      }
    }
    return None;
  }

  /** The number of ranks that are present and at most `k`. */
  function Hits(ranks: seq<Option<int>>, k: int): (h: nat)
    ensures h <= |ranks|
    ensures h == 0 <==> forall i :: 0 <= i < |ranks| ==> !(ranks[i].Some? && ranks[i].value <= k)
    ensures h == |ranks| <==> forall i :: 0 <= i < |ranks| ==> ranks[i].Some? && ranks[i].value <= k
  {
    if ranks == [] then 0
    else Hits(ranks[..|ranks| - 1], k) + (if ranks[|ranks| - 1].Some? && ranks[|ranks| - 1].value <= k then 1 else 0)
  }

  /** Recall at `k`: the fraction of queries whose gold document was found at rank `k` or better. */
  function Recall(ranks: seq<Option<int>>, k: int): real {
    if ranks == [] then 0.0 else Hits(ranks, k) as real / |ranks| as real
  }

  /** `calculate_recall_at_k(results, k)` over the `found_at_rank` of each result (None when absent). */
  method CalculateRecallAtK(ranks: seq<Option<int>>, k: int) returns (r: real)
    ensures r == Recall(ranks, k)
  {
    if |ranks| == 0 {
      return 0.0;
    }
    var hits := 0;
    for i := 0 to |ranks|
      invariant hits == Hits(ranks[..i], k)
    {
      assert ranks[..i + 1][..i] == ranks[..i];
      var rank := ranks[i];
      if rank.Some? && rank.value <= k {
        hits := hits + 1;
      }
    }
    assert ranks[..|ranks|] == ranks;
    return hits as real / |ranks| as real;
  }

  /** Python's message for `1.0 / 0`. */
  const ZeroRankError := "float division by zero"

  /** Some present rank is 0, which `1.0 / rank` cannot divide by. */
  predicate HasZeroRank(ranks: seq<Option<int>>) {
    exists i :: 0 <= i < |ranks| && ranks[i] == Some(0)
  }

  /** The sum of `1 / rank` over the present ranks. */
  function ReciprocalSum(ranks: seq<Option<int>>): real
    requires !HasZeroRank(ranks)
  {
    if ranks == [] then 0.0
    else
      var init := ranks[..|ranks| - 1];
      assert !HasZeroRank(init) by {
        forall i | 0 <= i < |init| ensures init[i] != Some(0) {
          assert init[i] == ranks[i];
        }
      }
      var last := ranks[|ranks| - 1];
      ReciprocalSum(init) + (if last.Some? then 1.0 / last.value as real else 0.0)
  }

  /** Mean reciprocal rank, or the division error when some rank is 0. */
  function Mrr(ranks: seq<Option<int>>): Result<real, string> {
    if ranks == [] then Ok(0.0)
    else if HasZeroRank(ranks) then Err(ZeroRankError)
    else Ok(ReciprocalSum(ranks) / |ranks| as real)
  }

  /** `calculate_mrr(results)`; a rank of 0 raises `ZeroDivisionError` in the loop. */
  method CalculateMrr(ranks: seq<Option<int>>) returns (r: Result<real, string>)
    ensures r == Mrr(ranks)
  {
    if |ranks| == 0 {
      return Ok(0.0);
    }
    var rrSum := 0.0;
    for i := 0 to |ranks|
      invariant !HasZeroRank(ranks[..i])
      invariant rrSum == ReciprocalSum(ranks[..i])
    {
      assert ranks[..i + 1][..i] == ranks[..i];
      var rank := ranks[i];
      if rank.Some? {
        if rank.value == 0 {
          assert ranks[i] == Some(0);
          return Err(ZeroRankError);
        }
        rrSum := rrSum + 1.0 / rank.value as real;
      }
      ghost var upto := ranks[..i + 1];
      assert !HasZeroRank(upto) by {
        forall j | 0 <= j < |upto| ensures upto[j] != Some(0) {
          if j < i {
            assert upto[j] == ranks[..i][j];
          }
        }
      }
    }
    assert ranks[..|ranks|] == ranks;
    return Ok(rrSum / |ranks| as real);
  }

  // ---------------------------------------------------------------------------------------
  // properties of the metrics

  lemma FractionBound(a: real, n: real)
    requires 0.0 <= a <= n && n > 0.0
    ensures 0.0 <= a / n <= 1.0
  {
    assert a / n * n == a;
  }

  lemma DivMonotone(a: real, b: real, n: real)
    requires a <= b && n > 0.0
    ensures a / n <= b / n
  {
    assert b / n - a / n == (b - a) / n;
    assert (b - a) / n * n == b - a;
  }

  /** Recall lies between 0 and 1. */
  lemma RecallBounds(ranks: seq<Option<int>>, k: int)
    ensures 0.0 <= Recall(ranks, k) <= 1.0
  {
    if ranks != [] {
      FractionBound(Hits(ranks, k) as real, |ranks| as real);
    }
  }

  lemma {:induction false} HitsMonotone(ranks: seq<Option<int>>, k1: int, k2: int)
    requires k1 <= k2
    ensures Hits(ranks, k1) <= Hits(ranks, k2)
    decreases |ranks|
  {
    if ranks != [] {
      HitsMonotone(ranks[..|ranks| - 1], k1, k2);
    }
  }

  /** A larger cut-off never lowers recall. */
  lemma RecallMonotone(ranks: seq<Option<int>>, k1: int, k2: int)
    requires k1 <= k2
    ensures Recall(ranks, k1) <= Recall(ranks, k2)
  {
    if ranks != [] {
      HitsMonotone(ranks, k1, k2);
      var n := |ranks| as real;
      var h1 := Hits(ranks, k1) as real;
      var h2 := Hits(ranks, k2) as real;
      DivMonotone(h1, h2, n);
    }
  }

  /** The present ranks. */
  function Found(ranks: seq<Option<int>>): (c: nat)
    ensures c <= |ranks|
    ensures c == 0 <==> forall i :: 0 <= i < |ranks| ==> ranks[i].None?
    ensures c == |ranks| <==> forall i :: 0 <= i < |ranks| ==> ranks[i].Some?
  {
    if ranks == [] then 0 else Found(ranks[..|ranks| - 1]) + (if ranks[|ranks| - 1].Some? then 1 else 0)
  }

  /** Every present rank is at least 1, as `get_found_rank` produces them. */
  predicate PositiveRanks(ranks: seq<Option<int>>) {
    forall i :: 0 <= i < |ranks| && ranks[i].Some? ==> ranks[i].value >= 1
  }

  lemma ReciprocalBound(r: int)
    requires r >= 1
    ensures 0.0 < 1.0 / r as real <= 1.0
  {
    FractionBound(1.0, r as real);
  }

  /** With ranks of at least 1, each found query adds between 0 and 1 to the sum. */
  lemma {:induction false} ReciprocalSumBound(ranks: seq<Option<int>>)
    requires PositiveRanks(ranks)
    ensures !HasZeroRank(ranks)
    ensures 0.0 <= ReciprocalSum(ranks) <= Found(ranks) as real
    decreases |ranks|
  {
    if ranks != [] {
      var init := ranks[..|ranks| - 1];
      assert PositiveRanks(init) by {
        forall i | 0 <= i < |init| && init[i].Some? ensures init[i].value >= 1 {
          assert init[i] == ranks[i];
        }
      }
      ReciprocalSumBound(init);
      var last := ranks[|ranks| - 1];
      if last.Some? {
        ReciprocalBound(last.value);
      }
    }
  }

  /** With ranks of at least 1 the mean reciprocal rank is defined and lies between 0 and 1. */
  lemma MrrBounds(ranks: seq<Option<int>>)
    requires PositiveRanks(ranks)
    ensures Mrr(ranks).Ok? && 0.0 <= Mrr(ranks).value <= 1.0
  {
    ReciprocalSumBound(ranks);
    if ranks != [] {
      FractionBound(ReciprocalSum(ranks), |ranks| as real);
    }
  }

  /** A query whose gold document was not found adds nothing to the hits or to the reciprocal sum. */
  lemma NotFoundAddsNothing(ranks: seq<Option<int>>, k: int)
    requires !HasZeroRank(ranks)
    ensures Hits(ranks + [None], k) == Hits(ranks, k)
    ensures !HasZeroRank(ranks + [None]) && ReciprocalSum(ranks + [None]) == ReciprocalSum(ranks)
  {
    var s := ranks + [None];
    assert s[..|s| - 1] == ranks;
    assert !HasZeroRank(s) by {
      forall i | 0 <= i < |s| ensures s[i] != Some(0) {
        if i < |ranks| {
          assert s[i] == ranks[i];
        }
      }
    }
  }

  /** Finding gold at rank 1, at rank 2 and not at all: recall@1 is 1/3 and the reciprocal sum is 1.5. */
  lemma MetricsExample()
    ensures Recall([Some(1), Some(2), None], 1) == 1.0 / 3.0
    ensures Mrr([Some(1), Some(2), None]) == Ok(1.5 / 3.0)
  {
    var r: seq<Option<int>> := [Some(1), Some(2), None];
    assert r[..2] == [Some(1), Some(2)] && r[..2][..1] == [Some(1)] && |r[..2][..1][..0]| == 0;
    assert Hits(r, 1) == 1;
    assert !HasZeroRank(r) by {
      forall i | 0 <= i < 3 ensures r[i] != Some(0) {
      }
    }
    assert !HasZeroRank(r[..2]) && !HasZeroRank(r[..2][..1]) && !HasZeroRank(r[..2][..1][..0]);
    assert ReciprocalSum([Some(1)]) == 1.0;
    assert ReciprocalSum(r[..2]) == 1.5;
    assert ReciprocalSum(r) == 1.5;
  }
}
