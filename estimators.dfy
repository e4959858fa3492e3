/**
 * The utility estimator: each unranked document starts from its current score and is boosted
 * by 20% for every high-scoring reranked "winner" that shares a metadata value with it.
 */
module Estimators {
  import opened Wrappers
  import opened Types
  import Numbers
  import Seqs

  /** The metadata keys compared between a document and a winner, in the order they are tried. */
  const MetadataKeys: seq<string> := ["source", "section", "category"]

  /** A ranked document is a winner when its reranker score (0 when absent) exceeds this. */
  const WinnerThreshold := 0.8

  /** The factor applied once per matching winner. */
  const Boost := 1.2

  /** Python's `pool[i]` position: a negative index counts from the end. */
  function PyIndex(n: int, i: int): (p: int)
    requires -n <= i < n
    ensures 0 <= p < n && (p == i || p == n + i)
  {
    if i < 0 then n + i else i
  }

  /** Every ranked index is a valid Python index into a pool of `n` documents. */
  predicate ValidIndices(n: int, ranked: seq<int>) {
    forall i :: i in ranked ==> -n <= i < n
  }

  predicate IsWinner(d: ScoredDocument) {
    d.rerankerScore.GetOr(0.0) > WinnerThreshold
  }

  /** The ranked documents that are winners, in the order of `ranked` (repetitions kept). */
  function Winners(pool: seq<ScoredDocument>, ranked: seq<int>): (ws: seq<ScoredDocument>)
    requires ValidIndices(|pool|, ranked)
    ensures forall w :: w in ws <==>
      IsWinner(w) && exists i :: i in ranked && pool[PyIndex(|pool|, i)] == w
  {
    if ranked == [] then []
    else
      assert ranked[0] in ranked;
      assert forall i :: i in ranked <==> i == ranked[0] || i in ranked[1..];
      var rest := Winners(pool, ranked[1..]);
      var d := pool[PyIndex(|pool|, ranked[0])];
      if IsWinner(d) then [d] + rest else rest
  }

  /** The documents at the ranked indices, one per index, in order. */
  function RankedDocs(pool: seq<ScoredDocument>, ranked: seq<int>): (ds: seq<ScoredDocument>)
    requires ValidIndices(|pool|, ranked)
    ensures |ds| == |ranked|
    ensures forall k :: 0 <= k < |ranked| ==> ranked[k] in ranked && ds[k] == pool[PyIndex(|pool|, ranked[k])]
  {
    assert forall k :: 0 <= k < |ranked| ==> ranked[k] in ranked;
    seq(|ranked|, k requires 0 <= k < |ranked| => pool[PyIndex(|pool|, ranked[k])])
  }

  /**
   * The winners are `[pool[i] for i in ranked_indices if ...]`: the ranked documents kept by
   * the winner test, with their order and their repetitions.
   */
  lemma {:induction false} WinnersAreFiltered(pool: seq<ScoredDocument>, ranked: seq<int>)
    requires ValidIndices(|pool|, ranked)
    ensures Winners(pool, ranked) == Seqs.Filter(RankedDocs(pool, ranked), d => IsWinner(d))
    decreases |ranked|
  {
    if ranked != [] {
      assert forall i :: i in ranked[1..] ==> i in ranked;
      WinnersAreFiltered(pool, ranked[1..]);
      assert RankedDocs(pool, ranked)[1..] == RankedDocs(pool, ranked[1..]);
    }
  }

  /** `doc` and `winner` both carry `key`, with equal values. */
  predicate KeyMatch(doc: ScoredDocument, winner: ScoredDocument, key: string) {
    key in doc.metadata && key in winner.metadata && doc.metadata[key] == winner.metadata[key]
  }

  /** Some compared key matches. */
  predicate Shares(doc: ScoredDocument, winner: ScoredDocument) {
    exists l :: 0 <= l < |MetadataKeys| && KeyMatch(doc, winner, MetadataKeys[l])
  }

  /** The number of winners (with repetitions) that share a key with `doc`. */
  function MatchCount(doc: ScoredDocument, winners: seq<ScoredDocument>): (c: nat)
    ensures c <= |winners|
  {
    if winners == [] then 0
    else MatchCount(doc, winners[..|winners| - 1]) + (if Shares(doc, winners[|winners| - 1]) then 1 else 0)
  }

  /** No winner shares a key exactly when the count is 0, and every winner does exactly when it is full. */
  lemma {:induction false} MatchCountExtremes(doc: ScoredDocument, winners: seq<ScoredDocument>)
    ensures MatchCount(doc, winners) == 0 <==> forall k :: 0 <= k < |winners| ==> !Shares(doc, winners[k])
    ensures MatchCount(doc, winners) == |winners| <==> forall k :: 0 <= k < |winners| ==> Shares(doc, winners[k])
    decreases |winners|
  {
    if winners != [] {
      var front := winners[..|winners| - 1];
      MatchCountExtremes(doc, front);
      assert forall k :: 0 <= k < |front| ==> front[k] == winners[k];
    }
  }

  /**
   * The estimates: ranked positions keep their score; every other document's score is
   * multiplied by 1.2 once for each winner it shares a key with.
   */
  function EstimateSpec(pool: seq<ScoredDocument>, ranked: seq<int>): (r: seq<real>)
    requires ValidIndices(|pool|, ranked)
  {
    var ws := Winners(pool, ranked);
    seq(|pool|, i requires 0 <= i < |pool| => EstimateAt(pool, ranked, ws, i))
  }

  /** The estimate at position `i` given the winners `ws`. */
  function EstimateAt(pool: seq<ScoredDocument>, ranked: seq<int>, ws: seq<ScoredDocument>, i: int): real
    requires 0 <= i < |pool|
  {
    if i in ranked then pool[i].score
    else pool[i].score * Numbers.Pow(Boost, MatchCount(pool[i], ws))
  }

  /** `UtilityEstimator.estimate`: fills a local list with the scores and boosts it in place. */
  method Estimate(pool: seq<ScoredDocument>, ranked: seq<int>) returns (estimates: seq<real>)
    requires ValidIndices(|pool|, ranked)
    ensures estimates == EstimateSpec(pool, ranked)
  {
    var est := new real[|pool|];
    for j := 0 to |pool|
      invariant forall l :: 0 <= l < j ==> est[l] == pool[l].score
    {
      est[j] := pool[j].score;
    }
    ghost var spec := EstimateSpec(pool, ranked);
    var winners := Winners(pool, ranked);
    if ranked == [] || winners == [] {
      forall j | 0 <= j < |pool| ensures spec[j] == pool[j].score {
        SpecAt(pool, ranked, j);
        NoWinnersAt(pool, ranked, j);
      }
      return est[..];
    }
    for i := 0 to |pool|
      invariant forall j :: 0 <= j < i ==> est[j] == spec[j]
      invariant forall j :: i <= j < |pool| ==> est[j] == pool[j].score
    {
      SpecAt(pool, ranked, i);
      if i in ranked {
        continue;
      }
      BoostEntry(est, i, pool[i], winners);
    }
    return est[..];
  }

  /** Position `i` of the estimates, one at a time. */
  lemma SpecAt(pool: seq<ScoredDocument>, ranked: seq<int>, i: int)
    requires ValidIndices(|pool|, ranked) && 0 <= i < |pool|
    ensures |EstimateSpec(pool, ranked)| == |pool|
    ensures EstimateSpec(pool, ranked)[i] == EstimateAt(pool, ranked, Winners(pool, ranked), i)
  {
  }

  /** Without winners an estimate is the document's own score. */
  lemma NoWinnersAt(pool: seq<ScoredDocument>, ranked: seq<int>, i: int)
    requires 0 <= i < |pool|
    ensures EstimateAt(pool, ranked, [], i) == pool[i].score
  {
    if i !in ranked {
      var p := Numbers.Pow(Boost, MatchCount(pool[i], []));
      assert p == 1.0;
    }
  }

  /** The winner loop for one document: `est[i]` is multiplied by 1.2 once per matching winner. */
  method BoostEntry(est: array<real>, i: int, doc: ScoredDocument, winners: seq<ScoredDocument>)
    requires 0 <= i < est.Length
    modifies est
    ensures est[i] == old(est[i]) * Numbers.Pow(Boost, MatchCount(doc, winners))
    ensures forall j :: 0 <= j < est.Length && j != i ==> est[j] == old(est[j])
  {
    ghost var s := est[i];
    for w := 0 to |winners|
      invariant est[i] == s * Numbers.Pow(Boost, MatchCount(doc, winners[..w]))
      invariant forall j :: 0 <= j < est.Length && j != i ==> est[j] == old(est[j])
    {
      ghost var c := MatchCount(doc, winners[..w]);
      assert winners[..w + 1][..w] == winners[..w];
      var matched := KeyLoop(doc, winners[w]);
      if matched {
        PowStep(s, c);
        est[i] := est[i] * Boost;
      }
    }
    assert winners[..|winners|] == winners;
  }

  /**
   * The key loop for one winner, which boosts once at the first matching key and breaks:
   * it reports whether some compared key matches.
   */
  method KeyLoop(doc: ScoredDocument, winner: ScoredDocument) returns (matched: bool)
    ensures matched == Shares(doc, winner)
  {
    for k := 0 to |MetadataKeys|
      invariant forall l :: 0 <= l < k ==> !KeyMatch(doc, winner, MetadataKeys[l])
    {
      var key := MetadataKeys[k];
      if key in doc.metadata && key in winner.metadata && doc.metadata[key] == winner.metadata[key] {
        assert KeyMatch(doc, winner, MetadataKeys[k]);
        return true;
      }
    }
    return false;
  }

  lemma PowStep(s: real, c: nat)
    ensures s * Numbers.Pow(Boost, c) * Boost == s * Numbers.Pow(Boost, c + 1)
  {
  }

  // ---------------------------------------------------------------------------------------
  // properties

  /** Without ranked indices, or without winners, every estimate is the document's own score. */
  lemma {:induction false} EstimateWithoutWinners(pool: seq<ScoredDocument>, ranked: seq<int>)
    requires ValidIndices(|pool|, ranked)
    requires forall i :: i in ranked ==> !IsWinner(pool[PyIndex(|pool|, i)])
    ensures |EstimateSpec(pool, ranked)| == |pool|
    ensures forall i :: 0 <= i < |pool| ==> EstimateSpec(pool, ranked)[i] == pool[i].score
  {
    NoWinners(pool, ranked);
    assert forall i :: 0 <= i < |pool| ==> MatchCount(pool[i], []) == 0;
  }

  lemma {:induction false} NoWinners(pool: seq<ScoredDocument>, ranked: seq<int>)
    requires ValidIndices(|pool|, ranked)
    requires forall i :: i in ranked ==> !IsWinner(pool[PyIndex(|pool|, i)])
    ensures Winners(pool, ranked) == []
  {
    if ranked != [] {
      assert ranked[0] in ranked;
      assert forall i :: i in ranked[1..] ==> i in ranked;
      NoWinners(pool, ranked[1..]);
    }
  }

  /** A document that shares no key with any winner keeps its score; so do ranked positions. */
  lemma {:induction false} UnmatchedKeepScore(pool: seq<ScoredDocument>, ranked: seq<int>, i: int)
    requires ValidIndices(|pool|, ranked) && 0 <= i < |pool|
    requires i in ranked || forall w :: w in Winners(pool, ranked) ==> !Shares(pool[i], w)
    ensures EstimateSpec(pool, ranked)[i] == pool[i].score
  {
    if i !in ranked {
      NoMatches(pool[i], Winners(pool, ranked));
    }
  }

  lemma {:induction false} NoMatches(doc: ScoredDocument, ws: seq<ScoredDocument>)
    requires forall w :: w in ws ==> !Shares(doc, w)
    ensures MatchCount(doc, ws) == 0
  {
    if ws != [] {
      assert forall w :: w in ws[..|ws| - 1] ==> w in ws;
      NoMatches(doc, ws[..|ws| - 1]);
    }
  }

  /** Boosting never lowers a non-negative score, and each extra matching winner multiplies by 1.2. */
  lemma {:induction false} BoostCompounds(doc: ScoredDocument, ws: seq<ScoredDocument>, w: ScoredDocument)
    requires doc.score >= 0.0
    ensures doc.score * Numbers.Pow(Boost, MatchCount(doc, ws)) >= doc.score
    ensures Shares(doc, w) ==>
      doc.score * Numbers.Pow(Boost, MatchCount(doc, ws + [w]))
        == doc.score * Numbers.Pow(Boost, MatchCount(doc, ws)) * Boost
  {
    assert (ws + [w])[..|ws + [w]| - 1] == ws;
    var p := Numbers.Pow(Boost, MatchCount(doc, ws));
    assert p >= 1.0;
    assert doc.score * p >= doc.score * 1.0;
  }

  /**
   * A worked example: documents a, b, c with sources wiki, wiki, news and score 0.5, where a has
   * been reranked to 0.9. Then b is boosted to 0.6, c keeps 0.5 and a keeps 0.9.
   */
  lemma BoostExample()
    ensures var a := ScoredDocument("a", "A", map["source" := VStr("wiki")], 0.9, 0.0, Some(0.9), None, 0, 0);
      var b := ScoredDocument("b", "B", map["source" := VStr("wiki")], 0.5, 0.0, None, None, 0, 0);
      var c := ScoredDocument("c", "C", map["source" := VStr("news")], 0.5, 0.0, None, None, 0, 0);
      EstimateSpec([a, b, c], [0]) == [0.9, 0.6, 0.5]
  {
    var a := ScoredDocument("a", "A", map["source" := VStr("wiki")], 0.9, 0.0, Some(0.9), None, 0, 0);
    var b := ScoredDocument("b", "B", map["source" := VStr("wiki")], 0.5, 0.0, None, None, 0, 0);
    var c := ScoredDocument("c", "C", map["source" := VStr("news")], 0.5, 0.0, None, None, 0, 0);
    var pool := [a, b, c];
    assert Winners(pool, [0]) == [a];
    assert KeyMatch(b, a, MetadataKeys[0]);
    assert Shares(b, a);
    assert !Shares(c, a) by {
      assert forall l :: 0 <= l < |MetadataKeys| ==> !KeyMatch(c, a, MetadataKeys[l]) by {
        assert "source" != "section" && "source" != "category";
      }
    }
    assert MatchCount(b, [a]) == 1;
    assert MatchCount(c, [a]) == 0;
    assert Numbers.Pow(Boost, 1) == 1.2;
  }
}
