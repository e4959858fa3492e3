/**
 * The active-learning scheduler: it proposes the unprocessed pool positions with the highest
 * estimated utility, ties broken by position.
 */
module Schedulers {
  import opened Wrappers
  import opened Types
  import opened Budget
  import Estimators
  import Sorting
  import Seqs
  import Numbers

  /** A batch size and the reranking strategy it names in its proposals. */
  datatype ActiveLearningScheduler = ActiveLearningScheduler(batchSize: int, strategy: string)

  /** The scheduler's defaults: batches of five. */
  function DefaultScheduler(strategy: string): ActiveLearningScheduler {
    ActiveLearningScheduler(5, strategy)
  }

  /** A candidate: a pool position and its estimated utility. */
  type Candidate = (int, real)

  function Position(c: Candidate): int { c.0 }
  function Utility(c: Candidate): real { c.1 }

  /** The unprocessed positions of `utils` with their utilities, in position order. */
  function Candidates(utils: seq<real>, processed: seq<int>): (c: seq<Candidate>)
    ensures |c| <= |utils|
    ensures forall k :: 0 <= k < |c| ==>
      0 <= c[k].0 < |utils| && c[k].0 !in processed && c[k].1 == utils[c[k].0]
  {
    if utils == [] then []
    else
      var n := |utils| - 1;
      var rest := Candidates(utils[..n], processed);
      if n !in processed then rest + [(n, utils[n])] else rest
  }

  /** Every unprocessed position of `utils` is the position of some candidate in `c`. */
  ghost predicate Covers(utils: seq<real>, processed: seq<int>, c: seq<Candidate>) {
    forall i :: 0 <= i < |utils| && i !in processed ==> exists k :: 0 <= k < |c| && c[k].0 == i
  }

  /** The candidates cover every unprocessed position. */
  lemma {:induction false} CandidatesCover(utils: seq<real>, processed: seq<int>)
    ensures Covers(utils, processed, Candidates(utils, processed))
    decreases |utils|
  {
    if utils != [] {
      var n := |utils| - 1;
      CandidatesCover(utils[..n], processed);
      var rest := Candidates(utils[..n], processed);
      var c := Candidates(utils, processed);
      forall i | 0 <= i < |utils| && i !in processed ensures exists k :: 0 <= k < |c| && c[k].0 == i {
        if i < n {
          var k :| 0 <= k < |rest| && rest[k].0 == i;
          if n !in processed {
            assert c == rest + [(n, utils[n])];
            assert c[k] == rest[k];
          } else {
            assert c == rest;
          }
        } else {
          assert c == rest + [(n, utils[n])];
          assert c[|rest|].0 == i;
        }
      }
    }
  }

  /** The candidates come in strictly increasing position order. */
  lemma {:induction false} CandidatesIncreasing(utils: seq<real>, processed: seq<int>)
    ensures Sorting.TagsIncreasing(Candidates(utils, processed), Position)
    decreases |utils|
  {
    if utils != [] {
      var n := |utils| - 1;
      CandidatesIncreasing(utils[..n], processed);
      var rest := Candidates(utils[..n], processed);
      var c := Candidates(utils, processed);
      if n !in processed {
        assert c == rest + [(n, utils[n])];
        forall i, j | 0 <= i < j < |c| ensures Position(c[i]) < Position(c[j]) {
          assert c[i] == rest[i];
          if j < |rest| {
            assert c[j] == rest[j];
          }
        }
      }
    }
  }

  /** The candidates of `utils`, best utility first, ties in position order. */
  function RankedOf(utils: seq<real>, processed: seq<int>): seq<Candidate> {
    Sorting.SortDesc(Candidates(utils, processed), Utility)
  }

  function Positions(cs: seq<Candidate>): seq<int> {
    seq(|cs|, k requires 0 <= k < |cs| => cs[k].0)
  }

  function Utilities(cs: seq<Candidate>): seq<real> {
    seq(|cs|, k requires 0 <= k < |cs| => cs[k].1)
  }

  /** The selection step: the first `batchSize` ranked positions with the mean of their utilities. */
  function SelectTop(s: ActiveLearningScheduler, utils: seq<real>, processed: seq<int>): Option<IndexProposal>
    requires s.batchSize >= 1
  {
    var ranked := RankedOf(utils, processed);
    if ranked == [] then None
    else
      var top := Seqs.PyTake(ranked, s.batchSize);
      Some(IndexProposal(Positions(top), s.strategy, Numbers.SumReals(Utilities(top)) / |top| as real))
  }

  /**
   * What `propose_next_batch` returns: nothing once as many positions were processed as the
   * pool holds; otherwise the selection over the estimated utilities.
   */
  function ProposalSpec(s: ActiveLearningScheduler, pool: seq<ScoredDocument>, processed: seq<int>): Option<IndexProposal>
    requires s.batchSize >= 1
    requires |processed| < |pool| ==> Estimators.ValidIndices(|pool|, processed)
  {
    if |processed| >= |pool| then None
    else SelectTop(s, Estimators.EstimateSpec(pool, processed), processed)
  }

  /**
   * `ActiveLearningScheduler.propose_next_batch`. The zero-document budget probe goes first;
   * its outcome is recorded in the trace and otherwise ignored, and it changes no counter.
   */
  method ProposeNextBatch(s: ActiveLearningScheduler, pool: seq<ScoredDocument>, processed: seq<int>,
                          tracker: CostTracker, elapsedMs: real)
    returns (proposal: Option<IndexProposal>)
    requires s.batchSize >= 1
    requires |processed| < |pool| ==> Estimators.ValidIndices(|pool|, processed)
    modifies tracker, tracker.trace
    ensures proposal == ProposalSpec(s, pool, processed)
    ensures tracker.Used() == old(tracker.Used())
    ensures tracker.trace.events ==
      old(tracker.trace.events) + [RerankAttempt(tracker.budget, old(tracker.Used()), 0, elapsedMs).event.value]
  {
    var _ := tracker.TryConsumeRerank(0, elapsedMs);
    if |processed| >= |pool| {
      return None;
    }
    var utilities := Estimators.Estimate(pool, processed);
    proposal := SelectBatch(s, utilities, processed);
  }

  /** The candidate loop, the sort and the pick of `propose_next_batch`. */
  method SelectBatch(s: ActiveLearningScheduler, utilities: seq<real>, processed: seq<int>)
    returns (proposal: Option<IndexProposal>)
    requires s.batchSize >= 1
    ensures proposal == SelectTop(s, utilities, processed)
  {
    var candidates := CollectCandidates(utilities, processed);
    if candidates == [] {
      return None;
    }
    candidates := Sorting.SortDesc(candidates, Utility);
    var top := Seqs.PyTake(candidates, s.batchSize);
    var nextIndices := seq(|top|, k requires 0 <= k < |top| => top[k].0);
    var sum := SumUtilities(top);
    return Some(IndexProposal(nextIndices, s.strategy, sum / |nextIndices| as real));
  }

  /** The loop collecting the unprocessed positions with their utilities. */
  method CollectCandidates(utilities: seq<real>, processed: seq<int>) returns (candidates: seq<Candidate>)
    ensures candidates == Candidates(utilities, processed)
  {
    candidates := [];
    for i := 0 to |utilities|
      invariant candidates == Candidates(utilities[..i], processed)
    {
      assert utilities[..i + 1][..i] == utilities[..i];
      if i !in processed {
        candidates := candidates + [(i, utilities[i])];
      }
    }
    assert utilities[..|utilities|] == utilities;
  }

  /** The loop adding up the utilities of the picked candidates. */
  method SumUtilities(top: seq<Candidate>) returns (sum: real)
    ensures sum == Numbers.SumReals(Utilities(top))
  {
    sum := 0.0;
    for k := 0 to |top|
      invariant sum == Numbers.SumReals(Utilities(top[..k]))
    {
      assert Utilities(top[..k + 1])[..k] == Utilities(top[..k]);
      sum := sum + top[k].1;
    }
    assert top[..|top|] == top;
  }

  // ---------------------------------------------------------------------------------------
  // properties of the selection

  /** Every ranked candidate is an unprocessed position carrying its utility. */
  lemma RankedMembers(utils: seq<real>, processed: seq<int>)
    ensures var r := RankedOf(utils, processed);
      forall k :: 0 <= k < |r| ==> 0 <= r[k].0 < |utils| && r[k].0 !in processed && r[k].1 == utils[r[k].0]
  {
    var c := Candidates(utils, processed);
    var r := RankedOf(utils, processed);
    forall k | 0 <= k < |r| ensures 0 <= r[k].0 < |utils| && r[k].0 !in processed && r[k].1 == utils[r[k].0] {
      assert r[k] in multiset(c);
    }
  }

  /** Every unprocessed position is ranked. */
  lemma RankedCover(utils: seq<real>, processed: seq<int>)
    ensures var r := RankedOf(utils, processed);
      forall i :: 0 <= i < |utils| && i !in processed ==> exists k :: 0 <= k < |r| && r[k].0 == i
  {
    var c := Candidates(utils, processed);
    var r := RankedOf(utils, processed);
    CandidatesCover(utils, processed);
    forall i | 0 <= i < |utils| && i !in processed ensures exists k :: 0 <= k < |r| && r[k].0 == i {
      var k :| 0 <= k < |c| && c[k].0 == i;
      assert c[k] in multiset(r);
    }
  }

  /** The ranking is by utility, best first, ties in ascending position. */
  lemma RankedLex(utils: seq<real>, processed: seq<int>)
    ensures Sorting.LexOrdered(RankedOf(utils, processed), Utility, Position)
  {
    CandidatesIncreasing(utils, processed);
    Sorting.SortDescLex(Candidates(utils, processed), Utility, Position);
  }

  /** Selection proposes nothing exactly when every position is processed. */
  lemma SelectNone(s: ActiveLearningScheduler, utils: seq<real>, processed: seq<int>)
    requires s.batchSize >= 1
    ensures SelectTop(s, utils, processed).None? <==> forall i :: 0 <= i < |utils| ==> i in processed
  {
    RankedMembers(utils, processed);
    RankedCover(utils, processed);
    var r := RankedOf(utils, processed);
    if r != [] {
      assert r[0].0 !in processed;
    }
  }

  /**
   * A selection names exactly min(batchSize, number of candidates) positions, at least one,
   * all distinct and unprocessed.
   */
  lemma SelectIndices(s: ActiveLearningScheduler, utils: seq<real>, processed: seq<int>)
    requires s.batchSize >= 1
    requires SelectTop(s, utils, processed).Some?
    ensures var idx := SelectTop(s, utils, processed).value.documentIndices;
      && |idx| == Numbers.Min(s.batchSize, |RankedOf(utils, processed)|) && |idx| >= 1
      && Seqs.Distinct(idx)
      && forall k :: 0 <= k < |idx| ==> 0 <= idx[k] < |utils| && idx[k] !in processed
  {
    RankedMembers(utils, processed);
    RankedLex(utils, processed);
    var r := RankedOf(utils, processed);
    var top := Seqs.PyTake(r, s.batchSize);
    assert forall k :: 0 <= k < |top| ==> top[k] == r[k];
    forall k, l | 0 <= k < l < |top| ensures top[k].0 != top[l].0 {
      assert Sorting.Precedes(r[k], r[l], Utility, Position);
    }
  }

  /** Selected positions come best utility first, and among equal utilities in ascending position. */
  lemma SelectOrder(s: ActiveLearningScheduler, utils: seq<real>, processed: seq<int>)
    requires s.batchSize >= 1
    requires SelectTop(s, utils, processed).Some?
    ensures var idx := SelectTop(s, utils, processed).value.documentIndices;
      forall k, l :: 0 <= k < l < |idx| ==>
        0 <= idx[k] < |utils| && 0 <= idx[l] < |utils| &&
        (utils[idx[k]] > utils[idx[l]] || (utils[idx[k]] == utils[idx[l]] && idx[k] < idx[l]))
  {
    RankedMembers(utils, processed);
    RankedLex(utils, processed);
    var r := RankedOf(utils, processed);
    var top := Seqs.PyTake(r, s.batchSize);
    assert forall k :: 0 <= k < |top| ==> top[k] == r[k];
    assert forall k, l :: 0 <= k < l < |top| ==> Sorting.Precedes(r[k], r[l], Utility, Position);
  }

  /** Every selected position's utility is at least that of every unprocessed position left out. */
  lemma SelectTopK(s: ActiveLearningScheduler, utils: seq<real>, processed: seq<int>)
    requires s.batchSize >= 1
    requires SelectTop(s, utils, processed).Some?
    ensures var idx := SelectTop(s, utils, processed).value.documentIndices;
      forall k, j :: 0 <= k < |idx| && 0 <= j < |utils| && j !in processed && j !in idx ==>
        0 <= idx[k] < |utils| && utils[idx[k]] >= utils[j]
  {
    RankedMembers(utils, processed);
    RankedCover(utils, processed);
    RankedLex(utils, processed);
    var r := RankedOf(utils, processed);
    var top := Seqs.PyTake(r, s.batchSize);
    var idx := Positions(top);
    assert forall q :: 0 <= q < |top| ==> idx[q] == r[q].0;
    forall k, j | 0 <= k < |idx| && 0 <= j < |utils| && j !in processed && j !in idx
      ensures 0 <= idx[k] < |utils| && utils[idx[k]] >= utils[j]
    {
      var m :| 0 <= m < |r| && r[m].0 == j;
      assert m >= |top|;
      assert Sorting.Precedes(r[k], r[m], Utility, Position);
      assert r[k].1 == utils[idx[k]] && r[m].1 == utils[j];
    }
  }

  /** The utilities `utils` holds at the positions `idx`. */
  function UtilitiesAt(utils: seq<real>, idx: seq<int>): seq<real>
    requires forall k :: 0 <= k < |idx| ==> 0 <= idx[k] < |utils|
  {
    seq(|idx|, k requires 0 <= k < |idx| => utils[idx[k]])
  }

  /** The estimated utility is the mean of the selected positions' utilities. */
  lemma SelectMean(s: ActiveLearningScheduler, utils: seq<real>, processed: seq<int>)
    requires s.batchSize >= 1
    requires SelectTop(s, utils, processed).Some?
    ensures var p := SelectTop(s, utils, processed).value;
      && (forall k :: 0 <= k < |p.documentIndices| ==> 0 <= p.documentIndices[k] < |utils|)
      && |p.documentIndices| >= 1
      && p.estimatedUtility == Numbers.SumReals(UtilitiesAt(utils, p.documentIndices)) / |p.documentIndices| as real
  {
    RankedMembers(utils, processed);
    var r := RankedOf(utils, processed);
    var top := Seqs.PyTake(r, s.batchSize);
    var idx := Positions(top);
    assert forall k :: 0 <= k < |top| ==> top[k] == r[k];
    var u := Utilities(top);
    assert u == UtilitiesAt(utils, idx);
    var n := |top| as real;
    var p := SelectTop(s, utils, processed).value;
    assert p == IndexProposal(idx, s.strategy, Numbers.SumReals(u) / n);
  }

  /**
   * `propose_next_batch` proposes nothing exactly when the processed list is at least as long as
   * the pool or every position of the pool is processed.
   */
  lemma ProposalNone(s: ActiveLearningScheduler, pool: seq<ScoredDocument>, processed: seq<int>)
    requires s.batchSize >= 1
    requires |processed| < |pool| ==> Estimators.ValidIndices(|pool|, processed)
    ensures ProposalSpec(s, pool, processed).None? <==>
      (|processed| >= |pool| || forall i :: 0 <= i < |pool| ==> i in processed)
  {
    if |processed| < |pool| {
      SelectNone(s, Estimators.EstimateSpec(pool, processed), processed);
    }
  }

  /**
   * A proposal names between one and `batchSize` positions of the pool, distinct and all
   * unprocessed.
   */
  lemma ProposalFacts(s: ActiveLearningScheduler, pool: seq<ScoredDocument>, processed: seq<int>) returns (idx: seq<int>)
    requires s.batchSize >= 1
    requires |processed| < |pool| ==> Estimators.ValidIndices(|pool|, processed)
    requires ProposalSpec(s, pool, processed).Some?
    ensures idx == ProposalSpec(s, pool, processed).value.documentIndices
    ensures 1 <= |idx| <= s.batchSize && |processed| < |pool|
    ensures Seqs.Distinct(idx)
    ensures forall k :: 0 <= k < |idx| ==> 0 <= idx[k] < |pool| && idx[k] !in processed
  {
    var u := Estimators.EstimateSpec(pool, processed);
    SelectIndices(s, u, processed);
    idx := SelectTop(s, u, processed).value.documentIndices;
  }
}
