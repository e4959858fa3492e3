/**
 * `GreedyAssembler`: the documents, best score first, each kept when its tokens still fit
 * the tracker's token budget at its turn.
 */
module Assemblers {
  import opened Types
  import opened Budget
  import Seqs
  import Sorting
  import Numbers

  function Score(d: ScoredDocument): real { d.score }

  /** The token counts of `docs` added up. */
  function TokenTotal(docs: seq<ScoredDocument>): int {
    if docs == [] then 0 else docs[0].tokenCount + TokenTotal(docs[1..])
  }

  /**
   * The greedy pass over `docs` with `used` tokens already spent against a ceiling of
   * `maxTokens`: the documents kept, and the tokens spent after the pass.
   */
  function GreedyFit(docs: seq<ScoredDocument>, used: int, maxTokens: int): (seq<ScoredDocument>, int) {
    if docs == [] then ([], used)
    else if used + docs[0].tokenCount <= maxTokens then
      var rest := GreedyFit(docs[1..], used + docs[0].tokenCount, maxTokens);
      ([docs[0]] + rest.0, rest.1)
    else GreedyFit(docs[1..], used, maxTokens)
  }

  /**
   * `GreedyAssembler.assemble`: the documents are sorted by descending score (stably) and each
   * is offered to `try_consume_tokens`; the granted ones make up the result. Only the token
   * counter moves, by exactly the tokens of the result.
   */
  method Assemble(candidates: seq<ScoredDocument>, tracker: CostTracker) returns (result: seq<ScoredDocument>)
    modifies tracker
    ensures var g := GreedyFit(Sorting.SortDesc(candidates, Score), old(tracker.tokensUsed), tracker.budget.maxTokens);
      result == g.0 && tracker.Used() == old(tracker.Used()).(tokens := g.1)
    ensures tracker.tokensUsed == old(tracker.tokensUsed) + TokenTotal(result)
  {
    var sorted := Sorting.SortDesc(candidates, Score);
    result := TakeFitting(sorted, tracker);
  }

  /** The loop of `assemble` over the already sorted documents. */
  method TakeFitting(sorted: seq<ScoredDocument>, tracker: CostTracker) returns (result: seq<ScoredDocument>)
    modifies tracker
    ensures var g := GreedyFit(sorted, old(tracker.tokensUsed), tracker.budget.maxTokens);
      result == g.0 && tracker.Used() == old(tracker.Used()).(tokens := g.1)
    ensures tracker.tokensUsed == old(tracker.tokensUsed) + TokenTotal(result)
  {
    var maxTokens := tracker.budget.maxTokens;
    ghost var goal := GreedyFit(sorted, tracker.tokensUsed, maxTokens);
    FitTokens(sorted, tracker.tokensUsed, maxTokens);
    result := [];
    for i := 0 to |sorted|
      invariant result + GreedyFit(sorted[i..], tracker.tokensUsed, maxTokens).0 == goal.0
      invariant GreedyFit(sorted[i..], tracker.tokensUsed, maxTokens).1 == goal.1
      invariant tracker.rerankDocsUsed == old(tracker.rerankDocsUsed)
      invariant tracker.reformulationsUsed == old(tracker.reformulationsUsed)
    {
      ghost var before := tracker.tokensUsed;
      var t := sorted[i].tokenCount;
      FitStep(sorted, i, before, maxTokens);
      var ok := tracker.TryConsumeTokens(t);
      if ok {
        assert result + [sorted[i]] + GreedyFit(sorted[i + 1..], before + t, maxTokens).0
          == result + ([sorted[i]] + GreedyFit(sorted[i + 1..], before + t, maxTokens).0);
        result := result + [sorted[i]];
      }
    }
    assert sorted[|sorted|..] == [];
  }

  /** One step of the greedy pass from position `i`. */
  lemma FitStep(docs: seq<ScoredDocument>, i: int, used: int, maxTokens: int)
    requires 0 <= i < |docs|
    ensures var t := docs[i].tokenCount;
      GreedyFit(docs[i..], used, maxTokens) ==
        if used + t <= maxTokens then
          ([docs[i]] + GreedyFit(docs[i + 1..], used + t, maxTokens).0, GreedyFit(docs[i + 1..], used + t, maxTokens).1)
        else GreedyFit(docs[i + 1..], used, maxTokens)
  {
    assert docs[i..][0] == docs[i] && docs[i..][1..] == docs[i + 1..];
  }

  // ---------------------------------------------------------------------------------------
  // properties of the greedy pass

  /** The kept documents are the input with some left out, in input order. */
  lemma {:induction false} FitSubsequence(docs: seq<ScoredDocument>, used: int, maxTokens: int)
    ensures Seqs.IsSubsequence(GreedyFit(docs, used, maxTokens).0, docs)
    decreases |docs|
  {
    if docs != [] {
      var t := docs[0].tokenCount;
      if used + t <= maxTokens {
        FitSubsequence(docs[1..], used + t, maxTokens);
      } else {
        FitSubsequence(docs[1..], used, maxTokens);
        Seqs.Weaken(GreedyFit(docs[1..], used, maxTokens).0, docs);
      }
    }
  }

  /** The tokens spent grow by exactly the tokens of the kept documents. */
  lemma {:induction false} FitTokens(docs: seq<ScoredDocument>, used: int, maxTokens: int)
    ensures var g := GreedyFit(docs, used, maxTokens); g.1 == used + TokenTotal(g.0)
    decreases |docs|
  {
    if docs != [] {
      var t := docs[0].tokenCount;
      if used + t <= maxTokens {
        FitTokens(docs[1..], used + t, maxTokens);
        var rest := GreedyFit(docs[1..], used + t, maxTokens).0;
        assert ([docs[0]] + rest)[1..] == rest;
      } else {
        FitTokens(docs[1..], used, maxTokens);
      }
    }
  }

  /** Starting within the ceiling, the pass ends within it; with no negative counts it never spends less. */
  lemma {:induction false} FitBound(docs: seq<ScoredDocument>, used: int, maxTokens: int)
    requires used <= maxTokens
    ensures GreedyFit(docs, used, maxTokens).1 <= maxTokens
    ensures (forall k :: 0 <= k < |docs| ==> docs[k].tokenCount >= 0) ==> GreedyFit(docs, used, maxTokens).1 >= used
    decreases |docs|
  {
    if docs != [] {
      var t := docs[0].tokenCount;
      if used + t <= maxTokens {
        FitBound(docs[1..], used + t, maxTokens);
      } else {
        FitBound(docs[1..], used, maxTokens);
      }
    }
  }

  /** When everything fits, everything is kept. */
  lemma {:induction false} FitAllWhenRoom(docs: seq<ScoredDocument>, used: int, maxTokens: int)
    requires forall k :: 0 <= k < |docs| ==> docs[k].tokenCount >= 0
    requires used + TokenTotal(docs) <= maxTokens
    ensures GreedyFit(docs, used, maxTokens).0 == docs
    decreases |docs|
  {
    if docs != [] {
      TotalNonNegative(docs[1..]);
      FitAllWhenRoom(docs[1..], used + docs[0].tokenCount, maxTokens);
    }
  }

  lemma {:induction false} TotalNonNegative(docs: seq<ScoredDocument>)
    requires forall k :: 0 <= k < |docs| ==> docs[k].tokenCount >= 0
    ensures TokenTotal(docs) >= 0
    decreases |docs|
  {
    if docs != [] {
      TotalNonNegative(docs[1..]);
    }
  }

  /** With every document costing `t > 0` tokens, once one does not fit, none does. */
  lemma {:induction false} NothingFits(docs: seq<ScoredDocument>, used: int, maxTokens: int, t: int)
    requires used + t > maxTokens
    requires forall k :: 0 <= k < |docs| ==> docs[k].tokenCount == t
    ensures GreedyFit(docs, used, maxTokens) == ([], used)
    decreases |docs|
  {
    if docs != [] {
      NothingFits(docs[1..], used, maxTokens, t);
    }
  }

  /**
   * With every document costing the same `t > 0` tokens, the pass keeps documents while the
   * next one still fits: it stops when the input runs out or one more would pass the ceiling.
   */
  lemma {:induction false} FitUniform(docs: seq<ScoredDocument>, used: int, maxTokens: int, t: int)
    requires t > 0 && used <= maxTokens
    requires forall k :: 0 <= k < |docs| ==> docs[k].tokenCount == t
    ensures var g := GreedyFit(docs, used, maxTokens);
      && g.0 <= docs && g.1 == used + t * |g.0| && g.1 <= maxTokens
      && (|g.0| == |docs| || g.1 + t > maxTokens)
    decreases |docs|
  {
    if docs != [] {
      if used + t <= maxTokens {
        FitUniform(docs[1..], used + t, maxTokens, t);
        var n := |GreedyFit(docs[1..], used + t, maxTokens).0|;
        assert t * (n + 1) == t * n + t;
      } else {
        NothingFits(docs[1..], used, maxTokens, t);
      }
    }
  }

  /** The kept documents are in descending score order. */
  lemma AssembledSorted(candidates: seq<ScoredDocument>, used: int, maxTokens: int)
    ensures Sorting.SortedDesc(GreedyFit(Sorting.SortDesc(candidates, Score), used, maxTokens).0, Score)
  {
    var sorted := Sorting.SortDesc(candidates, Score);
    Sorting.SortDescSorted(candidates, Score);
    FitSubsequence(sorted, used, maxTokens);
    SubsequenceSorted(GreedyFit(sorted, used, maxTokens).0, sorted);
  }

  lemma {:induction false} SubsequenceMembers(a: seq<ScoredDocument>, b: seq<ScoredDocument>)
    requires Seqs.IsSubsequence(a, b)
    ensures forall x :: x in a ==> x in b
    decreases |b|
  {
    if a != [] {
      if a[0] == b[0] {
        SubsequenceMembers(a[1..], b[1..]);
        forall x | x in a ensures x in b {
          if x != a[0] {
            assert x in a[1..];
          }
        }
      } else {
        SubsequenceMembers(a, b[1..]);
      }
    }
  }

  lemma {:induction false} SubsequenceSorted(a: seq<ScoredDocument>, b: seq<ScoredDocument>)
    requires Seqs.IsSubsequence(a, b) && Sorting.SortedDesc(b, Score)
    ensures Sorting.SortedDesc(a, Score)
    decreases |b|
  {
    if a != [] {
      assert Sorting.SortedDesc(b[1..], Score);
      if a[0] == b[0] {
        SubsequenceSorted(a[1..], b[1..]);
        SubsequenceMembers(a[1..], b[1..]);
        forall i, j | 0 <= i < j < |a| ensures a[i].score >= a[j].score {
          assert a[j] in a[1..];
          if i > 0 {
            assert a[i] == a[1..][i - 1] && a[j] == a[1..][j - 1];
          }
        }
      } else {
        SubsequenceSorted(a, b[1..]);
      }
    }
  }

  function Doc(id: string, score: real, tokens: int): ScoredDocument {
    NewDocument(id, "").(score := score, tokenCount := tokens)
  }

  /** Three documents of 10 tokens against a ceiling of 25: two are kept and 20 tokens are spent. */
  lemma UniformExample()
    ensures var g := GreedyFit([Doc("a", 0.9, 10), Doc("b", 0.8, 10), Doc("c", 0.7, 10)], 0, 25);
      |g.0| == 2 && g.1 == 20
  {
    var d := [Doc("a", 0.9, 10), Doc("b", 0.8, 10), Doc("c", 0.7, 10)];
    FitUniform(d, 0, 25, 10);
    var n := |GreedyFit(d, 0, 25).0|;
    assert n <= 3;
    assert n == 0 || n == 1 || n == 2 || n == 3;
  }

  /** A document that does not fit is passed over, and a later, smaller one is still kept. */
  lemma SkipExample()
    ensures GreedyFit([Doc("a", 0.9, 10), Doc("b", 0.8, 30), Doc("c", 0.7, 5)], 0, 25)
      == ([Doc("a", 0.9, 10), Doc("c", 0.7, 5)], 15)
  {
    var d := [Doc("a", 0.9, 10), Doc("b", 0.8, 30), Doc("c", 0.7, 5)];
    var c := [Doc("c", 0.7, 5)];
    assert d[1..][1..] == c && c[1..] == [];
    assert GreedyFit(c, 10, 25).0 == c && GreedyFit(c, 10, 25).1 == 15;
    assert GreedyFit(d[1..], 10, 25) == GreedyFit(c, 10, 25);
    assert GreedyFit(d, 0, 25).0 == [d[0]] + c && GreedyFit(d, 0, 25).1 == 15;
    assert [d[0]] + c == [Doc("a", 0.9, 10), Doc("c", 0.7, 5)];
  }
}
