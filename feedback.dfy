/**
 * Stop policies for the refinement loop: a floor on the remaining tokens, and a detector that
 * stops once consecutive source-weight maps stop moving.
 */
module Feedback {
  import opened Wrappers
  import opened Types
  import Numbers

  /** The token floor below which `BudgetStopFeedback` stops. */
  const TokenFloor := 100

  const CriticalReason := "Critical token budget remaining"

  /** `BudgetStopFeedback`; its `token_threshold` is stored but plays no part in the decision. */
  datatype BudgetStopFeedback = BudgetStopFeedback(tokenThreshold: real) {
    /** `should_stop`: the pool metrics and the estimates are not consulted. */
    function ShouldStop(metrics: map<string, Value>, budget: RemainingBudgetView, estimates: map<string, Value>): (r: (bool, string))
      ensures r.0 <==> budget.remainingTokens < TokenFloor
      ensures r.1 == if r.0 then CriticalReason else ""
    {
      if budget.remainingTokens < TokenFloor then (true, CriticalReason) else (false, "")
    }
  }

  /** The decision depends on the remaining tokens only: not on the threshold, the metrics or the estimates. */
  lemma BudgetStopOnlyTokens(f: BudgetStopFeedback, g: BudgetStopFeedback,
                             m1: map<string, Value>, m2: map<string, Value>,
                             b1: RemainingBudgetView, b2: RemainingBudgetView,
                             e1: map<string, Value>, e2: map<string, Value>)
    requires b1.remainingTokens == b2.remainingTokens
    ensures f.ShouldStop(m1, b1, e1) == g.ShouldStop(m2, b2, e2)
  {
  }

  /** The default convergence threshold. */
  const DefaultConvergenceThreshold := 0.01

  type Weights = map<string, real>

  /** `d.get(k, 0.0)`. */
  function WeightOf(d: Weights, k: string): real {
    if k in d then d[k] else 0.0
  }

  /** The absolute change of every source weight, over the sources of either map. */
  function Changes(cur: Weights, prev: Weights): set<real> {
    set k | k in cur.Keys + prev.Keys :: Numbers.Abs(WeightOf(cur, k) - WeightOf(prev, k))
  }

  lemma ChangeIn(cur: Weights, prev: Weights, k: string)
    requires k in cur.Keys + prev.Keys
    ensures Numbers.Abs(WeightOf(cur, k) - WeightOf(prev, k)) in Changes(cur, prev)
  {
  }

  /** The largest weight change; Python's `max` raises on an empty union of keys. */
  function MaxDelta(cur: Weights, prev: Weights): (d: real)
    requires cur.Keys + prev.Keys != {}
    ensures d in Changes(cur, prev)
  {
    if forall k :: k !in cur.Keys + prev.Keys then assert false; 0.0
    else
      var k0 :| k0 in cur.Keys + prev.Keys;
      ChangeIn(cur, prev, k0);
      Numbers.Max(Changes(cur, prev))
  }

  /** The delta is the largest absolute change of any source weight, a missing weight counting as 0. */
  lemma MaxDeltaIsLargest(cur: Weights, prev: Weights)
    requires cur.Keys + prev.Keys != {}
    ensures forall k :: k in cur.Keys + prev.Keys ==> Numbers.Abs(WeightOf(cur, k) - WeightOf(prev, k)) <= MaxDelta(cur, prev)
    ensures exists k :: k in cur.Keys + prev.Keys && Numbers.Abs(WeightOf(cur, k) - WeightOf(prev, k)) == MaxDelta(cur, prev)
  {
    var d := MaxDelta(cur, prev);
    forall k | k in cur.Keys + prev.Keys ensures Numbers.Abs(WeightOf(cur, k) - WeightOf(prev, k)) <= d {
      ChangeIn(cur, prev, k);
    }
  }

  /** Why the detector stopped: convergence, with the largest change seen. */
  datatype Reason = NoReason | Converged(maxDelta: real)

  /** The error `max()` raises on an empty sequence. */
  const EmptyMaxError := "max() arg is an empty sequence"

  /**
   * One call of `ReformIRConvergenceFeedback.should_stop` from the previous weights `prev` with the
   * estimator's current weights `cur` (None when the estimates carry none): the decision, and the
   * previous weights for the next call. An error leaves the previous weights as they were.
   */
  function ConvergenceStep(prev: Option<Weights>, cur: Option<Weights>, threshold: real)
    : Result<((bool, Reason), Option<Weights>), string>
  {
    if cur.None? || prev.None? then Ok(((false, NoReason), cur))
    else if cur.value.Keys + prev.value.Keys == {} then Err(EmptyMaxError)
    else
      var delta := MaxDelta(cur.value, prev.value);
      if delta < threshold then Ok(((true, Converged(delta)), cur)) else Ok(((false, NoReason), cur))
  }

  /** `ReformIRConvergenceFeedback`: the threshold is fixed; the previous weights change on every call. */
  class ReformIRConvergenceFeedback {
    const convergenceThreshold: real
    var prevWeights: Option<Weights>

    constructor(convergenceThreshold: real)
      ensures this.convergenceThreshold == convergenceThreshold && prevWeights == None
    {
      this.convergenceThreshold := convergenceThreshold;
      prevWeights := None;
    }

    /** `should_stop`, reduced to the `reformir_weights` entry of the estimates. */
    method ShouldStop(currentWeights: Option<Weights>) returns (r: Result<(bool, Reason), string>)
      modifies this
      ensures match ConvergenceStep(old(prevWeights), currentWeights, convergenceThreshold)
        case Ok(v) => r == Ok(v.0) && prevWeights == v.1
        case Err(e) => r == Err(e) && prevWeights == old(prevWeights)
    {
      if currentWeights.None? || prevWeights.None? {
        prevWeights := currentWeights;
        return Ok((false, NoReason));
      }
      var cur := currentWeights.value;
      var prev := prevWeights.value;
      if cur.Keys + prev.Keys == {} {
        return Err(EmptyMaxError);
      }
      var delta := MaxDelta(cur, prev);
      prevWeights := currentWeights;
      if delta < convergenceThreshold {
        return Ok((true, Converged(delta)));
      }
      return Ok((false, NoReason));
    }
  }

  // ---------------------------------------------------------------------------------------
  // properties of the convergence detector

  /** With no previous weights (the first call), it never stops and remembers the current ones. */
  lemma FirstCallNeverStops(cur: Option<Weights>, threshold: real)
    ensures ConvergenceStep(None, cur, threshold) == Ok(((false, NoReason), cur))
  {
  }

  /** Missing current weights never stop and reset the previous weights to None. */
  lemma MissingWeightsReset(prev: Option<Weights>, threshold: real)
    ensures ConvergenceStep(prev, None, threshold) == Ok(((false, NoReason), None))
  {
  }

  /** The call fails exactly when both maps are present and both are empty. */
  lemma ConvergenceErrorIff(prev: Option<Weights>, cur: Option<Weights>, threshold: real)
    ensures ConvergenceStep(prev, cur, threshold).Err? <==>
      (prev.Some? && cur.Some? && prev.value == map[] && cur.value == map[])
  {
    if prev.Some? && cur.Some? && cur.value.Keys + prev.value.Keys == {} {
      assert prev.value.Keys == {} && cur.value.Keys == {};
    }
  }

  /**
   * Comparing two present maps: it stops exactly when every weight moved by less than the
   * threshold (strictly), naming the largest change; either way the current map becomes the previous.
   */
  lemma ConvergenceStopsIff(prev: Weights, cur: Weights, threshold: real)
    requires cur.Keys + prev.Keys != {}
    ensures ConvergenceStep(Some(prev), Some(cur), threshold).Ok?
    ensures var v := ConvergenceStep(Some(prev), Some(cur), threshold).value;
      && v.1 == Some(cur)
      && (v.0.0 <==> forall k :: k in cur.Keys + prev.Keys ==> Numbers.Abs(WeightOf(cur, k) - WeightOf(prev, k)) < threshold)
      && (v.0.0 ==> v.0.1 == Converged(MaxDelta(cur, prev)))
  {
    var d := MaxDelta(cur, prev);
    MaxDeltaIsLargest(cur, prev);
    if d >= threshold {
      var k :| k in cur.Keys + prev.Keys && Numbers.Abs(WeightOf(cur, k) - WeightOf(prev, k)) == d;
    }
  }

  /** Small moves converge: {0.500, 0.300} to {0.501, 0.299} at 0.05 stops. */
  lemma SmallMoveStops()
    ensures var r := ConvergenceStep(Some(map["a" := 0.5, "b" := 0.3]), Some(map["a" := 0.501, "b" := 0.299]), 0.05);
      r.Ok? && r.value.0.0
  {
    var prev := map["a" := 0.5, "b" := 0.3];
    var cur := map["a" := 0.501, "b" := 0.299];
    assert "a" in cur.Keys + prev.Keys;
    ConvergenceStopsIff(prev, cur, 0.05);
    assert cur.Keys + prev.Keys == {"a", "b"};
  }

  /** Large moves do not: 0.2/0.8 to 0.7/0.3 at 0.05 carries on. */
  lemma LargeMoveContinues()
    ensures var r := ConvergenceStep(Some(map["a" := 0.2, "b" := 0.8]), Some(map["a" := 0.7, "b" := 0.3]), 0.05);
      r.Ok? && !r.value.0.0
  {
    var prev := map["a" := 0.2, "b" := 0.8];
    var cur := map["a" := 0.7, "b" := 0.3];
    assert "a" in cur.Keys + prev.Keys;
    ConvergenceStopsIff(prev, cur, 0.05);
    assert Numbers.Abs(WeightOf(cur, "a") - WeightOf(prev, "a")) == 0.5;
  }

  /** A source missing from one map counts as weight 0. */
  lemma MissingSourceCountsZero()
    ensures var r := ConvergenceStep(Some(map["a" := 0.5]), Some(map["a" := 0.5, "b" := 0.3]), 0.05);
      r.Ok? && !r.value.0.0
  {
    var prev := map["a" := 0.5];
    var cur := map["a" := 0.5, "b" := 0.3];
    assert "a" in cur.Keys + prev.Keys;
    ConvergenceStopsIff(prev, cur, 0.05);
    assert "b" in cur.Keys + prev.Keys && Numbers.Abs(WeightOf(cur, "b") - WeightOf(prev, "b")) == 0.3;
  }
}
