/**
 * The cost budget and the tracker that meters reformulations, reranked documents and
 * tokens against it. The wall clock is not read here: the caller passes the elapsed time.
 */
module Budget {
  import opened Wrappers
  import opened Types

  /** The ceilings of one run. */
  datatype CostBudget = CostBudget(
    maxTokens: int, maxRerankerDocs: int, maxReformulations: int, maxLatencyMs: real)

  /** The ceilings used when none are given. */
  const DefaultBudget := CostBudget(4000, 50, 1, 2000.0)

  /** The tracker's three counters. */
  datatype Usage = Usage(tokens: int, rerankDocs: int, reformulations: int)

  /** The counters of a new tracker. */
  const NoUsage := Usage(0, 0, 0)

  /** What `snapshot` reports: tokens, elapsed latency and reranked documents (not reformulations). */
  datatype BudgetState = BudgetState(tokens: int, latency: real, rerankDocs: int)

  /** One consumption attempt: whether it was granted, the counters after it, and the event it records. */
  datatype Attempt = Attempt(granted: bool, usage: Usage, event: Option<TraceEvent>)

  /** `try_consume_reformulation(n)`. */
  function ReformulationAttempt(b: CostBudget, u: Usage, n: int): Attempt {
    if u.reformulations + n <= b.maxReformulations then
      Attempt(true, u.(reformulations := u.reformulations + n),
        Some(TraceEvent("budget", "consume_reformulation", map["count" := VInt(n)])))
    else
      Attempt(false, u, Some(TraceEvent("budget", "deny_reformulation", map["reason" := VStr("limit_reached")])))
  }

  /** `try_consume_rerank(n)` at `elapsedMs` milliseconds after the tracker was created. */
  function RerankAttempt(b: CostBudget, u: Usage, n: int, elapsedMs: real): Attempt {
    if elapsedMs > b.maxLatencyMs then
      Attempt(false, u, Some(TraceEvent("budget", "deny_rerank",
        map["reason" := VStr("latency_exceeded"), "elapsed" := VReal(elapsedMs)])))
    else
      var remaining := b.maxRerankerDocs - u.rerankDocs;
      if n > remaining then
        Attempt(false, u, Some(TraceEvent("budget", "deny_rerank",
          map["reason" := VStr("doc_limit_exceeded"), "requested" := VInt(n), "remaining" := VInt(remaining)])))
      else
        Attempt(true, u.(rerankDocs := u.rerankDocs + n),
          Some(TraceEvent("budget", "consume_rerank", map["count" := VInt(n)])))
  }

  /** `try_consume_tokens(n)`; it records no event. */
  function TokenAttempt(b: CostBudget, u: Usage, n: int): Attempt {
    if u.tokens + n <= b.maxTokens then Attempt(true, u.(tokens := u.tokens + n), None)
    else Attempt(false, u, None)
  }

  /** Every counter is non-negative and within its ceiling. */
  predicate WithinCeilings(b: CostBudget, u: Usage) {
    0 <= u.tokens <= b.maxTokens
    && 0 <= u.rerankDocs <= b.maxRerankerDocs
    && 0 <= u.reformulations <= b.maxReformulations
  }

  /** `u` is `v` with every counter at least as large. */
  predicate Grown(v: Usage, u: Usage) {
    v.tokens <= u.tokens && v.rerankDocs <= u.rerankDocs && v.reformulations <= u.reformulations
  }

  /**
   * A granted reformulation attempt is exactly one that fits under the ceiling; it raises only
   * the reformulation counter, by `n`. A denial changes nothing. Either way one event is recorded.
   */
  lemma ReformulationAttemptMeaning(b: CostBudget, u: Usage, n: int)
    ensures var a := ReformulationAttempt(b, u, n);
      && (a.granted <==> u.reformulations + n <= b.maxReformulations)
      && (a.granted ==> a.usage.reformulations == u.reformulations + n && a.usage.reformulations <= b.maxReformulations)
      && a.usage.tokens == u.tokens && a.usage.rerankDocs == u.rerankDocs
      && (!a.granted ==> a.usage == u)
      && a.event.Some? && a.event.value.component == "budget"
      && a.event.value.action == (if a.granted then "consume_reformulation" else "deny_reformulation")
  {
  }

  /**
   * The latency check comes first and is strict: past the latency ceiling every rerank attempt
   * is denied, whatever the size. Otherwise an attempt is granted exactly when it fits in the
   * remaining documents, and it raises only the document counter, by `n`. A denial changes nothing.
   */
  lemma RerankAttemptMeaning(b: CostBudget, u: Usage, n: int, elapsedMs: real)
    ensures var a := RerankAttempt(b, u, n, elapsedMs);
      && (elapsedMs > b.maxLatencyMs ==> !a.granted && a.event.value.details["reason"] == VStr("latency_exceeded"))
      && (a.granted <==> elapsedMs <= b.maxLatencyMs && n <= b.maxRerankerDocs - u.rerankDocs)
      && (elapsedMs <= b.maxLatencyMs && !a.granted ==> a.event.value.details["reason"] == VStr("doc_limit_exceeded"))
      && (a.granted ==> a.usage == u.(rerankDocs := u.rerankDocs + n) && a.usage.rerankDocs <= b.maxRerankerDocs)
      && (!a.granted ==> a.usage == u)
      && a.event.Some? && a.event.value.component == "budget"
      && a.event.value.action == (if a.granted then "consume_rerank" else "deny_rerank")
  {
  }

  /** A token attempt is granted exactly when it fits; it raises only the token counter and records nothing. */
  lemma TokenAttemptMeaning(b: CostBudget, u: Usage, n: int)
    ensures var a := TokenAttempt(b, u, n);
      && (a.granted <==> u.tokens + n <= b.maxTokens)
      && a.usage == (if a.granted then u.(tokens := u.tokens + n) else u)
      && a.event.None?
  {
  }

  /** A zero-size rerank probe changes no counter, and is granted whenever latency is not exceeded. */
  lemma RerankProbe(b: CostBudget, u: Usage, elapsedMs: real)
    requires u.rerankDocs <= b.maxRerankerDocs
    ensures RerankAttempt(b, u, 0, elapsedMs).usage == u
    ensures RerankAttempt(b, u, 0, elapsedMs).granted <==> elapsedMs <= b.maxLatencyMs
  {
  }

  /** For non-negative amounts every counter stays within its ceiling and never decreases. */
  lemma AttemptsKeepCeilings(b: CostBudget, u: Usage, n: int, elapsedMs: real)
    requires WithinCeilings(b, u) && n >= 0
    ensures WithinCeilings(b, ReformulationAttempt(b, u, n).usage) && Grown(u, ReformulationAttempt(b, u, n).usage)
    ensures WithinCeilings(b, RerankAttempt(b, u, n, elapsedMs).usage) && Grown(u, RerankAttempt(b, u, n, elapsedMs).usage)
    ensures WithinCeilings(b, TokenAttempt(b, u, n).usage) && Grown(u, TokenAttempt(b, u, n).usage)
  {
  }

  /** A tracker. The budget and the trace it writes to are fixed; the three counters change. */
  class CostTracker {
    const budget: CostBudget
    const trace: ControllerTrace
    var tokensUsed: int
    var rerankDocsUsed: int
    var reformulationsUsed: int

    function Used(): Usage
      reads this
    {
      Usage(tokensUsed, rerankDocsUsed, reformulationsUsed)
    }

    constructor(budget: CostBudget, trace: ControllerTrace)
      ensures this.budget == budget && this.trace == trace
      ensures Used() == NoUsage
    {
      this.budget := budget;
      this.trace := trace;
      tokensUsed := 0;
      rerankDocsUsed := 0;
      reformulationsUsed := 0;
    }

    /** Consumes `n` reformulations if they fit, and records the outcome in the trace. */
    method TryConsumeReformulation(n: int) returns (ok: bool)
      modifies this, trace
      ensures var a := ReformulationAttempt(budget, old(Used()), n);
        ok == a.granted && Used() == a.usage && trace.events == old(trace.events) + [a.event.value]
    {
      if reformulationsUsed + n <= budget.maxReformulations {
        reformulationsUsed := reformulationsUsed + n;
        trace.Add("budget", "consume_reformulation", map["count" := VInt(n)]);
        return true;
      }
      trace.Add("budget", "deny_reformulation", map["reason" := VStr("limit_reached")]);
      return false;
    }

    /** Consumes `n` rerank documents if latency allows and they fit, and records the outcome. */
    method TryConsumeRerank(n: int, elapsedMs: real) returns (ok: bool)
      modifies this, trace
      ensures var a := RerankAttempt(budget, old(Used()), n, elapsedMs);
        ok == a.granted && Used() == a.usage && trace.events == old(trace.events) + [a.event.value]
    {
      if elapsedMs > budget.maxLatencyMs {
        trace.Add("budget", "deny_rerank", map["reason" := VStr("latency_exceeded"), "elapsed" := VReal(elapsedMs)]);
        return false;
      }
      var remaining := budget.maxRerankerDocs - rerankDocsUsed;
      if n > remaining {
        trace.Add("budget", "deny_rerank",
          map["reason" := VStr("doc_limit_exceeded"), "requested" := VInt(n), "remaining" := VInt(remaining)]);
        return false;
      }
      rerankDocsUsed := rerankDocsUsed + n;
      trace.Add("budget", "consume_rerank", map["count" := VInt(n)]);
      return true;
    }

    /** Consumes `n` tokens if they fit; the trace is not touched. */
    method TryConsumeTokens(n: int) returns (ok: bool)
      modifies this
      ensures var a := TokenAttempt(budget, old(Used()), n);
        ok == a.granted && Used() == a.usage
    {
      if tokensUsed + n <= budget.maxTokens {
        tokensUsed := tokensUsed + n;
        return true;
      }
      return false;
    }

    /** The reported state at `elapsedMs`: tokens, latency and reranked documents. */
    function Snapshot(elapsedMs: real): (s: BudgetState)
      reads this
      ensures s.tokens == Used().tokens && s.rerankDocs == Used().rerankDocs && s.latency == elapsedMs
    {
      BudgetState(tokensUsed, elapsedMs, rerankDocsUsed)
    }
  }

  // ---------------------------------------------------------------------------------------
  // worked examples

  /** Against 25 tokens, three requests of 10 are granted, granted, denied. */
  lemma TokenExample()
    ensures var b := DefaultBudget.(maxTokens := 25);
      var a1 := TokenAttempt(b, NoUsage, 10);
      var a2 := TokenAttempt(b, a1.usage, 10);
      var a3 := TokenAttempt(b, a2.usage, 10);
      a1.granted && a2.granted && !a3.granted && a3.usage.tokens == 20
  {
  }

  /** Against 5 documents, two rerank requests of 3 are granted, then denied for the document limit. */
  lemma RerankExample(elapsedMs: real)
    requires 0.0 <= elapsedMs <= 2000.0
    ensures var b := DefaultBudget.(maxRerankerDocs := 5);
      var a1 := RerankAttempt(b, NoUsage, 3, elapsedMs);
      var a2 := RerankAttempt(b, a1.usage, 3, elapsedMs);
      a1.granted && !a2.granted && a2.usage.rerankDocs == 3
      && a2.event.value.details["reason"] == VStr("doc_limit_exceeded")
      && a2.event.value.details["remaining"] == VInt(2)
  {
  }

  /** With the default single reformulation, the first request is granted and the second denied. */
  lemma ReformulationExample()
    ensures var a1 := ReformulationAttempt(DefaultBudget, NoUsage, 1);
      var a2 := ReformulationAttempt(DefaultBudget, a1.usage, 1);
      a1.granted && !a2.granted && a2.usage.reformulations == 1
  {
  }
}
