/**
 * `RAGtuneController.run`: reformulate the query, retrieve for every query, fuse the candidate
 * lists, rerank the batches the scheduler proposes while the budget grants them, and assemble
 * the final context under the token budget.
 */
module Controller {
  import opened Wrappers
  import opened Types
  import opened Budget
  import Seqs
  import Numbers
  import Sorting
  import Reformulators
  import Retrievers
  import Fusion
  import Schedulers
  import Estimators
  import Assemblers

  /** Every query is retrieved with `top_k=10`. */
  const RetrievalTopK := 10

  /** The controller's own trace actions. */
  const RerankBatch := "rerank_batch"
  const SkipBatch := "skip_batch"

  /** What `run` returns. */
  datatype ControllerOutput = ControllerOutput(
    query: string, documents: seq<ScoredDocument>, trace: ControllerTrace, finalBudgetState: BudgetState)

  /** A reranker: any function from a batch and the query to new documents. */
  type Reranker = (seq<ScoredDocument>, string) -> seq<ScoredDocument>

  /** The reranker returns as many documents as it was given. */
  ghost predicate LengthPreserving(rerank: Reranker) {
    forall b, q :: |rerank(b, q)| == |b|
  }

  /**
   * Every reading of the clock (milliseconds since the tracker was created) is within the
   * latency ceiling.
   */
  ghost predicate WithinLatency(clock: nat -> real, b: CostBudget) {
    forall k: nat :: clock(k) <= b.maxLatencyMs
  }

  /** Adding one event raises the count of its action by one and leaves the others. */
  lemma CountPush(events: seq<TraceEvent>, e: TraceEvent, action: string)
    ensures CountAction(events + [e], action) == CountAction(events, action) + (if e.action == action then 1 else 0)
  {
    assert (events + [e])[..|events + [e]| - 1] == events;
  }

  /** The budget's rerank events are never the controller's batch events. */
  lemma RerankEventAction(b: CostBudget, u: Usage, n: int, elapsedMs: real)
    ensures RerankAttempt(b, u, n, elapsedMs).event.Some?
    ensures RerankAttempt(b, u, n, elapsedMs).event.value.action != RerankBatch
    ensures RerankAttempt(b, u, n, elapsedMs).event.value.action != SkipBatch
  {
  }

  /** Step 2: one retrieval of the top 10 documents per query, tagged with both queries. */
  method RetrieveAll(query: string, queries: seq<string>, retriever: Retrievers.InMemoryRetriever)
    returns (results: seq<Fusion.ReformulationResult>)
    ensures |results| == |queries|
    ensures forall i :: 0 <= i < |queries| ==>
      results[i] == Fusion.ReformulationResult(query, queries[i], retriever.Retrieve(queries[i], RetrievalTopK))
  {
    results := [];
    for i := 0 to |queries|
      invariant |results| == i
      invariant forall j :: 0 <= j < i ==>
        results[j] == Fusion.ReformulationResult(query, queries[j], retriever.Retrieve(queries[j], RetrievalTopK))
    {
      var docs := retriever.Retrieve(queries[i], RetrievalTopK);
      results := results + [Fusion.ReformulationResult(query, queries[i], docs)];
    }
  }

  /** The documents at positions `idx` of the pool, in that order: the batch the reranker gets. */
  function Batch(pool: seq<ScoredDocument>, idx: seq<int>): (b: seq<ScoredDocument>)
    requires Seqs.InRange(idx, |pool|)
    ensures |b| == |idx| && forall k :: 0 <= k < |idx| ==> b[k] == pool[idx[k]]
  {
    seq(|idx|, k requires 0 <= k < |idx| => pool[idx[k]])
  }

  /** `for idx, doc in zip(idx, reranked): pool[idx] = doc`, pair by pair from the front. */
  function Written(pool: seq<ScoredDocument>, idx: seq<int>, reranked: seq<ScoredDocument>): (r: seq<ScoredDocument>)
    requires Seqs.InRange(idx, |pool|)
    ensures |r| == |pool|
    decreases |idx|
  {
    if idx == [] || reranked == [] then pool
    else Written(pool[idx[0] := reranked[0]], idx[1..], reranked[1..])
  }

  /**
   * One granted batch at positions `idx`: the reranker gets the documents there, its answer is
   * written back position by position, and the positions it answered for become processed.
   */
  function Rerun(pool: seq<ScoredDocument>, processed: seq<int>, idx: seq<int>, rerank: Reranker, query: string)
    : (r: (seq<ScoredDocument>, seq<int>))
    requires Seqs.InRange(idx, |pool|)
    ensures |r.0| == |pool|
  {
    var reranked := rerank(Batch(pool, idx), query);
    (Written(pool, idx, reranked), processed + idx[..Numbers.Min(|idx|, |reranked|)])
  }

  /** The pool and the processed positions after the granted batches `batches`, in order. */
  function Replay(pool0: seq<ScoredDocument>, batches: seq<seq<int>>, rerank: Reranker, query: string)
    : (r: (seq<ScoredDocument>, seq<int>))
    requires forall j :: 0 <= j < |batches| ==> Seqs.InRange(batches[j], |pool0|)
    ensures |r.0| == |pool0|
    decreases |batches|
  {
    if batches == [] then (pool0, [])
    else
      var prev := Replay(pool0, batches[..|batches| - 1], rerank, query);
      Rerun(prev.0, prev.1, batches[|batches| - 1], rerank, query)
  }

  /** One more granted batch is one more `Rerun` on the replayed pool. */
  lemma ReplaySnoc(pool0: seq<ScoredDocument>, batches: seq<seq<int>>, batch: seq<int>, rerank: Reranker, query: string)
    requires forall j :: 0 <= j < |batches| ==> Seqs.InRange(batches[j], |pool0|)
    requires Seqs.InRange(batch, |pool0|)
    ensures forall j :: 0 <= j < |batches + [batch]| ==> Seqs.InRange((batches + [batch])[j], |pool0|)
    ensures var prev := Replay(pool0, batches, rerank, query);
      Replay(pool0, batches + [batch], rerank, query) == Rerun(prev.0, prev.1, batch, rerank, query)
  {
    assert (batches + [batch])[..|batches|] == batches;
  }

  /** `batch` is the position list the scheduler proposes for this pool and these processed positions. */
  predicate Proposed(s: Schedulers.ActiveLearningScheduler, pool: seq<ScoredDocument>, processed: seq<int>, batch: seq<int>)
    requires s.batchSize >= 1
  {
    && (|processed| < |pool| ==> Estimators.ValidIndices(|pool|, processed))
    && Schedulers.ProposalSpec(s, pool, processed).Some?
    && batch == Schedulers.ProposalSpec(s, pool, processed).value.documentIndices
  }

  /** Every granted batch is the scheduler's proposal for the state the batches before it left. */
  ghost predicate Scheduled(s: Schedulers.ActiveLearningScheduler, pool0: seq<ScoredDocument>, batches: seq<seq<int>>,
                            rerank: Reranker, query: string)
    requires s.batchSize >= 1
    requires forall j :: 0 <= j < |batches| ==> Seqs.InRange(batches[j], |pool0|)
    decreases |batches|
  {
    batches != [] ==>
      var before := batches[..|batches| - 1];
      var prev := Replay(pool0, before, rerank, query);
      Scheduled(s, pool0, before, rerank, query) && Proposed(s, prev.0, prev.1, batches[|batches| - 1])
  }

  /** Granting the scheduler's next proposal keeps every granted batch a scheduled one. */
  lemma ScheduledSnoc(s: Schedulers.ActiveLearningScheduler, pool0: seq<ScoredDocument>, batches: seq<seq<int>>,
                      batch: seq<int>, rerank: Reranker, query: string)
    requires s.batchSize >= 1
    requires forall j :: 0 <= j < |batches| ==> Seqs.InRange(batches[j], |pool0|)
    requires Seqs.InRange(batch, |pool0|)
    requires Scheduled(s, pool0, batches, rerank, query)
    requires var prev := Replay(pool0, batches, rerank, query); Proposed(s, prev.0, prev.1, batch)
    ensures forall j :: 0 <= j < |batches + [batch]| ==> Seqs.InRange((batches + [batch])[j], |pool0|)
    ensures Scheduled(s, pool0, batches + [batch], rerank, query)
  {
    assert (batches + [batch])[..|batches|] == batches;
  }

  /**
   * The loop's record so far: `batches` are in range, were each proposed by the scheduler, and
   * replayed on `pool0` they give `pool` and `processed`.
   */
  ghost predicate Traced(s: Schedulers.ActiveLearningScheduler, pool0: seq<ScoredDocument>, batches: seq<seq<int>>,
                         pool: seq<ScoredDocument>, processed: seq<int>, rerank: Reranker, query: string)
    requires s.batchSize >= 1
  {
    && (forall j :: 0 <= j < |batches| ==> Seqs.InRange(batches[j], |pool0|))
    && (pool, processed) == Replay(pool0, batches, rerank, query)
    && Scheduled(s, pool0, batches, rerank, query)
  }

  /** One more scheduled, granted batch extends the record. */
  lemma TracedSnoc(s: Schedulers.ActiveLearningScheduler, pool0: seq<ScoredDocument>, batches: seq<seq<int>>,
                   pool: seq<ScoredDocument>, processed: seq<int>, batch: seq<int>,
                   pool': seq<ScoredDocument>, processed': seq<int>, rerank: Reranker, query: string)
    requires s.batchSize >= 1
    requires Traced(s, pool0, batches, pool, processed, rerank, query)
    requires Seqs.InRange(batch, |pool|) && Proposed(s, pool, processed, batch)
    requires (pool', processed') == Rerun(pool, processed, batch, rerank, query)
    ensures Traced(s, pool0, batches + [batch], pool', processed', rerank, query)
  {
    ReplaySnoc(pool0, batches, batch, rerank, query);
    ScheduledSnoc(s, pool0, batches, batch, rerank, query);
  }

  /** A reranker that hands every batch back as it came. */
  ghost predicate Identity(rerank: Reranker) {
    forall b, q :: rerank(b, q) == b
  }

  /** Writing back documents that are already at their positions changes nothing. */
  lemma {:induction false} WrittenSame(pool: seq<ScoredDocument>, idx: seq<int>, reranked: seq<ScoredDocument>)
    requires Seqs.InRange(idx, |pool|)
    requires forall k :: 0 <= k < |idx| && k < |reranked| ==> reranked[k] == pool[idx[k]]
    ensures Written(pool, idx, reranked) == pool
    decreases |idx|
  {
    if idx != [] && reranked != [] {
      assert pool[idx[0] := reranked[0]] == pool;
      WrittenSame(pool, idx[1..], reranked[1..]);
    }
  }

  /**
   * With a reranker that returns its batch unchanged, no sequence of granted batches changes
   * the pool.
   */
  lemma {:induction false} ReplayIdentity(pool0: seq<ScoredDocument>, batches: seq<seq<int>>, rerank: Reranker, query: string)
    requires forall j :: 0 <= j < |batches| ==> Seqs.InRange(batches[j], |pool0|)
    requires Identity(rerank)
    ensures Replay(pool0, batches, rerank, query).0 == pool0
    decreases |batches|
  {
    if batches != [] {
      var prev := Replay(pool0, batches[..|batches| - 1], rerank, query);
      ReplayIdentity(pool0, batches[..|batches| - 1], rerank, query);
      var idx := batches[|batches| - 1];
      WrittenSame(prev.0, idx, rerank(Batch(prev.0, idx), query));
    }
  }

  /**
   * The `zip` of the proposed positions with the reranked documents: each reranked document
   * replaces the pool entry at its position, which is appended to the processed positions.
   * The zip stops at the shorter of the two lists.
   */
  method WriteBack(pool: seq<ScoredDocument>, processed: seq<int>, idx: seq<int>, reranked: seq<ScoredDocument>)
    returns (pool': seq<ScoredDocument>, processed': seq<int>)
    requires Seqs.InRange(idx, |pool|)
    ensures |pool'| == |pool|
    ensures pool' == Written(pool, idx, reranked)
    ensures processed' == processed + idx[..Numbers.Min(|idx|, |reranked|)]
    ensures forall i :: 0 <= i < |pool| && i !in idx[..Numbers.Min(|idx|, |reranked|)] ==> pool'[i] == pool[i]
    ensures Seqs.Distinct(idx) ==> forall k :: 0 <= k < Numbers.Min(|idx|, |reranked|) ==> pool'[idx[k]] == reranked[k]
  {
    var m := Numbers.Min(|idx|, |reranked|);
    pool', processed' := pool, processed;
    for k := 0 to m
      invariant |pool'| == |pool|
      invariant Written(pool', idx[k..], reranked[k..]) == Written(pool, idx, reranked)
      invariant processed' == processed + idx[..k]
      invariant forall i :: 0 <= i < |pool| && i !in idx[..k] ==> pool'[i] == pool[i]
      invariant Seqs.Distinct(idx) ==> forall j :: 0 <= j < k ==> pool'[idx[j]] == reranked[j]
    {
      assert idx[..k + 1] == idx[..k] + [idx[k]];
      assert idx[k..][1..] == idx[k + 1..] && reranked[k..][1..] == reranked[k + 1..];
      pool' := pool'[idx[k] := reranked[k]];
      processed' := processed' + [idx[k]];
    }
  }

  /**
   * One pass of the refinement loop: ask the scheduler for a batch, ask the budget for it, and
   * either rerank and write it back or record the skip. `stop` is the loop's `break`;
   * `exhausted` tells a refused proposal (every position processed) from a refused budget.
   * The clock is read once by the scheduler's probe and once more for the batch itself.
   */
  method Step(s: Schedulers.ActiveLearningScheduler, pool: seq<ScoredDocument>, processed: seq<int>,
              tracker: CostTracker, rerank: Reranker, query: string, clock: nat -> real, ticks: nat)
    returns (pool': seq<ScoredDocument>, processed': seq<int>, ticks': nat, stop: bool,
             ghost exhausted: bool, ghost batch: seq<int>)
    requires s.batchSize >= 1
    requires Seqs.InRange(processed, |pool|) && Seqs.Distinct(processed)
    modifies tracker, tracker.trace
    ensures |pool'| == |pool| && Seqs.InRange(processed', |pool|) && Seqs.Distinct(processed')
    ensures processed <= processed'
    ensures forall i :: 0 <= i < |pool| && i !in processed' ==> pool'[i] == pool[i]
    ensures tracker.tokensUsed == old(tracker.tokensUsed)
    ensures tracker.reformulationsUsed == old(tracker.reformulationsUsed)
    ensures old(tracker.trace.events) <= tracker.trace.events
    ensures CountAction(tracker.trace.events, RerankBatch) ==
      CountAction(old(tracker.trace.events), RerankBatch) + (if stop then 0 else 1)
    ensures CountAction(tracker.trace.events, SkipBatch) ==
      CountAction(old(tracker.trace.events), SkipBatch) + (if stop && !exhausted then 1 else 0)
    ensures |processed'| - |processed| <= tracker.rerankDocsUsed - old(tracker.rerankDocsUsed)
    ensures stop ==> pool' == pool && processed' == processed && tracker.rerankDocsUsed == old(tracker.rerankDocsUsed)
    ensures !stop ==> Seqs.InRange(batch, |pool|) && (pool', processed') == Rerun(pool, processed, batch, rerank, query)
    ensures !stop ==> Proposed(s, pool, processed, batch)
    ensures stop && exhausted ==> Schedulers.ProposalSpec(s, pool, processed).None?
    ensures !stop ==> old(tracker.rerankDocsUsed) < tracker.rerankDocsUsed <= tracker.budget.maxRerankerDocs
    ensures !stop && s.batchSize == 1 && LengthPreserving(rerank) ==>
      tracker.rerankDocsUsed == old(tracker.rerankDocsUsed) + 1 && |processed'| == |processed| + 1
    ensures stop && exhausted ==> |processed| == |pool|
    ensures stop && !exhausted ==> |processed| < |pool|
    ensures stop && !exhausted && s.batchSize == 1 && WithinLatency(clock, tracker.budget) ==>
      tracker.rerankDocsUsed + 1 > tracker.budget.maxRerankerDocs
    ensures ticks' > ticks
  {
    ghost var events0 := tracker.trace.events;
    ghost var used0 := tracker.Used();
    RerankEventAction(tracker.budget, used0, 0, clock(ticks));
    var proposal := Schedulers.ProposeNextBatch(s, pool, processed, tracker, clock(ticks));
    ticks' := ticks + 1;
    ghost var probe := RerankAttempt(tracker.budget, used0, 0, clock(ticks)).event.value;
    CountPush(events0, probe, RerankBatch);
    CountPush(events0, probe, SkipBatch);
    if proposal.None? {
      Schedulers.ProposalNone(s, pool, processed);
      Seqs.DistinctInRange(processed, |pool|);
      return pool, processed, ticks', true, true, [];
    }
    ghost var _ := Schedulers.ProposalFacts(s, pool, processed);
    var granted;
    pool', processed', granted := RunBatch(proposal.value, pool, processed, tracker, rerank, query, clock(ticks'));
    ticks' := ticks' + 1;
    stop, exhausted, batch := !granted, false, proposal.value.documentIndices;
  }

  /**
   * The body of the loop once a proposal is in hand: the budget is asked for the whole batch
   * at `elapsedMs`; a grant reranks the batch, writes it back and records `rerank_batch`,
   * a refusal records `skip_batch` and changes nothing else.
   */
  method RunBatch(p: IndexProposal, pool: seq<ScoredDocument>, processed: seq<int>, tracker: CostTracker,
                  rerank: Reranker, query: string, elapsedMs: real)
    returns (pool': seq<ScoredDocument>, processed': seq<int>, granted: bool)
    requires |p.documentIndices| >= 1 && Seqs.InRange(p.documentIndices, |pool|) && Seqs.Distinct(p.documentIndices)
    requires forall k :: 0 <= k < |p.documentIndices| ==> p.documentIndices[k] !in processed
    requires Seqs.InRange(processed, |pool|) && Seqs.Distinct(processed)
    modifies tracker, tracker.trace
    ensures |pool'| == |pool| && Seqs.InRange(processed', |pool|) && Seqs.Distinct(processed')
    ensures processed <= processed'
    ensures forall i :: 0 <= i < |pool| && i !in processed' ==> pool'[i] == pool[i]
    ensures tracker.tokensUsed == old(tracker.tokensUsed)
    ensures tracker.reformulationsUsed == old(tracker.reformulationsUsed)
    ensures old(tracker.trace.events) <= tracker.trace.events
    ensures CountAction(tracker.trace.events, RerankBatch) ==
      CountAction(old(tracker.trace.events), RerankBatch) + (if granted then 1 else 0)
    ensures CountAction(tracker.trace.events, SkipBatch) ==
      CountAction(old(tracker.trace.events), SkipBatch) + (if granted then 0 else 1)
    ensures granted ==> old(tracker.rerankDocsUsed) < tracker.rerankDocsUsed <= tracker.budget.maxRerankerDocs
    ensures granted ==> (pool', processed') == Rerun(pool, processed, p.documentIndices, rerank, query)
    ensures |processed'| - |processed| <= tracker.rerankDocsUsed - old(tracker.rerankDocsUsed)
    ensures granted && |p.documentIndices| == 1 && LengthPreserving(rerank) ==>
      tracker.rerankDocsUsed == old(tracker.rerankDocsUsed) + 1 && |processed'| == |processed| + 1
    ensures !granted ==> pool' == pool && processed' == processed && tracker.rerankDocsUsed == old(tracker.rerankDocsUsed)
    ensures !granted && elapsedMs <= tracker.budget.maxLatencyMs ==>
      tracker.rerankDocsUsed + |p.documentIndices| > tracker.budget.maxRerankerDocs
  {
    var n := |p.documentIndices|;
    granted := AskForBatch(tracker, n, elapsedMs);
    if granted {
      pool', processed' := ApplyBatch(p, pool, processed, tracker.trace, rerank, query);
    } else {
      RecordSkip(tracker.trace);
      pool', processed' := pool, processed;
    }
  }

  /**
   * The budget request for a batch of `n` documents at `elapsedMs`: granted exactly when the
   * latency ceiling is not passed and the documents fit; only the rerank counter moves, and
   * the verdict event is neither a batch nor a skip.
   */
  method AskForBatch(tracker: CostTracker, n: int, elapsedMs: real) returns (granted: bool)
    modifies tracker, tracker.trace
    ensures granted <==> elapsedMs <= tracker.budget.maxLatencyMs && n <= tracker.budget.maxRerankerDocs - old(tracker.rerankDocsUsed)
    ensures tracker.rerankDocsUsed == old(tracker.rerankDocsUsed) + (if granted then n else 0)
    ensures tracker.tokensUsed == old(tracker.tokensUsed)
    ensures tracker.reformulationsUsed == old(tracker.reformulationsUsed)
    ensures old(tracker.trace.events) <= tracker.trace.events
    ensures CountAction(tracker.trace.events, RerankBatch) == CountAction(old(tracker.trace.events), RerankBatch)
    ensures CountAction(tracker.trace.events, SkipBatch) == CountAction(old(tracker.trace.events), SkipBatch)
  {
    ghost var events1 := tracker.trace.events;
    ghost var used1 := tracker.Used();
    RerankAttemptMeaning(tracker.budget, used1, n, elapsedMs);
    granted := tracker.TryConsumeRerank(n, elapsedMs);
    ghost var verdict := RerankAttempt(tracker.budget, used1, n, elapsedMs).event.value;
    CountPush(events1, verdict, RerankBatch);
    CountPush(events1, verdict, SkipBatch);
  }

  /** A refused batch: `skip_batch` with reason `budget_denied` is recorded. */
  method RecordSkip(trace: ControllerTrace)
    modifies trace
    ensures trace.events == old(trace.events) + [TraceEvent("controller", SkipBatch, map["reason" := VStr("budget_denied")])]
    ensures CountAction(trace.events, RerankBatch) == CountAction(old(trace.events), RerankBatch)
    ensures CountAction(trace.events, SkipBatch) == CountAction(old(trace.events), SkipBatch) + 1
  {
    ghost var events := trace.events;
    trace.Add("controller", SkipBatch, map["reason" := VStr("budget_denied")]);
    CountPush(events, trace.events[|trace.events| - 1], RerankBatch);
    CountPush(events, trace.events[|trace.events| - 1], SkipBatch);
  }

  /** The details of a `rerank_batch` event: size, strategy, the ids now at the positions, utility. */
  function BatchDetails(p: IndexProposal, pool: seq<ScoredDocument>): map<string, Value>
    requires Seqs.InRange(p.documentIndices, |pool|)
  {
    var idx := p.documentIndices;
    map["count" := VInt(|idx|), "strategy" := VStr(p.strategy),
        "doc_ids" := VList(seq(|idx|, k requires 0 <= k < |idx| => VStr(pool[idx[k]].id))),
        "utility" := VReal(p.estimatedUtility)]
  }

  /** A granted batch: rerank it, write it back into the pool, and record `rerank_batch`. */
  method ApplyBatch(p: IndexProposal, pool: seq<ScoredDocument>, processed: seq<int>, trace: ControllerTrace,
                    rerank: Reranker, query: string)
    returns (pool': seq<ScoredDocument>, processed': seq<int>)
    requires Seqs.InRange(p.documentIndices, |pool|) && Seqs.Distinct(p.documentIndices)
    requires forall k :: 0 <= k < |p.documentIndices| ==> p.documentIndices[k] !in processed
    requires Seqs.InRange(processed, |pool|) && Seqs.Distinct(processed)
    modifies trace
    ensures (pool', processed') == Rerun(pool, processed, p.documentIndices, rerank, query)
    ensures |pool'| == |pool| && Seqs.InRange(processed', |pool|) && Seqs.Distinct(processed')
    ensures processed <= processed' && |processed'| - |processed| <= |p.documentIndices|
    ensures forall i :: 0 <= i < |pool| && i !in processed' ==> pool'[i] == pool[i]
    ensures |p.documentIndices| == 1 && LengthPreserving(rerank) ==> |processed'| == |processed| + 1
    ensures trace.events == old(trace.events) + [TraceEvent("controller", RerankBatch, BatchDetails(p, pool'))]
    ensures CountAction(trace.events, RerankBatch) == CountAction(old(trace.events), RerankBatch) + 1
    ensures CountAction(trace.events, SkipBatch) == CountAction(old(trace.events), SkipBatch)
  {
    ghost var events := trace.events;
    var idx := p.documentIndices;
    var reranked := rerank(Batch(pool, idx), query);
    pool', processed' := WriteBack(pool, processed, idx, reranked);
    var m := Numbers.Min(|idx|, |reranked|);
    assert Seqs.Distinct(idx[..m]);
    Seqs.DistinctAppend(processed, idx[..m]);
    trace.Add("controller", RerankBatch, BatchDetails(p, pool'));
    CountPush(events, trace.events[|trace.events| - 1], RerankBatch);
    CountPush(events, trace.events[|trace.events| - 1], SkipBatch);
  }

  /**
   * Step 4, the `while True` loop, run to its `break`. Only unprocessed positions keep their
   * documents; the rerank counter grows by at least the number of positions processed and
   * stays within its ceiling; the loop records at most one skip. With batches of one
   * document, a reranker that returns as many documents as it is given and a clock that
   * never passes the latency ceiling, the loop reranks exactly `min(remaining, |pool|)`
   * documents, one batch each, and records a skip exactly when the pool outlasts the budget.
   */
  method RefineLoop(s: Schedulers.ActiveLearningScheduler, pool0: seq<ScoredDocument>, tracker: CostTracker,
                    rerank: Reranker, query: string, clock: nat -> real, ticks0: nat)
    returns (pool: seq<ScoredDocument>, processed: seq<int>, ticks: nat, ghost batches: seq<seq<int>>)
    requires s.batchSize >= 1
    modifies tracker, tracker.trace
    ensures forall j :: 0 <= j < |batches| ==> Seqs.InRange(batches[j], |pool0|)
    ensures (pool, processed) == Replay(pool0, batches, rerank, query)
    ensures Scheduled(s, pool0, batches, rerank, query)
    ensures |pool| == |pool0| && Seqs.InRange(processed, |pool0|) && Seqs.Distinct(processed)
    ensures forall i :: 0 <= i < |pool| && i !in processed ==> pool[i] == pool0[i]
    ensures Identity(rerank) ==> pool == pool0
    ensures tracker.tokensUsed == old(tracker.tokensUsed)
    ensures tracker.reformulationsUsed == old(tracker.reformulationsUsed)
    ensures old(tracker.trace.events) <= tracker.trace.events
    ensures old(tracker.rerankDocsUsed) <= tracker.rerankDocsUsed
    ensures tracker.rerankDocsUsed <= tracker.budget.maxRerankerDocs || tracker.rerankDocsUsed == old(tracker.rerankDocsUsed)
    ensures |processed| <= tracker.rerankDocsUsed - old(tracker.rerankDocsUsed)
    ensures CountAction(tracker.trace.events, SkipBatch) <= CountAction(old(tracker.trace.events), SkipBatch) + 1
    ensures CountAction(tracker.trace.events, SkipBatch) == CountAction(old(tracker.trace.events), SkipBatch) ==>
      Schedulers.ProposalSpec(s, pool, processed).None?
    ensures (&& s.batchSize == 1 && LengthPreserving(rerank) && WithinLatency(clock, tracker.budget)
             && old(tracker.rerankDocsUsed) <= tracker.budget.maxRerankerDocs) ==>
        && |processed| == Numbers.Min(tracker.budget.maxRerankerDocs - old(tracker.rerankDocsUsed), |pool0|)
        && tracker.rerankDocsUsed == old(tracker.rerankDocsUsed) + |processed|
        && CountAction(tracker.trace.events, RerankBatch) == CountAction(old(tracker.trace.events), RerankBatch) + |processed|
        && CountAction(tracker.trace.events, SkipBatch) == CountAction(old(tracker.trace.events), SkipBatch) +
             (if tracker.budget.maxRerankerDocs - old(tracker.rerankDocsUsed) < |pool0| then 1 else 0)
  {
    pool, processed, ticks, batches := pool0, [], ticks0, [];
    ghost var events0 := tracker.trace.events;
    ghost var start := tracker.rerankDocsUsed;
    ghost var ideal := s.batchSize == 1 && LengthPreserving(rerank);
    var max := tracker.budget.maxRerankerDocs;
    while true
      invariant Traced(s, pool0, batches, pool, processed, rerank, query)
      invariant |pool| == |pool0| && Seqs.InRange(processed, |pool0|) && Seqs.Distinct(processed)
      invariant forall i :: 0 <= i < |pool| && i !in processed ==> pool[i] == pool0[i]
      invariant tracker.tokensUsed == old(tracker.tokensUsed)
      invariant tracker.reformulationsUsed == old(tracker.reformulationsUsed)
      invariant events0 <= tracker.trace.events
      invariant start <= tracker.rerankDocsUsed && (tracker.rerankDocsUsed <= max || tracker.rerankDocsUsed == start)
      invariant |processed| <= tracker.rerankDocsUsed - start
      invariant CountAction(tracker.trace.events, RerankBatch) == CountAction(events0, RerankBatch) + |batches|
      invariant CountAction(tracker.trace.events, SkipBatch) == CountAction(events0, SkipBatch)
      invariant ideal ==> |processed| == |batches| == tracker.rerankDocsUsed - start
      decreases max - tracker.rerankDocsUsed
    {
      ghost var before := (pool, processed);
      var stop: bool;
      ghost var exhausted: bool;
      ghost var batch: seq<int>;
      pool, processed, ticks, stop, exhausted, batch := Step(s, pool, processed, tracker, rerank, query, clock, ticks);
      if stop {
        if exhausted {
          Seqs.DistinctInRange(processed, |pool0|);
        }
        if Identity(rerank) {
          ReplayIdentity(pool0, batches, rerank, query);
        }
        break;
      }
      TracedSnoc(s, pool0, batches, before.0, before.1, batch, pool, processed, rerank, query);
      batches := batches + [batch];
    }
  }

  /**
   * Steps 1 to 3: the reformulation, falling back to the query itself when denied, one
   * retrieval per query, and the fusion. The reformulation verdict is the only event, and
   * no token or rerank document is spent.
   */
  method Gather(query: string, retriever: Retrievers.InMemoryRetriever, tracker: CostTracker)
    returns (pool: seq<ScoredDocument>)
    modifies tracker, tracker.trace
    ensures pool == Fusion.Dedup(Fusion.Flatten([Fusion.ReformulationResult(query, query, retriever.Retrieve(query, RetrievalTopK))]), {})
    ensures tracker.tokensUsed == old(tracker.tokensUsed) && tracker.rerankDocsUsed == old(tracker.rerankDocsUsed)
    ensures CountAction(tracker.trace.events, SkipBatch) == CountAction(old(tracker.trace.events), SkipBatch)
    ensures CountAction(tracker.trace.events, RerankBatch) == CountAction(old(tracker.trace.events), RerankBatch)
  {
    ghost var events0 := tracker.trace.events;
    ghost var used0 := tracker.Used();
    ReformulationAttemptMeaning(tracker.budget, used0, 1);
    var queries := Reformulators.Generate(query, tracker);
    if queries == [] {
      queries := [query];
    }
    ghost var verdict := ReformulationAttempt(tracker.budget, used0, 1).event.value;
    CountPush(events0, verdict, SkipBatch);
    CountPush(events0, verdict, RerankBatch);
    var results := RetrieveAll(query, queries, retriever);
    assert results == [Fusion.ReformulationResult(query, query, retriever.Retrieve(query, RetrievalTopK))];
    pool := Fusion.Fuse(results);
  }

  /**
   * Step 5 from a tracker that has spent no tokens yet: the greedy token fit of the pool by
   * descending score, which spends exactly its own tokens and no more than the ceiling.
   */
  method AssembleFrom(pool: seq<ScoredDocument>, tracker: CostTracker) returns (documents: seq<ScoredDocument>)
    requires tracker.tokensUsed == 0
    modifies tracker
    ensures documents == Assemblers.GreedyFit(Sorting.SortDesc(pool, Assemblers.Score), 0, tracker.budget.maxTokens).0
    ensures tracker.tokensUsed == Assemblers.TokenTotal(documents)
    ensures tracker.budget.maxTokens >= 0 ==> tracker.tokensUsed <= tracker.budget.maxTokens
    ensures tracker.rerankDocsUsed == old(tracker.rerankDocsUsed)
  {
    documents := Assemblers.Assemble(pool, tracker);
    Assemblers.FitTokens(Sorting.SortDesc(pool, Assemblers.Score), 0, tracker.budget.maxTokens);
    if tracker.budget.maxTokens >= 0 {
      Assemblers.FitBound(Sorting.SortDesc(pool, Assemblers.Score), 0, tracker.budget.maxTokens);
    }
  }

  /** The controller over its collaborators; the reformulator and the assembler are the fixed ones. */
  class RAGtuneController {
    const retriever: Retrievers.InMemoryRetriever
    const rerank: Reranker
    const scheduler: Schedulers.ActiveLearningScheduler
    const defaultBudget: CostBudget

    /** A missing budget is the default `CostBudget()`. */
    constructor(retriever: Retrievers.InMemoryRetriever, rerank: Reranker,
                scheduler: Schedulers.ActiveLearningScheduler, budget: Option<CostBudget>)
      ensures this.retriever == retriever && this.rerank == rerank && this.scheduler == scheduler
      ensures defaultBudget == budget.GetOr(DefaultBudget)
    {
      this.retriever := retriever;
      this.rerank := rerank;
      this.scheduler := scheduler;
      defaultBudget := budget.GetOr(DefaultBudget);
    }

    /** The budget of a run: the override when given, otherwise the controller's default. */
    function EffectiveBudget(overrideBudget: Option<CostBudget>): CostBudget {
      overrideBudget.GetOr(defaultBudget)
    }

    /** The fused pool: the identity reformulation leaves one query, the user's own. */
    function FusedPool(query: string): seq<ScoredDocument> {
      Fusion.Dedup(Fusion.Flatten([Fusion.ReformulationResult(query, query, retriever.Retrieve(query, RetrievalTopK))]), {})
    }

    /**
     * `run(query, override_budget)`. `clock` gives the successive readings of the elapsed time;
     * `finalPool` is the pool after the loop, which the assembler receives. The result is the
     * greedy token fit of that pool by descending score; it spends exactly its own tokens and
     * stays within both ceilings; at most one batch is skipped. Under the ideal conditions of
     * `RefineLoop`, the number of reranked batches and of skips is fixed by the two sizes.
     */
    method Run(query: string, overrideBudget: Option<CostBudget>, clock: nat -> real)
      returns (out: ControllerOutput, ghost finalPool: seq<ScoredDocument>, ghost processed: seq<int>,
               ghost batches: seq<seq<int>>)
      requires scheduler.batchSize >= 1
      ensures out.query == query
      ensures forall j :: 0 <= j < |batches| ==> Seqs.InRange(batches[j], |FusedPool(query)|)
      ensures (finalPool, processed) == Replay(FusedPool(query), batches, rerank, query)
      ensures Scheduled(scheduler, FusedPool(query), batches, rerank, query)
      ensures |finalPool| == |FusedPool(query)|
      ensures forall i :: 0 <= i < |finalPool| && i !in processed ==> finalPool[i] == FusedPool(query)[i]
      ensures Identity(rerank) ==> finalPool == FusedPool(query)
      ensures out.documents ==
        Assemblers.GreedyFit(Sorting.SortDesc(finalPool, Assemblers.Score), 0, EffectiveBudget(overrideBudget).maxTokens).0
      ensures out.finalBudgetState.tokens == Assemblers.TokenTotal(out.documents)
      ensures EffectiveBudget(overrideBudget).maxTokens >= 0 ==>
        out.finalBudgetState.tokens <= EffectiveBudget(overrideBudget).maxTokens
      ensures EffectiveBudget(overrideBudget).maxRerankerDocs >= 0 ==>
        0 <= out.finalBudgetState.rerankDocs <= EffectiveBudget(overrideBudget).maxRerankerDocs
      ensures CountAction(out.trace.events, SkipBatch) <= 1
      ensures CountAction(out.trace.events, SkipBatch) == 0 ==> Schedulers.ProposalSpec(scheduler, finalPool, processed).None?
      ensures (&& scheduler.batchSize == 1 && LengthPreserving(rerank)
               && WithinLatency(clock, EffectiveBudget(overrideBudget))
               && EffectiveBudget(overrideBudget).maxRerankerDocs >= 0) ==>
          && out.finalBudgetState.rerankDocs == Numbers.Min(EffectiveBudget(overrideBudget).maxRerankerDocs, |FusedPool(query)|)
          && CountAction(out.trace.events, RerankBatch) == out.finalBudgetState.rerankDocs
          && CountAction(out.trace.events, SkipBatch) ==
               (if EffectiveBudget(overrideBudget).maxRerankerDocs < |FusedPool(query)| then 1 else 0)
    {
      var budget := EffectiveBudget(overrideBudget);
      var trace := new ControllerTrace();
      var tracker := new CostTracker(budget, trace);

      var pool := Gather(query, retriever, tracker);
      assert CountAction(trace.events, SkipBatch) == 0 && CountAction(trace.events, RerankBatch) == 0;

      var ticks;
      pool, processed, ticks, batches := RefineLoop(scheduler, pool, tracker, rerank, query, clock, 0);
      finalPool := pool;

      var documents := AssembleFrom(pool, tracker);
      out := ControllerOutput(query, documents, trace, tracker.Snapshot(clock(ticks)));
    }
  }
}
