# ragtune core, modelled in Dafny

ragtune is a budget-aware retrieval-and-reranking pipeline. The controller runs a query in five steps:

1. An identity reformulator asks the cost tracker for one reformulation.
2. An in-memory retriever returns, for every query, up to ten keyword matches, or the first ten corpus documents when nothing matches.
3. The candidate lists are fused into one list that keeps the first document seen for each id.
4. The loop runs: an active-learning scheduler proposes the unprocessed pool positions with the best estimated utility.
   - The utility estimator computes those utilities. It boosts documents that share metadata with high-scoring reranked "winners".
   - Each proposed batch is reranked only when the tracker grants its documents. The first refusal ends the loop.
5. A greedy assembler keeps the documents, best score first, whose tokens still fit the token budget.

Every reformulation and rerank decision of the budget is recorded in an append-only trace; token charges are not. The pipeline has these further parts:

- **Candidate pool.** Items go through the state machine CANDIDATE → IN_FLIGHT → RERANKED → DROPPED.
- **Stop policies.** One stops at a token floor. The other stops once source weights converge.
- **Component registry.** It holds eight name-to-component tables.
- **Configuration lookup.** It reads dot-separated paths.
- **CLI helpers.** The CLI parses scalar values and draws the ASCII component box.
- **Benchmark metrics.** These are recall@k and mean reciprocal rank.

The project has one Dafny module per source file:

| module | source file |
|---|---|
| Types | types.py |
| Pool | pool.py |
| Budget | budget.py |
| Controller | controller.py |
| Schedulers | schedulers.py |
| Estimators | estimators.py |
| Assemblers | assemblers.py |
| Fusion | fusion.py |
| Retrievers | retrievers.py |
| Rerankers | rerankers.py |
| Reformulators | reformulators.py |
| Feedback | feedback.py |
| Registry | registry.py |
| Config | config.py |
| Visualize | visualize.py |
| BenchmarkUtils | benchmark_utils.py |

Five helper modules support them:

- Wrappers holds Option and Result.
- Numbers holds min, max, abs, powers and sums.
- Seqs holds distinctness and Python slicing.
- Text holds ASCII stand-ins for `str.lower`, `upper`, `in`, `strip`, `split` and the format paddings.
- Sorting holds Python's stable `sorted(..., reverse=True)`, as an insertion sort with its proofs.

Code that mutates state is modelled imperatively:

- The cost tracker, the pool, the trace, the convergence detector, the registry and the config loader are classes whose methods modify their fields.
- The controller, scheduler, estimator, assembler, fusion, config walk and metrics loops are methods with loop invariants.
- Each imperative member is proved against a specification function. Its properties are proved as lemmas.

Pure code is modelled as functions: the rerankers, the retriever, the parser and the box renderer.

Nothing in the model reads a clock, draws a uuid or does I/O:

- The tracker's elapsed time is a parameter of `TryConsumeRerank`.
- The controller takes `clock`, the successive readings of the elapsed time.
- Python's `float()` is the `parseFloat` parameter of the parser.
- The reranker used by the controller is an arbitrary function parameter.

Where the sources disagree with each other, the model follows the code that runs:

- `fusion.py` and `core/controller.py` import `ReformulationResult` from `core/types.py`, which does not define it. The model defines it in `Fusion`, with the three fields the callers use.
- `schedulers.py` imports `RerankStrategy` from `core/types.py`, which does not define it either. The strategy is a string in the model.
- The scheduler builds its `BatchProposal` with `document_indices`, and the controller reads `proposal.document_indices`. `BatchProposal` in `core/types.py` declares `doc_ids` and `expected_cost` instead. The model keeps `Types.BatchProposal` as declared. The scheduler and controller use `Types.IndexProposal`, whose positions are what both files use.

## Model

| member | source | states |
|---|---|---|
| Types.ItemState.Name | src/ragtune/core/types.py:7-11 | each state's value is one of the four strings "candidate", "in_flight", "reranked", "dropped" |
| Types.ItemState.Str | src/ragtune/core/types.py:7-11 | `str(state)` of the str-mixin enum starts with "ItemState." and is longer than it |
| Types.StrIsQualifiedName | src/ragtune/core/types.py:7-11 | `str(state)` is exactly "ItemState." followed by the upper-cased value name |
| Types.NewDocument | src/ragtune/core/types.py:29-39 | a document built from id and content has every other field at its declared default |
| Types.ControllerTrace.constructor | src/ragtune/core/types.py:48-51 | a new trace has no events |
| Types.ControllerTrace.Add | src/ragtune/core/types.py:53-54 | the event list grows by exactly the new event at its end; earlier events are kept |
| Types.CountActionAppend | src/ragtune/core/types.py:53-54 | counting events by action distributes over concatenation of histories |
| Types.IllegalTransitionError.Message | src/ragtune/core/types.py:78-80 | the message is the fixed prefix, the id, ": ", the current state, " -> " and the target, each at its exact position, with the exact total length |
| Pool.PoolItem.FinalScore | src/ragtune/core/pool.py:21-29 | precedence: a reranker score wins (even below the priority), else a positive priority, else the largest source score, else 0 |
| Pool.NewItem | src/ragtune/core/pool.py:5-19 | a new item is a CANDIDATE with final score 0 |
| Pool.AllowedTargets | src/ragtune/core/pool.py:32-37 | the transition table: every move goes strictly forward, no self-loops, nothing returns to CANDIDATE, DROPPED is terminal |
| Pool.TransitionFrame | src/ragtune/core/pool.py:42-52 | ids not named keep their item; a named item either keeps its item or made an allowed move to the target (state the only field changed); an error names a known id in a disallowed state |
| Pool.TransitionSuccessMeans | src/ragtune/core/pool.py:42-52 | a transition without error had only allowed moves, no known id twice, and moved exactly the named known items |
| Pool.TransitionSucceedsWhen | src/ragtune/core/pool.py:42-52 | the converse: allowed moves with no known id repeated always succeed, moving exactly the named items |
| Pool.TransitionStopsAt | src/ragtune/core/pool.py:44-52 | transitions are not atomic: on error the moves before the failing id stay applied and the failing item is reported in the state that refused |
| Pool.TransitionRaisesIfDisallowed | src/ragtune/core/pool.py:49-50 | a known id whose move is disallowed makes the call raise, whatever precedes it |
| Pool.TransitionRaisesOnDuplicate | src/ragtune/core/pool.py:49-52 | naming a known id twice in one call makes it raise, since no state may move to itself |
| Pool.PairKeys | src/ragtune/core/pool.py:56 | the keys of the score pairs, one per pair, in order |
| Pool.ScoreAllFrame | src/ragtune/core/pool.py:56-65 | items not scored are untouched and an error names a known id with target "reranked" |
| Pool.ScoreAllSucceedsWhen | src/ragtune/core/pool.py:56-65 | when every known scored id is IN_FLIGHT the write-back succeeds; each such item carries its score and strategy and is RERANKED |
| Pool.ScoreAllRaisesWhen | src/ragtune/core/pool.py:60-61 | a known scored id that is not IN_FLIGHT makes the write-back raise |
| Pool.ScoreAllFailureNames | src/ragtune/core/pool.py:60-61 | a failed write-back names a scored id that was not IN_FLIGHT, reported in its original state |
| Pool.UpdateAllDrops | src/ragtune/core/pool.py:54-71 | after a successful update with expected ids, none of them is left IN_FLIGHT, and each expected, unscored IN_FLIGHT item becomes that item DROPPED; an unscored item that was not IN_FLIGHT, and an item neither scored nor expected, is kept as it was; the ids are kept |
| Pool.PrioritizedFinalScore | src/ragtune/core/pool.py:73-78 | a candidate named in the priorities without a reranker score takes a positive priority as its final score |
| Pool.PrioritizedKeepsFinalScore | src/ragtune/core/pool.py:73-78 | every item other than a candidate named in the priorities and without a reranker score keeps its final score |
| Pool.Select | src/ragtune/core/pool.py:80-91 | the selected items are exactly the items of the listed keys whose state passes the filter, no more of them than keys |
| Pool.ItemsOf | src/ragtune/core/pool.py:80-91 | the items of the given keys, one per key, in key order |
| Pool.SelectInOrder | src/ragtune/core/pool.py:80-91 | selecting by state keeps key order: the result is a subsequence of the keys' items |
| Pool.Lookup | src/ragtune/core/pool.py:84-86 | every result is the item of a requested, known id |
| Pool.LookupAppend | src/ragtune/core/pool.py:84-86 | the lookup answers requests in order: it distributes over concatenation |
| Pool.LookupAllKnown | src/ragtune/core/pool.py:84-86 | when every id is known the lookup answers each request, in order, duplicates included |
| Pool.LookupSkipsMissing | src/ragtune/core/pool.py:84-86 | unknown ids are skipped: the lookup equals the lookup of the known ids alone |
| Pool.IndexWellFormed | src/ragtune/core/pool.py:39-40 | the dictionary built from the items lists each id once and files each item under its own id |
| Pool.IndexKeys | src/ragtune/core/pool.py:39-40 | the dictionary's keys are exactly the input ids |
| Pool.IndexLastWins | src/ragtune/core/pool.py:39-40 | for each id the dictionary holds the last item with that id: later duplicates overwrite earlier ones |
| Pool.CandidatePool.constructor | src/ragtune/core/pool.py:39-40 | the pool is the id-keyed dictionary of the items, well formed |
| Pool.CandidatePool.Transition | src/ragtune/core/pool.py:42-52 | the in-place loop leaves the items and the error that the transition walk specifies, and keeps the pool well formed |
| Pool.CandidatePool.UpdateScores | src/ragtune/core/pool.py:54-71 | the score write-back, then the drop of expected ids still IN_FLIGHT, as `UpdateAll` specifies |
| Pool.CandidatePool.WriteScores | src/ragtune/core/pool.py:56-65 | the write-back loop agrees with `ScoreAll`, including the error and the writes made before it |
| Pool.CandidatePool.DropExpected | src/ragtune/core/pool.py:67-71 | exactly the expected items still IN_FLIGHT become DROPPED |
| Pool.CandidatePool.ApplyPriorities | src/ragtune/core/pool.py:73-78 | exactly the named candidates take their priority; every other item is unchanged |
| Pool.CandidatePool.Eligible | src/ragtune/core/pool.py:80-82 | the result holds exactly the CANDIDATE items of the pool, in pool order (a subsequence of the items listed in insertion order) |
| Pool.CandidatePool.ActiveItems | src/ragtune/core/pool.py:88-91 | the result holds exactly the CANDIDATE and RERANKED items, in pool order (a subsequence of the items listed in insertion order) |
| Pool.CandidatePool.GetItems | src/ragtune/core/pool.py:84-86 | the known items among the requested ids, in request order |
| Pool.CandidatePool.Len | src/ragtune/core/pool.py:93-94 | the size of the pool is the number of distinct ids |
| Budget.ReformulationAttemptMeaning | src/ragtune/core/budget.py:25-31 | granted exactly when the request fits the ceiling; only the reformulation counter rises, by n; a denial changes nothing; one consume or deny event either way |
| Budget.RerankAttemptMeaning | src/ragtune/core/budget.py:33-47 | latency is checked first and strictly; otherwise granted exactly when n fits the remaining documents; the deny reason tells the two refusals apart; only the document counter moves |
| Budget.TokenAttemptMeaning | src/ragtune/core/budget.py:49-53 | granted exactly when the tokens fit; only the token counter moves; no event is recorded |
| Budget.RerankProbe | src/ragtune/core/budget.py:33-47 | a zero-document request changes no counter and is granted exactly when latency is not exceeded |
| Budget.AttemptsKeepCeilings | src/ragtune/core/budget.py:25-53 | for non-negative amounts no attempt lets a counter pass its ceiling or decrease |
| Budget.CostTracker.constructor | src/ragtune/core/budget.py:13-19 | a new tracker has all counters at 0 and keeps the given budget and trace |
| Budget.CostTracker.TryConsumeReformulation | src/ragtune/core/budget.py:25-31 | the answer, the new counters and the one appended event are those of the reformulation attempt |
| Budget.CostTracker.TryConsumeRerank | src/ragtune/core/budget.py:33-47 | the answer, the new counters and the one appended event are those of the rerank attempt at the given elapsed time |
| Budget.CostTracker.TryConsumeTokens | src/ragtune/core/budget.py:49-53 | the answer and the new counters are those of the token attempt; the trace is untouched |
| Budget.CostTracker.Snapshot | src/ragtune/core/budget.py:55-60 | reports the tokens and reranked documents used and the elapsed time, not the reformulations |
| Budget.TokenExample | src/ragtune/core/budget.py:49-53 | against 25 tokens, three requests of 10 are granted, granted, denied |
| Budget.RerankExample | src/ragtune/core/budget.py:39-43 | against 5 documents, 3 then 3 more are refused for the document limit with 2 remaining |
| Budget.ReformulationExample | src/ragtune/core/budget.py:25-31 | under the default budget the second reformulation is denied |
| Reformulators.Generate | src/ragtune/components/reformulators.py:7-10 | returns the query alone exactly when one reformulation is granted, else nothing, with the tracker updated as the attempt says |
| Retrievers.InMemoryRetriever.RetrieveMeaning | src/ragtune/components/retrievers.py:9-14 | at most top_k documents in corpus order; when anything matches, exactly the first top_k matching documents (Python slicing for negative top_k); otherwise the corpus prefix |
| Retrievers.InMemoryRetriever.Matching | src/ragtune/components/retrievers.py:11 | the documents kept are exactly the corpus documents containing the lower-cased query, in corpus order |
| Rerankers.NoOpRerank | src/ragtune/components/rerankers.py:7-8 | the identity: the input comes back unchanged |
| Rerankers.SimulatedRerank | src/ragtune/components/rerankers.py:15-26 | length, order and ids kept; each document scored 0.95 exactly when the lower-cased query occurs in its lower-cased content, else 0.3, in both score fields; all other fields copied |
| Rerankers.EmptyQueryMatchesAll | src/ragtune/components/rerankers.py:19-20 | an empty query occurs in every content, so every document gets 0.95 |
| Estimators.PyIndex | src/ragtune/components/estimators.py:21 | a valid Python index denotes a position of the pool, a negative one counting from the end |
| Estimators.Winners | src/ragtune/components/estimators.py:21 | exactly the ranked documents whose reranker score (0 when absent) exceeds 0.8 |
| Estimators.RankedDocs | src/ragtune/components/estimators.py:21 | one document per ranked index, the one Python indexing gives, in order |
| Estimators.WinnersAreFiltered | src/ragtune/components/estimators.py:21 | the winners are exactly the ranked documents kept by the winner test, in ranked order, repetitions included |
| Estimators.MatchCount | src/ragtune/components/estimators.py:30-36 | the number of winners sharing a key is at most the number of winners |
| Estimators.MatchCountExtremes | src/ragtune/components/estimators.py:30-36 | the count is 0 exactly when no winner shares a key with the document, and is the number of winners exactly when every winner does |
| Estimators.Estimate | src/ragtune/components/estimators.py:8-38 | the in-place array loops compute exactly the specified estimates: ranked positions keep their score, every other score is multiplied by 1.2 once per sharing winner |
| Estimators.BoostEntry | src/ragtune/components/estimators.py:30-36 | the winner loop multiplies one entry by 1.2 once for each winner that shares a key, and changes no other entry |
| Estimators.KeyLoop | src/ragtune/components/estimators.py:32-36 | the key loop with its break boosts exactly when some of source, section, category is present in both with equal values |
| Estimators.EstimateWithoutWinners | src/ragtune/components/estimators.py:16-23 | with no ranked winners every estimate is the document's own score |
| Estimators.NoWinners | src/ragtune/components/estimators.py:21-23 | no ranked document above the threshold means no winners |
| Estimators.UnmatchedKeepScore | src/ragtune/components/estimators.py:25-36 | a ranked position, or a document sharing no key with any winner, keeps its score |
| Estimators.BoostCompounds | src/ragtune/components/estimators.py:30-35 | boosting never lowers a non-negative score, and each further sharing winner multiplies by 1.2 again |
| Estimators.BoostExample | src/ragtune/components/estimators.py:8-38 | with a reranked wiki winner, the other wiki document goes from 0.5 to 0.6 and the news one stays at 0.5 |
| Schedulers.Candidates | src/ragtune/components/schedulers.py:35-38 | every candidate is an unprocessed position with its utility |
| Schedulers.CandidatesCover | src/ragtune/components/schedulers.py:35-38 | every unprocessed position is a candidate |
| Schedulers.CandidatesIncreasing | src/ragtune/components/schedulers.py:35-38 | candidates come in strictly increasing position order |
| Schedulers.ProposeNextBatch | src/ragtune/components/schedulers.py:13-53 | the probe appends one budget event and changes no counter; the result is the specified proposal |
| Schedulers.SelectBatch | src/ragtune/components/schedulers.py:35-53 | the candidate loop, sort and pick agree with the top-k selection |
| Schedulers.CollectCandidates | src/ragtune/components/schedulers.py:35-38 | the append loop builds exactly the candidate list |
| Schedulers.SumUtilities | src/ragtune/components/schedulers.py:52 | the loop adds up exactly the picked utilities |
| Schedulers.RankedMembers | src/ragtune/components/schedulers.py:44 | every ranked entry is an unprocessed position carrying its own utility |
| Schedulers.RankedCover | src/ragtune/components/schedulers.py:44 | every unprocessed position is ranked |
| Schedulers.RankedLex | src/ragtune/components/schedulers.py:44 | the stable sort ranks by utility, best first, ties in ascending position |
| Schedulers.SelectNone | src/ragtune/components/schedulers.py:40-41 | the selection proposes nothing exactly when every position is processed |
| Schedulers.SelectIndices | src/ragtune/components/schedulers.py:47 | a selection names exactly min(batch size, number of candidates) positions, at least one, distinct and unprocessed |
| Schedulers.SelectOrder | src/ragtune/components/schedulers.py:44-47 | the selected positions come best utility first, ties in ascending position |
| Schedulers.SelectTopK | src/ragtune/components/schedulers.py:44-47 | every selected utility is at least every left-out unprocessed utility |
| Schedulers.SelectMean | src/ragtune/components/schedulers.py:49-53 | the estimated utility is the mean of the selected utilities |
| Schedulers.ProposalNone | src/ragtune/components/schedulers.py:28-41 | nothing is proposed exactly when the processed list is at least as long as the pool or every position is processed |
| Schedulers.ProposalFacts | src/ragtune/components/schedulers.py:44-53 | a proposal names between one and batch-size distinct, unprocessed pool positions |
| Sorting.SortDesc | src/ragtune/components/assemblers.py:13 | the sort is a permutation: same length, same multiset |
| Sorting.SortDescSorted | src/ragtune/components/assemblers.py:13 | the result is in descending key order |
| Sorting.SortDescStable | src/ragtune/components/schedulers.py:44 | stability: elements with equal keys keep their original order |
| Sorting.SortDescLex | src/ragtune/components/schedulers.py:44 | with increasing tags, the result is ordered by descending key and then by ascending tag |
| Sorting.InsertDescSorted | src/ragtune/components/assemblers.py:13 | inserting into a descending sequence keeps it descending |
| Sorting.TiesInsert | src/ragtune/components/schedulers.py:44 | insertion puts the new element ahead of the elements it ties with, keeping their order |
| Sorting.InsertDescLex | src/ragtune/components/schedulers.py:44 | inserting an element with a smaller tag than every other keeps the key-then-tag order |
| Assemblers.Assemble | src/ragtune/components/assemblers.py:11-19 | the result is the greedy fit of the stably sorted documents; only the token counter moves, by exactly the result's tokens |
| Assemblers.TakeFitting | src/ragtune/components/assemblers.py:15-18 | the loop over sorted documents keeps exactly the greedy fit and spends exactly its tokens |
| Assemblers.FitSubsequence | src/ragtune/components/assemblers.py:15-18 | the kept documents are the input with some left out, in input order |
| Assemblers.FitTokens | src/ragtune/components/assemblers.py:15-18 | the tokens spent grow by exactly the tokens of the kept documents |
| Assemblers.FitBound | src/ragtune/components/assemblers.py:15-18 | starting within the ceiling, the pass ends within it and, with no negative counts, never spends less |
| Assemblers.FitAllWhenRoom | src/ragtune/components/assemblers.py:15-18 | when everything fits, everything is kept |
| Assemblers.NothingFits | src/ragtune/components/assemblers.py:15-18 | with documents of equal positive cost, once one does not fit none does |
| Assemblers.FitUniform | src/ragtune/components/assemblers.py:15-18 | with documents of equal positive cost, documents are kept while the next still fits |
| Assemblers.AssembledSorted | src/ragtune/components/assemblers.py:13-18 | the kept documents are in descending score order |
| Assemblers.UniformExample | src/ragtune/components/assemblers.py:15-18 | three documents of 10 tokens against 25: two kept, 20 spent |
| Assemblers.SkipExample | src/ragtune/components/assemblers.py:15-18 | a document that does not fit is passed over and a later smaller one is kept |
| Fusion.Fuse | src/ragtune/components/fusion.py:6-14 | the nested loop with its seen set yields exactly the deduplication of the flattened lists |
| Fusion.DedupDistinct | src/ragtune/components/fusion.py:11-13 | kept documents have pairwise distinct ids, none already seen |
| Fusion.DedupCovers | src/ragtune/components/fusion.py:9-13 | every input id not already seen is kept |
| Fusion.DedupSubsequence | src/ragtune/components/fusion.py:9-13 | the kept documents come from the input, in input order |
| Fusion.DedupFirstAt | src/ragtune/components/fusion.py:11-13 | the k-th kept document is the first occurrence of its id in the input |
| Fusion.DedupFirst | src/ragtune/components/fusion.py:11-13 | every kept document is the first document of the input with its id |
| Fusion.FuseSpec | src/ragtune/components/fusion.py:6-14 | the fused list has distinct ids, covers every input id, holds first occurrences only, in order, and is no longer than the input |
| Fusion.FuseExample | src/ragtune/components/fusion.py:6-14 | of two lists sharing a document, the later copy is dropped |
| Feedback.BudgetStopFeedback.ShouldStop | src/ragtune/components/feedback.py:11-20 | stops exactly when fewer than 100 tokens remain, with the critical reason, else an empty reason |
| Feedback.BudgetStopOnlyTokens | src/ragtune/components/feedback.py:11-20 | the decision depends only on the remaining tokens, not on the threshold, the metrics or the estimates |
| Feedback.MaxDelta | src/ragtune/components/feedback.py:41-45 | the delta is one of the per-source absolute changes |
| Feedback.MaxDeltaIsLargest | src/ragtune/components/feedback.py:41-45 | the delta is the largest absolute change over the sources of either map, a missing weight counting as 0 |
| Feedback.ReformIRConvergenceFeedback.constructor | src/ragtune/components/feedback.py:31-33 | keeps the threshold and starts with no previous weights |
| Feedback.ReformIRConvergenceFeedback.ShouldStop | src/ragtune/components/feedback.py:35-50 | the decision and the new previous weights are those of one convergence step; on the `max()` error the previous weights are unchanged |
| Feedback.FirstCallNeverStops | src/ragtune/components/feedback.py:37-39 | with no previous weights it never stops and remembers the current ones |
| Feedback.MissingWeightsReset | src/ragtune/components/feedback.py:36-39 | missing current weights never stop and reset the previous weights to none |
| Feedback.ConvergenceErrorIff | src/ragtune/components/feedback.py:41-45 | the call raises exactly when both maps are present and both empty |
| Feedback.ConvergenceStopsIff | src/ragtune/components/feedback.py:41-50 | with two maps it stops exactly when every weight moved by strictly less than the threshold, naming the largest change; the current map becomes the previous |
| Feedback.SmallMoveStops | src/ragtune/components/feedback.py:48-49 | moves of 0.001 at threshold 0.05 converge |
| Feedback.LargeMoveContinues | src/ragtune/components/feedback.py:48-50 | moves of 0.5 at threshold 0.05 do not |
| Feedback.MissingSourceCountsZero | src/ragtune/components/feedback.py:43 | a source missing from one map counts as weight 0 |
| Controller.CountPush | src/ragtune/core/types.py:53-54 | appending one event raises the count of its own action by one and no other |
| Controller.RerankEventAction | src/ragtune/core/budget.py:33-47 | the budget's rerank verdicts are never batch or skip events |
| Controller.RetrieveAll | src/ragtune/core/controller.py:34-39 | one result per query, in order, each with the top 10 retrieval for that query, tagged with the user's query |
| Controller.WriteBack | src/ragtune/core/controller.py:65-67 | the loop computes `Written`, the pairwise write-back: each reranked document lands at its position and the position is appended, stopping at the shorter list; other positions keep their document |
| Controller.Written | src/ragtune/core/controller.py:65-66 | the pairwise write-back keeps the pool length; what it writes is stated by `WriteBack` and `WrittenSame` |
| Controller.WrittenSame | src/ragtune/core/controller.py:59-66 | writing the batch read from the pool straight back leaves the pool unchanged |
| Controller.Batch | src/ragtune/core/controller.py:59 | the batch holds the pool documents at the proposed positions, in proposal order |
| Controller.Rerun | src/ragtune/core/controller.py:59-67 | one granted batch (rerank the batch read at the positions, write the answer back by position, mark the answered positions processed) keeps the pool length |
| Controller.Replay | src/ragtune/core/controller.py:50-78 | a sequence of granted batches, each a `Rerun` of the state the previous ones left, keeps the pool length; `ReplaySnoc` and `ReplayIdentity` state how it grows and what an identity reranker does |
| Controller.ReplaySnoc | src/ragtune/core/controller.py:50-78 | one more granted batch is one more `Rerun` of the replayed state |
| Controller.ReplayIdentity | src/ragtune/core/controller.py:59-67 | with a reranker that returns its batch unchanged, no sequence of granted batches changes the pool |
| Controller.Proposed | src/ragtune/core/controller.py:52-59 | a batch counts as proposed exactly when the scheduler's `propose_next_batch` result for that pool and those processed positions is a proposal with exactly these positions |
| Controller.Scheduled | src/ragtune/core/controller.py:50-67 | every granted batch is the scheduler's proposal for the pool and processed positions that the batches before it left |
| Controller.ScheduledSnoc | src/ragtune/core/controller.py:50-67 | granting the scheduler's next proposal keeps all granted batches scheduled |
| Controller.Traced | src/ragtune/core/controller.py:50-78 | the loop record: batches in range, each scheduled, and replayed they give the current pool and processed positions |
| Controller.TracedSnoc | src/ragtune/core/controller.py:50-78 | a scheduled, granted batch whose `Rerun` gives the new state extends the loop record |
| Controller.Step | src/ragtune/core/controller.py:52-78 | one pass: when it continues, the batch is exactly the scheduler's proposal (`ProposalSpec`) for the current state and the new pool and processed positions are its `Rerun`; when the scheduler proposes nothing it stops as exhausted; only processed positions change, tokens and reformulations untouched, one batch event exactly when it continues, a skip exactly when the budget refused, and more documents are charged than positions processed |
| Controller.RunBatch | src/ragtune/core/controller.py:60-78 | a granted batch is charged, and the pool and processed positions become its `Rerun` (reranked, written back by position), with the batch recorded; a refused one records the skip and changes nothing else |
| Controller.AskForBatch | src/ragtune/core/controller.py:62 | granted exactly when latency allows and the batch fits; only the rerank counter moves |
| Controller.RecordSkip | src/ragtune/core/controller.py:76-77 | one skip event with reason budget_denied is appended |
| Controller.ApplyBatch | src/ragtune/core/controller.py:60-75 | the new pool and processed positions are the `Rerun` of the batch: reranked, then written back by position; one rerank_batch event with the pool's ids at the positions is appended |
| Controller.RefineLoop | src/ragtune/core/controller.py:50-78 | the final pool and processed positions are the `Replay` of the granted batches on the fused pool, each batch being the scheduler's proposal for the state before it (`Scheduled`); without a skip the loop ends because the scheduler proposes nothing more; unprocessed positions keep their document and an identity reranker leaves the pool unchanged; document charges stay within the ceiling and cover the positions processed, with at most one skip; with batches of one, a length-preserving reranker and no latency overrun, it reranks min(remaining, pool) documents and skips exactly when the pool outlasts the budget |
| Controller.Gather | src/ragtune/core/controller.py:28-48 | the identity reformulation (or its fallback) leaves one query; the pool is the deduplicated top 10 retrieval; nothing but the reformulation is charged |
| Controller.AssembleFrom | src/ragtune/core/controller.py:82-83 | the assembler's greedy token fit of the final pool spends exactly its tokens, within the ceiling |
| Controller.RAGtuneController.constructor | src/ragtune/core/controller.py:7-21 | a missing budget becomes the default budget |
| Controller.RAGtuneController.Run | src/ragtune/core/controller.py:23-90 | the refined pool is the `Replay`, on the fused pool, of batches that are each the scheduler's proposal for the state before it; without a skip, the scheduler has nothing left to propose; unprocessed positions hold the fused document, and with an identity reranker it is the fused pool itself; the output is the greedy token fit of that pool; tokens and reranked documents stay within their ceilings; at most one batch is skipped; under the ideal conditions the counts of reranked batches and skips are fixed by the pool and budget sizes |
| Registry.Category.Key | src/ragtune/registry.py:86-96 | each category's key is one of the eight `list_all` keys |
| Registry.KeysDistinct | src/ragtune/registry.py:86-96 | different categories have different keys, and every key names a category |
| Registry.ComponentRegistry.constructor | src/ragtune/registry.py:4-12 | every one of the eight tables starts empty |
| Registry.ComponentRegistry.Register | src/ragtune/registry.py:14-60 | the decorator files the component under its name in its category's table, overwriting an earlier entry, returns it, and changes no other table |
| Registry.ComponentRegistry.Get | src/ragtune/registry.py:62-84 | the registered component when the name is in the table, else none |
| Registry.ComponentRegistry.ListAll | src/ragtune/registry.py:86-96 | the listing has exactly the eight category keys |
| Registry.ComponentRegistry.ListAllTables | src/ragtune/registry.py:86-96 | under each category's key the listing shows that category's table |
| Registry.RegisterExample | src/ragtune/registry.py:14-18 | a registered reranker is found, and the retriever table does not know the name |
| Registry.OverwriteExample | src/ragtune/registry.py:14-18 | registering a name twice keeps the second component |
| Config.GetRecursive | src/ragtune/utils/config.py:39-47 | the loop over the split key path returns the nested value, or the default at the first missing key or non-mapping step |
| Config.LookupAppend | src/ragtune/utils/config.py:42-45 | walking a + b is walking a, then b from where a ended |
| Config.FailedStepGivesDefault | src/ragtune/utils/config.py:42-47 | a failed step, a missing key or a value that is not a mapping, gives the default |
| Config.SuccessfulWalkIgnoresDefault | src/ragtune/utils/config.py:42-45 | when every step succeeds a value is found, so the default is not used even for a stored None |
| Config.NestedNoneExample | src/ragtune/utils/config.py:39-47 | a stored None is returned, whatever the default |
| Config.MissingKeyExample | src/ragtune/utils/config.py:39-47 | a missing nested key gives the default |
| Config.NonMappingExample | src/ragtune/utils/config.py:39-47 | stepping into a number gives the default |
| Config.ConfigLoader.constructor | src/ragtune/utils/config.py:31-37 | the loader holds the configuration and prompts maps it is given |
| Config.ConfigLoader.Get | src/ragtune/utils/config.py:31-33 | the dot-path lookup in the configuration only |
| Config.ConfigLoader.GetPrompt | src/ragtune/utils/config.py:35-37 | the same lookup in the prompts only |
| Text.Lower | src/ragtune/components/retrievers.py:11 | lower-casing keeps the length and maps each character to its lower-case form |
| Text.Upper | src/ragtune/cli/visualize.py:47 | upper-casing keeps the length and maps each character to its upper-case form |
| Text.ContainsIffOccurs | src/ragtune/components/retrievers.py:11 | the substring test holds exactly when some position holds the needle |
| Text.Strip | src/ragtune/cli/visualize.py:168 | the result is a slice of the input with only whitespace before it and only whitespace after it, neither starts nor ends with whitespace, and is empty for all-whitespace input |
| Text.PadCenter | src/ragtune/cli/visualize.py:47 | centring never truncates and pads to the width; every character outside the text, floor(pad/2) on the left and the rest on the right, is a space |
| Text.PadCenterMiddle | src/ragtune/cli/visualize.py:47 | the centred text sits right after the left padding |
| Text.Split | src/ragtune/utils/config.py:40 | splitting never gives an empty list, and no piece contains the separator |
| Text.JoinSplit | src/ragtune/utils/config.py:40 | joining the pieces with the separator gives the string back |
| Visualize.ParseInt | src/ragtune/cli/visualize.py:181-184 | `int()` succeeds exactly on an optional sign followed by at least one decimal digit, and its value is the digits read in base ten, negated after a minus sign; underscores between digits are not modelled (see Left out) |
| Visualize.ParseScalar | src/ragtune/cli/visualize.py:180-193 | the fallback chain after the word checks never yields a bool or None |
| Visualize.ParseValueBool | src/ragtune/cli/visualize.py:170-174 | a bool comes out exactly for the four bool words, case-insensitively |
| Visualize.ParseValueTrue | src/ragtune/cli/visualize.py:171-172 | True exactly for "true" and "yes" |
| Visualize.ParseValueNone | src/ragtune/cli/visualize.py:176-178 | None exactly for "none", "null" and the blank input |
| Visualize.ParseValueScalars | src/ragtune/cli/visualize.py:180-193 | past the words: an integer if `int()` accepts it, else a float if `float()` does, else the stripped string |
| Visualize.IntToString | src/ragtune/cli/visualize.py:181-184 | `str(n)` starts with a minus sign exactly for negative n, and after the sign is a non-empty run of digits whose value is the absolute value of n |
| Visualize.NotAWord | src/ragtune/cli/visualize.py:170-178 | a string starting with a digit or a minus is none of the bool or None words |
| Visualize.StripUnchanged | src/ragtune/cli/visualize.py:168 | a string without whitespace at either end strips to itself |
| Visualize.ParseIntOfString | src/ragtune/cli/visualize.py:181-184 | `int()` reads back what `str()` wrote |
| Visualize.ParseIntRoundTrip | src/ragtune/cli/visualize.py:166-184 | every printed integer parses back to itself |
| Visualize.BlankIsNone | src/ragtune/cli/visualize.py:168-178 | whitespace alone is None |
| Visualize.ComponentBox.TypeDisplay | src/ragtune/cli/visualize.py:42-43 | the shown type is a prefix of the type: the whole type when it fits in five characters, else exactly its first five |
| Visualize.ComponentBox.Render | src/ragtune/cli/visualize.py:39-52 | five lines: the borders of twelve rules between their corners, the name line, the separator and the type line |
| Visualize.ComponentBox.NameLine | src/ragtune/cli/visualize.py:47 | the upper-cased name centred between two bars, never cut; when it fits, every other column inside the bars is a space |
| Visualize.ComponentBox.TypeLine | src/ragtune/cli/visualize.py:49 | the type line is the box width plus the two bars: the label, the shown type, then spaces up to the closing bar |
| Visualize.CentredLine | src/ragtune/cli/visualize.py:47 | the text inside the bars sits after the left padding, every other column inside the bars is a space, and the line is never shorter than the box |
| Visualize.Rule | src/ragtune/cli/visualize.py:46-50 | a border is its left corner, twelve rules and its right corner |
| Visualize.ComponentInfo | src/ragtune/cli/visualize.py:65-70 | a mapping component gives its type and params, defaulting to "noop" and {}; a missing or non-mapping component gives both defaults |
| Visualize.ComponentInfoExamples | src/ragtune/cli/visualize.py:65-70 | a configured reranker, an absent scheduler and a bare-string component |
| BenchmarkUtils.GetFoundRank | scripts/benchmark_utils.py:56-61 | the 1-based position of the first gold document, or none exactly when no document is gold |
| BenchmarkUtils.Hits | scripts/benchmark_utils.py:27-41 | the hits are at most the number of queries; they are 0 exactly when no query has a rank within k, and all of them exactly when every query does |
| BenchmarkUtils.CalculateRecallAtK | scripts/benchmark_utils.py:27-41 | the loop computes the fraction of queries found at rank k or better, 0 for no queries |
| BenchmarkUtils.CalculateMrr | scripts/benchmark_utils.py:43-54 | the loop computes the mean reciprocal rank, or the division error when a rank is 0 |
| BenchmarkUtils.RecallBounds | scripts/benchmark_utils.py:27-41 | recall lies between 0 and 1 |
| BenchmarkUtils.HitsMonotone | scripts/benchmark_utils.py:27-41 | a larger cut-off never gives fewer hits |
| BenchmarkUtils.RecallMonotone | scripts/benchmark_utils.py:27-41 | a larger cut-off never lowers recall |
| BenchmarkUtils.Found | scripts/benchmark_utils.py:43-54 | the found queries are at most all queries; none exactly when no rank is present, all exactly when every rank is present |
| BenchmarkUtils.ReciprocalSumBound | scripts/benchmark_utils.py:43-54 | with ranks of at least 1 each found query adds between 0 and 1 |
| BenchmarkUtils.MrrBounds | scripts/benchmark_utils.py:43-54 | with ranks of at least 1 the mean reciprocal rank is defined and lies between 0 and 1 |
| BenchmarkUtils.NotFoundAddsNothing | scripts/benchmark_utils.py:27-54 | a query whose gold was not found adds nothing to the hits or the reciprocal sum |
| BenchmarkUtils.MetricsExample | scripts/benchmark_utils.py:27-54 | ranks 1, 2 and missing give recall@1 of 1/3 and a reciprocal sum of 1.5 |

## Left out

- The wall clock and uuids are left out. `elapsed_ms` is the elapsed-time parameter of `TryConsumeRerank`, and the controller reads the successive values of its `clock` parameter. A latency denial reads the clock once, where the source reads it twice. Trace events have no timestamp, and traces have no query id.
- `RAGtuneController.arun` is not modelled, because it is asynchronous.
- The abstract interfaces are not modelled. The controller is modelled over the identity reformulator, the in-memory retriever, the active-learning scheduler and the greedy assembler. The reranker is an arbitrary function parameter.
- The CLI's I/O is not modelled: the Rich panels, the interactive editor, YAML loading, `ConfigLoader`'s file reading and the module-level singletons. `PipelineFlowRenderer.render` is not modelled either, because it only arranges boxes and budget text for printing.
- Visualize.ParseScalar: the float branch of `parse_value` is the `parseFloat` parameter, because Python's float grammar and rounding are not modelled. `int()` is modelled for ASCII only, without underscores or Unicode digits.
- Text.Lower, Text.Upper and Text.Strip handle ASCII letters and ASCII whitespace only. Unicode case mapping and Unicode whitespace are not modelled.
- Scores, weights and latencies are `real`. Floating-point rounding is not modelled.
- Feedback.ReformIRConvergenceFeedback.ShouldStop returns the reason as the `Converged` value holding the delta. It does not build the formatted `max_delta={delta:.4f}` text. Its input is only the `reformir_weights` entry of the estimates, with no other estimate keys.
- Values compare structurally. Python's cross-type equality (`1 == 1.0 == True`) in metadata comparisons is not modelled.
- Pool items are values held in a map. The model does not capture aliasing between the pool and the caller's `PoolItem` objects, or outside mutation of those objects. `if not item` is treated as "the id is unknown", since a model instance is always truthy. `__iter__` is modelled only through `ValuesInOrder`, the dictionary order of the values.
- Pool.CandidatePool.constructor is modelled on values: the dictionary comprehension becomes the folds `IndexItems` and `IndexOrder`, not a loop.
- `update_scores` takes its dictionary as a list of (id, score) pairs whose keys are distinct. A missing or empty `expected_ids` is the empty list.
- Controller.RAGtuneController.Run does not restate the controller's own fusion step. That step is the same first-occurrence deduplication as `SimpleConcatFusion.fuse`, and the model uses `Fusion.Fuse` for both.
- The in-place `candidates.sort` and `sorted` are modelled as the pure `Sorting.SortDesc`, which is stable like Python's sort.
- The end-to-end scenario with three documents is not proved as one example. Its parts are covered by the estimator, scheduler and assembler examples.
- The benchmark functions take each result's `found_at_rank` as an optional rank, not the whole result dictionary. DCG, nDCG and `summarize_metrics` are not modelled.
- Visualize.ComponentBox.NameLine states the layout for every name, but a name longer than the box makes a line longer than the box, as in the source. `get_available_types` is not modelled, because it reads the registry's global instance.
- The adapters, indexers, the newer-API components and the tests are not modelled, because they are outside the core modelled here.
- Types.BatchProposal is kept as declared. The proposals actually exchanged are `Types.IndexProposal`, as described above.
- Schedulers.SelectTop, Schedulers.ProposalSpec, Schedulers.ProposeNextBatch, Schedulers.SelectBatch and the lemmas about them, and through them Controller.Step, Controller.RefineLoop and Controller.RAGtuneController.Run, require `batchSize >= 1`. In the source a batch size of 0 raises `ZeroDivisionError` in the mean of the chosen utilities (`sum(...) / len(next_indices)`), and a negative one slices from the end; neither path is modelled. Estimators.Estimate and the functions under it require every ranked index to be a valid Python index of the pool; in the source an out-of-range index raises `IndexError`. The controller meets both conditions whenever its scheduler has a positive batch size, since the scheduler proposes only positions of the pool.
- Visualize.ParseInt does not accept underscores between digits (`int("1_000")`), which Python allows; such input falls through to the float parser and then to a plain string.
