/** The identity reformulator: the original query, if the budget grants one reformulation. */
module Reformulators {
  import opened Budget

  /**
   * Returns `[query]` when one reformulation is granted and `[]` otherwise; the tracker's
   * reformulation counter and trace are updated as the attempt says.
   */
  method Generate(query: string, tracker: CostTracker) returns (queries: seq<string>)
    modifies tracker, tracker.trace
    ensures var a := ReformulationAttempt(tracker.budget, old(tracker.Used()), 1);
      && queries == (if a.granted then [query] else [])
      && tracker.Used() == a.usage
      && tracker.trace.events == old(tracker.trace.events) + [a.event.value]
    ensures queries == [query] <==> tracker.reformulationsUsed == old(tracker.reformulationsUsed) + 1
    ensures queries == [] ==> tracker.Used() == old(tracker.Used())
  {
    var ok := tracker.TryConsumeReformulation(1);
    if ok {
      return [query];
    }
    return [];
  }
}
