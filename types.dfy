/**
 * The records shared by the refinement machinery: pool states, cost records,
 * scored documents, the append-only execution trace, batch proposals and the
 * transition error.
 */
module Types {
  import opened Wrappers
  import Text

  /** A dynamically typed Python value (`Any`), as found in metadata, trace details and configuration. */
  datatype Value =
    | VNone
    | VBool(b: bool)
    | VInt(i: int)
    | VReal(r: real)
    | VStr(s: string)
    | VList(elems: seq<Value>)
    | VMap(entries: map<string, Value>)

  /** The life cycle of a pool item; the datatype has exactly these four values. */
  datatype ItemState = Candidate | InFlight | Reranked | Dropped {
    /** The enum member's value. */
    function Name(): (r: string)
      ensures r in {"candidate", "in_flight", "reranked", "dropped"}
    {
      match this
      case Candidate => "candidate"
      case InFlight => "in_flight"
      case Reranked => "reranked"
      case Dropped => "dropped"
    }

    /** `str(state)`: for an enum that mixes in `str`, Python prints the qualified member name. */
    function Str(): (r: string)
      ensures |r| > |"ItemState."| && r[..|"ItemState."|] == "ItemState."
    {
      match this
      case Candidate => "ItemState.CANDIDATE"
      case InFlight => "ItemState.IN_FLIGHT"
      case Reranked => "ItemState.RERANKED"
      case Dropped => "ItemState.DROPPED"
    }
  }

  /** `str(state)` is the class name, a dot, and the upper-cased value. */
  lemma StrIsQualifiedName(s: ItemState)
    ensures s.Str() == "ItemState." + Text.Upper(s.Name())
  {
    match s
    case Candidate => StrOfCandidate();
    case InFlight => StrOfInFlight();
    case Reranked => StrOfReranked();
    case Dropped => StrOfDropped();
  }

  // One member at a time: with the state left symbolic the string literals cost too much.
  lemma StrOfCandidate()
    ensures Candidate.Str() == "ItemState." + Text.Upper(Candidate.Name())
  {
  }

  lemma StrOfInFlight()
    ensures InFlight.Str() == "ItemState." + Text.Upper(InFlight.Name())
  {
  }

  lemma StrOfReranked()
    ensures Reranked.Str() == "ItemState." + Text.Upper(Reranked.Name())
  {
  }

  lemma StrOfDropped()
    ensures Dropped.Str() == "ItemState." + Text.Upper(Dropped.Name())
  {
  }

  /** An amount of resources: tokens, documents and calls. */
  datatype CostObject = CostObject(tokens: int, docs: int, calls: int)

  /** A cost with every field left at its default. */
  const ZeroCost := CostObject(0, 0, 0)

  /** What is left of each budget, as seen by stop policies. */
  datatype RemainingBudgetView = RemainingBudgetView(
    remainingTokens: int, remainingRerankDocs: int, remainingRerankCalls: int)

  /** A retrieved document and the scores it collects on its way through the pipeline. */
  datatype ScoredDocument = ScoredDocument(
    id: string,
    content: string,
    metadata: map<string, Value>,
    score: real,
    originalScore: real,
    rerankerScore: Option<real>,
    fusionScore: Option<real>,
    initialRank: int,
    tokenCount: int)

  /** A document with every optional field at its default. */
  function NewDocument(id: string, content: string): (d: ScoredDocument)
    ensures d.id == id && d.content == content && d.metadata == map[]
    ensures d.score == 0.0 && d.originalScore == 0.0
    ensures d.rerankerScore.None? && d.fusionScore.None?
    ensures d.initialRank == 0 && d.tokenCount == 0
  {
    ScoredDocument(id, content, map[], 0.0, 0.0, None, None, 0, 0)
  }

  /** One trace entry: which component did what, with its keyword details. */
  datatype TraceEvent = TraceEvent(component: string, action: string, details: map<string, Value>)

  /** The execution history of one run; events are only ever appended. */
  class ControllerTrace {
    var events: seq<TraceEvent>

    constructor()
      ensures events == []
    {
      events := [];
    }

    /** Records one event at the end of the history. */
    method Add(component: string, action: string, details: map<string, Value>)
      modifies this
      ensures events == old(events) + [TraceEvent(component, action, details)]
    {
      events := events + [TraceEvent(component, action, details)];
    }
  }

  /** The number of events in `events` with the given action. */
  function CountAction(events: seq<TraceEvent>, action: string): (n: nat)
    ensures n <= |events|
  {
    if events == [] then 0
    else CountAction(events[..|events| - 1], action) + (if events[|events| - 1].action == action then 1 else 0)
  }

  lemma {:induction false} CountActionAppend(a: seq<TraceEvent>, b: seq<TraceEvent>, action: string)
    ensures CountAction(a + b, action) == CountAction(a, action) + CountAction(b, action)
    decreases |b|
  {
    if b == [] {
      assert a + b == a;
    } else {
      assert (a + b)[..|a + b| - 1] == a + b[..|b| - 1];
      CountActionAppend(a, b[..|b| - 1], action);
    }
  }

  /** A scheduler command naming documents by id, with the cost it expects to incur. */
  datatype BatchProposal = BatchProposal(
    docIds: seq<string>, strategy: string, expectedCost: CostObject, estimatedUtility: real)

  /** A scheduler command naming documents by their position in the controller's pool. */
  datatype IndexProposal = IndexProposal(
    documentIndices: seq<int>, strategy: string, estimatedUtility: real)

  const ErrorPrefix := "Illegal transition for "

  /** Raised when a pool item is asked to make a move its state does not allow. */
  datatype IllegalTransitionError = IllegalTransitionError(docId: string, current: string, target: string) {
    /** The exception text: the prefix, the id, then `current -> target`. */
    function Message(): (r: string)
      ensures |r| == |ErrorPrefix| + |docId| + 2 + |current| + 4 + |target|
      ensures r[..|ErrorPrefix|] == ErrorPrefix
      ensures r[|ErrorPrefix|..|ErrorPrefix| + |docId|] == docId
      ensures r[|ErrorPrefix| + |docId|..|ErrorPrefix| + |docId| + 2] == ": "
      ensures r[|ErrorPrefix| + |docId| + 2..|r| - 4 - |target|] == current
      ensures r[|r| - 4 - |target|..|r| - |target|] == " -> "
      ensures r[|r| - |target|..] == target
    {
      ErrorPrefix + docId + ": " + current + " -> " + target
    }
  }
}
