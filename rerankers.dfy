/** The two concrete rerankers: the identity and a keyword-based simulation. */
module Rerankers {
  import opened Wrappers
  import opened Types
  import Text

  /** The identity reranker returns its input unchanged. */
  function NoOpRerank(documents: seq<ScoredDocument>, query: string): (r: seq<ScoredDocument>)
    ensures r == documents
  {
    documents
  }

  /** The score given to a document that contains the query, and to one that does not. */
  const MatchScore := 0.95
  const MissScore := 0.3

  /**
   * The simulated reranker scores each document 0.95 if the lower-cased query is a substring
   * of its lower-cased content and 0.3 otherwise, writing that score to both `score` and
   * `rerankerScore`, and copies every other field. Length, order and ids are kept.
   */
  function SimulatedRerank(documents: seq<ScoredDocument>, query: string): (r: seq<ScoredDocument>)
    ensures |r| == |documents|
    ensures forall i :: 0 <= i < |r| ==>
      r[i].(score := documents[i].score, rerankerScore := documents[i].rerankerScore) == documents[i]
    ensures forall i :: 0 <= i < |r| ==> r[i].rerankerScore == Some(r[i].score)
    ensures forall i :: 0 <= i < |r| ==> r[i].score == MatchScore || r[i].score == MissScore
    ensures forall i :: 0 <= i < |r| ==>
      (r[i].score == MatchScore <==> exists k :: Text.OccursAt(Text.Lower(documents[i].content), Text.Lower(query), k))
  {
    if documents == [] then []
    else
      var d := documents[0];
      var hit := Text.Contains(Text.Lower(d.content), Text.Lower(query));
      Text.ContainsIffOccurs(Text.Lower(d.content), Text.Lower(query));
      var s := if hit then MatchScore else MissScore;
      var rest := SimulatedRerank(documents[1..], query);
      var r := [d.(score := s, rerankerScore := Some(s))] + rest;
      assert forall i :: 0 < i < |r| ==> r[i] == rest[i - 1] && documents[i] == documents[1..][i - 1];
      r
  }

  /** An empty query is a substring of everything: every document gets the match score. */
  lemma EmptyQueryMatchesAll(documents: seq<ScoredDocument>)
    ensures forall i :: 0 <= i < |documents| ==> SimulatedRerank(documents, "")[i].score == MatchScore
  {
    forall i | 0 <= i < |documents| ensures SimulatedRerank(documents, "")[i].score == MatchScore {
      assert Text.OccursAt(Text.Lower(documents[i].content), Text.Lower(""), 0);
    }
  }
}
