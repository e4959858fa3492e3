/** The in-memory retriever: a case-insensitive keyword filter over a fixed corpus. */
module Retrievers {
  import opened Types
  import Text
  import Seqs

  /** The lower-cased query occurs in the lower-cased content. */
  predicate Matches(d: ScoredDocument, query: string) {
    Text.Contains(Text.Lower(d.content), Text.Lower(query))
  }

  datatype InMemoryRetriever = InMemoryRetriever(docs: seq<ScoredDocument>) {
    /**
     * The first `topK` matching documents, in corpus order. When nothing matches, the first
     * `topK` documents of the corpus stand in. A negative `topK` drops that many from the end,
     * as Python slicing does.
     */
    function Retrieve(query: string, topK: int): seq<ScoredDocument> {
      var matching := Matching(query);
      Seqs.PyTake(if matching == [] then docs else matching, topK)
    }

    /** The corpus documents that match the query, in corpus order. */
    function Matching(query: string): (r: seq<ScoredDocument>)
      ensures forall d :: d in r <==> d in docs && Matches(d, query)
      ensures Seqs.IsSubsequence(r, docs)
    {
      Seqs.FilterIsSubsequence(docs, d => Matches(d, query));
      Seqs.Filter(docs, d => Matches(d, query))
    }

    /**
     * `retrieve(query, top_k)` returns at most `topK` documents: the first `topK` matching ones
     * when anything matches, the corpus prefix when nothing does, and always in corpus order.
     */
    lemma RetrieveMeaning(query: string, topK: int)
      ensures topK >= 0 ==> |Retrieve(query, topK)| <= topK
      ensures (exists d :: d in docs && Matches(d, query)) ==> forall d :: d in Retrieve(query, topK) ==> Matches(d, query)
      ensures (exists d :: d in docs && Matches(d, query)) ==> Retrieve(query, topK) == Seqs.PyTake(Matching(query), topK)
      ensures (forall d :: d in docs ==> !Matches(d, query)) ==> Retrieve(query, topK) == Seqs.PyTake(docs, topK)
      ensures Seqs.IsSubsequence(Retrieve(query, topK), docs)
    {
      var matching := Matching(query);
      var results := if matching == [] then docs else matching;
      Seqs.SubsequenceRefl(docs);
      Seqs.SubsequencePrefix(Seqs.PyTake(results, topK), results, docs);
      var r := Seqs.PyTake(results, topK);
      assert matching != [] ==> matching[0] in docs && Matches(matching[0], query);
      assert matching != [] ==> forall d :: d in r ==> Matches(d, query) by {
        if matching != [] {
          forall d | d in r ensures d in matching && Matches(d, query) {
            var i :| 0 <= i < |r| && r[i] == d;
            assert matching[i] == d;
          }
        }
      }
    }
  }
}
