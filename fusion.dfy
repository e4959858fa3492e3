/**
 * `SimpleConcatFusion`: the candidate lists of several queries flattened into one list that
 * keeps the first document seen for each id.
 */
module Fusion {
  import opened Types
  import Seqs

  /** What retrieval produced for one query: the user's query, the query run, and its documents. */
  datatype ReformulationResult = ReformulationResult(
    originalQuery: string, reformulatedQuery: string, candidates: seq<ScoredDocument>)

  /** All candidate lists, one after the other. */
  function Flatten(results: seq<ReformulationResult>): seq<ScoredDocument> {
    if results == [] then [] else results[0].candidates + Flatten(results[1..])
  }

  /** The documents of `s` whose id is neither in `seen` nor on an earlier document, in order. */
  function Dedup(s: seq<ScoredDocument>, seen: set<string>): (r: seq<ScoredDocument>)
    ensures |r| <= |s|
  {
    if s == [] then []
    else if s[0].id in seen then Dedup(s[1..], seen)
    else [s[0]] + Dedup(s[1..], seen + {s[0].id})
  }

  function Ids(s: seq<ScoredDocument>): set<string> {
    set d | d in s :: d.id
  }

  /** `SimpleConcatFusion.fuse`. */
  method Fuse(results: seq<ReformulationResult>) returns (allDocs: seq<ScoredDocument>)
    ensures allDocs == Dedup(Flatten(results), {})
  {
    allDocs := [];
    var seen: set<string> := {};
    for r := 0 to |results|
      invariant allDocs + Dedup(Flatten(results[r..]), seen) == Dedup(Flatten(results), {})
    {
      assert results[r..][1..] == results[r + 1..];
      var cands := results[r].candidates;
      for j := 0 to |cands|
        invariant allDocs + Dedup(cands[j..] + Flatten(results[r + 1..]), seen) == Dedup(Flatten(results), {})
      {
        var doc := cands[j];
        ghost var rest := cands[j + 1..] + Flatten(results[r + 1..]);
        assert cands[j..] + Flatten(results[r + 1..]) == [doc] + rest;
        DedupCons(allDocs, doc, rest, seen);
        if doc.id !in seen {
          allDocs := allDocs + [doc];
          seen := seen + {doc.id};
        }
      }
      assert cands[|cands|..] + Flatten(results[r + 1..]) == Flatten(results[r + 1..]);
    }
  }

  /** One step of `Dedup` after the documents `acc` already kept. */
  lemma DedupCons(acc: seq<ScoredDocument>, doc: ScoredDocument, rest: seq<ScoredDocument>, seen: set<string>)
    ensures doc.id in seen ==> acc + Dedup([doc] + rest, seen) == acc + Dedup(rest, seen)
    ensures doc.id !in seen ==> acc + Dedup([doc] + rest, seen) == (acc + [doc]) + Dedup(rest, seen + {doc.id})
  {
    var s := [doc] + rest;
    assert s[0] == doc && s[1..] == rest;
    if doc.id !in seen {
      assert acc + ([doc] + Dedup(rest, seen + {doc.id})) == (acc + [doc]) + Dedup(rest, seen + {doc.id});
    }
  }

  // ---------------------------------------------------------------------------------------
  // properties of first-seen deduplication

  /** The kept documents have pairwise distinct ids, none of them already seen. */
  lemma {:induction false} DedupDistinct(s: seq<ScoredDocument>, seen: set<string>)
    ensures forall i, j :: 0 <= i < j < |Dedup(s, seen)| ==> Dedup(s, seen)[i].id != Dedup(s, seen)[j].id
    ensures forall d :: d in Dedup(s, seen) ==> d.id !in seen
    decreases |s|
  {
    if s != [] {
      if s[0].id in seen {
        DedupDistinct(s[1..], seen);
        assert Dedup(s, seen) == Dedup(s[1..], seen);
      } else {
        DedupDistinct(s[1..], seen + {s[0].id});
        var r := Dedup(s, seen);
        var t := Dedup(s[1..], seen + {s[0].id});
        assert r == [s[0]] + t;
        forall i, j | 0 <= i < j < |r| ensures r[i].id != r[j].id {
          assert r[j] == t[j - 1];
          assert r[j] in t;
          if i > 0 {
            assert r[i] == t[i - 1];
          } else {
            assert r[i] == s[0];
          }
        }
        forall d | d in r ensures d.id !in seen {
          if d != s[0] {
            assert d in t;
          }
        }
      }
    }
  }

  /** Every id of the input that was not already seen is the id of some kept document. */
  lemma {:induction false} DedupCovers(s: seq<ScoredDocument>, seen: set<string>)
    ensures forall d :: d in s && d.id !in seen ==> d.id in Ids(Dedup(s, seen))
    decreases |s|
  {
    if s != [] {
      if s[0].id in seen {
        DedupCovers(s[1..], seen);
        forall d | d in s && d.id !in seen ensures d.id in Ids(Dedup(s, seen)) {
          assert d in s[1..];
        }
      } else {
        DedupCovers(s[1..], seen + {s[0].id});
        var t := Dedup(s[1..], seen + {s[0].id});
        forall d | d in s && d.id !in seen ensures d.id in Ids(Dedup(s, seen)) {
          if d.id == s[0].id {
            assert s[0] in Dedup(s, seen);
          } else {
            assert d in s[1..];
            var e :| e in t && e.id == d.id;
            assert e in Dedup(s, seen);
          }
        }
      }
    }
  }

  /** The kept documents come from the input, in input order. */
  lemma {:induction false} DedupSubsequence(s: seq<ScoredDocument>, seen: set<string>)
    ensures Seqs.IsSubsequence(Dedup(s, seen), s)
    decreases |s|
  {
    if s != [] {
      if s[0].id in seen {
        DedupSubsequence(s[1..], seen);
        Seqs.Weaken(Dedup(s[1..], seen), s);
      } else {
        DedupSubsequence(s[1..], seen + {s[0].id});
      }
    }
  }

  /** Position `i` of `s` holds the first document with its id, and that id was not already seen. */
  predicate FirstNew(s: seq<ScoredDocument>, seen: set<string>, i: int) {
    0 <= i < |s| && s[i].id !in seen && forall j :: 0 <= j < i ==> s[j].id != s[i].id
  }

  /** A first occurrence in the tail is one in the whole sequence when the head's id is seen in the tail's setting. */
  lemma FirstNewShift(s: seq<ScoredDocument>, seen: set<string>, seen': set<string>, i: int)
    requires s != [] && seen <= seen' && s[0].id in seen'
    requires FirstNew(s[1..], seen', i)
    ensures FirstNew(s, seen, i + 1) && s[i + 1] == s[1..][i]
  {
    forall j | 0 <= j < i + 1 ensures s[j].id != s[i + 1].id {
      if j > 0 {
        assert s[j] == s[1..][j - 1];
      }
    }
  }

  /** The `k`-th kept document is the first occurrence of its id in the input, at position `i`. */
  lemma {:induction false} DedupFirstAt(s: seq<ScoredDocument>, seen: set<string>, k: int) returns (i: int)
    requires 0 <= k < |Dedup(s, seen)|
    ensures FirstNew(s, seen, i) && s[i] == Dedup(s, seen)[k]
    decreases |s|
  {
    if s[0].id in seen {
      var j := DedupFirstAt(s[1..], seen, k);
      FirstNewShift(s, seen, seen, j);
      i := j + 1;
    } else if k == 0 {
      i := 0;
    } else {
      var seen' := seen + {s[0].id};
      assert Dedup(s, seen) == [s[0]] + Dedup(s[1..], seen');
      var j := DedupFirstAt(s[1..], seen', k - 1);
      FirstNewShift(s, seen, seen', j);
      i := j + 1;
    }
  }

  /** `d` is the first document of `s` with its id, and that id was not already seen. */
  ghost predicate IsFirstNew(s: seq<ScoredDocument>, seen: set<string>, d: ScoredDocument) {
    exists i :: FirstNew(s, seen, i) && s[i] == d
  }

  /** Every kept document is the first occurrence of its id in the input. */
  lemma DedupFirst(s: seq<ScoredDocument>, seen: set<string>)
    ensures forall k :: 0 <= k < |Dedup(s, seen)| ==> IsFirstNew(s, seen, Dedup(s, seen)[k])
  {
    forall k | 0 <= k < |Dedup(s, seen)| ensures IsFirstNew(s, seen, Dedup(s, seen)[k]) {
      var i := DedupFirstAt(s, seen, k);
    }
  }

  /** The fused list: distinct ids, every input id present, first occurrences only, in order, no longer than the input. */
  lemma FuseSpec(results: seq<ReformulationResult>)
    ensures var all := Flatten(results);
      var r := Dedup(all, {});
      && (forall i, j :: 0 <= i < j < |r| ==> r[i].id != r[j].id)
      && (forall d :: d in all ==> d.id in Ids(r))
      && (forall k :: 0 <= k < |r| ==> IsFirstNew(all, {}, r[k]))
      && Seqs.IsSubsequence(r, all)
      && |r| <= |all|
  {
    var all := Flatten(results);
    DedupDistinct(all, {});
    DedupCovers(all, {});
    DedupFirst(all, {});
    DedupSubsequence(all, {});
  }

  /** Two queries retrieving an overlapping document: the later copy is dropped. */
  lemma FuseExample()
    ensures var a := NewDocument("a", "x");
      var b := NewDocument("b", "y");
      var a2 := NewDocument("a", "z");
      Dedup(Flatten([ReformulationResult("q", "q", [a, b]), ReformulationResult("q", "q2", [a2])]), {}) == [a, b]
  {
    var a := NewDocument("a", "x");
    var b := NewDocument("b", "y");
    var a2 := NewDocument("a", "z");
    var rs := [ReformulationResult("q", "q", [a, b]), ReformulationResult("q", "q2", [a2])];
    assert rs[1..][1..] == [];
    assert Flatten(rs[1..]) == [a2];
    var all := Flatten(rs);
    assert all == [a, b, a2];
    assert all[1..] == [b, a2] && all[1..][1..] == [a2] && all[1..][1..][1..] == [];
    assert [a2][1..] == [] && [b, a2][1..] == [a2] && [a, b, a2][1..] == [b, a2];
    assert Dedup([a2], {"a", "b"}) == [];
    assert Dedup([b, a2], {"a"}) == [b] + Dedup([a2], {"a", "b"});
    assert all[0] == a && a.id == "a" && b.id == "b" && a2.id == "a";
    assert Dedup(all, {}) == [all[0]] + Dedup(all[1..], {} + {all[0].id});
    var none: set<string> := {};
    assert none + {"a"} == {"a"};
    assert Dedup(all, {}) == [a] + Dedup([b, a2], {"a"});
    assert [a] + [b] == [a, b];
  }
}
