/**
 * The candidate pool: items keyed by document id, each moving through the
 * state machine CANDIDATE -> IN_FLIGHT -> RERANKED -> DROPPED.
 */
module Pool {
  import opened Wrappers
  import opened Types
  import Numbers
  import Seqs

  /** A document tracked by the pool, with its provenance and the scores it has gathered. */
  datatype PoolItem = PoolItem(
    docId: string,
    content: string,
    metadata: map<string, Value>,
    state: ItemState,
    sources: map<string, real>,
    initialRank: int,
    priorityValue: real,
    rerankerScore: Option<real>,
    rerankerStrategy: Option<string>)
  {
    /**
     * The score used for ranking: a reranker score when present (even below the priority),
     * else a positive priority, else the best retrieval source score, else 0.
     */
    function FinalScore(): (r: real)
      ensures rerankerScore.Some? ==> r == rerankerScore.value
      ensures rerankerScore.None? && priorityValue > 0.0 ==> r == priorityValue
      ensures rerankerScore.None? && priorityValue <= 0.0 && |sources| > 0 ==>
        r in sources.Values && forall v :: v in sources.Values ==> v <= r
      ensures rerankerScore.None? && priorityValue <= 0.0 && |sources| == 0 ==> r == 0.0
    {
      if rerankerScore.Some? then rerankerScore.value
      else if priorityValue > 0.0 then priorityValue
      else if |sources| > 0 then
        if forall s :: s !in sources then assert false; 0.0
        else
          var s :| s in sources;
          assert sources[s] in sources.Values;
          Numbers.Max(sources.Values)
      else 0.0
    }
  }

  /** A new item with every optional field at its default: a candidate with no scores. */
  function NewItem(docId: string, content: string): (it: PoolItem)
    ensures it.docId == docId && it.content == content && it.state == Candidate
    ensures it.FinalScore() == 0.0
  {
    PoolItem(docId, content, map[], Candidate, map[], 0, 0.0, None, None)
  }

  /** A position of each state along the life cycle. */
  function Rank(s: ItemState): nat {
    match s
    case Candidate => 0
    case InFlight => 1
    case Reranked => 2
    case Dropped => 3
  }

  /**
   * The transition table. Every move goes strictly forward in the life cycle, so there are
   * no self-loops, nothing returns to CANDIDATE, and DROPPED is terminal.
   */
  function AllowedTargets(s: ItemState): (r: set<ItemState>)
    ensures forall t :: t in r ==> Rank(s) < Rank(t)
    ensures Dropped in r <==> s != Dropped
    ensures s == Dropped ==> r == {}
  {
    match s
    case Candidate => {InFlight, Dropped}
    case InFlight => {Reranked, Dropped}
    case Reranked => {Dropped}
    case Dropped => {}
  }

  predicate Allowed(from: ItemState, to: ItemState) {
    to in AllowedTargets(from)
  }

  type Items = map<string, PoolItem>

  // ---------------------------------------------------------------------------------------
  // transition

  /**
   * Moving the items named by `ids` to `target`, one id after the other: unknown ids are
   * skipped, and the first disallowed move stops the walk with an error, leaving the moves
   * already made in place.
   */
  function TransitionAll(m: Items, ids: seq<string>, target: ItemState): (r: (Items, Option<IllegalTransitionError>))
    ensures r.0.Keys == m.Keys
    decreases |ids|
  {
    if ids == [] then (m, None)
    else if ids[0] !in m then TransitionAll(m, ids[1..], target)
    else if !Allowed(m[ids[0]].state, target) then
      (m, Some(IllegalTransitionError(ids[0], m[ids[0]].state.Str(), target.Str())))
    else TransitionAll(m[ids[0] := m[ids[0]].(state := target)], ids[1..], target)
  }

  /**
   * Whatever the outcome, ids not named keep their item, a named item either keeps its item or
   * made an allowed move to `target` (the only field changed), and an error names a known id.
   */
  lemma {:induction false} TransitionFrame(m: Items, ids: seq<string>, target: ItemState)
    ensures var r := TransitionAll(m, ids, target);
      && (forall k :: k in m && k !in ids ==> r.0[k] == m[k])
      && (forall k :: k in m ==>
            r.0[k] == m[k] || (r.0[k] == m[k].(state := target) && Allowed(m[k].state, target)))
      && (r.1.Some? ==> r.1.value.docId in ids && r.1.value.docId in m && r.1.value.target == target.Str())
    decreases |ids|
  {
    if ids != [] {
      var x := ids[0];
      if x !in m {
        TransitionFrame(m, ids[1..], target);
      } else if Allowed(m[x].state, target) {
        var m' := m[x := m[x].(state := target)];
        TransitionFrame(m', ids[1..], target);
      }
    }
  }

  /** The known ids of `ids` have no repetition. */
  ghost predicate KnownDistinct(m: Items, ids: seq<string>) {
    forall i, j :: 0 <= i < j < |ids| && ids[i] in m ==> ids[i] != ids[j]
  }

  /** Every known id of `ids` may move to `target` from its current state. */
  ghost predicate AllAllowed(m: Items, ids: seq<string>, target: ItemState) {
    forall i :: 0 <= i < |ids| && ids[i] in m ==> Allowed(m[ids[i]].state, target)
  }

  /** The result of a successful walk: exactly the named known items moved to `target`. */
  function MovedAll(m: Items, ids: seq<string>, target: ItemState): Items {
    map k | k in m :: if k in ids then m[k].(state := target) else m[k]
  }

  /** Moving `x` first and then the ids of `rest` moves the ids of `[x] + rest`. */
  lemma MovedAllStep(m: Items, x: string, rest: seq<string>, target: ItemState)
    ensures x !in m ==> MovedAll(m, rest, target) == MovedAll(m, [x] + rest, target)
    ensures x in m ==> MovedAll(m[x := m[x].(state := target)], rest, target) == MovedAll(m, [x] + rest, target)
  {
    assert forall k :: k in [x] + rest <==> k == x || k in rest;
  }

  /** A successful transition had only allowed moves, no known id twice, and moved exactly the named items. */
  lemma {:induction false} TransitionSuccessMeans(m: Items, ids: seq<string>, target: ItemState)
    requires TransitionAll(m, ids, target).1.None?
    ensures KnownDistinct(m, ids) && AllAllowed(m, ids, target)
    ensures TransitionAll(m, ids, target).0 == MovedAll(m, ids, target)
    decreases |ids|
  {
    if ids != [] {
      var rest := ids[1..];
      var x := ids[0];
      assert forall i :: 0 < i < |ids| ==> ids[i] == rest[i - 1];
      assert ids == [x] + rest;
      if x !in m {
        TransitionSuccessMeans(m, rest, target);
        MovedAllStep(m, x, rest, target);
      } else {
        var m' := m[x := m[x].(state := target)];
        TransitionSuccessMeans(m', rest, target);
        assert !Allowed(target, target);
        forall i | 0 < i < |ids| && ids[i] in m ensures ids[i] != x {
          assert rest[i - 1] in m';
        }
        MovedAllStep(m, x, rest, target);
      }
    }
  }

  /** A transition with only allowed moves and no known id twice succeeds. */
  lemma {:induction false} TransitionSucceedsWhen(m: Items, ids: seq<string>, target: ItemState)
    requires KnownDistinct(m, ids) && AllAllowed(m, ids, target)
    ensures TransitionAll(m, ids, target).1.None?
    decreases |ids|
  {
    if ids != [] {
      var rest := ids[1..];
      var x := ids[0];
      assert forall i :: 0 < i < |ids| ==> ids[i] == rest[i - 1];
      if x !in m {
        TransitionSucceedsWhen(m, rest, target);
      } else {
        var m' := m[x := m[x].(state := target)];
        assert x !in rest;
        assert forall i :: 0 <= i < |rest| && rest[i] in m' ==> m'[rest[i]] == m[rest[i]];
        TransitionSucceedsWhen(m', rest, target);
      }
    }
  }

  /**
   * Transitions are not atomic: on an error at position `j`, the pool is what the ids before
   * `j` produced, and the item at `j` is found in the state that refused the move.
   */
  lemma {:induction false} TransitionStopsAt(m: Items, ids: seq<string>, target: ItemState)
    requires TransitionAll(m, ids, target).1.Some?
    ensures exists j :: 0 <= j < |ids| && StopsAt(m, ids, target, j)
    decreases |ids|
  {
    var x := ids[0];
    if x in m && !Allowed(m[x].state, target) {
      assert ids[..0] == [];
      assert StopsAt(m, ids, target, 0);
    } else {
      var m' := if x in m then m[x := m[x].(state := target)] else m;
      TransitionStopsAt(m', ids[1..], target);
      var j :| 0 <= j < |ids[1..]| && StopsAt(m', ids[1..], target, j);
      assert ids[..j + 1][1..] == ids[1..][..j];
      StopsAtShift(m, m', ids, target, j);
    }
  }

  /** A stop at `j` in the tail, walked from the pool after the first id, is a stop at `j + 1`. */
  lemma StopsAtShift(m: Items, m': Items, ids: seq<string>, target: ItemState, j: int)
    requires 0 <= j < |ids| - 1
    requires TransitionAll(m, ids, target) == TransitionAll(m', ids[1..], target)
    requires TransitionAll(m, ids[..j + 1], target) == TransitionAll(m', ids[1..][..j], target)
    requires StopsAt(m', ids[1..], target, j)
    ensures StopsAt(m, ids, target, j + 1)
  {
    assert ids[j + 1] == ids[1..][j];
  }

  /** The walk over `ids` fails at position `j`, with everything before `j` already applied. */
  ghost predicate StopsAt(m: Items, ids: seq<string>, target: ItemState, j: int)
    requires 0 <= j < |ids|
  {
    var before := TransitionAll(m, ids[..j], target);
    var r := TransitionAll(m, ids, target);
    before.1.None? && r.0 == before.0 && ids[j] in before.0
    && !Allowed(before.0[ids[j]].state, target)
    && r.1 == Some(IllegalTransitionError(ids[j], before.0[ids[j]].state.Str(), target.Str()))
  }

  /** A known id whose move is disallowed makes the call fail, whatever precedes it. */
  lemma {:induction false} TransitionRaisesIfDisallowed(m: Items, ids: seq<string>, target: ItemState, i: int)
    requires 0 <= i < |ids| && ids[i] in m && !Allowed(m[ids[i]].state, target)
    ensures TransitionAll(m, ids, target).1.Some?
  {
    if TransitionAll(m, ids, target).1.None? {
      TransitionSuccessMeans(m, ids, target);
    }
  }

  /** Naming a known id twice in one call makes the call fail. */
  lemma {:induction false} TransitionRaisesOnDuplicate(m: Items, ids: seq<string>, target: ItemState, i: int, j: int)
    requires 0 <= i < j < |ids| && ids[i] == ids[j] && ids[i] in m
    ensures TransitionAll(m, ids, target).1.Some?
  {
    if TransitionAll(m, ids, target).1.None? {
      TransitionSuccessMeans(m, ids, target);
    }
  }

  // ---------------------------------------------------------------------------------------
  // update_scores

  /** The ids of a list of (id, score) pairs, a stand-in for a dictionary's keys. */
  function PairKeys(scores: seq<(string, real)>): (r: seq<string>)
    ensures |r| == |scores| && forall i :: 0 <= i < |scores| ==> r[i] == scores[i].0
  {
    if scores == [] then [] else [scores[0].0] + PairKeys(scores[1..])
  }

  /** `scores` has no repeated key, as for the items of a Python dictionary. */
  ghost predicate KeysDistinct(scores: seq<(string, real)>) {
    forall i, j :: 0 <= i < j < |scores| ==> scores[i].0 != scores[j].0
  }

  /** `it` after a reranker returned `score` for it under `strategy`. */
  function Scored(it: PoolItem, score: real, strategy: string): PoolItem {
    it.(rerankerScore := Some(score), rerankerStrategy := Some(strategy), state := Reranked)
  }

  /**
   * Writing reranker scores back, pair by pair: unknown ids are skipped, an item that is not
   * IN_FLIGHT stops the walk with an error.
   */
  function ScoreAll(m: Items, scores: seq<(string, real)>, strategy: string): (r: (Items, Option<IllegalTransitionError>))
    ensures r.0.Keys == m.Keys
    decreases |scores|
  {
    if scores == [] then (m, None)
    else
      var did := scores[0].0;
      if did !in m then ScoreAll(m, scores[1..], strategy)
      else if m[did].state != InFlight then
        (m, Some(IllegalTransitionError(did, m[did].state.Str(), "reranked")))
      else ScoreAll(m[did := Scored(m[did], scores[0].1, strategy)], scores[1..], strategy)
  }

  /** Items that were not scored are untouched, and an error names a known id and the target "reranked". */
  lemma {:induction false} ScoreAllFrame(m: Items, scores: seq<(string, real)>, strategy: string)
    ensures var r := ScoreAll(m, scores, strategy);
      && (forall k :: k in m && k !in PairKeys(scores) ==> r.0[k] == m[k])
      && (r.1.Some? ==> r.1.value.docId in m && r.1.value.target == "reranked")
    decreases |scores|
  {
    if scores != [] {
      var did := scores[0].0;
      assert PairKeys(scores) == [did] + PairKeys(scores[1..]);
      if did !in m {
        ScoreAllFrame(m, scores[1..], strategy);
      } else if m[did].state == InFlight {
        ScoreAllFrame(m[did := Scored(m[did], scores[0].1, strategy)], scores[1..], strategy);
      }
    }
  }

  /**
   * When every known scored id is IN_FLIGHT, the write-back succeeds, and each such item then
   * carries its score and strategy and is RERANKED.
   */
  lemma {:induction false} ScoreAllSucceedsWhen(m: Items, scores: seq<(string, real)>, strategy: string)
    requires KeysDistinct(scores)
    requires forall i :: 0 <= i < |scores| && scores[i].0 in m ==> m[scores[i].0].state == InFlight
    ensures ScoreAll(m, scores, strategy).1.None?
    ensures forall i :: 0 <= i < |scores| && scores[i].0 in m ==>
      ScoreAll(m, scores, strategy).0[scores[i].0] == Scored(m[scores[i].0], scores[i].1, strategy)
    decreases |scores|
  {
    if scores != [] {
      var rest := scores[1..];
      var did := scores[0].0;
      assert forall i :: 0 < i < |scores| ==> scores[i] == rest[i - 1];
      if did !in m {
        ScoreAllSucceedsWhen(m, rest, strategy);
      } else {
        var m' := m[did := Scored(m[did], scores[0].1, strategy)];
        assert forall i :: 0 <= i < |rest| ==> rest[i].0 != did;
        ScoreAllSucceedsWhen(m', rest, strategy);
        assert did !in PairKeys(rest);
        ScoreAllFrame(m', rest, strategy);
      }
    }
  }

  /** A known scored id that is not IN_FLIGHT makes the write-back fail. */
  lemma {:induction false} ScoreAllRaisesWhen(m: Items, scores: seq<(string, real)>, strategy: string, i: int)
    requires KeysDistinct(scores)
    requires 0 <= i < |scores| && scores[i].0 in m && m[scores[i].0].state != InFlight
    ensures ScoreAll(m, scores, strategy).1.Some?
    decreases |scores|
  {
    var rest := scores[1..];
    var did := scores[0].0;
    if i > 0 {
      assert scores[i] == rest[i - 1];
      assert forall p, q :: 0 <= p < q < |rest| ==> rest[p] == scores[p + 1] && rest[q] == scores[q + 1];
      if did !in m {
        ScoreAllRaisesWhen(m, rest, strategy, i - 1);
      } else if m[did].state == InFlight {
        var m' := m[did := Scored(m[did], scores[0].1, strategy)];
        ScoreAllRaisesWhen(m', rest, strategy, i - 1);
      }
    }
  }

  /** A failed write-back names a scored id that was not IN_FLIGHT, reported in its original state. */
  lemma {:induction false} ScoreAllFailureNames(m: Items, scores: seq<(string, real)>, strategy: string)
    requires KeysDistinct(scores)
    requires ScoreAll(m, scores, strategy).1.Some?
    ensures var e := ScoreAll(m, scores, strategy).1.value;
      e.docId in PairKeys(scores) && e.docId in m
      && m[e.docId].state != InFlight && e.current == m[e.docId].state.Str()
    decreases |scores|
  {
    var rest := scores[1..];
    var did := scores[0].0;
    assert PairKeys(scores) == [did] + PairKeys(rest);
    assert forall p, q :: 0 <= p < q < |rest| ==> rest[p] == scores[p + 1] && rest[q] == scores[q + 1];
    if did !in m {
      ScoreAllFailureNames(m, rest, strategy);
    } else if m[did].state == InFlight {
      var m' := m[did := Scored(m[did], scores[0].1, strategy)];
      ScoreAllFailureNames(m', rest, strategy);
      assert did !in PairKeys(rest);
    }
  }

  /** Every expected id that is still IN_FLIGHT becomes DROPPED; nothing else changes. */
  function DropUnreturned(m: Items, expected: seq<string>): (r: Items)
  {
    map k | k in m :: if k in expected && m[k].state == InFlight then m[k].(state := Dropped) else m[k]
  }

  /** `update_scores`: the score write-back, then, when `expected` is non-empty, the drop of unreturned ids. */
  function UpdateAll(m: Items, scores: seq<(string, real)>, strategy: string, expected: seq<string>): (r: (Items, Option<IllegalTransitionError>))
  {
    var (m1, err) := ScoreAll(m, scores, strategy);
    if err.Some? then (m1, err)
    else if expected != [] then (DropUnreturned(m1, expected), None)
    else (m1, None)
  }

  /**
   * After a successful update with a non-empty `expected`, no expected id is left IN_FLIGHT and
   * every expected, unscored IN_FLIGHT item is that item DROPPED; ids neither scored nor
   * expected are untouched, an unscored item that was not IN_FLIGHT is untouched, and the pool
   * keeps its ids.
   */
  lemma UpdateAllDrops(m: Items, scores: seq<(string, real)>, strategy: string, expected: seq<string>)
    ensures UpdateAll(m, scores, strategy, expected).0.Keys == m.Keys
    ensures UpdateAll(m, scores, strategy, expected).1.None? && expected != [] ==>
      forall k :: k in expected && k in m ==> UpdateAll(m, scores, strategy, expected).0[k].state != InFlight
    ensures forall k :: k in m && k !in expected && k !in PairKeys(scores) ==>
      UpdateAll(m, scores, strategy, expected).0[k] == m[k]
    ensures UpdateAll(m, scores, strategy, expected).1.None? && expected != [] ==>
      forall k :: k in m && k in expected && k !in PairKeys(scores) && m[k].state == InFlight ==>
        UpdateAll(m, scores, strategy, expected).0[k] == m[k].(state := Dropped)
    ensures forall k :: k in m && k !in PairKeys(scores) && m[k].state != InFlight ==>
      UpdateAll(m, scores, strategy, expected).0[k] == m[k]
  {
    ScoreAllFrame(m, scores, strategy);
  }

  // ---------------------------------------------------------------------------------------
  // apply_priorities

  /** Each candidate named in `p` takes its priority from `p`; every other item is unchanged. */
  function Prioritized(m: Items, p: map<string, real>): (r: Items)
  {
    map k | k in m :: if k in p && m[k].state == Candidate then m[k].(priorityValue := p[k]) else m[k]
  }

  /**
   * Priorities feed the final score only of candidates without a reranker score:
   * a positive priority then becomes the final score.
   */
  lemma PrioritizedFinalScore(m: Items, p: map<string, real>, k: string)
    requires k in m && k in p && m[k].state == Candidate && m[k].rerankerScore.None? && p[k] > 0.0
    ensures k in Prioritized(m, p) && Prioritized(m, p)[k].FinalScore() == p[k]
  {
  }

  /** Every other item keeps its final score: a reranked item, or a candidate no priority names. */
  lemma PrioritizedKeepsFinalScore(m: Items, p: map<string, real>, k: string)
    requires k in m && !(k in p && m[k].state == Candidate && m[k].rerankerScore.None?)
    ensures k in Prioritized(m, p) && Prioritized(m, p)[k].FinalScore() == m[k].FinalScore()
  {
  }

  // ---------------------------------------------------------------------------------------
  // views

  /** The items of `keys`, in that order, whose state satisfies `keep`. */
  function Select(keys: seq<string>, m: Items, keep: ItemState -> bool): (r: seq<PoolItem>)
    requires forall k :: k in keys ==> k in m
    ensures |r| <= |keys|
    ensures forall x :: x in r <==> exists i :: 0 <= i < |keys| && m[keys[i]] == x && keep(x.state)
  {
    if keys == [] then []
    else
      var rest := Select(keys[1..], m, keep);
      assert forall i :: 0 < i < |keys| ==> keys[i] == keys[1..][i - 1];
      if keep(m[keys[0]].state) then [m[keys[0]]] + rest else rest
  }

  /** The items of `keys`, in that order. */
  function ItemsOf(m: Items, keys: seq<string>): (r: seq<PoolItem>)
    requires forall k :: k in keys ==> k in m
    ensures |r| == |keys| && forall i :: 0 <= i < |keys| ==> r[i] == m[keys[i]]
  {
    seq(|keys|, i requires 0 <= i < |keys| => m[keys[i]])
  }

  /** Selecting keeps the order of `keys`: the result is a subsequence of their items. */
  lemma {:induction false} SelectInOrder(keys: seq<string>, m: Items, keep: ItemState -> bool)
    requires forall k :: k in keys ==> k in m
    ensures Seqs.IsSubsequence(Select(keys, m, keep), ItemsOf(m, keys))
    decreases |keys|
  {
    if keys != [] {
      var all := ItemsOf(m, keys);
      assert all[1..] == ItemsOf(m, keys[1..]);
      SelectInOrder(keys[1..], m, keep);
      if !keep(m[keys[0]].state) {
        Seqs.Weaken(Select(keys[1..], m, keep), all);
      }
    }
  }

  /** `[m[k] for k in ids if k in m]`. */
  function Lookup(m: Items, ids: seq<string>): (r: seq<PoolItem>)
    ensures |r| <= |ids|
    ensures forall x :: x in r ==> x in m.Values
    ensures forall x :: x in r ==> exists i :: 0 <= i < |ids| && ids[i] in m && m[ids[i]] == x
  {
    if ids == [] then []
    else
      var rest := Lookup(m, ids[1..]);
      assert forall i :: 0 < i < |ids| ==> ids[i] == ids[1..][i - 1];
      if ids[0] in m then [m[ids[0]]] + rest else rest
  }

  /** Lookup distributes over concatenation: requests are answered in order. */
  lemma {:induction false} LookupAppend(m: Items, a: seq<string>, b: seq<string>)
    ensures Lookup(m, a + b) == Lookup(m, a) + Lookup(m, b)
  {
    if a == [] {
      assert a + b == b;
    } else {
      assert (a + b)[0] == a[0] && (a + b)[1..] == a[1..] + b;
      LookupAppend(m, a[1..], b);
    }
  }

  /** When every id is known, the lookup answers each request, in order, duplicates included. */
  lemma {:induction false} LookupAllKnown(m: Items, ids: seq<string>)
    requires forall k :: k in ids ==> k in m
    ensures |Lookup(m, ids)| == |ids|
    ensures forall i :: 0 <= i < |ids| ==> Lookup(m, ids)[i] == m[ids[i]]
  {
    if ids != [] {
      LookupAllKnown(m, ids[1..]);
    }
  }

  /** Unknown ids are skipped: the lookup equals the lookup of the known ids alone. */
  lemma {:induction false} LookupSkipsMissing(m: Items, ids: seq<string>)
    ensures Lookup(m, ids) == Lookup(m, Seqs.Filter(ids, k => k in m))
  {
    if ids != [] {
      LookupSkipsMissing(m, ids[1..]);
    }
  }

  // ---------------------------------------------------------------------------------------
  // the pool object

  /** `order` lists the ids of `items` once each, and each item is filed under its own id. */
  ghost predicate WellFormed(order: seq<string>, items: Items) {
    Seqs.Distinct(order)
    && (forall k :: k in items <==> k in order)
    && (forall k :: k in items ==> items[k].docId == k)
  }

  /** Replacing a known item by one with the same id keeps the pool well formed. */
  lemma ReplaceKeepsWellFormed(order: seq<string>, items: Items, k: string, v: PoolItem)
    requires WellFormed(order, items) && k in items && v.docId == k
    ensures WellFormed(order, items[k := v])
  {
  }

  /** Filing `v` under its id, appending the id when it is new, keeps the pool well formed. */
  lemma AddKeepsWellFormed(order: seq<string>, items: Items, v: PoolItem)
    requires WellFormed(order, items)
    ensures WellFormed(if v.docId in items then order else order + [v.docId], items[v.docId := v])
  {
    if v.docId !in items {
      var o := order + [v.docId];
      forall i, j | 0 <= i < j < |o| ensures o[i] != o[j] {
        if j == |order| {
          assert o[i] in order;
        }
      }
    }
  }

  /** The dictionary comprehension keyed by document id, item after item. */
  function IndexItems(initial: seq<PoolItem>): Items
    decreases |initial|
  {
    if initial == [] then map[]
    else
      var n := |initial| - 1;
      IndexItems(initial[..n])[initial[n].docId := initial[n]]
  }

  /** The key order of that dictionary: each id where it first appears. */
  function IndexOrder(initial: seq<PoolItem>): seq<string>
    decreases |initial|
  {
    if initial == [] then []
    else
      var n := |initial| - 1;
      var o := IndexOrder(initial[..n]);
      if initial[n].docId in IndexItems(initial[..n]) then o else o + [initial[n].docId]
  }

  lemma {:induction false} IndexWellFormed(initial: seq<PoolItem>)
    ensures WellFormed(IndexOrder(initial), IndexItems(initial))
    decreases |initial|
  {
    if initial != [] {
      var n := |initial| - 1;
      IndexWellFormed(initial[..n]);
      AddKeepsWellFormed(IndexOrder(initial[..n]), IndexItems(initial[..n]), initial[n]);
    }
  }

  /** Every input id is a key of the dictionary, and every key is an input id. */
  lemma {:induction false} IndexKeys(initial: seq<PoolItem>)
    ensures forall i :: 0 <= i < |initial| ==> initial[i].docId in IndexItems(initial)
    ensures forall k :: k in IndexItems(initial) ==> exists i :: 0 <= i < |initial| && initial[i].docId == k
    decreases |initial|
  {
    if initial != [] {
      var n := |initial| - 1;
      var init := initial[..n];
      IndexKeys(init);
      assert forall i :: 0 <= i < n ==> init[i] == initial[i];
      forall k | k in IndexItems(initial) ensures exists i :: 0 <= i < |initial| && initial[i].docId == k {
        if k != initial[n].docId {
          assert k in IndexItems(init);
          var i :| 0 <= i < n && init[i].docId == k;
          assert initial[i].docId == k;
        }
      }
    }
  }

  /** For each id the dictionary holds the last item with that id: later duplicates overwrite. */
  lemma {:induction false} IndexLastWins(initial: seq<PoolItem>, i: int)
    requires 0 <= i < |initial|
    requires forall j :: i < j < |initial| ==> initial[j].docId != initial[i].docId
    ensures initial[i].docId in IndexItems(initial) && IndexItems(initial)[initial[i].docId] == initial[i]
    decreases |initial|
  {
    var n := |initial| - 1;
    if i < n {
      var init := initial[..n];
      assert forall j :: i < j < n ==> init[j] == initial[j];
      IndexLastWins(init, i);
    }
  }

  /** The pool. `order` is the dictionary's key order; `items` maps each id to its item. */
  class CandidatePool {
    var order: seq<string>
    var items: Items

    ghost predicate Valid()
      reads this
    {
      WellFormed(order, items)
    }

    /** `{it.doc_id: it for it in items}`: a later item with an id already seen replaces the earlier one. */
    constructor(initial: seq<PoolItem>)
      ensures Valid()
      ensures order == IndexOrder(initial) && items == IndexItems(initial)
    {
      IndexWellFormed(initial);
      order := IndexOrder(initial);
      items := IndexItems(initial);
    }

    /** Moves the named items to `target`; see `TransitionAll` for the outcome. */
    method Transition(docIds: seq<string>, target: ItemState) returns (err: Option<IllegalTransitionError>)
      requires Valid()
      modifies this
      ensures Valid() && order == old(order)
      ensures (items, err) == TransitionAll(old(items), docIds, target)
    {
      var i := 0;
      while i < |docIds|
        invariant 0 <= i <= |docIds|
        invariant Valid() && order == old(order)
        invariant TransitionAll(items, docIds[i..], target) == TransitionAll(old(items), docIds, target)
      {
        var did := docIds[i];
        assert docIds[i..][1..] == docIds[i + 1..];
        if did in items {
          var item := items[did];
          if !Allowed(item.state, target) {
            return Some(IllegalTransitionError(did, item.state.Str(), target.Str()));
          }
          ReplaceKeepsWellFormed(order, items, did, item.(state := target));
          items := items[did := item.(state := target)];
        }
        i := i + 1;
      }
      return None;
    }

    /**
     * Writes reranker scores back to IN_FLIGHT items, then, when `expectedIds` is non-empty,
     * drops every expected item still IN_FLIGHT. An empty `expectedIds` stands for both `None`
     * and `[]`, which the source treats alike.
     */
    method UpdateScores(scores: seq<(string, real)>, strategy: string, expectedIds: seq<string>)
      returns (err: Option<IllegalTransitionError>)
      requires Valid()
      modifies this
      ensures Valid() && order == old(order)
      ensures (items, err) == UpdateAll(old(items), scores, strategy, expectedIds)
    {
      err := WriteScores(scores, strategy);
      if err.None? && expectedIds != [] {
        DropExpected(expectedIds);
      }
    }

    /** The first half of `UpdateScores`: the score write-back. */
    method WriteScores(scores: seq<(string, real)>, strategy: string)
      returns (err: Option<IllegalTransitionError>)
      requires Valid()
      modifies this
      ensures Valid() && order == old(order)
      ensures (items, err) == ScoreAll(old(items), scores, strategy)
    {
      var i := 0;
      while i < |scores|
        invariant 0 <= i <= |scores|
        invariant Valid() && order == old(order)
        invariant ScoreAll(items, scores[i..], strategy) == ScoreAll(old(items), scores, strategy)
      {
        var (did, score) := scores[i];
        assert scores[i..][1..] == scores[i + 1..];
        if did in items {
          var item := items[did];
          if item.state != InFlight {
            return Some(IllegalTransitionError(did, item.state.Str(), "reranked"));
          }
          ReplaceKeepsWellFormed(order, items, did, Scored(item, score, strategy));
          items := items[did := Scored(item, score, strategy)];
        }
        i := i + 1;
      }
      return None;
    }

    /** The second half of `UpdateScores`: expected items still IN_FLIGHT are dropped. */
    method DropExpected(expectedIds: seq<string>)
      requires Valid()
      modifies this
      ensures Valid() && order == old(order)
      ensures items == DropUnreturned(old(items), expectedIds)
    {
      for j := 0 to |expectedIds|
        invariant Valid() && order == old(order)
        invariant items.Keys == old(items).Keys
        invariant forall k :: k in items ==>
          items[k] == if k in expectedIds[..j] && old(items)[k].state == InFlight
                      then old(items)[k].(state := Dropped) else old(items)[k]
      {
        var did := expectedIds[j];
        assert expectedIds[..j + 1] == expectedIds[..j] + [did];
        if did in items && items[did].state == InFlight {
          ReplaceKeepsWellFormed(order, items, did, items[did].(state := Dropped));
          items := items[did := items[did].(state := Dropped)];
        }
      }
      assert expectedIds[..|expectedIds|] == expectedIds;
    }

    /** Sets the priority of every candidate named in `priorities`; other items are untouched. */
    method ApplyPriorities(priorities: map<string, real>)
      requires Valid()
      modifies this
      ensures Valid() && order == old(order)
      ensures items == Prioritized(old(items), priorities)
    {
      var pending := priorities.Keys;
      while pending != {}
        invariant pending <= priorities.Keys
        invariant Valid() && order == old(order)
        invariant items.Keys == old(items).Keys
        invariant forall k :: k in items ==>
          items[k] == if k in priorities && k !in pending && old(items)[k].state == Candidate
                      then old(items)[k].(priorityValue := priorities[k]) else old(items)[k]
        decreases |pending|
      {
        if forall d :: d !in pending { assert false; }
        var did :| did in pending;
        if did in items && items[did].state == Candidate {
          ReplaceKeepsWellFormed(order, items, did, items[did].(priorityValue := priorities[did]));
          items := items[did := items[did].(priorityValue := priorities[did])];
        }
        pending := pending - {did};
      }
    }

    /** Exactly the CANDIDATE items, in pool order. */
    function Eligible(): (r: seq<PoolItem>)
      reads this
      requires Valid()
      ensures forall x :: x in r <==> x in items.Values && x.state == Candidate
      ensures Seqs.IsSubsequence(r, ItemsOf(items, order))
    {
      ValuesInOrder();
      SelectInOrder(order, items, s => s == Candidate);
      Select(order, items, s => s == Candidate)
    }

    /** Exactly the CANDIDATE and RERANKED items, in pool order. */
    function ActiveItems(): (r: seq<PoolItem>)
      reads this
      requires Valid()
      ensures forall x :: x in r <==> x in items.Values && (x.state == Candidate || x.state == Reranked)
      ensures Seqs.IsSubsequence(r, ItemsOf(items, order))
    {
      ValuesInOrder();
      SelectInOrder(order, items, s => s == Candidate || s == Reranked);
      Select(order, items, s => s == Candidate || s == Reranked)
    }

    /** The known items among `docIds`, in request order, duplicates kept; see `Lookup`. */
    function GetItems(docIds: seq<string>): (r: seq<PoolItem>)
      reads this
      ensures r == Lookup(items, docIds)
    {
      Lookup(items, docIds)
    }

    /** The number of items, which is the number of distinct ids. */
    function Len(): (n: nat)
      reads this
      requires Valid()
      ensures n == |order|
    {
      assert items.Keys == set k | k in order;
      Seqs.DistinctCard(order);
      |items|
    }

    lemma ValuesInOrder()
      requires Valid()
      ensures forall x :: x in items.Values <==> exists i :: 0 <= i < |order| && items[order[i]] == x
    {
      forall x | x in items.Values ensures exists i :: 0 <= i < |order| && items[order[i]] == x {
        var k :| k in items && items[k] == x;
        var i :| 0 <= i < |order| && order[i] == k;
      }
    }
  }
}
