/**
 * Weighted progress aggregation (`calculateProgress`), as a function of a snapshot of
 * the collection. A task reports its own stored progress; any other topic recurses into
 * every direct child and takes the weighted average of the children's computed progress,
 * rounded half up, or 0 when it has no children or their weights sum to zero.
 */
module Rollup {
  import opened Common
  import opened Topics
  import opened Collection

  /**
   * `rank` witnesses that parent references have no cycle: every document has a rank and a
   * child ranks strictly below its parent. The recursion of calculateProgress terminates
   * exactly on such collections.
   */
  ghost predicate Ranked(docs: seq<Topic>, rank: map<Id, nat>)
  {
    && (forall t :: t in docs ==> t.id in rank)
    && (forall c, p :: c in docs && p in docs && c.parentId == Some(p.id) ==> rank[c.id] < rank[p.id])
  }

  ghost function MaxOf(s: set<nat>): (m: nat)
    ensures forall x :: x in s ==> x <= m
    decreases s
  {
    if s == {} then 0
    else
      var y :| y in s;
      var rest := MaxOf(s - {y});
      assert forall x :: x in s ==> x == y || x in s - {y};
      if y > rest then y else rest
  }

  /** An upper bound of all ranks: the measure of walks up the parent chain. */
  ghost function MaxRank(rank: map<Id, nat>): (m: nat)
    ensures forall k :: k in rank ==> rank[k] <= m
  {
    assert forall k :: k in rank ==> rank[k] in rank.Values;
    MaxOf(rank.Values)
  }

  /**
   * `Math.round(ws / tw)` for a positive total weight: the integer nearest to ws / tw,
   * halves rounded up.
   */
  function RoundHalfUp(ws: int, tw: int): (r: int)
    requires tw > 0
    ensures 2 * tw * r <= 2 * ws + tw < 2 * tw * (r + 1)
  {
    (2 * ws + tw) / (2 * tw)
  }

  /** `find({ parentId: id })`: the direct children of `id`, in natural order. */
  function ChildrenOf(docs: seq<Topic>, id: Id): (r: seq<Topic>)
  {
    Filter(docs, (c: Topic) => c.parentId == Some(id))
  }

  /** Sum of the children's weights (`totalWeight` after the loop). */
  function TotalWeight(cs: seq<Topic>): int
  {
    if cs == [] then 0 else TotalWeight(cs[..|cs| - 1]) + cs[|cs| - 1].weight
  }

  /** Sum of computed progress times weight over `cs` (`weightedProgress` after the loop). */
  ghost function WeightedSum(docs: seq<Topic>, rank: map<Id, nat>, bound: nat, cs: seq<Topic>): int
    requires Ranked(docs, rank)
    requires forall c :: c in cs ==> c in docs && rank[c.id] < bound
    decreases bound, 0, |cs|
  {
    if cs == [] then 0
    else
      var c := cs[|cs| - 1];
      WeightedSum(docs, rank, bound, cs[..|cs| - 1]) + Progress(docs, rank, c) * c.weight
  }

  /** The value `calculateProgress` returns for stored topic `t`. */
  ghost function Progress(docs: seq<Topic>, rank: map<Id, nat>, t: Topic): int
    requires Ranked(docs, rank) && t in docs
    decreases rank[t.id], 1, 0
  {
    if t.kind == TASK then t.progress
    else
      var children := ChildrenOf(docs, t.id);
      if |children| == 0 then 0
      else
        var totalWeight := TotalWeight(children);
        if totalWeight > 0 then RoundHalfUp(WeightedSum(docs, rank, rank[t.id], children), totalWeight)
        else 0
  }

  /** The running sums of calculateProgress's loop after one more child. */
  lemma SumsStep(docs: seq<Topic>, rank: map<Id, nat>, bound: nat, cs: seq<Topic>, i: nat)
    requires Ranked(docs, rank)
    requires forall c :: c in cs ==> c in docs && rank[c.id] < bound
    requires i < |cs|
    ensures TotalWeight(cs[..i + 1]) == TotalWeight(cs[..i]) + cs[i].weight
    ensures WeightedSum(docs, rank, bound, cs[..i + 1])
         == WeightedSum(docs, rank, bound, cs[..i]) + Progress(docs, rank, cs[i]) * cs[i].weight
  {
    assert cs[..i + 1][..i] == cs[..i];
  }

  // ---------------------------------------------------------------------------
  // Bounds: with task progress in [0,100] and non-negative weights, so is every result.

  ghost predicate TasksBounded(docs: seq<Topic>)
  {
    forall t :: t in docs && t.kind == TASK ==> 0 <= t.progress <= 100
  }

  ghost predicate WeightsNonNegative(docs: seq<Topic>)
  {
    forall t :: t in docs ==> t.weight >= 0
  }

  lemma RoundHalfUpBounds(ws: int, tw: int)
    requires tw > 0 && 0 <= ws <= 100 * tw
    ensures 0 <= RoundHalfUp(ws, tw) <= 100
  {
    var r := RoundHalfUp(ws, tw);
    assert 0 < 2 * tw * (r + 1) && 2 * tw * r < 2 * tw * 101;
    MulMonotone(2 * tw, 0, r + 1);
    MulMonotone(2 * tw, r, 101);
  }

  /** A progress in [0,100] times a non-negative weight lies between 0 and 100 times the weight. */
  lemma ProductBounds(p: int, w: int)
    requires 0 <= p <= 100 && w >= 0
    ensures 0 <= p * w <= 100 * w
  {
    assert (100 - p) * w >= 0;
  }

  lemma MulMonotone(k: int, a: int, b: int)
    requires k > 0 && k * a < k * b
    ensures a < b
  {
  }

  lemma {:induction false} ProgressBounds(docs: seq<Topic>, rank: map<Id, nat>, t: Topic)
    requires Ranked(docs, rank) && t in docs
    requires TasksBounded(docs) && WeightsNonNegative(docs)
    ensures 0 <= Progress(docs, rank, t) <= 100
    decreases rank[t.id], 1, 0
  {
    if t.kind != TASK {
      var children := ChildrenOf(docs, t.id);
      if |children| > 0 && TotalWeight(children) > 0 {
        WeightedSumBounds(docs, rank, rank[t.id], children);
        RoundHalfUpBounds(WeightedSum(docs, rank, rank[t.id], children), TotalWeight(children));
      }
    }
  }

  lemma {:induction false} WeightedSumBounds(docs: seq<Topic>, rank: map<Id, nat>, bound: nat, cs: seq<Topic>)
    requires Ranked(docs, rank)
    requires forall c :: c in cs ==> c in docs && rank[c.id] < bound
    requires TasksBounded(docs) && WeightsNonNegative(docs)
    ensures 0 <= WeightedSum(docs, rank, bound, cs) <= 100 * TotalWeight(cs)
    ensures 0 <= TotalWeight(cs)
    decreases bound, 0, |cs|
  {
    if cs != [] {
      var c := cs[|cs| - 1];
      WeightedSumBounds(docs, rank, bound, cs[..|cs| - 1]);
      ProgressBounds(docs, rank, c);
      ProductBounds(Progress(docs, rank, c), c.weight);
    }
  }

  // ---------------------------------------------------------------------------
  // Only the structure, the weights and the tasks' progress matter: the stored progress of
  // a roadmap or subtopic is never read, and the ranks used for termination are irrelevant.

  /** What calculateProgress can observe of a document. */
  function Shape(t: Topic): (Id, string, Option<Id>, int, int)
  {
    (t.id, t.kind, t.parentId, t.weight, if t.kind == TASK then t.progress else 0)
  }

  /** Two collections that agree position by position on everything calculateProgress observes. */
  ghost predicate SameShape(d1: seq<Topic>, d2: seq<Topic>)
  {
    |d1| == |d2| && forall i :: 0 <= i < |d1| ==> Shape(d1[i]) == Shape(d2[i])
  }

  lemma {:induction false} ChildrenSameShape(d1: seq<Topic>, d2: seq<Topic>, id: Id)
    requires SameShape(d1, d2)
    ensures SameShape(ChildrenOf(d1, id), ChildrenOf(d2, id))
  {
    if d1 != [] {
      assert SameShape(d1[1..], d2[1..]) by {
        forall i | 0 <= i < |d1[1..]| ensures Shape(d1[1..][i]) == Shape(d2[1..][i]) {
          assert d1[1..][i] == d1[i + 1] && d2[1..][i] == d2[i + 1];
        }
      }
      ChildrenSameShape(d1[1..], d2[1..], id);
      assert Shape(d1[0]) == Shape(d2[0]);
    }
  }

  lemma {:induction false} TotalWeightSameShape(cs1: seq<Topic>, cs2: seq<Topic>)
    requires SameShape(cs1, cs2)
    ensures TotalWeight(cs1) == TotalWeight(cs2)
  {
    if cs1 != [] {
      var n := |cs1| - 1;
      assert SameShape(cs1[..n], cs2[..n]) by {
        forall i | 0 <= i < n ensures Shape(cs1[..n][i]) == Shape(cs2[..n][i]) {
          assert cs1[..n][i] == cs1[i] && cs2[..n][i] == cs2[i];
        }
      }
      TotalWeightSameShape(cs1[..n], cs2[..n]);
      assert Shape(cs1[n]) == Shape(cs2[n]);
    }
  }

  /**
   * Two collections of the same shape give the same progress for corresponding topics,
   * whatever the ranks used and whatever the stored progress of non-task topics.
   */
  lemma {:induction false} ProgressSameShape(d1: seq<Topic>, r1: map<Id, nat>, t1: Topic,
                                             d2: seq<Topic>, r2: map<Id, nat>, t2: Topic)
    requires Ranked(d1, r1) && Ranked(d2, r2) && SameShape(d1, d2)
    requires t1 in d1 && t2 in d2 && Shape(t1) == Shape(t2)
    ensures Progress(d1, r1, t1) == Progress(d2, r2, t2)
    decreases r1[t1.id], 1, 0
  {
    if t1.kind != TASK {
      var cs1, cs2 := ChildrenOf(d1, t1.id), ChildrenOf(d2, t2.id);
      ChildrenSameShape(d1, d2, t1.id);
      TotalWeightSameShape(cs1, cs2);
      if |cs1| > 0 && TotalWeight(cs1) > 0 {
        WeightedSumSameShape(d1, r1, r1[t1.id], cs1, d2, r2, r2[t2.id], cs2);
      }
    }
  }

  lemma {:induction false} WeightedSumSameShape(d1: seq<Topic>, r1: map<Id, nat>, b1: nat, cs1: seq<Topic>,
                                                d2: seq<Topic>, r2: map<Id, nat>, b2: nat, cs2: seq<Topic>)
    requires Ranked(d1, r1) && Ranked(d2, r2) && SameShape(d1, d2)
    requires forall c :: c in cs1 ==> c in d1 && r1[c.id] < b1
    requires forall c :: c in cs2 ==> c in d2 && r2[c.id] < b2
    requires SameShape(cs1, cs2)
    ensures WeightedSum(d1, r1, b1, cs1) == WeightedSum(d2, r2, b2, cs2)
    decreases b1, 0, |cs1|
  {
    if cs1 != [] {
      var n := |cs1| - 1;
      assert SameShape(cs1[..n], cs2[..n]) by {
        forall i | 0 <= i < n ensures Shape(cs1[..n][i]) == Shape(cs2[..n][i]) {
          assert cs1[..n][i] == cs1[i] && cs2[..n][i] == cs2[i];
        }
      }
      WeightedSumSameShape(d1, r1, b1, cs1[..n], d2, r2, b2, cs2[..n]);
      assert Shape(cs1[n]) == Shape(cs2[n]);
      ProgressSameShape(d1, r1, cs1[n], d2, r2, cs2[n]);
    }
  }

  /** The ranks are only a termination witness: any two give the same progress. */
  lemma ProgressRankIrrelevant(docs: seq<Topic>, r1: map<Id, nat>, r2: map<Id, nat>, t: Topic)
    requires Ranked(docs, r1) && Ranked(docs, r2) && t in docs
    ensures Progress(docs, r1, t) == Progress(docs, r2, t)
  {
    ProgressSameShape(docs, r1, t, docs, r2, t);
  }

  /** Shape-preserving rewrites keep the ranks valid. */
  lemma RankedSameShape(d1: seq<Topic>, d2: seq<Topic>, rank: map<Id, nat>)
    requires Ranked(d1, rank) && SameShape(d1, d2)
    ensures Ranked(d2, rank)
  {
    forall t | t in d2 ensures t.id in rank {
      var i :| 0 <= i < |d2| && d2[i] == t;
      assert Shape(d1[i]) == Shape(d2[i]);
    }
    forall c, p | c in d2 && p in d2 && c.parentId == Some(p.id)
      ensures rank[c.id] < rank[p.id]
    {
      var i :| 0 <= i < |d2| && d2[i] == c;
      var j :| 0 <= j < |d2| && d2[j] == p;
      assert Shape(d1[i]) == Shape(d2[i]) && Shape(d1[j]) == Shape(d2[j]);
    }
  }
}
