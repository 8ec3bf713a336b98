/**
 * The save path of a topic and its pre('save') hook: when a saved topic's progress or
 * status was modified and it has a parent, the parent's progress is recomputed and the
 * parent is saved, which runs the hook again one level up.
 *
 * The hook as written runs BEFORE the triggering document is written, so every
 * recomputation in the chain reads the collection as it was before the save
 * (HookAsWritten, SaveAsWritten). The corrected save writes the document first and then
 * walks up the chain over the written collection (HookFixed, SaveFixed); the rest of the
 * model saves through the corrected path.
 */
module Cascade {
  import opened Common
  import opened Topics
  import opened Collection
  import opened Rollup

  /** The invariant of the stored collection: unique ids, acyclic parents, every document schema-valid. */
  ghost predicate WellFormed(docs: seq<Topic>, rank: map<Id, nat>)
  {
    UniqueIds(docs) && Ranked(docs, rank) && forall t :: t in docs ==> SchemaValid(t)
  }

  /**
   * `isModified('progress') || isModified('status')` for a save of `t`: a new document
   * counts as modified (both creators always set its status explicitly); a stored one when
   * its progress or status differs from the stored copy.
   */
  function Modified(docs: seq<Topic>, t: Topic): bool
  {
    match Lookup(docs, t.id)
    case None => true
    case Some(stored) => stored.progress != t.progress || stored.status != t.status
  }

  /** The write a save performs: nothing when the document is unchanged, else insert or replace it stamped `now`. */
  function Write(docs: seq<Topic>, t: Topic, now: int): seq<Topic>
  {
    if Lookup(docs, t.id) == Some(t) then docs else Upsert(docs, t.(updatedAt := now))
  }

  /** The document as `save()` leaves it in memory: stamped `now` when anything was written. */
  function AfterSave(docs: seq<Topic>, t: Topic, now: int): (r: Topic)
    ensures r == t || r == t.(updatedAt := now)
  {
    if Lookup(docs, t.id) == Some(t) then t else t.(updatedAt := now)
  }

  /** After the write, the collection holds the saved document, as left in memory, under its id. */
  lemma WriteStores(docs: seq<Topic>, t: Topic, now: int)
    requires UniqueIds(docs)
    ensures UniqueIds(Write(docs, t, now))
    ensures Lookup(Write(docs, t, now), t.id) == Some(AfterSave(docs, t, now))
  {
    if Lookup(docs, t.id) != Some(t) {
      UpsertUnique(docs, t.(updatedAt := now));
    }
  }

  /** The parent with the recomputed progress, as the hook assigns it before saving it. */
  function Recomputed(p: Topic, progress: int, now: int): Topic
  {
    p.(progress := progress, updatedAt := now)
  }

  /** Measure of a walk up the parent chain starting at reference `pid`. */
  ghost function Height(docs: seq<Topic>, rank: map<Id, nat>, pid: Option<Id>): nat
    requires Ranked(docs, rank)
  {
    if pid.None? then 0
    else match Lookup(docs, pid.value)
      case None => 0
      case Some(p) => MaxRank(rank) - rank[p.id] + 1
  }

  // ---------------------------------------------------------------------------
  // Facts about writes that keep the shape of the collection.

  lemma SameShapeTrans(d1: seq<Topic>, d2: seq<Topic>, d3: seq<Topic>)
    requires SameShape(d1, d2) && SameShape(d2, d3)
    ensures SameShape(d1, d3)
  {
  }

  lemma SameShapeRefl(d: seq<Topic>)
    ensures SameShape(d, d)
  {
  }

  /** Collections of the same shape have the same ids at the same positions, so lookups agree on presence and position. */
  lemma {:induction false} LookupSameShape(d1: seq<Topic>, d2: seq<Topic>, id: Id)
    requires SameShape(d1, d2)
    ensures Lookup(d1, id).Some? <==> Lookup(d2, id).Some?
    ensures Lookup(d1, id).Some? ==> Shape(Lookup(d1, id).value) == Shape(Lookup(d2, id).value)
  {
    if d1 != [] {
      assert Shape(d1[0]) == Shape(d2[0]);
      assert SameShape(d1[1..], d2[1..]) by {
        forall i | 0 <= i < |d1[1..]| ensures Shape(d1[1..][i]) == Shape(d2[1..][i]) {
          assert d1[1..][i] == d1[i + 1] && d2[1..][i] == d2[i + 1];
        }
      }
      LookupSameShape(d1[1..], d2[1..], id);
    }
  }

  lemma HeightSameShape(d1: seq<Topic>, d2: seq<Topic>, rank: map<Id, nat>, pid: Option<Id>)
    requires Ranked(d1, rank) && Ranked(d2, rank) && SameShape(d1, d2)
    ensures Height(d1, rank, pid) == Height(d2, rank, pid)
  {
    if pid.Some? {
      LookupSameShape(d1, d2, pid.value);
    }
  }

  lemma SameShapeUnique(d1: seq<Topic>, d2: seq<Topic>)
    requires SameShape(d1, d2) && UniqueIds(d1)
    ensures UniqueIds(d2)
  {
    forall i, j | 0 <= i < |d2| && 0 <= j < |d2| && d2[i].id == d2[j].id ensures i == j {
      assert Shape(d1[i]) == Shape(d2[i]) && Shape(d1[j]) == Shape(d2[j]);
    }
  }

  /** Overwriting a stored document by a schema-valid one of the same shape keeps the collection well formed. */
  lemma ReplaceKeepsForm(docs: seq<Topic>, rank: map<Id, nat>, k: nat, u: Topic)
    requires WellFormed(docs, rank) && k < |docs|
    requires u.id == docs[k].id && Shape(u) == Shape(docs[k]) && SchemaValid(u)
    ensures Upsert(docs, u) == docs[k := u]
    ensures SameShape(docs, docs[k := u]) && WellFormed(docs[k := u], rank)
  {
    LookupUnique(docs, docs[k]);
    var r := Replace(docs, u);
    forall i | 0 <= i < |docs| ensures r[i] == docs[k := u][i] {
      if docs[i].id == u.id { assert i == k; }
    }
    assert r == docs[k := u];
    var d := docs[k := u];
    assert SameShape(docs, d);
    RankedSameShape(docs, d, rank);
    SameShapeUnique(docs, d);
    forall t | t in d ensures SchemaValid(t) {
      var i :| 0 <= i < |d| && d[i] == t;
      if i != k { assert docs[i] == t; }
    }
  }

  /** The hook's write of a parent whose recomputed progress differs from the stored one. */
  lemma WriteParentKeepsForm(docs: seq<Topic>, rank: map<Id, nat>, p: Topic, now: int)
    requires WellFormed(docs, rank) && p in docs
    requires Progress(docs, rank, p) != p.progress
    ensures SameShape(docs, Upsert(docs, Recomputed(p, Progress(docs, rank, p), now)))
    ensures WellFormed(Upsert(docs, Recomputed(p, Progress(docs, rank, p), now)), rank)
  {
    var k :| 0 <= k < |docs| && docs[k] == p;
    ProgressBounds(docs, rank, p);
    ReplaceKeepsForm(docs, rank, k, Recomputed(p, Progress(docs, rank, p), now));
  }

  // ---------------------------------------------------------------------------
  // The hook as written: every recomputation reads the collection before any write of the
  // chain; the writes then land from the top ancestor down.

  ghost function HookAsWritten(docs: seq<Topic>, rank: map<Id, nat>, pid: Option<Id>, now: int): seq<Topic>
    requires Ranked(docs, rank)
    decreases Height(docs, rank, pid)
  {
    if pid.None? then docs
    else match Lookup(docs, pid.value)
      case None => docs
      case Some(parent) =>
        var progress := Progress(docs, rank, parent);
        if progress == parent.progress then docs
        else Upsert(HookAsWritten(docs, rank, parent.parentId, now), Recomputed(parent, progress, now))
  }

  /** `save()` as written: validation passed, the hook runs, then the document itself is written. */
  ghost function SaveAsWritten(docs: seq<Topic>, rank: map<Id, nat>, t: Topic, now: int): seq<Topic>
    requires Ranked(docs, rank)
  {
    var hooked := if Modified(docs, t) then HookAsWritten(docs, rank, t.parentId, now) else docs;
    if Lookup(docs, t.id) == Some(t) then hooked else Upsert(hooked, t.(updatedAt := now))
  }

  lemma {:induction false} HookAsWrittenKeepsForm(docs: seq<Topic>, rank: map<Id, nat>, pid: Option<Id>, now: int)
    requires WellFormed(docs, rank)
    ensures SameShape(docs, HookAsWritten(docs, rank, pid, now))
    ensures WellFormed(HookAsWritten(docs, rank, pid, now), rank)
    decreases Height(docs, rank, pid)
  {
    if pid.Some? && Lookup(docs, pid.value).Some? {
      var parent := Lookup(docs, pid.value).value;
      var progress := Progress(docs, rank, parent);
      if progress != parent.progress {
        var above := HookAsWritten(docs, rank, parent.parentId, now);
        HookAsWrittenKeepsForm(docs, rank, parent.parentId, now);
        var k :| 0 <= k < |docs| && docs[k] == parent;
        assert Shape(above[k]) == Shape(parent);
        ProgressBounds(docs, rank, parent);
        ReplaceKeepsForm(above, rank, k, Recomputed(parent, progress, now));
      } else {
        SameShapeRefl(docs);
      }
    } else {
      SameShapeRefl(docs);
    }
  }

  // ---------------------------------------------------------------------------
  // The corrected save: write the document, then walk up, each parent recomputed from the
  // collection as it stands and written before its own parent is visited.

  ghost function HookFixed(docs: seq<Topic>, rank: map<Id, nat>, pid: Option<Id>, now: int): seq<Topic>
    requires WellFormed(docs, rank)
    decreases Height(docs, rank, pid)
  {
    if pid.None? then docs
    else match Lookup(docs, pid.value)
      case None => docs
      case Some(parent) =>
        var progress := Progress(docs, rank, parent);
        if progress == parent.progress then docs
        else
          var written := Upsert(docs, Recomputed(parent, progress, now));
          WriteParentKeepsForm(docs, rank, parent, now);
          HeightSameShape(docs, written, rank, parent.parentId);
          HookFixed(written, rank, parent.parentId, now)
  }

  /** One step of the corrected hook, for the method that walks it. */
  lemma HookFixedStep(docs: seq<Topic>, rank: map<Id, nat>, parent: Topic, now: int)
    requires WellFormed(docs, rank) && parent in docs
    ensures Progress(docs, rank, parent) == parent.progress ==> HookFixed(docs, rank, Some(parent.id), now) == docs
    ensures var written := Upsert(docs, Recomputed(parent, Progress(docs, rank, parent), now));
      Progress(docs, rank, parent) != parent.progress ==>
        && WellFormed(written, rank)
        && Height(written, rank, parent.parentId) < Height(docs, rank, Some(parent.id))
        && HookFixed(docs, rank, Some(parent.id), now) == HookFixed(written, rank, parent.parentId, now)
  {
    LookupUnique(docs, parent);
    var progress := Progress(docs, rank, parent);
    if progress != parent.progress {
      var written := Upsert(docs, Recomputed(parent, progress, now));
      WriteParentKeepsForm(docs, rank, parent, now);
      HeightSameShape(docs, written, rank, parent.parentId);
    }
  }

  /** The corrected `save()`: validation passed, the document is written, then the hook runs. */
  ghost function SaveFixed(docs: seq<Topic>, rank: map<Id, nat>, t: Topic, now: int): seq<Topic>
    requires WellFormed(Write(docs, t, now), rank)
  {
    var written := Write(docs, t, now);
    if Modified(docs, t) then HookFixed(written, rank, t.parentId, now) else written
  }

  /** A save that modifies neither progress nor status, or of a root, writes the document and nothing else. */
  lemma SaveWithoutCascade(docs: seq<Topic>, rank: map<Id, nat>, t: Topic, now: int)
    requires Ranked(docs, rank) && WellFormed(Write(docs, t, now), rank)
    requires !Modified(docs, t) || t.parentId.None?
    ensures SaveFixed(docs, rank, t, now) == Write(docs, t, now)
    ensures SaveAsWritten(docs, rank, t, now) == Write(docs, t, now)
  {
  }

  lemma {:induction false} HookFixedKeepsForm(docs: seq<Topic>, rank: map<Id, nat>, pid: Option<Id>, now: int)
    requires WellFormed(docs, rank)
    ensures SameShape(docs, HookFixed(docs, rank, pid, now))
    ensures WellFormed(HookFixed(docs, rank, pid, now), rank)
    decreases Height(docs, rank, pid)
  {
    if pid.Some? && Lookup(docs, pid.value).Some? {
      var parent := Lookup(docs, pid.value).value;
      var progress := Progress(docs, rank, parent);
      if progress != parent.progress {
        var written := Upsert(docs, Recomputed(parent, progress, now));
        WriteParentKeepsForm(docs, rank, parent, now);
        HeightSameShape(docs, written, rank, parent.parentId);
        HookFixedKeepsForm(written, rank, parent.parentId, now);
        SameShapeTrans(docs, written, HookFixed(written, rank, parent.parentId, now));
      } else {
        SameShapeRefl(docs);
      }
    } else {
      SameShapeRefl(docs);
    }
  }

  // ---------------------------------------------------------------------------
  // What a walk of the corrected hook touches.

  /** The ids of the topic referenced by `pid` and of all its ancestors. */
  ghost function ChainIds(docs: seq<Topic>, rank: map<Id, nat>, pid: Option<Id>): set<Id>
    requires Ranked(docs, rank)
    decreases Height(docs, rank, pid)
  {
    if pid.None? then {}
    else match Lookup(docs, pid.value)
      case None => {}
      case Some(p) => {p.id} + ChainIds(docs, rank, p.parentId)
  }

  /** Every id on a chain ranks at least as high as the chain's first topic. */
  lemma {:induction false} ChainIdsAbove(docs: seq<Topic>, rank: map<Id, nat>, pid: Option<Id>, b: int)
    requires Ranked(docs, rank)
    requires forall q :: pid.Some? && Lookup(docs, pid.value) == Some(q) ==> rank[q.id] > b
    ensures forall x :: x in ChainIds(docs, rank, pid) ==> x in rank && rank[x] > b
    decreases Height(docs, rank, pid)
  {
    if pid.Some? && Lookup(docs, pid.value).Some? {
      var p := Lookup(docs, pid.value).value;
      ChainIdsAbove(docs, rank, p.parentId, rank[p.id]);
    }
  }

  lemma {:induction false} ChainIdsSameShape(d1: seq<Topic>, d2: seq<Topic>, rank: map<Id, nat>, pid: Option<Id>)
    requires Ranked(d1, rank) && Ranked(d2, rank) && SameShape(d1, d2)
    ensures ChainIds(d1, rank, pid) == ChainIds(d2, rank, pid)
    decreases Height(d1, rank, pid)
  {
    if pid.Some? {
      LookupSameShape(d1, d2, pid.value);
      if Lookup(d1, pid.value).Some? {
        ChainIdsSameShape(d1, d2, rank, Lookup(d1, pid.value).value.parentId);
      }
    }
  }

  /**
   * `after` differs from `docs` only at topics whose id is in `ids`, each of which takes its
   * progress as computed over `docs` and the timestamp `now`.
   */
  ghost predicate TouchedOnly(docs: seq<Topic>, rank: map<Id, nat>, after: seq<Topic>, ids: set<Id>, now: int)
    requires Ranked(docs, rank)
  {
    && |after| == |docs|
    && forall i :: 0 <= i < |docs| ==>
         after[i] == docs[i]
         || (docs[i].id in ids && after[i] == Recomputed(docs[i], Progress(docs, rank, docs[i]), now))
  }

  lemma TouchedOnlyStep(docs: seq<Topic>, rank: map<Id, nat>, k: nat, now: int,
                        written: seq<Topic>, after: seq<Topic>, above: set<Id>, ids: set<Id>)
    requires WellFormed(docs, rank) && k < |docs|
    requires written == docs[k := Recomputed(docs[k], Progress(docs, rank, docs[k]), now)]
    requires SameShape(docs, written) && Ranked(written, rank)
    requires TouchedOnly(written, rank, after, above, now)
    requires docs[k].id !in above && ids == {docs[k].id} + above
    ensures TouchedOnly(docs, rank, after, ids, now)
  {
    assert after[k] == written[k];
    forall i | 0 <= i < |docs| && i != k
      ensures after[i] == docs[i]
        || (docs[i].id in ids && after[i] == Recomputed(docs[i], Progress(docs, rank, docs[i]), now))
    {
      assert written[i] == docs[i];
      ProgressSameShape(docs, rank, docs[i], written, rank, written[i]);
    }
  }

  /**
   * The corrected hook changes nothing but the topics of the chain, and each of those only
   * by taking its recomputed progress and the timestamp.
   */
  lemma {:induction false} HookFixedEffect(docs: seq<Topic>, rank: map<Id, nat>, pid: Option<Id>, now: int)
    requires WellFormed(docs, rank)
    ensures TouchedOnly(docs, rank, HookFixed(docs, rank, pid, now), ChainIds(docs, rank, pid), now)
    decreases Height(docs, rank, pid)
  {
    HookFixedKeepsForm(docs, rank, pid, now);
    if pid.Some? && Lookup(docs, pid.value).Some? {
      var parent := Lookup(docs, pid.value).value;
      var progress := Progress(docs, rank, parent);
      if progress != parent.progress {
        var written := Upsert(docs, Recomputed(parent, progress, now));
        WriteParentKeepsForm(docs, rank, parent, now);
        HeightSameShape(docs, written, rank, parent.parentId);
        HookFixedEffect(written, rank, parent.parentId, now);
        HookFixedEffectStep(docs, rank, parent, now);
      }
    }
  }

  /** One step of HookFixedEffect: the parent's write, then what the walk above it touches. */
  lemma HookFixedEffectStep(docs: seq<Topic>, rank: map<Id, nat>, parent: Topic, now: int)
    requires WellFormed(docs, rank) && parent in docs
    requires Progress(docs, rank, parent) != parent.progress
    requires WellFormed(Upsert(docs, Recomputed(parent, Progress(docs, rank, parent), now)), rank)
    requires var written := Upsert(docs, Recomputed(parent, Progress(docs, rank, parent), now));
      TouchedOnly(written, rank, HookFixed(written, rank, parent.parentId, now), ChainIds(written, rank, parent.parentId), now)
    ensures TouchedOnly(docs, rank, HookFixed(docs, rank, Some(parent.id), now), ChainIds(docs, rank, Some(parent.id)), now)
  {
    var progress := Progress(docs, rank, parent);
    LookupUnique(docs, parent);
    var k :| 0 <= k < |docs| && docs[k] == parent;
    var written := Upsert(docs, Recomputed(parent, progress, now));
    ProgressBounds(docs, rank, parent);
    ReplaceKeepsForm(docs, rank, k, Recomputed(parent, progress, now));
    HookFixedStep(docs, rank, parent, now);
    var above := ChainIds(written, rank, parent.parentId);
    ChainIdsStep(docs, written, rank, parent);
    TouchedOnlyStep(docs, rank, k, now, written, HookFixed(written, rank, parent.parentId, now),
                    above, ChainIds(docs, rank, Some(parent.id)));
  }

  /** The chain from a stored topic is that topic followed by the chain above it, which does not contain it. */
  lemma ChainIdsStep(docs: seq<Topic>, written: seq<Topic>, rank: map<Id, nat>, parent: Topic)
    requires WellFormed(docs, rank) && parent in docs
    requires Ranked(written, rank) && SameShape(docs, written)
    ensures ChainIds(docs, rank, Some(parent.id)) == {parent.id} + ChainIds(written, rank, parent.parentId)
    ensures parent.id !in ChainIds(written, rank, parent.parentId)
  {
    LookupUnique(docs, parent);
    ChainIdsSameShape(docs, written, rank, parent.parentId);
    ChainIdsAbove(written, rank, parent.parentId, rank[parent.id]);
  }

  lemma HookFixedFirstWrite(docs: seq<Topic>, rank: map<Id, nat>, k: nat, now: int)
    requires WellFormed(docs, rank) && k < |docs|
    ensures |HookFixed(docs, rank, Some(docs[k].id), now)| == |docs|
    ensures HookFixed(docs, rank, Some(docs[k].id), now)[k].progress == Progress(docs, rank, docs[k])
  {
    var p := docs[k];
    LookupUnique(docs, p);
    HookFixedKeepsForm(docs, rank, Some(p.id), now);
    var progress := Progress(docs, rank, p);
    if progress != p.progress {
      var written := Upsert(docs, Recomputed(p, progress, now));
      ProgressBounds(docs, rank, p);
      ReplaceKeepsForm(docs, rank, k, Recomputed(p, progress, now));
      HookFixedStep(docs, rank, p, now);
      HookFixedEffect(written, rank, p.parentId, now);
      ChainIdsAbove(written, rank, p.parentId, rank[p.id]);
      assert written[k].id !in ChainIds(written, rank, p.parentId);
    }
  }

  /** The topic the corrected hook starts from ends up holding its computed progress. */
  lemma HookFixedRepairsParent(docs: seq<Topic>, rank: map<Id, nat>, p: Topic, now: int)
    requires WellFormed(docs, rank) && p in docs
    ensures var after := HookFixed(docs, rank, Some(p.id), now);
      && WellFormed(after, rank) && Lookup(after, p.id).Some?
      && Lookup(after, p.id).value.progress == Progress(after, rank, Lookup(after, p.id).value)
      && Lookup(after, p.id).value.progress == Progress(docs, rank, p)
  {
    var after := HookFixed(docs, rank, Some(p.id), now);
    HookFixedKeepsForm(docs, rank, Some(p.id), now);
    var k :| 0 <= k < |docs| && docs[k] == p;
    HookFixedFirstWrite(docs, rank, k, now);
    assert Shape(after[k]) == Shape(docs[k]);
    LookupUnique(after, after[k]);
    ProgressSameShape(docs, rank, docs[k], after, rank, after[k]);
  }
}
