/**
 * The Topic model as a mutable collection: `calculateProgress` as a method that loops over
 * the children, the corrected `save()` (write, then walk up), the `save()` as written (walk
 * up, then write), and `deleteMany` / `deleteOne`.
 */
module TopicModel {
  import opened Common
  import opened Topics
  import opened Collection
  import opened Rollup
  import opened Cascade

  /**
   * A document that can be saved without breaking the tree: a stored document keeps its
   * parent reference; a new one takes an id that nothing refers to and is not its own parent.
   */
  predicate Placeable(docs: seq<Topic>, t: Topic)
  {
    match Lookup(docs, t.id)
    case Some(stored) => stored.parentId == t.parentId
    case None => t.parentId != Some(t.id) && forall d :: d in docs ==> d.parentId != Some(t.id)
  }

  /** A new document id: used by no document, as id or as parent reference, and unequal to `parent`. */
  function NewId(docs: seq<Topic>, parent: Option<Id>): (r: Id)
    ensures Lookup(docs, r).None? && parent != Some(r)
    ensures forall d :: d in docs ==> d.parentId != Some(r)
  {
    var f := FreshId(docs);
    if parent.Some? && parent.value >= f then parent.value + 1 else f
  }

  /** Ranks after a write: a new document ranks below everything else. */
  ghost function RankAfterWrite(docs: seq<Topic>, rank: map<Id, nat>, t: Topic): map<Id, nat>
  {
    if Lookup(docs, t.id).Some? then rank
    else (map k | k in rank :: rank[k] + 1)[t.id := 0]
  }

  /** Inserting or replacing a placeable, schema-valid document keeps the collection well formed. */
  lemma UpsertKeepsForm(docs: seq<Topic>, rank: map<Id, nat>, w: Topic)
    requires WellFormed(docs, rank) && Placeable(docs, w) && SchemaValid(w)
    ensures WellFormed(Upsert(docs, w), RankAfterWrite(docs, rank, w))
  {
    var after := Upsert(docs, w);
    var rank' := RankAfterWrite(docs, rank, w);
    UpsertUnique(docs, w);
    forall u | u in after ensures SchemaValid(u) && u.id in rank' {
      if u.id != w.id { UpsertOthers(docs, w, u); }
    }
    if Lookup(docs, w.id).Some? {
      forall c, p | c in after && p in after && c.parentId == Some(p.id)
        ensures rank'[c.id] < rank'[p.id]
      {
        var stored := Lookup(docs, w.id).value;
        var c0 := if c.id == w.id then stored else c;
        var p0 := if p.id == w.id then stored else p;
        if c.id != w.id { UpsertOthers(docs, w, c); }
        if p.id != w.id { UpsertOthers(docs, w, p); }
        LookupUnique(after, c);
        LookupUnique(after, p);
        assert c0 in docs && p0 in docs && c0.parentId == Some(p0.id);
      }
    } else {
      assert after == docs + [w];
      forall c, p | c in after && p in after && c.parentId == Some(p.id)
        ensures rank'[c.id] < rank'[p.id]
      {
        if c != w && p != w {
          assert c in docs && p in docs;
        }
      }
    }
  }

  lemma WriteKeepsForm(docs: seq<Topic>, rank: map<Id, nat>, t: Topic, now: int)
    requires WellFormed(docs, rank) && Placeable(docs, t) && SchemaValid(t)
    ensures WellFormed(Write(docs, t, now), RankAfterWrite(docs, rank, t))
  {
    if Write(docs, t, now) != docs {
      UpsertKeepsForm(docs, rank, t.(updatedAt := now));
    }
  }

  class TopicCollection {
    /** The documents of the collection, in natural order. */
    var docs: seq<Topic>
    /** Witness that parent references are acyclic. */
    ghost var rank: map<Id, nat>

    ghost predicate Valid()
      reads this
    {
      WellFormed(docs, rank)
    }

    constructor ()
      ensures Valid() && docs == []
    {
      docs := [];
      rank := map[];
    }

    /**
     * `calculateProgress`: a task's own progress; otherwise the rounded weighted average
     * of the children's computed progress, or 0 without children or without weight.
     */
    method CalculateProgress(t: Topic) returns (p: int)
      requires Valid() && t in docs
      ensures p == Progress(docs, rank, t)
      ensures t.kind == TASK ==> p == t.progress
      ensures t.kind != TASK && ChildrenOf(docs, t.id) == [] ==> p == 0
      ensures 0 <= p <= 100
      decreases rank[t.id], 1
    {
      ProgressBounds(docs, rank, t);
      if t.kind == TASK {
        return t.progress;
      }
      var children := ChildrenOf(docs, t.id);
      if |children| == 0 {
        return 0;
      }
      var totalWeight, weightedProgress := SumChildren(children, rank[t.id]);
      p := if totalWeight > 0 then RoundHalfUp(weightedProgress, totalWeight) else 0;
    }

    /** The loop of `calculateProgress`: the children's total weight and weighted progress. */
    method SumChildren(children: seq<Topic>, ghost bound: nat) returns (totalWeight: int, weightedProgress: int)
      requires Valid()
      requires forall c :: c in children ==> c in docs && rank[c.id] < bound
      ensures totalWeight == TotalWeight(children)
      ensures weightedProgress == WeightedSum(docs, rank, bound, children)
      decreases bound, 0
    {
      totalWeight, weightedProgress := 0, 0;
      for i := 0 to |children|
        invariant totalWeight == TotalWeight(children[..i])
        invariant weightedProgress == WeightedSum(docs, rank, bound, children[..i])
      {
        var child := children[i];
        var childProgress := CalculateProgress(child);
        totalWeight := totalWeight + child.weight;
        weightedProgress := weightedProgress + childProgress * child.weight;
        SumsStep(docs, rank, bound, children, i);
      }
      assert children[..|children|] == children;
    }

    /**
     * The corrected hook, run after the triggering document is written: recompute the
     * parent over the collection as it stands; if that changes its progress, write it and
     * continue with its own parent.
     */
    method Propagate(pid: Option<Id>, now: int)
      requires Valid()
      modifies this
      ensures Valid() && rank == old(rank)
      ensures docs == HookFixed(old(docs), rank, pid, now)
      decreases Height(docs, rank, pid)
    {
      if pid.None? {
        return;
      }
      var parent := Lookup(docs, pid.value);
      if parent.None? {
        return;
      }
      var p := CalculateProgress(parent.value);
      HookFixedStep(docs, rank, parent.value, now);
      if p == parent.value.progress {
        return;
      }
      docs := Upsert(docs, Recomputed(parent.value, p, now));
      Propagate(parent.value.parentId, now);
    }

    /**
     * The corrected `save()`: validate, write the document, and when its progress or
     * status was modified, bring its ancestors up to date.
     */
    method Save(t: Topic, now: int) returns (ok: bool)
      requires Valid() && Placeable(docs, t)
      modifies this
      ensures Valid()
      ensures ok == SchemaValid(t)
      ensures ok ==> rank == RankAfterWrite(old(docs), old(rank), t) && WellFormed(Write(old(docs), t, now), rank)
      ensures ok ==> docs == SaveFixed(old(docs), rank, t, now)
      ensures !ok ==> docs == old(docs) && rank == old(rank)
      ensures ok ==> Lookup(docs, t.id) == Some(AfterSave(old(docs), t, now))
    {
      if !SchemaValid(t) {
        return false;
      }
      ghost var before := docs;
      var modified := Modified(docs, t);
      WriteKeepsForm(docs, rank, t, now);
      rank := RankAfterWrite(docs, rank, t);
      docs := Write(docs, t, now);
      ghost var written := docs;
      if modified {
        Propagate(t.parentId, now);
      }
      ok := true;
      SavedKeepsContent(before, rank, t, now);
    }

    /**
     * The hook as written, run before the triggering document is written: recompute the
     * parent over the collection as it stands; if that changes its progress, save the
     * parent, whose own hook runs first and whose write lands last.
     */
    method PreSaveAsWritten(pid: Option<Id>, now: int)
      requires Valid()
      modifies this
      ensures Valid() && rank == old(rank)
      ensures docs == HookAsWritten(old(docs), rank, pid, now)
      decreases Height(docs, rank, pid)
    {
      if pid.None? {
        return;
      }
      var parent := Lookup(docs, pid.value);
      if parent.None? {
        return;
      }
      var p := CalculateProgress(parent.value);
      if p == parent.value.progress {
        return;
      }
      HookAsWrittenKeepsForm(docs, rank, pid, now);
      PreSaveAsWritten(parent.value.parentId, now);
      docs := Upsert(docs, Recomputed(parent.value, p, now));
    }

    /** `save()` as written: validate, run the hook, then write the document. */
    method SaveAsWritten(t: Topic, now: int) returns (ok: bool)
      requires Valid() && Placeable(docs, t)
      modifies this
      ensures Valid()
      ensures ok == SchemaValid(t)
      ensures ok ==> docs == Cascade.SaveAsWritten(old(docs), old(rank), t, now)
      ensures ok ==> Lookup(docs, t.id) == Some(AfterSave(old(docs), t, now))
      ensures !ok ==> docs == old(docs) && rank == old(rank)
    {
      if !SchemaValid(t) {
        return false;
      }
      ghost var before, rank0 := docs, rank;
      var same := Lookup(docs, t.id) == Some(t);
      if Modified(docs, t) {
        PreSaveAsWritten(t.parentId, now);
      }
      SaveAsWrittenStep(before, docs, rank, t, now);
      if !same {
        rank := RankAfterWrite(docs, rank, t);
        docs := Upsert(docs, t.(updatedAt := now));
      }
      ok := true;
      SavedAsWrittenIsStored(before, rank0, t, now);
    }

    /** `deleteMany(filter)` / `deleteOne(filter)`: drop the matching documents, keep the rest in order. */
    method DeleteWhere(matches: Topic -> bool)
      requires Valid()
      modifies this
      ensures Valid() && rank == old(rank)
      ensures docs == Filter(old(docs), (d: Topic) => !matches(d))
    {
      FilterKeepsForm(docs, rank, (d: Topic) => !matches(d));
      docs := Filter(docs, (d: Topic) => !matches(d));
    }
  }

  /**
   * After the corrected save, the saved document is stored exactly as `save()` leaves it in
   * memory: the walk starts at its parent, and every topic it reaches ranks above the document.
   */
  lemma SavedKeepsContent(before: seq<Topic>, rank: map<Id, nat>, t: Topic, now: int)
    requires UniqueIds(before) && WellFormed(Write(before, t, now), rank)
    ensures Lookup(SaveFixed(before, rank, t, now), t.id) == Some(AfterSave(before, t, now))
  {
    var written := Write(before, t, now);
    WriteStores(before, t, now);
    if Modified(before, t) {
      var w := AfterSave(before, t, now);
      var k :| 0 <= k < |written| && written[k] == w;
      forall q | t.parentId.Some? && Lookup(written, t.parentId.value) == Some(q)
        ensures rank[q.id] > rank[t.id]
      {
        assert w.parentId == Some(q.id);
      }
      ChainIdsAbove(written, rank, t.parentId, rank[t.id]);
      HookFixedEffect(written, rank, t.parentId, now);
      HookFixedKeepsForm(written, rank, t.parentId, now);
      var after := SaveFixed(before, rank, t, now);
      assert after[k] == w;
      LookupUnique(after, after[k]);
    }
  }

  /** After the save as written, the saved document is stored as `save()` leaves it in memory: its write lands last. */
  lemma SavedAsWrittenIsStored(before: seq<Topic>, rank: map<Id, nat>, t: Topic, now: int)
    requires WellFormed(before, rank) && Placeable(before, t) && SchemaValid(t)
    ensures Lookup(Cascade.SaveAsWritten(before, rank, t, now), t.id) == Some(AfterSave(before, t, now))
  {
    var hooked := if Modified(before, t) then HookAsWritten(before, rank, t.parentId, now) else before;
    HookAsWrittenKeepsForm(before, rank, t.parentId, now);
    SaveAsWrittenStep(before, hooked, rank, t, now);
    if Lookup(before, t.id) != Some(t) {
      UpsertUnique(hooked, t.(updatedAt := now));
    }
  }

  /** The write that ends the as-written save lands on a well-formed collection and keeps it so. */
  lemma SaveAsWrittenStep(before: seq<Topic>, hooked: seq<Topic>, rank: map<Id, nat>, t: Topic, now: int)
    requires WellFormed(before, rank) && Placeable(before, t) && SchemaValid(t)
    requires hooked == if Modified(before, t) then HookAsWritten(before, rank, t.parentId, now) else before
    ensures Cascade.SaveAsWritten(before, rank, t, now)
            == if Lookup(before, t.id) == Some(t) then hooked else Upsert(hooked, t.(updatedAt := now))
    ensures Lookup(before, t.id) == Some(t) ==> hooked == before
    ensures Lookup(before, t.id) != Some(t) ==>
              WellFormed(Upsert(hooked, t.(updatedAt := now)), RankAfterWrite(hooked, rank, t))
  {
    HookAsWrittenKeepsForm(before, rank, t.parentId, now);
    if !Modified(before, t) {
      SameShapeRefl(before);
    }
    PlaceableSameShape(before, hooked, t);
    if Lookup(before, t.id) != Some(t) {
      UpsertKeepsForm(hooked, rank, t.(updatedAt := now));
    }
  }

  lemma PlaceableSameShape(d1: seq<Topic>, d2: seq<Topic>, t: Topic)
    requires SameShape(d1, d2) && Placeable(d1, t)
    ensures Placeable(d2, t)
  {
    LookupSameShape(d1, d2, t.id);
    forall d | d in d2 ensures Lookup(d1, t.id).None? ==> d.parentId != Some(t.id) {
      var i :| 0 <= i < |d2| && d2[i] == d;
      assert Shape(d1[i]) == Shape(d2[i]);
    }
  }

  /** Dropping documents keeps the collection well formed. */
  lemma {:induction false} FilterKeepsForm(docs: seq<Topic>, rank: map<Id, nat>, keep: Topic -> bool)
    requires WellFormed(docs, rank)
    ensures WellFormed(Filter(docs, keep), rank)
  {
    FilterUnique(docs, keep);
  }

  lemma {:induction false} FilterUnique(docs: seq<Topic>, keep: Topic -> bool)
    requires UniqueIds(docs)
    ensures UniqueIds(Filter(docs, keep))
  {
    if docs != [] {
      assert UniqueIds(docs[1..]) by {
        forall i, j | 0 <= i < |docs[1..]| && 0 <= j < |docs[1..]| && docs[1..][i].id == docs[1..][j].id
          ensures i == j
        {
          assert docs[i + 1].id == docs[j + 1].id;
        }
      }
      FilterUnique(docs[1..], keep);
      var rest := Filter(docs[1..], keep);
      forall u | u in rest ensures u.id != docs[0].id {
        var k :| 0 <= k < |docs[1..]| && docs[1..][k] == u;
        assert docs[k + 1] == u;
      }
    }
  }
}
