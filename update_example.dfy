/**
 * A roadmap M with one subtopic S, and an update of M whose body carries
 * `parentId: S`. Updated as written, M becomes a child of its own child and no ranking of
 * the collection exists any more; through the corrected update the key is skipped and the
 * collection is left as it was.
 */
module UpdateExample {
  import opened Common
  import opened Topics
  import opened Collection
  import opened Rollup
  import opened Cascade
  import opened TopicService

  const M := Topic(1, ROADMAP, "M", "", None, 9, 0, 1, PENDING, true, 0, 0)
  const S := Topic(2, SUBTOPIC, "S", "", Some(1), 9, 0, 1, PENDING, true, 0, 0)
  const Docs := [M, S]
  const DocsRank := map[1 := 1, 2 := 0]
  const Reparent: Body := [("parentId", Num(2))]
  /** M with the parent reference the update body asks for. */
  const Cyclic := M.(parentId := Some(2))

  lemma DocsWellFormed()
    ensures WellFormed(Docs, DocsRank)
  {
    assert forall t :: t in Docs ==> t == M || t == S;
  }

  lemma FindsM()
    ensures RoadmapById(Docs, 1, 9) == Ok(M)
  {
    assert M in Docs;
  }

  lemma AsWrittenPatch()
    ensures ApplyAll(M, Reparent) == Some(Cyclic)
  {
    assert KeyOf("parentId") == ParentId;
    assert Reparent[..0] == [];
  }

  /** Saving `Cyclic` as written: nothing the hook watches changed, so it is a plain write. */
  lemma AsWrittenResult()
    ensures UpdateAsWritten(Docs, DocsRank, 1, Reparent, 9, 5) == (Ok(Cyclic.(updatedAt := 5)), [Cyclic.(updatedAt := 5), S])
  {
    DocsWellFormed();
    FindsM();
    AsWrittenPatch();
    assert !Modified(Docs, Cyclic);
    assert Lookup(Docs, 1) == Some(M);
    assert Upsert(Docs, Cyclic.(updatedAt := 5)) == [Cyclic.(updatedAt := 5), S];
  }

  /** The as-written update succeeds and leaves M and S each the parent of the other. */
  lemma AsWrittenCreatesCycle()
    ensures UpdateAsWritten(Docs, DocsRank, 1, Reparent, 9, 5).0.Ok?
    ensures forall rank :: !Ranked(UpdateAsWritten(Docs, DocsRank, 1, Reparent, 9, 5).1, rank)
  {
    AsWrittenResult();
    forall rank ensures !Ranked([Cyclic.(updatedAt := 5), S], rank) {
      CycleUnranked(rank);
    }
  }

  /** Each of the two documents ranks below the other: no ranking satisfies both. */
  lemma CycleUnranked(rank: map<Id, nat>)
    ensures !Ranked([Cyclic.(updatedAt := 5), S], rank)
  {
    var after := [Cyclic.(updatedAt := 5), S];
    assert after[0] in after && after[1] in after;
  }

  /** The corrected update skips `parentId`: M is saved unchanged and so is the collection. */
  lemma CorrectedIgnoresParent()
    ensures UpdateSpec(Docs, DocsRank, 1, Reparent, 9, 5) == (Ok(M), Docs)
  {
    DocsWellFormed();
    FindsM();
    assert KeyOf("parentId") == ParentId;
    assert ContentOnly(Reparent) == [] by {
      assert Reparent[..0] == [];
    }
    assert PatchRoadmap(M, Reparent) == Some(M);
    assert Lookup(Docs, 1) == Some(M);
  }
}
