/**
 * A three-level chain R <- P <- T (roadmap, subtopic, task), every topic at progress 0,
 * and a save that sets the task to 100. Saved as written, the subtopic keeps 0 although
 * its computed progress is now 100; saved through the corrected path, both ancestors
 * become 100.
 */
module CascadeExample {
  import opened Common
  import opened Topics
  import opened Collection
  import opened Rollup
  import opened Cascade

  const R := Topic(1, ROADMAP, "R", "", None, 9, 0, 1, PENDING, true, 0, 0)
  const P := Topic(2, SUBTOPIC, "P", "", Some(1), 9, 0, 1, PENDING, true, 0, 0)
  const T := Topic(3, TASK, "T", "", Some(2), 9, 0, 1, PENDING, true, 0, 0)
  const T100 := T.(progress := 100)
  const Chain := [R, P, T]
  const ChainRank := map[1 := 2, 2 := 1, 3 := 0]

  lemma ChainWellFormed()
    ensures WellFormed(Chain, ChainRank)
  {
    assert forall t :: t in Chain ==> t == R || t == P || t == T;
  }

  /** Unfolds `ChildrenOf` one document at a time. */
  lemma ChildrenOfCons(d: seq<Topic>, id: Id)
    requires d != []
    ensures ChildrenOf(d, id) == (if d[0].parentId == Some(id) then [d[0]] else []) + ChildrenOf(d[1..], id)
  {
  }

  /** The only child of P in a chain R, p, t (p under R, t under P) is t. */
  lemma ChildrenOfP(p: Topic, t: Topic)
    requires p.parentId == Some(1) && t.parentId == Some(2)
    ensures ChildrenOf([R, p, t], 2) == [t]
  {
    var d := [R, p, t];
    assert d[1..] == [p, t] && d[1..][1..] == [t] && d[1..][1..][1..] == [];
    ChildrenOfCons(d, 2);
    ChildrenOfCons(d[1..], 2);
    ChildrenOfCons(d[1..][1..], 2);
  }

  /** A topic whose only child has weight 1 has exactly that child's computed progress. */
  lemma OnlyChildProgress(docs: seq<Topic>, rank: map<Id, nat>, p: Topic, c: Topic)
    requires Ranked(docs, rank) && p in docs && c in docs
    requires p.kind != TASK && ChildrenOf(docs, p.id) == [c]
    requires c.weight == 1
    ensures Progress(docs, rank, p) == Progress(docs, rank, c)
  {
    assert c.parentId == Some(p.id);
    assert [c][..0] == [];
    assert TotalWeight([c]) == 1;
    assert WeightedSum(docs, rank, rank[p.id], [c]) == Progress(docs, rank, c);
    assert RoundHalfUp(Progress(docs, rank, c), 1) == Progress(docs, rank, c);
  }

  lemma StaleBefore()
    ensures Ranked(Chain, ChainRank) && Progress(Chain, ChainRank, P) == 0
  {
    ChainWellFormed();
    ChildrenOfP(P, T);
    OnlyChildProgress(Chain, ChainRank, P, T);
  }

  lemma HookSeesNothingToDo()
    ensures Ranked(Chain, ChainRank) && HookAsWritten(Chain, ChainRank, Some(2), 5) == Chain
  {
    StaleBefore();
    assert Lookup(Chain, 2) == Some(P) by {
      assert Chain[1..] == [P, T];
    }
  }

  /** The store after the as-written save of T at 100. */
  const AfterAsWritten := [R, P, T100.(updatedAt := 5)]

  lemma AfterAsWrittenRanked()
    ensures Ranked(AfterAsWritten, ChainRank)
  {
    assert forall t :: t in AfterAsWritten ==> t == R || t == P || t == T100.(updatedAt := 5);
  }

  lemma AsWrittenResult()
    ensures SaveAsWritten(Chain, ChainRank, T100, 5) == AfterAsWritten
  {
    HookSeesNothingToDo();
    WriteTask();
    assert T100.id == 3 && T100.parentId == Some(2) && T.progress != T100.progress;
    assert Lookup(Chain, T100.id) != Some(T100);
    assert Modified(Chain, T100);
  }

  lemma ParentAfterAsWritten()
    ensures Ranked(AfterAsWritten, ChainRank) && P in AfterAsWritten
    ensures Progress(AfterAsWritten, ChainRank, P) == 100
  {
    AfterAsWrittenRanked();
    var t := T100.(updatedAt := 5);
    ChildrenOfP(P, t);
    OnlyChildProgress(AfterAsWritten, ChainRank, P, t);
  }

  /** As written: the parent is recomputed over the store that still holds T at 0, so P stays stale. */
  lemma AsWrittenLeavesParentStale()
    ensures var after := SaveAsWritten(Chain, ChainRank, T100, 5);
      && Ranked(after, ChainRank) && Lookup(after, P.id) == Some(P) && P.progress == 0
      && Progress(after, ChainRank, P) == 100
  {
    AsWrittenResult();
    ParentAfterAsWritten();
    assert Lookup(AfterAsWritten, 2) == Some(P) by {
      assert AfterAsWritten[1..][0] == P;
    }
  }

  lemma AfterAsWrittenWellFormed()
    ensures WellFormed(AfterAsWritten, ChainRank) && Write(Chain, T100, 5) == AfterAsWritten
  {
    AfterAsWrittenRanked();
    WriteTask();
    AfterAsWrittenValid();
  }

  /** Both saves write T at 100 over the stored T, which is the third document of the chain. */
  lemma WriteTask()
    ensures Lookup(Chain, 3) == Some(T)
    ensures Write(Chain, T100, 5) == Upsert(Chain, T100.(updatedAt := 5)) == AfterAsWritten
  {
    assert Lookup(Chain, 3) == Some(T) by {
      assert Chain[1..] == [P, T] && Chain[1..][1..] == [T];
    }
    var r := Replace(Chain, T100.(updatedAt := 5));
    assert r[0] == R && r[1] == P && r[2] == T100.(updatedAt := 5);
  }

  lemma AfterAsWrittenValid()
    ensures UniqueIds(AfterAsWritten)
    ensures forall t :: t in AfterAsWritten ==> SchemaValid(t)
  {
    var d := AfterAsWritten;
    assert d[0].id == 1 && d[1].id == 2 && d[2].id == 3;
    assert SchemaValid(R) && SchemaValid(P) && SchemaValid(T100.(updatedAt := 5));
    assert forall t :: t in d ==> t == R || t == P || t == T100.(updatedAt := 5);
  }

  /** The store after the corrected save of T at 100: both ancestors recomputed and stamped. */
  const P100 := Recomputed(P, 100, 5)
  const R100 := Recomputed(R, 100, 5)
  const AfterP := [R, P100, T100.(updatedAt := 5)]
  const AfterFixed := [R100, P100, T100.(updatedAt := 5)]

  /** The only child of R in a chain R, p, t is the subtopic p. */
  lemma ChildrenOfR(r: Topic, p: Topic, t: Topic)
    requires r.parentId.None? && p.parentId == Some(1) && t.parentId == Some(2)
    ensures ChildrenOf([r, p, t], 1) == [p]
  {
    var d := [r, p, t];
    assert d[1..] == [p, t] && d[1..][1..] == [t] && d[1..][1..][1..] == [];
    ChildrenOfCons(d, 1);
    ChildrenOfCons(d[1..], 1);
    ChildrenOfCons(d[1..][1..], 1);
  }

  /** Writing the recomputed P replaces the second document. */
  lemma UpsertSubtopic()
    ensures Lookup(AfterAsWritten, 2) == Some(P)
    ensures Upsert(AfterAsWritten, P100) == AfterP
  {
    assert Lookup(AfterAsWritten, 2) == Some(P) by {
      assert AfterAsWritten[1..][0] == P;
    }
    var u := Replace(AfterAsWritten, P100);
    assert u[0] == R && u[1] == P100 && u[2] == T100.(updatedAt := 5);
  }

  /** First step of the corrected walk: P is recomputed over the written store and written. */
  lemma FixedFirstStep()
    ensures WellFormed(AfterAsWritten, ChainRank) && P in AfterAsWritten
    ensures Progress(AfterAsWritten, ChainRank, P) == 100
    ensures WellFormed(AfterP, ChainRank)
    ensures HookFixed(AfterAsWritten, ChainRank, Some(P.id), 5) == HookFixed(AfterP, ChainRank, Some(R.id), 5)
  {
    AfterAsWrittenWellFormed();
    ParentAfterAsWritten();
    UpsertSubtopic();
    HookFixedStep(AfterAsWritten, ChainRank, P, 5);
  }

  /** Writing the recomputed R replaces the first document. */
  lemma UpsertRoadmap()
    ensures R in AfterP && P100 in AfterP && T100.(updatedAt := 5) in AfterP
    ensures Lookup(AfterP, 1) == Some(R)
    ensures Upsert(AfterP, R100) == AfterFixed
  {
    var t := T100.(updatedAt := 5);
    assert AfterP[0] == R && AfterP[1] == P100 && AfterP[2] == t;
    var u := Replace(AfterP, R100);
    assert u[0] == R100 && u[1] == P100 && u[2] == t;
  }

  /** Over AfterP, P's only child T holds 100, and R's only child is P. */
  lemma RoadmapAfterP()
    requires Ranked(AfterP, ChainRank)
    ensures R in AfterP && Progress(AfterP, ChainRank, R) == 100
  {
    var t := T100.(updatedAt := 5);
    UpsertRoadmap();
    ChildrenOfR(R, P100, t);
    ChildrenOfP(P100, t);
    OnlyChildProgress(AfterP, ChainRank, P100, t);
    OnlyChildProgress(AfterP, ChainRank, R, P100);
  }

  /** Second step: R is recomputed to 100, and R has no parent, so the walk stops. */
  lemma FixedSecondStep()
    requires WellFormed(AfterP, ChainRank)
    ensures R in AfterP && Progress(AfterP, ChainRank, R) == 100
    ensures HookFixed(AfterP, ChainRank, Some(R.id), 5) == AfterFixed
  {
    RoadmapAfterP();
    UpsertRoadmap();
    HookFixedStep(AfterP, ChainRank, R, 5);
  }

  /**
   * Corrected: the task is written first, so P is recomputed from T at 100, and the walk
   * goes on to R, which is recomputed from P at 100.
   */
  lemma FixedRepairsParent()
    ensures WellFormed(Write(Chain, T100, 5), ChainRank)
    ensures var after := SaveFixed(Chain, ChainRank, T100, 5);
      && Lookup(after, P.id).Some? && Lookup(after, P.id).value.progress == 100
      && Lookup(after, R.id).Some? && Lookup(after, R.id).value.progress == 100
  {
    AfterAsWrittenWellFormed();
    assert Modified(Chain, T100);
    assert SaveFixed(Chain, ChainRank, T100, 5) == HookFixed(AfterAsWritten, ChainRank, Some(P.id), 5);
    FixedFirstStep();
    FixedSecondStep();
    assert Lookup(AfterFixed, 1) == Some(R100);
    assert Lookup(AfterFixed, 2) == Some(P100) by {
      assert AfterFixed[1..][0] == P100;
    }
  }
}
