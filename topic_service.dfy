/**
 * The topic service: roadmap listings and lookups as queries over the collection, and
 * roadmap creation, update and deletion on the mutable collection.
 */
module TopicService {
  import opened Common
  import opened Topics
  import opened Collection
  import opened Rollup
  import opened Cascade
  import opened TopicModel
  import opened ErrorHandler

  /** The error a failed validation throws out of `save()`. */
  const ValidationFailed: ErrorObject := ErrorObject("ValidationError", "Topic validation failed", 0, NoData, 0, [], [])

  const RoadmapNotFound: ErrorObject := NewApiError(404, "Roadmap not found")

  predicate IsRootRoadmap(t: Topic)
  {
    t.kind == ROADMAP && t.parentId.None?
  }

  /** Sort key of `sort({ updatedAt: -1 })`. */
  function NewestFirst(t: Topic): int
  {
    -t.updatedAt
  }

  /** Sort key of `sort({ createdAt: 1 })`. */
  function OldestFirst(t: Topic): int
  {
    t.createdAt
  }

  /** `getUserRoadmaps`: the caller's root roadmaps, most recently updated first. */
  function UserRoadmaps(docs: seq<Topic>, userId: Id): (r: seq<Topic>)
    ensures forall t :: t in r <==> t in docs && t.ownerId == userId && IsRootRoadmap(t)
    ensures SortedBy(r, NewestFirst)
    ensures multiset(r) == multiset(Filter(docs, (t: Topic) => t.ownerId == userId && IsRootRoadmap(t)))
  {
    SortBy(Filter(docs, (t: Topic) => t.ownerId == userId && IsRootRoadmap(t)), NewestFirst)
  }

  /** `getAllRoadmaps`: every root roadmap of every owner, public or not, most recently updated first. */
  function AllRoadmaps(docs: seq<Topic>): (r: seq<Topic>)
    ensures forall t :: t in r <==> t in docs && IsRootRoadmap(t)
    ensures SortedBy(r, NewestFirst)
    ensures multiset(r) == multiset(Filter(docs, IsRootRoadmap))
  {
    SortBy(Filter(docs, IsRootRoadmap), NewestFirst)
  }

  /** `getRoadmapById`: the roadmap with that id owned by the caller, or the 404 ApiError. */
  function RoadmapById(docs: seq<Topic>, roadmapId: Id, userId: Id): (r: Result<Topic, ErrorObject>)
    ensures r.Ok? <==> exists t :: t in docs && t.id == roadmapId && t.ownerId == userId && t.kind == ROADMAP
    ensures r.Ok? ==> r.value in docs && r.value.id == roadmapId && r.value.ownerId == userId && r.value.kind == ROADMAP
    ensures r.Err? ==> r.error == RoadmapNotFound
  {
    match FindOne(docs, (t: Topic) => t.id == roadmapId && t.ownerId == userId && t.kind == ROADMAP)
    case None => Err(RoadmapNotFound)
    case Some(t) => Ok(t)
  }

  /** `find({ parentId: id, ownerId: userId })`: the caller's direct children of a topic, in natural order. */
  function OwnedChildren(docs: seq<Topic>, id: Id, userId: Id): seq<Topic>
  {
    Filter(docs, (t: Topic) => t.parentId == Some(id) && t.ownerId == userId)
  }

  /**
   * `getRoadmapSubtopics`: the 404 of `getRoadmapById` when the caller owns no such roadmap;
   * otherwise the caller's direct children of it, oldest first.
   */
  function RoadmapSubtopics(docs: seq<Topic>, roadmapId: Id, userId: Id): (r: Result<seq<Topic>, ErrorObject>)
    ensures RoadmapById(docs, roadmapId, userId).Err? <==> r.Err?
    ensures r.Err? ==> r.error == RoadmapNotFound
    ensures r.Ok? ==> forall t :: t in r.value <==> t in docs && t.parentId == Some(roadmapId) && t.ownerId == userId
    ensures r.Ok? ==> SortedBy(r.value, OldestFirst)
    ensures r.Ok? ==> multiset(r.value) == multiset(OwnedChildren(docs, roadmapId, userId))
  {
    var found := RoadmapById(docs, roadmapId, userId);
    if found.Err? then Err(found.error)
    else Ok(SortBy(OwnedChildren(docs, roadmapId, userId), OldestFirst))
  }

  // ---------------------------------------------------------------------------
  // Creation.

  /** Paths that place a document in the tree and with an owner. */
  predicate Structural(key: string)
  {
    KeyOf(key) in {Type, ParentId, OwnerId}
  }

  /**
   * The entries of a body whose key is not a structural path: what survives the spread of
   * `createRoadmap` under its own three keys, and what the corrected update applies.
   */
  function ContentOnly(data: Body): (r: Body)
    ensures forall i :: 0 <= i < |r| ==> !Structural(r[i].0)
    ensures forall e :: e in r <==> e in data && !Structural(e.0)
  {
    if data == [] then []
    else
      var n := |data| - 1;
      ContentOnly(data[..n]) + (if Structural(data[n].0) then [] else [data[n]])
  }

  /**
   * `{ ...roadmapData, type: 'roadmap', ownerId: userId, parentId: null }`: the spread's own
   * values under those three keys are replaced before anything is cast.
   */
  function RoadmapData(data: Body, userId: Id): Body
  {
    ContentOnly(data) + [("type", Str(ROADMAP))] + [("ownerId", Num(userId))] + [("parentId", Null)]
  }

  /** What `RoadmapData` assigns last to type, owner and parent, and which casts it needs. */
  lemma RoadmapDataFacts(data: Body, userId: Id)
    ensures var full := RoadmapData(data, userId);
      && LastSet(full, Type) == Some(Str(ROADMAP))
      && LastSet(full, OwnerId) == Some(Num(userId))
      && LastSet(full, ParentId) == Some(Null)
      && (AllCast(full) <==> AllCast(ContentOnly(data)))
  {
    KeyOfNames();
    var content := ContentOnly(data);
    var e1, e2, e3 := ("type", Str(ROADMAP)), ("ownerId", Num(userId)), ("parentId", Null);
    var d1 := content + [e1];
    var d2 := d1 + [e2];
    RoadmapDataType(content, d1, d2, e1, e2, e3);
    LastSetSnoc(d1, e2, OwnerId);
    LastSetSnoc(d2, e3, OwnerId);
    LastSetSnoc(d2, e3, ParentId);
    RoadmapDataCasts(content, d1, d2, e1, e2, e3);
  }

  lemma RoadmapDataType(data: Body, d1: Body, d2: Body, e1: (string, Value), e2: (string, Value), e3: (string, Value))
    requires d1 == data + [e1] && d2 == d1 + [e2]
    requires KeyOf(e1.0) == Type && e1.1 == Str(ROADMAP) && KeyOf(e2.0) != Type && KeyOf(e3.0) != Type
    ensures LastSet(d2 + [e3], Type) == Some(Str(ROADMAP))
  {
    LastSetSnoc(data, e1, Type);
    LastSetSnoc(d1, e2, Type);
    LastSetSnoc(d2, e3, Type);
  }

  lemma RoadmapDataCasts(data: Body, d1: Body, d2: Body, e1: (string, Value), e2: (string, Value), e3: (string, Value))
    requires d1 == data + [e1] && d2 == d1 + [e2]
    requires Cast(KeyOf(e1.0), e1.1).Some? && Cast(KeyOf(e2.0), e2.1).Some? && Cast(KeyOf(e3.0), e3.1).Some?
    ensures AllCast(d2 + [e3]) <==> AllCast(data)
  {
    AllCastSnoc(data, e1);
    AllCastSnoc(d1, e2);
    AllCastSnoc(d2, e3);
  }

  /**
   * The roadmap document `createRoadmap` builds: a root roadmap of the caller, whatever `data`
   * says; it fails exactly when a value of `data` under another key fails its cast.
   */
  function RoadmapDoc(id: Id, data: Body, userId: Id, now: int): (r: Option<Topic>)
    ensures r.Some? ==> r.value.kind == ROADMAP && r.value.ownerId == userId && r.value.parentId.None?
    ensures r.Some? ==> r.value.id == id && r.value.createdAt == now && r.value.updatedAt == now
    ensures r.Some? <==> AllCast(ContentOnly(data))
  {
    RoadmapDataFacts(data, userId);
    var r := Build(id, RoadmapData(data, userId), now);
    if r.Some? then RootFields(id, RoadmapData(data, userId), userId, now); r else r
  }

  /** A built document whose body last assigns type `roadmap`, the owner and a `null` parent. */
  lemma RootFields(id: Id, full: Body, userId: Id, now: int)
    requires Build(id, full, now).Some?
    requires LastSet(full, Type) == Some(Str(ROADMAP))
    requires LastSet(full, OwnerId) == Some(Num(userId))
    requires LastSet(full, ParentId) == Some(Null)
    ensures var t := Build(id, full, now).value;
      t.kind == ROADMAP && t.ownerId == userId && t.parentId.None?
  {
    var t := Build(id, full, now).value;
    assert Path(t, Type) == Str(ROADMAP);
    assert Path(t, OwnerId) == Num(userId);
    assert Path(t, ParentId) == Null;
  }

  /**
   * `createRoadmap`: build the roadmap and save it; a validation failure is thrown. A new
   * root has no parent to recompute, so the save only appends it.
   */
  method CreateRoadmap(store: TopicCollection, data: Body, userId: Id, now: int) returns (r: Result<Topic, ErrorObject>)
    requires store.Valid()
    modifies store
    ensures store.Valid()
    ensures var d := RoadmapDoc(NewId(old(store.docs), None), data, userId, now);
      r.Ok? <==> d.Some? && SchemaValid(d.value)
    ensures r.Ok? ==> Some(r.value) == RoadmapDoc(NewId(old(store.docs), None), data, userId, now)
    ensures r.Ok? ==> IsRootRoadmap(r.value) && r.value.ownerId == userId
    ensures r.Ok? ==> store.docs == old(store.docs) + [r.value]
    ensures r.Err? ==> r.error == ValidationFailed && store.docs == old(store.docs)
  {
    var id := NewId(store.docs, None);
    var doc := RoadmapDoc(id, data, userId, now);
    if doc.None? {
      return Err(ValidationFailed);
    }
    var ok := store.SaveAsWritten(doc.value, now);
    if !ok {
      return Err(ValidationFailed);
    }
    r := Ok(doc.value);
  }

  // ---------------------------------------------------------------------------
  // Update.

  /**
   * The corrected roadmap patch: every content path assigned by `data` takes the cast of
   * its last assigned value, and type, parent and owner are kept.
   */
  function PatchRoadmap(t: Topic, data: Body): (r: Option<Topic>)
    ensures r.Some? ==> r.value.kind == t.kind && r.value.parentId == t.parentId && r.value.ownerId == t.ownerId
    ensures r.Some? ==> r.value.id == t.id && r.value.createdAt == t.createdAt && r.value.updatedAt == t.updatedAt
  {
    var content := ContentOnly(data);
    var r := ApplyAll(t, content);
    if r.Some? then PatchKeepsPlace(t, data); r else r
  }

  /** The corrected patch never assigns type, parent or owner. */
  lemma PatchKeepsPlace(t: Topic, data: Body)
    requires ApplyAll(t, ContentOnly(data)).Some?
    ensures var u := ApplyAll(t, ContentOnly(data)).value;
      u.kind == t.kind && u.parentId == t.parentId && u.ownerId == t.ownerId
  {
    var content := ContentOnly(data);
    var u := ApplyAll(t, content).value;
    ApplyAllKeeps(t, content, Type);
    ApplyAllKeeps(t, content, ParentId);
    ApplyAllKeeps(t, content, OwnerId);
    assert Path(u, Type) == Path(t, Type);
    assert Path(u, ParentId) == Path(t, ParentId);
  }

  /** A patched stored roadmap can be saved in place: it keeps its id and its parent. */
  lemma PatchedPlaceable(docs: seq<Topic>, t: Topic, data: Body)
    requires UniqueIds(docs) && t in docs && PatchRoadmap(t, data).Some?
    ensures Lookup(docs, t.id) == Some(t)
    ensures Placeable(docs, PatchRoadmap(t, data).value)
  {
    LookupUnique(docs, t);
  }

  /**
   * The assignment loop of `updateRoadmap`: each defined key of `data`, in order, set on the
   * roadmap; `None` once a value fails its cast.
   */
  method AssignAll(t: Topic, data: Body) returns (r: Option<Topic>)
    ensures r == ApplyAll(t, data)
  {
    var roadmap := t;
    var castFailed := false;
    for i := 0 to |data|
      invariant castFailed <==> ApplyAll(t, data[..i]).None?
      invariant !castFailed ==> ApplyAll(t, data[..i]) == Some(roadmap)
    {
      assert data[..i + 1][..i] == data[..i];
      var key := data[i].0;
      var value := data[i].1;
      if value != Undefined && !castFailed {
        var stepped := SetPath(roadmap, key, value);
        if stepped.None? {
          castFailed := true;
        } else {
          roadmap := stepped.value;
        }
      }
    }
    assert data[..|data|] == data;
    r := if castFailed then None else Some(roadmap);
  }

  /**
   * `updateRoadmap`, corrected, as a function of the collection: the 404 of
   * `getRoadmapById`; a validation error when a value fails its cast or the patched
   * roadmap its schema; otherwise the patched roadmap as saved, and the collection after
   * the corrected `save()`.
   */
  ghost function UpdateSpec(docs: seq<Topic>, rank: map<Id, nat>, roadmapId: Id, data: Body, userId: Id, now: int)
    : (r: (Result<Topic, ErrorObject>, seq<Topic>))
    requires WellFormed(docs, rank)
  {
    match RoadmapById(docs, roadmapId, userId)
    case Err(e) => (Err(e), docs)
    case Ok(found) =>
      match PatchRoadmap(found, data)
      case None => (Err(ValidationFailed), docs)
      case Some(t) =>
        if !SchemaValid(t) then (Err(ValidationFailed), docs)
        else
          PatchedPlaceable(docs, found, data);
          WriteKeepsForm(docs, rank, t, now);
          (Ok(AfterSave(docs, t, now)), SaveFixed(docs, rank, t, now))
  }

  /**
   * The corrected update changes content only: a successful update leaves the roadmap
   * stored, of the same type, under the same parent and owner; a failed one changes nothing.
   */
  lemma UpdateKeepsPlace(docs: seq<Topic>, rank: map<Id, nat>, roadmapId: Id, data: Body, userId: Id, now: int)
    requires WellFormed(docs, rank)
    ensures UpdateSpec(docs, rank, roadmapId, data, userId, now).0.Err? ==>
              UpdateSpec(docs, rank, roadmapId, data, userId, now).1 == docs
    ensures UpdateSpec(docs, rank, roadmapId, data, userId, now).0.Ok? ==>
              Lookup(docs, roadmapId).Some? && Lookup(UpdateSpec(docs, rank, roadmapId, data, userId, now).1, roadmapId).Some?
    ensures UpdateSpec(docs, rank, roadmapId, data, userId, now).0.Ok? ==>
              var before := Lookup(docs, roadmapId).value;
              var after := Lookup(UpdateSpec(docs, rank, roadmapId, data, userId, now).1, roadmapId).value;
              after.kind == before.kind == ROADMAP && after.parentId == before.parentId
              && after.ownerId == before.ownerId == userId
  {
    var found := RoadmapById(docs, roadmapId, userId);
    if found.Ok? && PatchRoadmap(found.value, data).Some? {
      var t := PatchRoadmap(found.value, data).value;
      PatchedPlaceable(docs, found.value, data);
      if SchemaValid(t) {
        WriteKeepsForm(docs, rank, t, now);
        SavedKeepsContent(docs, rank, t, now);
      }
    }
  }

  /**
   * `updateRoadmap`, corrected: look the roadmap up, assign the content keys of `data`,
   * save it through the corrected save. Type, parent and owner of the stored roadmap cannot
   * change.
   */
  method UpdateRoadmap(store: TopicCollection, roadmapId: Id, data: Body, userId: Id, now: int)
    returns (r: Result<Topic, ErrorObject>)
    requires store.Valid()
    modifies store
    ensures store.Valid()
    ensures (r, store.docs) == UpdateSpec(old(store.docs), old(store.rank), roadmapId, data, userId, now)
  {
    var found := RoadmapById(store.docs, roadmapId, userId);
    if found.Err? {
      return Err(found.error);
    }
    var patched := AssignAll(found.value, ContentOnly(data));
    if patched.None? {
      return Err(ValidationFailed);
    }
    var roadmap := patched.value;
    PatchedPlaceable(store.docs, found.value, data);
    var saved := AfterSave(store.docs, roadmap, now);
    var ok := store.Save(roadmap, now);
    if !ok {
      return Err(ValidationFailed);
    }
    r := Ok(saved);
  }

  /**
   * `updateRoadmap` as written: every defined key of `data` is assigned, `type`,
   * `parentId` and `ownerId` included, and the save is the one whose hook runs before the
   * write. Only the owner check of `getRoadmapById` guards the assignment.
   */
  ghost function UpdateAsWritten(docs: seq<Topic>, rank: map<Id, nat>, roadmapId: Id, data: Body, userId: Id, now: int)
    : (r: (Result<Topic, ErrorObject>, seq<Topic>))
    requires Ranked(docs, rank)
    ensures r.0.Err? ==> r.1 == docs
    ensures r.0.Ok? ==> RoadmapById(docs, roadmapId, userId).Ok? && ApplyAll(RoadmapById(docs, roadmapId, userId).value, data).Some?
  {
    match RoadmapById(docs, roadmapId, userId)
    case Err(e) => (Err(e), docs)
    case Ok(found) =>
      match ApplyAll(found, data)
      case None => (Err(ValidationFailed), docs)
      case Some(t) =>
        if !SchemaValid(t) then (Err(ValidationFailed), docs)
        else (Ok(AfterSave(docs, t, now)), Cascade.SaveAsWritten(docs, rank, t, now))
  }

  /** The update as written would give the roadmap another parent. */
  predicate Moves(docs: seq<Topic>, roadmapId: Id, data: Body, userId: Id)
  {
    match RoadmapById(docs, roadmapId, userId)
    case Err(_) => false
    case Ok(found) => ApplyAll(found, data).Some? && ApplyAll(found, data).value.parentId != found.parentId
  }

  /**
   * Where the model departs from `updateRoadmap` as written: a body that moves the roadmap
   * to another parent. The source saves the move, which can close a cycle; the collection
   * of the model keeps its parents acyclic, so the move is refused.
   */
  const MoveRefused: ErrorObject := ErrorObject("Error", "Moving a roadmap is refused", 0, NoData, 0, [], [])

  /**
   * `updateRoadmap` as written, on the mutable collection: look the roadmap up, assign every
   * defined key of `data`, `type` and `ownerId` included, and save it through the save as
   * written. Any update that keeps the parent ends exactly as `UpdateAsWritten` says; one
   * that moves the roadmap is refused and changes nothing.
   */
  method UpdateRoadmapAsWritten(store: TopicCollection, roadmapId: Id, data: Body, userId: Id, now: int)
    returns (r: Result<Topic, ErrorObject>)
    requires store.Valid()
    modifies store
    ensures store.Valid()
    ensures !Moves(old(store.docs), roadmapId, data, userId) ==>
              (r, store.docs) == UpdateAsWritten(old(store.docs), old(store.rank), roadmapId, data, userId, now)
    ensures Moves(old(store.docs), roadmapId, data, userId) ==> r == Err(MoveRefused) && store.docs == old(store.docs)
  {
    var found := RoadmapById(store.docs, roadmapId, userId);
    if found.Err? {
      return Err(found.error);
    }
    var patched := AssignAll(found.value, data);
    if patched.None? {
      return Err(ValidationFailed);
    }
    var roadmap := patched.value;
    if roadmap.parentId != found.value.parentId {
      return Err(MoveRefused);
    }
    LookupUnique(store.docs, found.value);
    assert Placeable(store.docs, roadmap);
    var saved := AfterSave(store.docs, roadmap, now);
    var ok := store.SaveAsWritten(roadmap, now);
    if !ok {
      return Err(ValidationFailed);
    }
    r := Ok(saved);
  }

  // ---------------------------------------------------------------------------
  // Deletion.

  /** The collection after `deleteMany({ parentId: id })` and then `deleteOne({ _id: id })`. */
  function WithoutTopic(docs: seq<Topic>, roadmapId: Id): (r: seq<Topic>)
    ensures forall t :: t in r <==> t in docs && t.id != roadmapId && t.parentId != Some(roadmapId)
  {
    Filter(Filter(docs, (d: Topic) => !(d.parentId == Some(roadmapId))), (d: Topic) => !(d.id == roadmapId))
  }

  /**
   * Only the direct children go with the roadmap: a grandchild survives, and the subtopic
   * it refers to is gone.
   */
  lemma DeleteOrphansGrandchildren(docs: seq<Topic>, roadmapId: Id, child: Topic, grandchild: Topic)
    requires UniqueIds(docs) && child in docs && grandchild in docs
    requires child.parentId == Some(roadmapId) && grandchild.parentId == Some(child.id)
    requires grandchild.id != roadmapId && child.id != roadmapId
    ensures grandchild in WithoutTopic(docs, roadmapId)
    ensures Lookup(WithoutTopic(docs, roadmapId), child.id).None?
  {
    var after := WithoutTopic(docs, roadmapId);
    forall t | t in after ensures t.id != child.id {
      if t.id == child.id {
        LookupUnique(docs, t);
        LookupUnique(docs, child);
      }
    }
  }

  /**
   * `deleteRoadmap`: the 404 of `getRoadmapById`; otherwise the roadmap's direct children
   * are deleted, then the roadmap, and the answer is `true`.
   */
  method DeleteRoadmap(store: TopicCollection, roadmapId: Id, userId: Id) returns (r: Result<bool, ErrorObject>)
    requires store.Valid()
    modifies store
    ensures store.Valid()
    ensures r.Err? <==> RoadmapById(old(store.docs), roadmapId, userId).Err?
    ensures r.Err? ==> r.error == RoadmapNotFound && store.docs == old(store.docs)
    ensures r.Ok? ==> r.value && store.docs == WithoutTopic(old(store.docs), roadmapId)
  {
    var found := RoadmapById(store.docs, roadmapId, userId);
    if found.Err? {
      return Err(found.error);
    }
    ghost var before := store.docs;
    var isChild := (d: Topic) => d.parentId == Some(roadmapId);
    var isRoadmap := (d: Topic) => d.id == roadmapId;
    store.DeleteWhere(isChild);
    FilterSamePredicate(before, (d: Topic) => !isChild(d), (d: Topic) => !(d.parentId == Some(roadmapId)));
    ghost var middle := store.docs;
    store.DeleteWhere(isRoadmap);
    FilterSamePredicate(middle, (d: Topic) => !isRoadmap(d), (d: Topic) => !(d.id == roadmapId));
    r := Ok(true);
  }
}
