/**
 * The topic controller: the decision logic of each request handler, answering with the
 * status code, success flag, message and payload of the JSON envelope. Every error thrown
 * inside a handler, whatever its own status, is answered with a 500 and the handler's
 * message.
 */
module TopicController {
  import opened Common
  import opened Topics
  import opened Collection
  import opened Rollup
  import opened Cascade
  import opened TopicModel
  import opened ErrorHandler
  import opened TopicService

  datatype Payload = NoPayload | OneTopic(topic: Topic) | Topics(topics: seq<Topic>) | Roadmaps(roadmaps: seq<Topic>)

  /** The envelope of `successResponse` (`success` true) and `errorResponse` (`success` false). */
  datatype Response = Response(statusCode: int, success: bool, message: string, data: Payload)

  function Success(statusCode: int, message: string, data: Payload): Response
  {
    Response(statusCode, true, message, data)
  }

  function Failure(statusCode: int, message: string): Response
  {
    Response(statusCode, false, message, NoPayload)
  }

  const TopicNotFound := Failure(404, "Topic not found")

  /** `findOne({ _id: id, ownerId: userId })`. */
  function OwnedTopic(docs: seq<Topic>, id: Id, userId: Id): (r: Option<Topic>)
    ensures r.Some? <==> exists t :: t in docs && t.id == id && t.ownerId == userId
    ensures r.Some? ==> r.value in docs && r.value.id == id && r.value.ownerId == userId
  {
    FindOne(docs, (t: Topic) => t.id == id && t.ownerId == userId)
  }

  // ---------------------------------------------------------------------------
  // Queries.

  /**
   * `getUserRoadmaps`: 400 when the request carries no user id; otherwise the caller's root
   * roadmaps, most recently updated first.
   */
  function GetUserRoadmaps(docs: seq<Topic>, user: Option<Id>): (r: Response)
    ensures user.None? <==> r.statusCode == 400
    ensures user.None? ==> r == Failure(400, "User information missing or invalid")
    ensures user.Some? ==> r.statusCode == 200 && r.data.Roadmaps?
    ensures user.Some? ==> forall t :: t in r.data.roadmaps <==> t in docs && t.ownerId == user.value && IsRootRoadmap(t)
    ensures user.Some? ==> SortedBy(r.data.roadmaps, NewestFirst)
  {
    if user.None? then Failure(400, "User information missing or invalid")
    else Success(200, "Roadmaps successfully retrieved", Roadmaps(UserRoadmaps(docs, user.value)))
  }

  /** `getAllRoadmaps`: every root roadmap of every owner, each once, most recently updated first; `isPublic` is not consulted. */
  function GetAllRoadmaps(docs: seq<Topic>): (r: Response)
    ensures r.statusCode == 200 && r.data.Roadmaps?
    ensures forall t :: t in r.data.roadmaps <==> t in docs && IsRootRoadmap(t)
    ensures SortedBy(r.data.roadmaps, NewestFirst)
    ensures multiset(r.data.roadmaps) == multiset(Filter(docs, IsRootRoadmap))
  {
    Success(200, "All roadmaps successfully retrieved", Roadmaps(AllRoadmaps(docs)))
  }

  /** `getAllTopics`: every topic the caller owns, in natural order. */
  function GetAllTopics(docs: seq<Topic>, userId: Id): (r: Response)
    ensures r.statusCode == 200 && r.data.Topics?
    ensures forall t :: t in r.data.topics <==> t in docs && t.ownerId == userId
  {
    Success(200, "Topics successfully retrieved", Topics(Filter(docs, (t: Topic) => t.ownerId == userId)))
  }

  /** `getTopicById`: the caller's topic with that id, or 404. */
  function GetTopicById(docs: seq<Topic>, id: Id, userId: Id): (r: Response)
    ensures r.statusCode == 404 <==> OwnedTopic(docs, id, userId).None?
    ensures r.statusCode == 404 ==> r == TopicNotFound
    ensures r.statusCode != 404 ==> r.statusCode == 200 && r.data.OneTopic?
    ensures r.statusCode != 404 ==> r.data.topic in docs && r.data.topic.id == id && r.data.topic.ownerId == userId
  {
    match OwnedTopic(docs, id, userId)
    case None => TopicNotFound
    case Some(t) => Success(200, "Topic successfully retrieved", OneTopic(t))
  }

  /**
   * `getChildTopics`: 404 unless the caller owns the topic; for a roadmap the service's
   * subtopics, oldest first; for any other topic the owned direct children in natural
   * order. Both branches answer with the same topics.
   */
  function GetChildTopics(docs: seq<Topic>, id: Id, userId: Id): (r: Response)
    ensures r.statusCode == 404 <==> OwnedTopic(docs, id, userId).None?
    ensures r.statusCode == 404 ==> r == TopicNotFound
    ensures r.statusCode != 404 ==> r.statusCode == 200 && r.data.Topics?
    ensures r.statusCode != 404 ==> forall t :: t in r.data.topics <==> t in docs && t.parentId == Some(id) && t.ownerId == userId
    ensures r.statusCode != 404 ==> multiset(r.data.topics) == multiset(OwnedChildren(docs, id, userId))
    ensures r.statusCode != 404 && OwnedTopic(docs, id, userId).value.kind == ROADMAP ==> SortedBy(r.data.topics, OldestFirst)
    ensures r.statusCode != 404 && OwnedTopic(docs, id, userId).value.kind != ROADMAP ==> r.data.topics == OwnedChildren(docs, id, userId)
  {
    match OwnedTopic(docs, id, userId)
    case None => TopicNotFound
    case Some(topic) =>
      if topic.kind == ROADMAP then
        match RoadmapSubtopics(docs, id, userId)
        case Err(_) => Failure(500, "An error occurred while retrieving child topics")
        case Ok(subtopics) => Success(200, "Roadmap subtopics successfully retrieved", Topics(subtopics))
      else
        Success(200, "Child topics successfully retrieved", Topics(OwnedChildren(docs, id, userId)))
  }

  // ---------------------------------------------------------------------------
  // Creation.

  /** The parent reference a `parentId` value yields once cast (`null` and absent give none). */
  function ParentRef(v: Value): Option<Id>
  {
    if v.Num? && v.n >= 0 then Some(v.n as nat) else None
  }

  /** The object `createTopic` passes to `new Topic(...)` for a non-roadmap. */
  function TopicData(body: Body, userId: Id): Body
  {
    [("type", Get(body, "type")), ("title", Get(body, "title")), ("description", Get(body, "description")),
     ("parentId", Get(body, "parentId")), ("ownerId", Num(userId)),
     ("weight", Or(Get(body, "weight"), Num(1))), ("status", Or(Get(body, "status"), Str(PENDING)))]
  }

  /** The paths `TopicData` assigns, entry by entry. */
  lemma TopicDataKeys(body: Body, userId: Id)
    ensures var data := TopicData(body, userId);
      KeyOf(data[0].0) == Type && KeyOf(data[1].0) == Title && KeyOf(data[2].0) == Description
      && KeyOf(data[3].0) == ParentId && KeyOf(data[4].0) == OwnerId
      && KeyOf(data[5].0) == Weight && KeyOf(data[6].0) == Status
  {
    KeyOfNames();
  }

  /** `TopicData` never assigns the progress. */
  lemma TopicDataNoProgress(body: Body, userId: Id)
    ensures forall i :: 0 <= i < |TopicData(body, userId)| ==> KeyOf(TopicData(body, userId)[i].0) != ProgressKey
  {
    TopicDataKeys(body, userId);
  }

  /**
   * The non-roadmap topic `createTopic` builds: the defaults of a new topic, then the
   * fields of `TopicData`; `None` when one of them fails its cast.
   */
  function NewTopic(id: Id, body: Body, userId: Id, now: int): (r: Option<Topic>)
    ensures r.Some? <==> AllCast(TopicData(body, userId))
    ensures r.Some? ==> r.value.id == id && r.value.createdAt == now && r.value.updatedAt == now
  {
    Build(id, TopicData(body, userId), now)
  }

  /**
   * Where the created topic lands: the caller owns it and its parent is whatever
   * `parentId` the body gives, not checked to exist or to belong to the caller.
   */
  lemma NewTopicPlace(id: Id, body: Body, userId: Id, now: int)
    requires NewTopic(id, body, userId, now).Some?
    ensures var t := NewTopic(id, body, userId, now).value;
      t.ownerId == userId && t.parentId == ParentRef(Get(body, "parentId"))
  {
    NewTopicOwner(id, body, userId, now);
    NewTopicParent(id, body, userId, now);
  }

  lemma NewTopicOwner(id: Id, body: Body, userId: Id, now: int)
    requires NewTopic(id, body, userId, now).Some?
    ensures NewTopic(id, body, userId, now).value.ownerId == userId
  {
    TopicDataKeys(body, userId);
    NewTopicPath(id, body, userId, now, OwnerId, 4);
  }

  lemma NewTopicParent(id: Id, body: Body, userId: Id, now: int)
    requires NewTopic(id, body, userId, now).Some?
    ensures NewTopic(id, body, userId, now).value.parentId == ParentRef(Get(body, "parentId"))
  {
    TopicDataKeys(body, userId);
    NewTopicPath(id, body, userId, now, ParentId, 3);
  }

  /** The created topic starts at progress 0; a falsy weight becomes 1 and a falsy status `pending`. */
  lemma NewTopicDefaults(id: Id, body: Body, userId: Id, now: int)
    requires NewTopic(id, body, userId, now).Some?
    ensures NewTopic(id, body, userId, now).value.progress == 0
    ensures var t, w := NewTopic(id, body, userId, now).value, Get(body, "weight");
      (Truthy(w) ==> w.Num? && t.weight == w.n) && (!Truthy(w) ==> t.weight == 1)
    ensures var t, s := NewTopic(id, body, userId, now).value, Get(body, "status");
      (Truthy(s) ==> s.Str? && t.status == s.s) && (!Truthy(s) ==> t.status == PENDING)
  {
    NewTopicProgress(id, body, userId, now);
    NewTopicWeight(id, body, userId, now);
    NewTopicStatus(id, body, userId, now);
  }

  lemma NewTopicProgress(id: Id, body: Body, userId: Id, now: int)
    requires NewTopic(id, body, userId, now).Some?
    ensures NewTopic(id, body, userId, now).value.progress == 0
  {
    TopicDataNoProgress(body, userId);
    ApplyAllKeeps(Blank(id, now), TopicData(body, userId), ProgressKey);
  }

  lemma NewTopicWeight(id: Id, body: Body, userId: Id, now: int)
    requires NewTopic(id, body, userId, now).Some?
    ensures var t, w := NewTopic(id, body, userId, now).value, Get(body, "weight");
      (Truthy(w) ==> w.Num? && t.weight == w.n) && (!Truthy(w) ==> t.weight == 1)
  {
    TopicDataKeys(body, userId);
    NewTopicPath(id, body, userId, now, Weight, 5);
  }

  lemma NewTopicStatus(id: Id, body: Body, userId: Id, now: int)
    requires NewTopic(id, body, userId, now).Some?
    ensures var t, s := NewTopic(id, body, userId, now).value, Get(body, "status");
      (Truthy(s) ==> s.Str? && t.status == s.s) && (!Truthy(s) ==> t.status == PENDING)
  {
    TopicDataKeys(body, userId);
    NewTopicPath(id, body, userId, now, Status, 6);
  }

  /**
   * The path named by entry `i` of `TopicData`, and by no other entry, holds that entry's
   * cast value, or the default of a new topic when the value is `undefined`.
   */
  lemma NewTopicPath(id: Id, body: Body, userId: Id, now: int, k: Key, i: nat)
    requires NewTopic(id, body, userId, now).Some?
    requires i < 7 && KeyOf(TopicData(body, userId)[i].0) == k
    requires forall j :: 0 <= j < 7 && j != i ==> KeyOf(TopicData(body, userId)[j].0) != k
    ensures var v := TopicData(body, userId)[i].1;
      v != Undefined ==> Cast(k, v).Some? && Path(NewTopic(id, body, userId, now).value, k) == Cast(k, v).value
    ensures var v := TopicData(body, userId)[i].1;
      v == Undefined ==> Path(NewTopic(id, body, userId, now).value, k) == Path(Blank(id, now), k)
  {
    LastSetSingle(TopicData(body, userId), k, i);
  }

  /** The object `createTopic` passes to `createRoadmap` for `type: 'roadmap'`. */
  function RoadmapBody(body: Body): Body
  {
    [("title", Get(body, "title")), ("description", Get(body, "description")),
     ("weight", Or(Get(body, "weight"), Num(1))), ("status", Or(Get(body, "status"), Str(PENDING)))]
  }

  /**
   * `createTopic`: a body of type `roadmap` goes through the service and yields a root
   * roadmap whatever `parentId` says; any other body is built as a topic of the caller and
   * saved through the save as written, whose hook reads the collection before the new topic
   * is in it. 201 with the created document, now stored under a fresh id, or 500 with the
   * collection unchanged.
   */
  method CreateTopic(store: TopicCollection, body: Body, userId: Id, now: int) returns (r: Response)
    requires store.Valid()
    modifies store
    ensures store.Valid()
    ensures r.statusCode == 201 || r == Failure(500, "An error occurred while creating topic")
    ensures r.statusCode != 201 ==> store.docs == old(store.docs)
    ensures r.statusCode == 201 ==> r.data.OneTopic? && r.data.topic.ownerId == userId
    ensures r.statusCode == 201 ==>
              Lookup(old(store.docs), r.data.topic.id).None? && Lookup(store.docs, r.data.topic.id) == Some(r.data.topic)
    ensures r.statusCode == 201 && Get(body, "type") == Str(ROADMAP) ==>
              IsRootRoadmap(r.data.topic) && store.docs == old(store.docs) + [r.data.topic]
    ensures Get(body, "type") == Str(ROADMAP) ==>
              var d := TopicService.RoadmapDoc(NewId(old(store.docs), None), RoadmapBody(body), userId, now);
              (r.statusCode == 201 <==> d.Some? && SchemaValid(d.value)) && (r.statusCode == 201 ==> Some(r.data.topic) == d)
    ensures Get(body, "type") != Str(ROADMAP) ==>
              var t := NewTopic(NewId(old(store.docs), ParentRef(Get(body, "parentId"))), body, userId, now);
              r.statusCode == 201 <==> t.Some? && SchemaValid(t.value)
    ensures r.statusCode == 201 && Get(body, "type") != Str(ROADMAP) ==>
              NewTopic(r.data.topic.id, body, userId, now) == Some(r.data.topic)
              && store.docs == Cascade.SaveAsWritten(old(store.docs), old(store.rank), r.data.topic, now)
  {
    if Get(body, "type") == Str(ROADMAP) {
      var created := TopicService.CreateRoadmap(store, RoadmapBody(body), userId, now);
      if created.Err? {
        return Failure(500, "An error occurred while creating topic");
      }
      LookupAppended(old(store.docs), created.value);
      return Success(201, "Roadmap successfully created", OneTopic(created.value));
    }
    var id := NewId(store.docs, ParentRef(Get(body, "parentId")));
    var topic := NewTopic(id, body, userId, now);
    if topic.None? {
      return Failure(500, "An error occurred while creating topic");
    }
    NewTopicPlace(id, body, userId, now);
    var ok := store.SaveAsWritten(topic.value, now);
    if !ok {
      return Failure(500, "An error occurred while creating topic");
    }
    r := Success(201, "Topic successfully created", OneTopic(topic.value));
  }

  /**
   * `createTopic` over the corrected save: the same answers, and a created topic's ancestors
   * are recomputed after it is written.
   */
  method CreateTopicFixed(store: TopicCollection, body: Body, userId: Id, now: int) returns (r: Response)
    requires store.Valid()
    modifies store
    ensures store.Valid()
    ensures r.statusCode == 201 || r == Failure(500, "An error occurred while creating topic")
    ensures r.statusCode != 201 ==> store.docs == old(store.docs)
    ensures r.statusCode == 201 ==> r.data.OneTopic? && r.data.topic.ownerId == userId
    ensures r.statusCode == 201 ==>
              Lookup(old(store.docs), r.data.topic.id).None? && Lookup(store.docs, r.data.topic.id) == Some(r.data.topic)
    ensures r.statusCode == 201 && Get(body, "type") == Str(ROADMAP) ==>
              IsRootRoadmap(r.data.topic) && store.docs == old(store.docs) + [r.data.topic]
    ensures Get(body, "type") == Str(ROADMAP) ==>
              var d := TopicService.RoadmapDoc(NewId(old(store.docs), None), RoadmapBody(body), userId, now);
              (r.statusCode == 201 <==> d.Some? && SchemaValid(d.value)) && (r.statusCode == 201 ==> Some(r.data.topic) == d)
    ensures Get(body, "type") != Str(ROADMAP) ==>
              var t := NewTopic(NewId(old(store.docs), ParentRef(Get(body, "parentId"))), body, userId, now);
              r.statusCode == 201 <==> t.Some? && SchemaValid(t.value)
    ensures r.statusCode == 201 && Get(body, "type") != Str(ROADMAP) ==>
              NewTopic(r.data.topic.id, body, userId, now) == Some(r.data.topic)
              && WellFormed(Write(old(store.docs), r.data.topic, now), store.rank)
              && store.docs == SaveFixed(old(store.docs), store.rank, r.data.topic, now)
  {
    if Get(body, "type") == Str(ROADMAP) {
      var created := TopicService.CreateRoadmap(store, RoadmapBody(body), userId, now);
      if created.Err? {
        return Failure(500, "An error occurred while creating topic");
      }
      LookupAppended(old(store.docs), created.value);
      return Success(201, "Roadmap successfully created", OneTopic(created.value));
    }
    var id := NewId(store.docs, ParentRef(Get(body, "parentId")));
    var topic := NewTopic(id, body, userId, now);
    if topic.None? {
      return Failure(500, "An error occurred while creating topic");
    }
    NewTopicPlace(id, body, userId, now);
    var ok := store.Save(topic.value, now);
    if !ok {
      return Failure(500, "An error occurred while creating topic");
    }
    r := Success(201, "Topic successfully created", OneTopic(topic.value));
  }

  /** A document appended under a new id is found under that id. */
  lemma LookupAppended(docs: seq<Topic>, t: Topic)
    requires UniqueIds(docs + [t])
    ensures Lookup(docs, t.id).None? && Lookup(docs + [t], t.id) == Some(t)
  {
    var all := docs + [t];
    assert all[|docs|] == t;
    LookupUnique(all, t);
    forall d | d in docs ensures d.id != t.id {
      var i :| 0 <= i < |docs| && docs[i] == d;
      assert all[i] == d;
    }
  }

  // ---------------------------------------------------------------------------
  // Update.

  /** `v` when truthy, otherwise `undefined` (an assignment that does nothing). */
  function IfTruthy(v: Value): Value
  {
    if Truthy(v) then v else Undefined
  }

  /** One more assignment of a chain: a failed chain stays failed. */
  function Then(o: Option<Topic>, key: string, v: Value): Option<Topic>
  {
    match o
    case None => None
    case Some(u) => SetPath(u, key, v)
  }

  /** A successful step leaves every path but its own as it was. */
  lemma ThenOther(o: Option<Topic>, key: string, v: Value, k: Key)
    requires Then(o, key, v).Some? && KeyOf(key) != k
    ensures o.Some? && Path(Then(o, key, v).value, k) == Path(o.value, k)
  {
  }

  /** A successful step stores the cast of a defined value in its own path. */
  lemma ThenSets(o: Option<Topic>, key: string, v: Value)
    requires Then(o, key, v).Some?
    ensures o.Some?
    ensures v != Undefined ==> Cast(KeyOf(key), v).Some? && Path(Then(o, key, v).value, KeyOf(key)) == Cast(KeyOf(key), v).value
    ensures v == Undefined ==> Then(o, key, v) == o
  {
  }

  /** A successful step keeps the id and the timestamps. */
  lemma ThenKeepsStamps(o: Option<Topic>, key: string, v: Value)
    requires Then(o, key, v).Some?
    ensures o.Some?
    ensures var u := Then(o, key, v).value;
      u.id == o.value.id && u.createdAt == o.value.createdAt && u.updatedAt == o.value.updatedAt
  {
  }

  /**
   * The field rules of `updateTopic` for a non-roadmap, as the chain of assignments:
   * title, description and status only when truthy, progress and weight whenever defined.
   * `None` when an assigned value fails its cast.
   */
  function TopicPatch(t: Topic, body: Body): (r: Option<Topic>)
  {
    var t1 := Then(Some(t), "title", IfTruthy(Get(body, "title")));
    var t2 := Then(t1, "description", IfTruthy(Get(body, "description")));
    var t3 := Then(t2, "progress", Get(body, "progress"));
    var t4 := Then(t3, "weight", Get(body, "weight"));
    Then(t4, "status", IfTruthy(Get(body, "status")))
  }

  /** The intermediate results of `TopicPatch`, in order. */
  function PatchSteps(t: Topic, body: Body): seq<Option<Topic>>
  {
    var t1 := Then(Some(t), "title", IfTruthy(Get(body, "title")));
    var t2 := Then(t1, "description", IfTruthy(Get(body, "description")));
    var t3 := Then(t2, "progress", Get(body, "progress"));
    var t4 := Then(t3, "weight", Get(body, "weight"));
    [Some(t), t1, t2, t3, t4]
  }

  /** Path `k` of the patched topic, when none of the five assignments targets it. */
  lemma TopicPatchOther(t: Topic, body: Body, k: Key)
    requires TopicPatch(t, body).Some? && k !in {Title, Description, ProgressKey, Weight, Status}
    ensures Path(TopicPatch(t, body).value, k) == Path(t, k)
  {
    KeyOfNames();
    var s := PatchSteps(t, body);
    ThenOther(s[4], "status", IfTruthy(Get(body, "status")), k);
    ThenOther(s[3], "weight", Get(body, "weight"), k);
    ThenOther(s[2], "progress", Get(body, "progress"), k);
    ThenOther(s[1], "description", IfTruthy(Get(body, "description")), k);
    ThenOther(s[0], "title", IfTruthy(Get(body, "title")), k);
  }

  /** The patch never moves a topic: type, parent, owner and visibility are kept, and so are the id and timestamps. */
  lemma TopicPatchKeepsPlace(t: Topic, body: Body)
    requires TopicPatch(t, body).Some?
    ensures var u := TopicPatch(t, body).value;
      u.id == t.id && u.kind == t.kind && u.parentId == t.parentId && u.ownerId == t.ownerId
      && u.isPublic == t.isPublic && u.createdAt == t.createdAt && u.updatedAt == t.updatedAt
  {
    TopicPatchOther(t, body, Type);
    TopicPatchOther(t, body, ParentId);
    TopicPatchOther(t, body, OwnerId);
    TopicPatchOther(t, body, IsPublic);
    var s := PatchSteps(t, body);
    ThenKeepsStamps(s[4], "status", IfTruthy(Get(body, "status")));
    ThenKeepsStamps(s[3], "weight", Get(body, "weight"));
    ThenKeepsStamps(s[2], "progress", Get(body, "progress"));
    ThenKeepsStamps(s[1], "description", IfTruthy(Get(body, "description")));
    ThenKeepsStamps(s[0], "title", IfTruthy(Get(body, "title")));
  }

  /**
   * The values the patch assigns: a truthy title, description or status replaces the old
   * one (title and description trimmed); a defined progress or weight replaces the old one,
   * 0 included; anything else keeps the old value.
   */
  lemma TopicPatchFields(t: Topic, body: Body)
    requires TopicPatch(t, body).Some?
    ensures var u, v := TopicPatch(t, body).value, Get(body, "title");
      u.title == if Truthy(v) && v.Str? then Trim(v.s) else t.title
    ensures var u, v := TopicPatch(t, body).value, Get(body, "description");
      u.description == if Truthy(v) && v.Str? then Trim(v.s) else t.description
    ensures var u, v := TopicPatch(t, body).value, Get(body, "progress");
      u.progress == if v.Num? then v.n else t.progress
    ensures var u, v := TopicPatch(t, body).value, Get(body, "weight");
      u.weight == if v.Num? then v.n else t.weight
    ensures var u, v := TopicPatch(t, body).value, Get(body, "status");
      u.status == if Truthy(v) && v.Str? then v.s else t.status
  {
    PatchTitle(t, body);
    PatchDescription(t, body);
    PatchNumbers(t, body);
    PatchStatus(t, body);
  }

  lemma PatchTitle(t: Topic, body: Body)
    requires TopicPatch(t, body).Some?
    ensures var u, v := TopicPatch(t, body).value, Get(body, "title");
      u.title == if Truthy(v) && v.Str? then Trim(v.s) else t.title
  {
    KeyOfNames();
    var s := PatchSteps(t, body);
    ThenOther(s[4], "status", IfTruthy(Get(body, "status")), Title);
    ThenOther(s[3], "weight", Get(body, "weight"), Title);
    ThenOther(s[2], "progress", Get(body, "progress"), Title);
    ThenOther(s[1], "description", IfTruthy(Get(body, "description")), Title);
    ThenSets(s[0], "title", IfTruthy(Get(body, "title")));
    assert Path(TopicPatch(t, body).value, Title) == Path(s[1].value, Title);
  }

  lemma PatchDescription(t: Topic, body: Body)
    requires TopicPatch(t, body).Some?
    ensures var u, v := TopicPatch(t, body).value, Get(body, "description");
      u.description == if Truthy(v) && v.Str? then Trim(v.s) else t.description
  {
    KeyOfNames();
    var s := PatchSteps(t, body);
    ThenOther(s[4], "status", IfTruthy(Get(body, "status")), Description);
    ThenOther(s[3], "weight", Get(body, "weight"), Description);
    ThenOther(s[2], "progress", Get(body, "progress"), Description);
    ThenSets(s[1], "description", IfTruthy(Get(body, "description")));
    ThenOther(s[0], "title", IfTruthy(Get(body, "title")), Description);
  }

  lemma PatchNumbers(t: Topic, body: Body)
    requires TopicPatch(t, body).Some?
    ensures var u, v := TopicPatch(t, body).value, Get(body, "progress");
      u.progress == if v.Num? then v.n else t.progress
    ensures var u, v := TopicPatch(t, body).value, Get(body, "weight");
      u.weight == if v.Num? then v.n else t.weight
  {
    KeyOfNames();
    var s := PatchSteps(t, body);
    ThenOther(s[4], "status", IfTruthy(Get(body, "status")), ProgressKey);
    ThenOther(s[3], "weight", Get(body, "weight"), ProgressKey);
    ThenSets(s[2], "progress", Get(body, "progress"));
    ThenOther(s[1], "description", IfTruthy(Get(body, "description")), ProgressKey);
    ThenOther(s[0], "title", IfTruthy(Get(body, "title")), ProgressKey);
    ThenOther(s[4], "status", IfTruthy(Get(body, "status")), Weight);
    ThenSets(s[3], "weight", Get(body, "weight"));
    ThenOther(s[2], "progress", Get(body, "progress"), Weight);
    ThenOther(s[1], "description", IfTruthy(Get(body, "description")), Weight);
    ThenOther(s[0], "title", IfTruthy(Get(body, "title")), Weight);
  }

  lemma PatchStatus(t: Topic, body: Body)
    requires TopicPatch(t, body).Some?
    ensures var u, v := TopicPatch(t, body).value, Get(body, "status");
      u.status == if Truthy(v) && v.Str? then v.s else t.status
  {
    KeyOfNames();
    var s := PatchSteps(t, body);
    ThenSets(s[4], "status", IfTruthy(Get(body, "status")));
    ThenOther(s[3], "weight", Get(body, "weight"), Status);
    ThenOther(s[2], "progress", Get(body, "progress"), Status);
    ThenOther(s[1], "description", IfTruthy(Get(body, "description")), Status);
    ThenOther(s[0], "title", IfTruthy(Get(body, "title")), Status);
  }

  /** The assignments of `updateTopic`, one statement per field, in the source's order. */
  method ApplyTopicPatch(t: Topic, body: Body) returns (r: Option<Topic>)
    ensures r == TopicPatch(t, body)
  {
    ghost var s := PatchSteps(t, body);
    var topic := t;
    var title := Get(body, "title");
    if Truthy(title) {
      var next := SetPath(topic, "title", title);
      if next.None? { return None; }
      topic := next.value;
    }
    assert s[1] == Some(topic);
    var description := Get(body, "description");
    if Truthy(description) {
      var next := SetPath(topic, "description", description);
      if next.None? { return None; }
      topic := next.value;
    }
    assert s[2] == Some(topic);
    var progress := Get(body, "progress");
    if progress != Undefined {
      var next := SetPath(topic, "progress", progress);
      if next.None? { return None; }
      topic := next.value;
    }
    assert s[3] == Some(topic);
    var weight := Get(body, "weight");
    if weight != Undefined {
      var next := SetPath(topic, "weight", weight);
      if next.None? { return None; }
      topic := next.value;
    }
    assert s[4] == Some(topic);
    var status := Get(body, "status");
    if Truthy(status) {
      var next := SetPath(topic, "status", status);
      if next.None? { return None; }
      topic := next.value;
    }
    r := Some(topic);
  }

  /**
   * `updateTopic`: 404 unless the caller owns the topic; a roadmap is delegated to the
   * service's update as written, any other topic gets the field rules and the save as
   * written. A failed update changes nothing.
   */
  method UpdateTopic(store: TopicCollection, id: Id, body: Body, userId: Id, now: int) returns (r: Response)
    requires store.Valid()
    modifies store
    ensures store.Valid()
    ensures r.statusCode == 404 <==> OwnedTopic(old(store.docs), id, userId).None?
    ensures r.statusCode == 404 ==> r == TopicNotFound
    ensures r.statusCode in {200, 404, 500}
    ensures r.statusCode != 200 ==> store.docs == old(store.docs)
    ensures OwnedTopic(old(store.docs), id, userId).Some? && OwnedTopic(old(store.docs), id, userId).value.kind == ROADMAP ==>
              var update := UpdateAsWritten(old(store.docs), old(store.rank), id, body, userId, now);
              !Moves(old(store.docs), id, body, userId) ==>
                (r.statusCode == 200 <==> update.0.Ok?) && store.docs == update.1
                && (update.0.Ok? ==> r.data == OneTopic(update.0.value))
    ensures OwnedTopic(old(store.docs), id, userId).Some? && OwnedTopic(old(store.docs), id, userId).value.kind != ROADMAP ==>
              var patched := TopicPatch(OwnedTopic(old(store.docs), id, userId).value, body);
              (r.statusCode == 200 <==> patched.Some? && SchemaValid(patched.value))
              && (r.statusCode == 200 ==>
                    store.docs == Cascade.SaveAsWritten(old(store.docs), old(store.rank), patched.value, now)
                    && r.data == OneTopic(AfterSave(old(store.docs), patched.value, now)))
  {
    var found := OwnedTopic(store.docs, id, userId);
    if found.None? {
      return TopicNotFound;
    }
    if found.value.kind == ROADMAP {
      var updated := TopicService.UpdateRoadmapAsWritten(store, id, body, userId, now);
      if updated.Err? {
        return Failure(500, "An error occurred while updating topic");
      }
      return Success(200, "Roadmap successfully updated", OneTopic(updated.value));
    }
    r := UpdatePlainTopic(store, found.value, body, now);
  }

  /**
   * The non-roadmap half of `updateTopic`: assign the fields, save through the save as
   * written. 200 with the topic as saved, which the collection then holds under its id, or
   * 500 with the collection unchanged.
   */
  method UpdatePlainTopic(store: TopicCollection, topic: Topic, body: Body, now: int) returns (r: Response)
    requires store.Valid() && topic in store.docs
    modifies store
    ensures store.Valid()
    ensures r.statusCode == 200 <==> TopicPatch(topic, body).Some? && SchemaValid(TopicPatch(topic, body).value)
    ensures r.statusCode != 200 ==> r == Failure(500, "An error occurred while updating topic") && store.docs == old(store.docs)
    ensures r.statusCode == 200 ==> (
      var patched := TopicPatch(topic, body).value;
      && r.data == OneTopic(AfterSave(old(store.docs), patched, now))
      && store.docs == Cascade.SaveAsWritten(old(store.docs), old(store.rank), patched, now)
      && Lookup(store.docs, topic.id) == Some(AfterSave(old(store.docs), patched, now)))
  {
    var patched := ApplyTopicPatch(topic, body);
    if patched.None? {
      return Failure(500, "An error occurred while updating topic");
    }
    TopicPatchKeepsPlace(topic, body);
    LookupUnique(store.docs, topic);
    assert Placeable(store.docs, patched.value);
    var saved := AfterSave(store.docs, patched.value, now);
    var ok := store.SaveAsWritten(patched.value, now);
    if !ok {
      return Failure(500, "An error occurred while updating topic");
    }
    r := Success(200, "Topic successfully updated", OneTopic(saved));
  }

  /**
   * `updateTopic` over the corrected update and the corrected save: a roadmap keeps its
   * type, parent and owner whatever the body says, and a saved topic's ancestors are
   * recomputed after it is written.
   */
  method UpdateTopicFixed(store: TopicCollection, id: Id, body: Body, userId: Id, now: int) returns (r: Response)
    requires store.Valid()
    modifies store
    ensures store.Valid()
    ensures r.statusCode == 404 <==> OwnedTopic(old(store.docs), id, userId).None?
    ensures r.statusCode == 404 ==> r == TopicNotFound
    ensures r.statusCode in {200, 404, 500}
    ensures r.statusCode != 200 ==> store.docs == old(store.docs)
    ensures r.statusCode == 200 ==> Lookup(old(store.docs), id).Some? && Lookup(store.docs, id).Some?
    ensures r.statusCode == 200 ==> (
      var before, after := Lookup(old(store.docs), id).value, Lookup(store.docs, id).value;
      after.kind == before.kind && after.parentId == before.parentId && after.ownerId == before.ownerId == userId)
    ensures OwnedTopic(old(store.docs), id, userId).Some? && OwnedTopic(old(store.docs), id, userId).value.kind == ROADMAP ==>
              var update := UpdateSpec(old(store.docs), old(store.rank), id, body, userId, now);
              (r.statusCode == 200 <==> update.0.Ok?) && store.docs == update.1
              && (update.0.Ok? ==> r.data == OneTopic(update.0.value))
    ensures OwnedTopic(old(store.docs), id, userId).Some? && OwnedTopic(old(store.docs), id, userId).value.kind != ROADMAP ==>
              var patched := TopicPatch(OwnedTopic(old(store.docs), id, userId).value, body);
              (r.statusCode == 200 <==> patched.Some? && SchemaValid(patched.value))
              && (r.statusCode == 200 ==>
                    WellFormed(Write(old(store.docs), patched.value, now), old(store.rank))
                    && store.docs == SaveFixed(old(store.docs), old(store.rank), patched.value, now)
                    && r.data == OneTopic(AfterSave(old(store.docs), patched.value, now)))
  {
    var found := OwnedTopic(store.docs, id, userId);
    if found.None? {
      return TopicNotFound;
    }
    LookupUnique(store.docs, found.value);
    if found.value.kind == ROADMAP {
      UpdateKeepsPlace(store.docs, store.rank, id, body, userId, now);
      var updated := TopicService.UpdateRoadmap(store, id, body, userId, now);
      if updated.Err? {
        return Failure(500, "An error occurred while updating topic");
      }
      return Success(200, "Roadmap successfully updated", OneTopic(updated.value));
    }
    r := UpdatePlainTopicFixed(store, found.value, body, now);
    if r.statusCode == 200 {
      TopicPatchKeepsPlace(found.value, body);
    }
  }

  /** The non-roadmap half of `updateTopic` over the corrected save. */
  method UpdatePlainTopicFixed(store: TopicCollection, topic: Topic, body: Body, now: int) returns (r: Response)
    requires store.Valid() && topic in store.docs
    modifies store
    ensures store.Valid()
    ensures r.statusCode == 200 <==> TopicPatch(topic, body).Some? && SchemaValid(TopicPatch(topic, body).value)
    ensures r.statusCode != 200 ==> r == Failure(500, "An error occurred while updating topic") && store.docs == old(store.docs)
    ensures r.statusCode == 200 ==> (
      var patched := TopicPatch(topic, body).value;
      && r.data == OneTopic(AfterSave(old(store.docs), patched, now))
      && store.rank == old(store.rank) && WellFormed(Write(old(store.docs), patched, now), store.rank)
      && store.docs == SaveFixed(old(store.docs), store.rank, patched, now)
      && Lookup(store.docs, topic.id) == Some(AfterSave(old(store.docs), patched, now)))
  {
    var patched := ApplyTopicPatch(topic, body);
    if patched.None? {
      return Failure(500, "An error occurred while updating topic");
    }
    TopicPatchKeepsPlace(topic, body);
    LookupUnique(store.docs, topic);
    assert Placeable(store.docs, patched.value);
    var saved := AfterSave(store.docs, patched.value, now);
    var ok := store.Save(patched.value, now);
    if !ok {
      return Failure(500, "An error occurred while updating topic");
    }
    r := Success(200, "Topic successfully updated", OneTopic(saved));
  }

  // ---------------------------------------------------------------------------
  // Deletion.

  /**
   * `deleteTopic`: 404 unless the caller owns the topic; a roadmap is deleted by the
   * service, any other topic here, and both remove the topic and its direct children only.
   */
  method DeleteTopic(store: TopicCollection, id: Id, userId: Id) returns (r: Response)
    requires store.Valid()
    modifies store
    ensures store.Valid()
    ensures r.statusCode == 404 <==> OwnedTopic(old(store.docs), id, userId).None?
    ensures r.statusCode == 404 ==> r == TopicNotFound && store.docs == old(store.docs)
    ensures r.statusCode != 404 ==> r.statusCode == 200 && store.docs == WithoutTopic(old(store.docs), id)
  {
    var found := OwnedTopic(store.docs, id, userId);
    if found.None? {
      return TopicNotFound;
    }
    if found.value.kind == ROADMAP {
      var deleted := TopicService.DeleteRoadmap(store, id, userId);
      if deleted.Err? {
        return Failure(500, "An error occurred while deleting topic");
      }
      return Success(200, "Roadmap successfully deleted", NoPayload);
    }
    ghost var before := store.docs;
    var isChild := (d: Topic) => d.parentId == Some(id);
    var isTopic := (d: Topic) => d.id == id;
    store.DeleteWhere(isChild);
    FilterSamePredicate(before, (d: Topic) => !isChild(d), (d: Topic) => !(d.parentId == Some(id)));
    ghost var middle := store.docs;
    store.DeleteWhere(isTopic);
    FilterSamePredicate(middle, (d: Topic) => !isTopic(d), (d: Topic) => !(d.id == id));
    r := Success(200, "Topic successfully deleted", NoPayload);
  }
}
