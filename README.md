# The roadmap topic tree of the-throttle, in Dafny

the-throttle keeps learning roadmaps as a tree of topics in one collection. Every topic
is a roadmap, a subtopic or a task. It points to its parent through `parentId`, belongs
to an owner, and carries a `progress`, a `weight` and a `status`.

- A task's progress is set by hand.
- Every other topic's progress is the weighted average of its children's computed
  progress (`calculateProgress`).
- A save that changes a topic's progress or status recomputes the parent and saves it,
  so the change climbs the ancestor chain (the `pre('save')` hook).
- The topic service and the topic controller list, create, update and delete topics on
  behalf of their owner.
- The client keeps a list of the user's roadmaps, with a loading flag and an error
  message.
- A small registry holds repositories by name.
- A global handler turns thrown errors into status codes and messages.

The model has these parts:

- `common.dfy` (module `Common`): `Option`, `Result`, the JavaScript values a request body
  holds, truthiness and `||`.
- `topic.dfy` (module `Topics`): the topic document and the schema checks run at save
  time. It also covers how `doc[key] = value` casts and stores a value (`SetPath`), and
  `new Topic(data)` (`Build`, `ApplyAll`).
- `collection.dfy` (module `Collection`): the collection as a sequence of documents in
  natural order with unique ids, and `find`, `findOne`, `findById`, `save` and `sort`
  as functions on it.
- `progress.dfy` (module `Rollup`): `calculateProgress` as a function of a snapshot of the
  collection, its bounds, and its independence of stored intermediate progress.
- `cascade.dfy` (module `Cascade`): the hook and the save, as written and corrected, and
  what they change.
- `topic_model.dfy` (module `TopicModel`): the collection as a mutable class.
  - `CalculateProgress` is the source's loop.
  - `SaveAsWritten` is the save as written and `Save` the corrected save.
  - `DeleteWhere` is `deleteMany` / `deleteOne`.
- `topic_service.dfy` (module `TopicService`): the roadmap queries, and roadmap creation,
  update and deletion. `UpdateRoadmapAsWritten` is the update as written and
  `UpdateRoadmap` the corrected one.
- `topic_controller.dfy` (module `TopicController`): the decision logic of each handler,
  answering with a status code, a success flag, a message and a payload. `CreateTopic`
  and `UpdateTopic` follow the code as written; `CreateTopicFixed` and `UpdateTopicFixed`
  run the same handlers over the corrected save and update.
- `roadmap_store.dfy` (module `RoadmapStore`): the client store's four actions.
- `repository_factory.dfy` (module `RepositoryFactory`): the registry.
- `error_handler.dfy` (module `ErrorHandler`): `ApiError` and the handler.
- `cascade_example.dfy` and `update_example.dfy`: the concrete collections behind the two
  findings below.

Decisions the model takes:

- **The collection is a sequence, not a map.** `find` returns documents in natural order,
  and the sum over children and the sorts of the listings depend on an order. Ids are
  unique, which `WellFormed` states together with acyclic parent references and
  schema-valid documents.
- **A ghost ranking witnesses the acyclic parents.** It maps each id to a natural, and
  every child ranks below its parent. The recursion of `calculateProgress` and the walk up
  the chain terminate on it.
- **Change detection is explicit.** `isModified('progress') || isModified('status')` is
  `Modified`: a new document, or a stored one whose progress or status differs.
- **A save that changes nothing writes nothing.** Otherwise it stamps `updatedAt`.
- **Times are integers; ids are naturals.** Times are passed in as `now`. A new id is any
  natural unused as an id or a parent reference.
- **API calls in the client store are outcomes passed in.** Each call becomes an
  `Outcome`, success with the response or failure with an optional message, so every
  action is proved for both outcomes.
- **Each controller takes the caller's user id as a parameter.** Only `getUserRoadmaps`
  takes it as `Option<Id>`, because it checks for a missing user.

## Model

| member | source | states |
|---|---|---|
| Topics.Trim | api/src/models/Topic.js:28-32 | a trimmed title or description is the input with white space removed from both ends: a slice of it, whose cut-off characters are all white space and whose own end characters are not; it is empty exactly when the input is all white space |
| Topics.TrimIdempotent | api/src/models/Topic.js:28-32 | trimming twice gives the same string as trimming once |
| Topics.Cast | api/src/models/Topic.js:19-63 | a key outside the schema is ignored, and exactly those keys hold nothing after assignment |
| Topics.SetPath | api/src/models/Topic.js:19-63 | assigning `undefined` changes nothing; otherwise the assignment fails exactly on a cast error, the cast value lands in that path, and every other path, the id and the timestamps keep their values |
| Topics.Blank | api/src/models/Topic.js:44-62 | a new document starts with progress 0, weight 1, status pending, public, and no parent |
| Topics.Build | api/src/models/Topic.js:19-66 | `new Topic(data)` keeps the given id and stamps both timestamps `now` |
| Topics.ApplyAll | api/src/models/Topic.js:19-63 | setting the keys of a body in order fails exactly when some value fails its cast; otherwise each path holds the cast of the last value assigned to it, and an unassigned path keeps its value |
| Topics.LastSetSingle | api/src/models/Topic.js:19-63 | a path named by exactly one entry of a body gets that entry's value, if it is defined |
| Common.Get | api/src/controllers/topicController.js:133 | reading a key of a body gives the value of an entry with that key, or `undefined` when there is none |
| Collection.Filter | api/src/models/Topic.js:91 | `find(filter)` returns exactly the matching documents, never more than the collection holds |
| Collection.FilterAppend | api/src/services/topicService.js:167-168 | filtering distributes over concatenation, so survivors keep their relative order |
| Collection.FilterSamePredicate | api/src/services/topicService.js:167-168 | filters that agree on every document give the same result |
| Collection.FindOne | api/src/controllers/topicController.js:99 | `findOne` finds a document exactly when one matches, and returns the first match in natural order |
| Collection.Lookup | api/src/models/Topic.js:124 | `findById` returns a document with that id, or nothing when no document has it |
| Collection.LookupUnique | api/src/models/Topic.js:124 | with unique ids, `findById` of a stored document's id returns that document |
| Collection.UpsertUnique | api/src/models/Topic.js:127 | `save` keeps ids unique and leaves the saved document findable under its id |
| Collection.UpsertOthers | api/src/models/Topic.js:127 | `save` of one document keeps every document with another id, and adds none |
| Collection.SortBy | api/src/services/topicService.js:30 | `sort` returns the same documents (as a multiset) in ascending key order |
| Rollup.RoundHalfUp | api/src/models/Topic.js:107 | `Math.round(ws / tw)` for a positive total weight is the integer r with r - 1/2 <= ws/tw < r + 1/2 |
| Rollup.ProgressBounds | api/src/models/Topic.js:86-108 | when every task's progress is in [0,100] and every weight is >= 0, every computed progress is in [0,100] |
| Rollup.WeightedSumBounds | api/src/models/Topic.js:98-105 | the accumulated weighted progress lies between 0 and 100 times the accumulated weight, and that weight is >= 0 |
| Rollup.ProgressSameShape | api/src/models/Topic.js:101-105 | the computed progress depends only on the tree structure, the weights and the tasks' progress, never on the stored progress of a roadmap or subtopic |
| Rollup.ProgressRankIrrelevant | api/src/models/Topic.js:86-108 | the ranking used for termination does not affect the computed progress |
| Rollup.RankedSameShape | api/src/models/Topic.js:126-127 | rewriting the progress of stored topics keeps the parent references acyclic |
| TopicModel.TopicCollection.CalculateProgress | api/src/models/Topic.js:86-108 | the loop returns the weighted rounded average of the children's computed progress. That is the stored value for a task, 0 without children, and in [0,100]. It changes nothing, so two calls agree |
| TopicModel.TopicCollection.SumChildren | api/src/models/Topic.js:98-105 | the loop over the children accumulates exactly their total weight and the sum of computed progress times weight, and changes nothing |
| Rollup.SumsStep | api/src/models/Topic.js:101-105 | one more child adds its weight to the total and its computed progress times its weight to the weighted sum |
| Cascade.HookFixedStep | api/src/models/Topic.js:124-128 | the walk stops at a parent whose stored progress is already its computed one; otherwise it writes the recomputed parent and continues from the grandparent over the written collection, which stays well formed |
| Cascade.HookFixedKeepsForm | api/src/models/Topic.js:121-132 | the (corrected) cascade changes only stored progress of roadmaps and subtopics, and keeps the collection well formed |
| Cascade.HookAsWrittenKeepsForm | api/src/models/Topic.js:121-132 | the cascade as written also keeps the collection's shape and well-formedness |
| Cascade.HookFixedEffect | api/src/models/Topic.js:124-128 | the cascade only touches the ancestors reached by walking up from the parent, and each touched document has its progress overwritten with its recomputed value, stamped `now` |
| Cascade.HookFixedRepairsParent | api/src/models/Topic.js:124-128 | after the corrected cascade, the parent's stored progress equals its computed progress |
| Cascade.SaveWithoutCascade | api/src/models/Topic.js:122-123 | a save that modifies neither progress nor status, or of a topic without parent, writes that document and nothing else |
| Cascade.LookupSameShape | api/src/models/Topic.js:124 | `findById` finds corresponding documents in collections of the same shape |
| Cascade.WriteStores | api/src/models/Topic.js:127 | the write keeps ids unique and stores the document as left in memory: itself when unchanged, stamped `now` otherwise |
| TopicModel.WriteKeepsForm | api/src/models/Topic.js:121-132 | writing a schema-valid document that keeps its parent (or a new one nothing refers to) keeps the collection well formed |
| TopicModel.NewId | api/src/controllers/topicController.js:146-154 | a new document's id is used by no document, as id or as parent, and differs from its own parent |
| TopicModel.TopicCollection.Propagate | api/src/models/Topic.js:121-132 | the corrected hook, one parent at a time, leaves exactly the collection the corrected cascade specifies |
| TopicModel.TopicCollection.Save | api/src/models/Topic.js:121-132 | the corrected save succeeds exactly for documents that pass schema validation (type and status in their enumerations, a non-empty title, 0 <= progress <= 100, weight >= 0). It writes, then cascades up, and leaves the saved document stored under its id exactly as it was written. A rejected save changes nothing |
| TopicModel.TopicCollection.PreSaveAsWritten | api/src/models/Topic.js:121-132 | the hook as written, recomputing the parent over the collection before the write |
| TopicModel.TopicCollection.SaveAsWritten | api/src/models/Topic.js:121-132 | the save as written: validation, then the hook over the old collection, then the write; a saved document is stored under its id exactly as it was written, and a rejected one changes nothing |
| TopicModel.TopicCollection.DeleteWhere | api/src/services/topicService.js:167-168 | `deleteMany` / `deleteOne` drop exactly the matching documents, keep the rest in order, and keep the collection well formed |
| TopicModel.SavedKeepsContent | api/src/models/Topic.js:121-132 | after the corrected save the document stored under the saved id is exactly the saved one, with `updatedAt` stamped when it changed: the cascade only rewrites ancestors, never the saved document itself |
| TopicModel.SavedAsWrittenIsStored | api/src/models/Topic.js:121-132 | after the save as written the document stored under the saved id is exactly the saved one, with `updatedAt` stamped when it changed |
| TopicService.UserRoadmaps | api/src/services/topicService.js:24-36 | exactly the caller's roadmaps without parent, most recently updated first, each once |
| TopicService.AllRoadmaps | api/src/services/topicService.js:48-62 | exactly the roadmaps without parent of every owner, whether public or not, most recently updated first |
| TopicService.RoadmapById | api/src/services/topicService.js:108-120 | the caller's roadmap with that id, or the 404 `Roadmap not found` exactly when no document matches id, owner and type |
| TopicService.RoadmapSubtopics | api/src/services/topicService.js:185-195 | the 404 exactly when the roadmap lookup fails; otherwise exactly the caller's direct children of the roadmap, each as often as stored, oldest first |
| TopicService.RoadmapDoc | api/src/services/topicService.js:80-94 | the created roadmap has type roadmap, the caller as owner and no parent, whatever the data says under those keys; it fails exactly when a value under another key fails its cast |
| TopicService.CreateRoadmap | api/src/services/topicService.js:80-94 | creation succeeds exactly when the roadmap `RoadmapDoc` builds from the data under a fresh id passes its casts and its schema; it returns that roadmap, a root roadmap of the caller, appended to the collection. Otherwise a validation error with nothing changed |
| TopicService.ContentOnly | api/src/services/topicService.js:82-87 | exactly the entries of a body whose key is not type, parentId or ownerId, in order: what the spread of `createRoadmap` keeps from the caller's data, and what the corrected update applies |
| TopicService.PatchKeepsPlace | api/src/services/topicService.js:142-146 | the corrected assignments never change type, parent or owner |
| TopicService.PatchRoadmap | api/src/services/topicService.js:142-146 | the corrected patch keeps type, parent, owner, id and timestamps |
| TopicService.AssignAll | api/src/services/topicService.js:142-146 | the `forEach` over the keys of the body assigns each defined value in order and stops at a cast failure: the result is `ApplyAll` of the body |
| TopicService.UpdateKeepsPlace | api/src/services/topicService.js:139-150 | a successful corrected update leaves the roadmap stored with the same type, parent and owner; a failed one changes nothing |
| TopicService.UpdateRoadmap | api/src/services/topicService.js:139-150 | the corrected update ends exactly as `UpdateSpec` says: the 404 of the lookup, a validation error with nothing changed, or the content keys assigned and the roadmap saved through the corrected save, keeping the collection well formed |
| TopicService.UpdateAsWritten | api/src/services/topicService.js:139-150 | the update as written assigns every defined key, structural keys included, and fails without change |
| TopicService.UpdateRoadmapAsWritten | api/src/services/topicService.js:139-150 | `updateRoadmap` as written on the mutable collection: every update that keeps the roadmap's parent ends exactly as `UpdateAsWritten` says, type and owner assignments included; a move is refused with nothing changed |
| TopicService.WithoutTopic | api/src/services/topicService.js:167-168 | after deletion exactly the documents remain that are neither the topic nor one of its direct children |
| TopicService.DeleteOrphansGrandchildren | api/src/services/topicService.js:167-168 | a grandchild survives the deletion and its parent is gone |
| TopicService.DeleteRoadmap | api/src/services/topicService.js:164-171 | 404 exactly when the caller owns no such roadmap, with nothing changed; otherwise the roadmap and its direct children are removed and the answer is true |
| TopicController.OwnedTopic | api/src/controllers/topicController.js:99 | the caller's topic with that id is found exactly when one exists |
| TopicController.GetUserRoadmaps | api/src/controllers/topicController.js:18-35 | 400 exactly when the user id is missing; otherwise 200 with exactly the caller's root roadmaps, most recent first |
| TopicController.GetAllRoadmaps | api/src/controllers/topicController.js:49-58 | 200 with exactly the root roadmaps of every owner, each as often as stored, most recently updated first |
| TopicController.GetAllTopics | api/src/controllers/topicController.js:73-80 | 200 with exactly the caller's topics |
| TopicController.GetTopicById | api/src/controllers/topicController.js:97-109 | 404 exactly when the caller owns no topic with that id; otherwise 200 with that topic |
| TopicController.GetChildTopics | api/src/controllers/topicController.js:274-294 | 404 exactly when the caller owns no such topic; otherwise 200 with exactly the caller's direct children: for a roadmap oldest first, for any other topic in natural order |
| TopicController.NewTopic | api/src/controllers/topicController.js:146-154 | building the topic fails exactly when a value fails its cast, and keeps the id and `now` |
| TopicController.NewTopicPlace | api/src/controllers/topicController.js:146-154 | the created topic belongs to the caller and takes the body's `parentId` unchecked |
| TopicController.NewTopicDefaults | api/src/controllers/topicController.js:146-154 | a new topic starts at progress 0; a falsy weight becomes 1 (an explicit 0 included) and a falsy status pending |
| TopicController.CreateTopic | api/src/controllers/topicController.js:131-162 | a roadmap body succeeds exactly when the roadmap built from its title, description, weight and status passes its casts and its schema, and yields that root roadmap of the caller appended to the collection. Any other body succeeds exactly when the built topic passes its casts and its schema, answers 201 with it, and leaves the collection after the save as written, the topic stored under a fresh id. Otherwise 500 with nothing changed |
| TopicController.CreateTopicFixed | api/src/controllers/topicController.js:131-162 | the same success conditions and answers as `CreateTopic` in both branches, over the corrected save: a created topic is written first and the collection is the one `SaveFixed` gives |
| TopicController.NewTopicProgress | api/src/models/Topic.js:44-49 | a created topic starts at the schema default progress 0 |
| TopicController.NewTopicWeight | api/src/controllers/topicController.js:152 | a truthy weight is kept and a falsy one becomes 1 |
| TopicController.NewTopicStatus | api/src/controllers/topicController.js:153 | a truthy status is kept and a falsy one becomes pending |
| TopicController.PatchTitle | api/src/controllers/topicController.js:203 | a truthy title replaces the old one, trimmed; otherwise the title is kept |
| TopicController.PatchDescription | api/src/controllers/topicController.js:204 | a truthy description replaces the old one, trimmed; otherwise it is kept |
| TopicController.PatchNumbers | api/src/controllers/topicController.js:205-206 | a defined progress or weight replaces the old one, 0 included |
| TopicController.PatchStatus | api/src/controllers/topicController.js:207 | a truthy status replaces the old one; otherwise it is kept |
| TopicController.TopicPatchKeepsPlace | api/src/controllers/topicController.js:203-207 | the field rules never change type, parent, owner, visibility, id or timestamps |
| TopicController.TopicPatchFields | api/src/controllers/topicController.js:203-207 | title, description and status change only when truthy; progress and weight whenever defined, 0 included |
| TopicController.ApplyTopicPatch | api/src/controllers/topicController.js:203-207 | the statement-by-statement assignments compute the field rules |
| TopicController.UpdatePlainTopic | api/src/controllers/topicController.js:203-211 | 200 exactly when the field rules cast and the patched topic passes its schema; it answers with the patched topic as saved, the collection is the one after the save as written, and the topic is stored exactly as answered. Otherwise 500 with nothing changed |
| TopicController.UpdateTopic | api/src/controllers/topicController.js:185-215 | 404 exactly when the caller owns no such topic. A roadmap goes to the service's update as written, and ends with its answer and collection. Any other topic ends as `UpdatePlainTopic` says. Any other answer changes nothing |
| TopicController.UpdateTopicFixed | api/src/controllers/topicController.js:185-215 | over the corrected update and save: 404 exactly when the caller owns no such topic; on 200 the topic is stored with its type, parent and owner unchanged. A roadmap ends with the answer and collection `UpdateSpec` gives; any other topic answers 200 exactly when the field rules cast and pass the schema, with the topic as saved and the collection `SaveFixed` gives |
| TopicController.UpdatePlainTopicFixed | api/src/controllers/topicController.js:203-211 | the non-roadmap half over the corrected save: the collection after `SaveFixed`, the topic stored exactly as answered |
| TopicController.DeleteTopic | api/src/controllers/topicController.js:232-257 | 404 exactly when the caller owns no such topic, with nothing changed; otherwise 200, and both branches remove exactly the topic and its direct children |
| RoadmapStore.ErrorMessage | src/stores/roadmap.js:70 | the error's message when present and non-empty, else the action's fallback |
| RoadmapStore.FindIndex | src/stores/roadmap.js:130 | the first position holding the id, or -1 exactly when none does |
| RoadmapStore.Store.FetchRoadmaps | src/stores/roadmap.js:63-75 | loading ends false. Success replaces the list with the response's roadmaps, or [] when absent, and clears the error. Failure keeps the list, records the message and throws |
| RoadmapStore.Store.CreateRoadmap | src/stores/roadmap.js:89-107 | loading ends false. Success appends the created roadmap, when there is one, and returns it. Failure keeps the list and records the message |
| RoadmapStore.Store.UpdateRoadmap | src/stores/roadmap.js:122-143 | loading ends false and the length is kept. Success replaces only the first roadmap with that id, when the response holds one. Failure keeps the list and records the message |
| RoadmapStore.Store.DeleteRoadmap | src/stores/roadmap.js:154-166 | loading ends false. Success removes every roadmap with that id and keeps the rest in order. Failure keeps the list and records the message |
| RoadmapStore.ReplaceFirst | src/stores/roadmap.js:129-134 | the list after an update has the same length, and only the first match is replaced |
| RoadmapStore.WithoutId | src/stores/roadmap.js:159 | the list after a delete holds exactly the roadmaps with another id |
| RoadmapStore.WithoutIdAppend | src/stores/roadmap.js:159 | deletion works piecewise and keeps the survivors' order |
| RepositoryFactory.Factory.constructor | api/src/repositories/repositoryFactory.js:17-19 | a new registry has no own entries, so `get` succeeds on it exactly for the members every object inherits |
| RepositoryFactory.Factory.Register | api/src/repositories/repositoryFactory.js:31-33 | registering replaces the own entry under that name. A later `get` returns a truthy value, or fails for a falsy one, which then shadows an inherited member. Other names are unaffected |
| RepositoryFactory.Factory.Get | api/src/repositories/repositoryFactory.js:46-53 | `get` returns the own entry when it is truthy and fails when it is falsy; without an own entry it returns the inherited member of that name, if any; every failure is `Repository <name> not registered` |
| ErrorHandler.NewApiError | api/src/utils/errorHandler.js:25-31 | an ApiError carries the name `ApiError`, the given status code, message and data |
| ErrorHandler.Classify | api/src/utils/errorHandler.js:49-76 | token errors answer 401 with their message, keeping the data the earlier checks chose (the duplicated key, or the error's data or null). Code 11000 answers 400 with the duplicated key, and a validation error 400 with its messages. Otherwise the error's status code or 500, its message or `Something went wrong`, and its data or null |
| ErrorHandler.HandleError | api/src/utils/errorHandler.js:46-84 | the sequence of overriding checks gives the priority classification: later checks win |
| ErrorHandler.ApiErrorAnswered | api/src/utils/errorHandler.js:49-51 | an ApiError with a status code and a message is answered with exactly those and its data |
| CascadeExample.AsWrittenLeavesParentStale | api/src/models/Topic.js:121-128 | as written, setting a task to 100 under a subtopic leaves the subtopic's stored progress at 0 while its computed progress is 100 |
| CascadeExample.FixedRepairsParent | api/src/models/Topic.js:121-128 | saved through the corrected path, the same change leaves both the subtopic's and the roadmap's stored progress at 100 |
| UpdateExample.AsWrittenCreatesCycle | api/src/services/topicService.js:142-146 | as written, updating a roadmap with `parentId` set to its own subtopic succeeds and leaves a collection with a cycle |
| UpdateExample.CorrectedIgnoresParent | api/src/services/topicService.js:142-146 | through the corrected update the same body changes nothing |

## Left out

- Express request and response objects, logging, the `stack` field of error responses and
  the error details `errorResponse` attaches are not modelled. A handler answers with
  status code, success flag, message and payload.
- The HTTP client behind the client store is left out. Each API call is an outcome passed
  in as a parameter.
- The `populate('ownerId', 'username')` of `getAllRoadmaps` only decorates the owner
  field, so it is left out.
- Concurrent requests and interleaved cascades are left out. Every operation runs to
  completion before the next.
- Topics.Cast: the model's casts accept only
  - strings for string paths (and `null` for `description`);
  - numbers for number paths;
  - a non-negative number or `null` for `parentId`;
  - booleans for `isPublic`.

  Mongoose also converts values the model rejects: a numeric string such as `"50"` on a
  Number path, a number such as `5` on a String path (stored as `"5"`), `'true'`, `1` or
  `'yes'` on a Boolean path, and it keeps `null` on the optional `isPublic`. For these the
  model's `SetPath` and `ApplyAll` fail, so `CreateTopic`, `UpdatePlainTopic` and the
  roadmap update answer 500 where the source saves, for example `{ title: 5 }` or
  `{ progress: "50" }` on an update.
- Topics.Cast: a `null` progress or weight is a cast failure here. Mongoose keeps `null` on
  a Number path and its min/max validators skip it, so `{ progress: null }` on an update
  saves in the source and answers 500 in the model. The topic's progress and weight are
  integers, with no room for a missing value.
- Topics.Cast: `_id`, `createdAt` and `updatedAt` are treated as keys outside the schema,
  so assigning them changes nothing. In the source they are schema paths
  (`timestamps: true`), and `updateRoadmap` assigns them from the body. A body that sets
  only `updatedAt` marks the document modified there, so the save writes it and stamps
  `now`; the model writes nothing.
- Topics.Cast: `description` has no default in the source, so a missing or `null`
  description stays absent or `null`. The model holds a description as a string, so it
  starts as `""` (`Topics.Blank`) and a `null` description is stored as `""`.
- Topics.ApplyAll: a body is a sequence of entries and may name a key twice, which a parsed
  JSON object cannot. Every entry is cast, so an invalid earlier duplicate fails here,
  where `Object.keys` in the source would see only the last value. Bodies built from
  requests carry each key once, and `Common.Get` reads the last entry.
- TopicService.UpdateRoadmapAsWritten: a body that gives the roadmap another parent is
  refused with nothing changed, so `TopicController.UpdateTopic` answers 500 for it. The
  source saves the move, which can close a cycle (shown by
  `UpdateExample.AsWrittenCreatesCycle`); the collection of the model keeps its parent
  references acyclic.
- RepositoryFactory.Factory.Register: the name `__proto__` is treated as an ordinary own
  entry. In the source, assigning it replaces the registry object's prototype.
- Weights and progress are integers, and `Math.round` is modelled on integers (ties round
  up). Fractional weights and floating-point rounding are left out.
- Topics.SchemaValid: the required `ownerId` is always present in the model (owners are
  naturals), so that check has nothing to reject.
- Cascade.HookFixedRepairsParent: states the repair for the parent only. That each higher
  ancestor also ends consistent is not proved for a general collection.
- TopicController.CreateTopic: the created document's parent is not required to exist.
  The source does not check it, and a dangling parent reference stops the cascade
  silently.
- TopicService.DeleteRoadmap and TopicController.DeleteTopic do not recompute the parent's
  progress after removing a child. The source does not either, so the parent's stored
  progress can go stale.
- TopicController.UpdateTopic: a 404 thrown by the service is answered as 500, as in the
  source. Neither handler can reach that case, because both look the topic up first.
- The model follows the code where its documentation says more. `deleteTopic` is
  documented as deleting "its subtopics", yet both delete paths remove direct children
  only, leaving grandchildren with a dangling parent.
- A change to a topic's weight alone does not trigger the cascade, as in the source (only
  progress and status are watched).

## Findings

| source | as written | input that shows it | evidently intended | confidence | as-written member | corrected member |
|---|---|---|---|---|---|---|
| api/src/models/Topic.js:121-128 | the `pre('save')` hook recomputes the parent before the saved topic is written, so it reads the topic's old progress | roadmap R, subtopic P under R, task T under P, all at 0; save T with progress 100 | the parent is recomputed after the write, so P becomes 100 and the walk goes on to R | not executed | CascadeExample.AsWrittenLeavesParentStale | CascadeExample.FixedRepairsParent |
| api/src/services/topicService.js:142-146 | `updateRoadmap` copies every defined key, `parentId`, `ownerId` and `type` included | roadmap M with subtopic S; update M with `{ parentId: S }` | only content keys are updated, so the tree stays acyclic and the roadmap keeps its owner | not executed | UpdateExample.AsWrittenCreatesCycle | UpdateExample.CorrectedIgnoresParent |

The handlers `TopicController.CreateTopic` and `TopicController.UpdateTopic` follow the
code as written: they save through `TopicModel.TopicCollection.SaveAsWritten`, and a
roadmap update assigns every defined key. The corrected behaviour is modelled beside them:

- `TopicModel.TopicCollection.Save` writes first and then cascades.
  `TopicController.CreateTopicFixed` and `TopicController.UpdateTopicFixed` go through it.
- `TopicService.UpdateRoadmap` skips structural keys. Its `Valid()` postcondition shows the
  collection stays well formed, so no update can create a cycle.
