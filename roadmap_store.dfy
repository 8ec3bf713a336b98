/**
 * The client's roadmap list store: the list of roadmaps, a loading flag and an error
 * message, changed by four actions around a call to the API. Every action has two steps:
 * `Begin` before the call is awaited, and a completion that receives the call's outcome.
 */
module RoadmapStore {
  import opened Common
  import opened Topics
  import opened Collection

  /**
   * How an API call ended: with its response (the part the action reads), or with an
   * error whose `response.data.message` is given when present and non-empty.
   */
  datatype Outcome<T> = Success(response: T) | Failure(message: Option<string>)

  /** `error.response?.data?.message || fallback`. */
  function ErrorMessage(message: Option<string>, fallback: string): (r: string)
    ensures message.Some? && message.value != "" ==> r == message.value
    ensures message.None? || message.value == "" ==> r == fallback
  {
    if message.Some? && message.value != "" then message.value else fallback
  }

  /** `findIndex(r => r._id === id)`: the first position holding `id`, or -1. */
  function FindIndex(roadmaps: seq<Topic>, id: Id): (k: int)
    ensures -1 <= k < |roadmaps|
    ensures k == -1 <==> forall i :: 0 <= i < |roadmaps| ==> roadmaps[i].id != id
    ensures k >= 0 ==> roadmaps[k].id == id && forall i :: 0 <= i < k ==> roadmaps[i].id != id
  {
    if roadmaps == [] then -1
    else if roadmaps[0].id == id then 0
    else
      var k := FindIndex(roadmaps[1..], id);
      if k == -1 then -1 else k + 1
  }

  class Store {
    var roadmaps: seq<Topic>
    var loading: bool
    var error: Option<string>

    constructor ()
      ensures roadmaps == [] && !loading && error.None?
    {
      roadmaps := [];
      loading := false;
      error := None;
    }

    /** What every action does before awaiting the API: set loading, clear the error. */
    method Begin()
      modifies this
      ensures loading && error.None? && roadmaps == old(roadmaps)
    {
      loading := true;
      error := None;
    }

    /** Failure path of every action: record the message; `finally` clears loading; the error is rethrown. */
    method Fail(message: Option<string>, fallback: string)
      modifies this
      ensures !loading && error == Some(ErrorMessage(message, fallback)) && roadmaps == old(roadmaps)
    {
      error := Some(ErrorMessage(message, fallback));
      loading := false;
    }

    /** `fetchRoadmaps`: replace the list with the response's roadmaps, or [] when absent. */
    method FetchRoadmaps(outcome: Outcome<Option<seq<Topic>>>) returns (thrown: bool)
      modifies this
      ensures !loading
      ensures thrown <==> outcome.Failure?
      ensures outcome.Success? ==> (error.None?
        && roadmaps == (if outcome.response.Some? then outcome.response.value else []))
      ensures outcome.Failure? ==>
        error == Some(ErrorMessage(outcome.message, "Error fetching roadmaps")) && roadmaps == old(roadmaps)
    {
      Begin();
      if outcome.Failure? {
        Fail(outcome.message, "Error fetching roadmaps");
        return true;
      }
      roadmaps := if outcome.response.Some? then outcome.response.value else [];
      loading := false;
      return false;
    }

    /** `createRoadmap`: append the created roadmap when the response holds one; return it. */
    method CreateRoadmap(outcome: Outcome<Option<Topic>>) returns (r: Result<Option<Topic>, string>)
      modifies this
      ensures !loading
      ensures outcome.Success? ==> (error.None? && r == Ok(outcome.response)
        && roadmaps == old(roadmaps) + (if outcome.response.Some? then [outcome.response.value] else []))
      ensures outcome.Failure? ==> (roadmaps == old(roadmaps)
        && error == Some(ErrorMessage(outcome.message, "Error creating roadmap")) && r == Err(error.value))
    {
      Begin();
      if outcome.Failure? {
        Fail(outcome.message, "Error creating roadmap");
        return Err(error.value);
      }
      var created := outcome.response;
      if created.Some? {
        roadmaps := roadmaps + [created.value];
      }
      loading := false;
      return Ok(created);
    }

    /**
     * `updateRoadmap`: when the response holds the updated roadmap, put it in place of the
     * first roadmap with that id, if any; return it.
     */
    method UpdateRoadmap(id: Id, outcome: Outcome<Option<Topic>>) returns (r: Result<Option<Topic>, string>)
      modifies this
      ensures !loading && |roadmaps| == |old(roadmaps)|
      ensures outcome.Success? ==> (error.None? && r == Ok(outcome.response)
        && roadmaps == ReplaceFirst(old(roadmaps), id, outcome.response))
      ensures outcome.Failure? ==> (roadmaps == old(roadmaps)
        && error == Some(ErrorMessage(outcome.message, "Error updating roadmap")) && r == Err(error.value))
    {
      Begin();
      if outcome.Failure? {
        Fail(outcome.message, "Error updating roadmap");
        return Err(error.value);
      }
      var updated := outcome.response;
      if updated.Some? {
        var index := FindIndex(roadmaps, id);
        if index != -1 {
          roadmaps := roadmaps[index := updated.value];
        }
      }
      loading := false;
      return Ok(updated);
    }

    /** `deleteRoadmap`: drop every roadmap with that id, keeping the others in order. */
    method DeleteRoadmap(id: Id, outcome: Outcome<()>) returns (thrown: bool)
      modifies this
      ensures !loading
      ensures thrown <==> outcome.Failure?
      ensures outcome.Success? ==> error.None? && roadmaps == WithoutId(old(roadmaps), id)
      ensures outcome.Failure? ==>
        error == Some(ErrorMessage(outcome.message, "Error deleting roadmap")) && roadmaps == old(roadmaps)
    {
      Begin();
      if outcome.Failure? {
        Fail(outcome.message, "Error deleting roadmap");
        return true;
      }
      roadmaps := Filter(roadmaps, (r: Topic) => r.id != id);
      loading := false;
      return false;
    }
  }

  /** The list after a successful update: the first roadmap with that id replaced, nothing else changed. */
  function ReplaceFirst(roadmaps: seq<Topic>, id: Id, updated: Option<Topic>): (r: seq<Topic>)
    ensures |r| == |roadmaps|
    ensures forall i :: 0 <= i < |roadmaps| ==>
      r[i] == (if updated.Some? && i == FindIndex(roadmaps, id) then updated.value else roadmaps[i])
  {
    var index := FindIndex(roadmaps, id);
    if updated.Some? && index != -1 then roadmaps[index := updated.value] else roadmaps
  }

  /** The list after a successful delete: the roadmaps whose id differs, in their order. */
  function WithoutId(roadmaps: seq<Topic>, id: Id): (r: seq<Topic>)
    ensures forall t :: t in r <==> t in roadmaps && t.id != id
  {
    Filter(roadmaps, (r: Topic) => r.id != id)
  }

  /** Deleting works piecewise: the survivors of a concatenation are the survivors of each part, in order. */
  lemma WithoutIdAppend(a: seq<Topic>, b: seq<Topic>, id: Id)
    ensures WithoutId(a + b, id) == WithoutId(a, id) + WithoutId(b, id)
  {
    FilterAppend(a, b, (r: Topic) => r.id != id);
  }
}
