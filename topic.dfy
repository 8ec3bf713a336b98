/**
 * The Topic document: one polymorphic record for roadmaps, subtopics and tasks, how
 * values are cast when a path is set, and the bounds the schema enforces when a
 * document is saved.
 */
module Topics {
  import opened Common

  /** Document ids (ObjectIds) are opaque; naturals give an unbounded supply of them. */
  type Id = nat

  const ROADMAP: string := "roadmap"
  const SUBTOPIC: string := "subtopic"
  const TASK: string := "task"

  const PENDING: string := "pending"
  const IN_PROGRESS: string := "in-progress"
  const DONE: string := "done"

  /**
   * A stored topic. `kind` is the schema's `type` path; `description` is "" when absent;
   * `createdAt` and `updatedAt` are the store's timestamps, used only for ordering.
   * `kind` and `status` stay strings, as in the document, so that a value outside the
   * enumeration can reach validation and be rejected there.
   */
  datatype Topic = Topic(
    id: Id,
    kind: string,
    title: string,
    description: string,
    parentId: Option<Id>,
    ownerId: Id,
    progress: int,
    weight: int,
    status: string,
    isPublic: bool,
    createdAt: int,
    updatedAt: int)

  predicate KindValid(k: string)
  {
    k == ROADMAP || k == SUBTOPIC || k == TASK
  }

  predicate StatusValid(s: string)
  {
    s == PENDING || s == IN_PROGRESS || s == DONE
  }

  /**
   * What schema validation checks before a save: the type and status enumerations,
   * the required title, 0 <= progress <= 100 and weight >= 0.
   */
  predicate SchemaValid(t: Topic)
  {
    && KindValid(t.kind)
    && t.title != ""
    && 0 <= t.progress <= 100
    && t.weight >= 0
    && StatusValid(t.status)
  }

  // ---------------------------------------------------------------------------
  // `trim: true` on title and description: String.prototype.trim.

  /** White space and line terminators as `trim` strips them. */
  predicate IsSpace(c: char)
  {
    || ('\U{0009}' <= c <= '\U{000D}') || c == ' ' || c == '\U{00A0}' || c == '\U{1680}'
    || ('\U{2000}' <= c <= '\U{200A}') || c == '\U{2028}' || c == '\U{2029}' || c == '\U{202F}'
    || c == '\U{205F}' || c == '\U{3000}' || c == '\U{FEFF}'
  }

  function LeadingSpaces(s: string): (n: nat)
    ensures n <= |s|
    ensures forall i :: 0 <= i < n ==> IsSpace(s[i])
    ensures n < |s| ==> !IsSpace(s[n])
  {
    if s == [] || !IsSpace(s[0]) then 0 else 1 + LeadingSpaces(s[1..])
  }

  function TrailingSpaces(s: string): (n: nat)
    ensures n <= |s|
    ensures forall i :: |s| - n <= i < |s| ==> IsSpace(s[i])
    ensures n < |s| ==> !IsSpace(s[|s| - n - 1])
  {
    if s == [] || !IsSpace(s[|s| - 1]) then 0 else 1 + TrailingSpaces(s[..|s| - 1])
  }

  /**
   * The string without leading and trailing white space: a slice of `s` that drops only
   * white space on either side and itself neither starts nor ends with white space.
   */
  function Trim(s: string): (r: string)
    ensures exists a, b :: 0 <= a <= b <= |s| && r == s[a..b] && TrimmedAway(s, a, b)
    ensures r != [] ==> !IsSpace(r[0]) && !IsSpace(r[|r| - 1])
    ensures r == [] <==> forall i :: 0 <= i < |s| ==> IsSpace(s[i])
  {
    var rest := s[LeadingSpaces(s)..];
    TrimEnds(s, rest);
    rest[..|rest| - TrailingSpaces(rest)]
  }

  /** Everything of `s` outside `s[a..b]` is white space. */
  predicate TrimmedAway(s: string, a: nat, b: nat)
    requires a <= b <= |s|
  {
    forall i :: 0 <= i < |s| && (i < a || b <= i) ==> IsSpace(s[i])
  }

  /** What LeadingSpaces and TrailingSpaces guarantee about the string `Trim` keeps. */
  lemma TrimEnds(s: string, rest: string)
    requires rest == s[LeadingSpaces(s)..]
    ensures var r := rest[..|rest| - TrailingSpaces(rest)];
      && (exists a, b :: 0 <= a <= b <= |s| && r == s[a..b] && TrimmedAway(s, a, b))
      && (r != [] ==> !IsSpace(r[0]) && !IsSpace(r[|r| - 1]))
      && (r == [] <==> forall i :: 0 <= i < |s| ==> IsSpace(s[i]))
  {
    var l := LeadingSpaces(s);
    var n := |rest| - TrailingSpaces(rest);
    var r := rest[..n];
    assert r == s[l..l + n];
    forall i | 0 <= i < |s| && (i < l || l + n <= i) ensures IsSpace(s[i]) {
      if l + n <= i { assert s[i] == rest[i - l]; }
    }
    assert TrimmedAway(s, l, l + n);
    if r != [] {
      assert r[0] == s[l];
      assert r[|r| - 1] == rest[|rest| - TrailingSpaces(rest) - 1];
    }
  }

  /** Trimming a string that neither starts nor ends with white space leaves it as it is. */
  lemma TrimClean(s: string)
    requires s != [] ==> !IsSpace(s[0]) && !IsSpace(s[|s| - 1])
    ensures Trim(s) == s
  {
    assert s[0..] == s;
  }

  /** Trimming twice is trimming once. */
  lemma TrimIdempotent(s: string)
    ensures Trim(Trim(s)) == Trim(s)
  {
    TrimClean(Trim(s));
  }

  // ---------------------------------------------------------------------------
  // Setting paths of a document: `doc[key] = v` casts `v` to the path's type, then stores it.

  /**
   * The schema paths a body can set, and every other key. The automatic paths `_id`,
   * `createdAt` and `updatedAt` fall under `Other` too: an assignment to them is not modelled.
   */
  datatype Key = Type | Title | Description | ParentId | OwnerId | ProgressKey | Weight | Status | IsPublic | Other

  function KeyOf(name: string): Key
  {
    if name == "type" then Type
    else if name == "title" then Title
    else if name == "description" then Description
    else if name == "parentId" then ParentId
    else if name == "ownerId" then OwnerId
    else if name == "progress" then ProgressKey
    else if name == "weight" then Weight
    else if name == "status" then Status
    else if name == "isPublic" then IsPublic
    else Other
  }

  /** The schema's path names, as `KeyOf` reads them. */
  lemma KeyOfNames()
    ensures KeyOf("type") == Type && KeyOf("title") == Title && KeyOf("description") == Description
    ensures KeyOf("parentId") == ParentId && KeyOf("ownerId") == OwnerId && KeyOf("progress") == ProgressKey
    ensures KeyOf("weight") == Weight && KeyOf("status") == Status && KeyOf("isPublic") == IsPublic
  {
  }

  /**
   * The value path `k` holds after `doc[k] = v`, or None when `v` cannot be cast to the
   * path's type (the cast error fails the next validation). A key outside the schema is
   * ignored (strict mode) and holds nothing.
   */
  function Cast(k: Key, v: Value): (c: Option<Value>)
    ensures k == Other <==> c == Some(Undefined)
  {
    match k
    case Type => if v.Str? then Some(v) else None
    case Status => if v.Str? then Some(v) else None
    case Title => if v.Str? then Some(Str(Trim(v.s))) else None
    case Description => if v.Str? then Some(Str(Trim(v.s))) else if v.Null? then Some(Str("")) else None
    case ParentId => if v.Null? || (v.Num? && v.n >= 0) then Some(v) else None
    case OwnerId => if v.Num? && v.n >= 0 then Some(v) else None
    case ProgressKey => if v.Num? then Some(v) else None
    case Weight => if v.Num? then Some(v) else None
    case IsPublic => if v.Bool? then Some(v) else None
    case Other => Some(Undefined)
  }

  /** The value of path `k` of a document (`undefined` outside the schema). */
  function Path(t: Topic, k: Key): Value
  {
    match k
    case Type => Str(t.kind)
    case Title => Str(t.title)
    case Description => Str(t.description)
    case ParentId => if t.parentId.None? then Null else Num(t.parentId.value)
    case OwnerId => Num(t.ownerId)
    case ProgressKey => Num(t.progress)
    case Weight => Num(t.weight)
    case Status => Str(t.status)
    case IsPublic => Bool(t.isPublic)
    case Other => Undefined
  }

  /** Stores an already cast value `c` into path `k`. */
  function WithPath(t: Topic, k: Key, c: Value): (u: Topic)
    ensures u.id == t.id && u.createdAt == t.createdAt && u.updatedAt == t.updatedAt
  {
    match k
    case Type => if c.Str? then t.(kind := c.s) else t
    case Title => if c.Str? then t.(title := c.s) else t
    case Description => if c.Str? then t.(description := c.s) else t
    case ParentId =>
      if c.Null? then t.(parentId := None)
      else if c.Num? && c.n >= 0 then t.(parentId := Some(c.n as nat)) else t
    case OwnerId => if c.Num? && c.n >= 0 then t.(ownerId := c.n as nat) else t
    case ProgressKey => if c.Num? then t.(progress := c.n) else t
    case Weight => if c.Num? then t.(weight := c.n) else t
    case Status => if c.Str? then t.(status := c.s) else t
    case IsPublic => if c.Bool? then t.(isPublic := c.b) else t
    case Other => t
  }

  /**
   * `doc[key] = v`: assigning `undefined` changes nothing; otherwise it fails exactly on a
   * cast error, and the cast value lands in that path while every other path keeps its value.
   */
  function SetPath(t: Topic, key: string, v: Value): (r: Option<Topic>)
    ensures v == Undefined ==> r == Some(t)
    ensures v != Undefined ==> (r.Some? <==> Cast(KeyOf(key), v).Some?)
    ensures v != Undefined && r.Some? ==> Path(r.value, KeyOf(key)) == Cast(KeyOf(key), v).value
    ensures r.Some? ==> forall other :: other != KeyOf(key) ==> Path(r.value, other) == Path(t, other)
    ensures r.Some? ==> r.value.id == t.id && r.value.createdAt == t.createdAt && r.value.updatedAt == t.updatedAt
  {
    if v == Undefined then Some(t)
    else match Cast(KeyOf(key), v)
      case None => None
      case Some(c) => Some(WithPath(t, KeyOf(key), c))
  }

  /** The document a fresh `new Topic()` holds before any path is set: the schema's defaults. */
  function Blank(id: Id, now: int): (t: Topic)
    ensures t.progress == 0 && t.weight == 1 && t.status == PENDING && t.isPublic && t.parentId.None?
  {
    Topic(id, "", "", "", None, 0, 0, 1, PENDING, true, now, now)
  }

  /** `new Topic(data)`: the defaults, then every key of `data` set in order. */
  function Build(id: Id, data: Body, now: int): (r: Option<Topic>)
    ensures r.Some? ==> r.value.id == id && r.value.createdAt == now && r.value.updatedAt == now
  {
    ApplyAll(Blank(id, now), data)
  }

  /** The last value of `data` assigned to path `k` (an `undefined` value assigns nothing). */
  function LastSet(data: Body, k: Key): (r: Option<Value>)
    ensures r.Some? ==> r.value != Undefined
    ensures r.Some? ==> exists i :: 0 <= i < |data| && data[i].1 == r.value && KeyOf(data[i].0) == k
    ensures r.None? ==> forall i :: 0 <= i < |data| && KeyOf(data[i].0) == k ==> data[i].1 == Undefined
  {
    if data == [] then None
    else
      var n := |data| - 1;
      if KeyOf(data[n].0) == k && data[n].1 != Undefined then Some(data[n].1)
      else
        var r := LastSet(data[..n], k);
        assert forall i :: 0 <= i < n ==> data[..n][i] == data[i];
        r
  }

  /** A path that exactly one entry of `data` names gets that entry's value, if it is defined. */
  lemma LastSetSingle(data: Body, k: Key, i: nat)
    requires i < |data| && KeyOf(data[i].0) == k
    requires forall j :: 0 <= j < |data| && j != i ==> KeyOf(data[j].0) != k
    ensures LastSet(data, k) == if data[i].1 == Undefined then None else Some(data[i].1)
  {
  }

  /** Every value `data` assigns can be cast to its path. */
  predicate AllCast(data: Body)
  {
    forall i :: 0 <= i < |data| && data[i].1 != Undefined ==> Cast(KeyOf(data[i].0), data[i].1).Some?
  }

  /** A path that no entry of `data` names keeps its value through `ApplyAll`. */
  lemma ApplyAllKeeps(t: Topic, data: Body, k: Key)
    requires ApplyAll(t, data).Some?
    requires forall i :: 0 <= i < |data| ==> KeyOf(data[i].0) != k
    ensures Path(ApplyAll(t, data).value, k) == Path(t, k)
  {
    assert LastSet(data, k).None?;
  }

  /** Appending one entry to a body: it decides its path unless its value is `undefined`. */
  lemma LastSetSnoc(data: Body, e: (string, Value), k: Key)
    ensures LastSet(data + [e], k) == if KeyOf(e.0) == k && e.1 != Undefined then Some(e.1) else LastSet(data, k)
  {
    assert (data + [e])[..|data|] == data;
  }

  /** Appending one entry to a body adds exactly that entry's cast to what must succeed. */
  lemma AllCastSnoc(data: Body, e: (string, Value))
    ensures AllCast(data + [e]) <==> AllCast(data) && (e.1 != Undefined ==> Cast(KeyOf(e.0), e.1).Some?)
  {
    assert forall i :: 0 <= i < |data| ==> (data + [e])[i] == data[i];
    assert (data + [e])[|data|] == e;
  }

  /**
   * Sets every key of `data` in order. It fails exactly when some assigned value cannot be
   * cast; otherwise each path holds the cast of the last value assigned to it, and a path
   * nothing is assigned to keeps its value.
   */
  function ApplyAll(t: Topic, data: Body): (r: Option<Topic>)
    ensures r.Some? <==> AllCast(data)
    ensures r.Some? ==> forall k ::
      Path(r.value, k) == (if LastSet(data, k).Some? then Cast(k, LastSet(data, k).value).value else Path(t, k))
    ensures r.Some? ==> r.value.id == t.id && r.value.createdAt == t.createdAt && r.value.updatedAt == t.updatedAt
  {
    if data == [] then Some(t)
    else
      var n := |data| - 1;
      assert forall i :: 0 <= i < n ==> data[..n][i] == data[i];
      match ApplyAll(t, data[..n])
      case None => None
      case Some(t') => SetPath(t', data[n].0, data[n].1)
  }
}
