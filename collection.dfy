/**
 * The topics collection as the document store presents it: a sequence of documents in
 * natural order with unique ids, and the find / findOne / findById / save / deleteMany /
 * sort operations the core uses, as functions on that sequence.
 */
module Collection {
  import opened Common
  import opened Topics

  /** No two documents share an id. */
  predicate UniqueIds(docs: seq<Topic>)
  {
    forall i, j :: 0 <= i < |docs| && 0 <= j < |docs| && docs[i].id == docs[j].id ==> i == j
  }

  /** `find(filter)`: the matching documents, in natural order. */
  function Filter(docs: seq<Topic>, p: Topic -> bool): (r: seq<Topic>)
    ensures forall t :: t in r <==> t in docs && p(t)
    ensures |r| <= |docs|
  {
    if docs == [] then []
    else (if p(docs[0]) then [docs[0]] else []) + Filter(docs[1..], p)
  }

  /** Filtering distributes over concatenation: the survivors keep their relative order. */
  lemma {:induction false} FilterAppend(a: seq<Topic>, b: seq<Topic>, p: Topic -> bool)
    ensures Filter(a + b, p) == Filter(a, p) + Filter(b, p)
  {
    if a == [] {
      assert a + b == b;
    } else {
      assert (a + b)[1..] == a[1..] + b;
      FilterAppend(a[1..], b, p);
    }
  }

  /** Filtering depends only on what the predicate answers. */
  lemma {:induction false} FilterSamePredicate(docs: seq<Topic>, p: Topic -> bool, q: Topic -> bool)
    requires forall t :: t in docs ==> p(t) == q(t)
    ensures Filter(docs, p) == Filter(docs, q)
  {
    if docs != [] {
      FilterSamePredicate(docs[1..], p, q);
    }
  }

  /** `findOne(filter)`: the first matching document in natural order, if any. */
  function FindOne(docs: seq<Topic>, p: Topic -> bool): (r: Option<Topic>)
    ensures r.Some? <==> exists t :: t in docs && p(t)
    ensures r.Some? ==> r.value in docs && p(r.value)
    ensures r.Some? ==> r.value == Filter(docs, p)[0]
  {
    if docs == [] then None
    else if p(docs[0]) then Some(docs[0])
    else FindOne(docs[1..], p)
  }

  /** `findById(id)`: the document with that id, if any. */
  function Lookup(docs: seq<Topic>, id: Id): (r: Option<Topic>)
    ensures r.Some? ==> r.value in docs && r.value.id == id
    ensures r.None? ==> forall t :: t in docs ==> t.id != id
  {
    if docs == [] then None
    else if docs[0].id == id then Some(docs[0])
    else Lookup(docs[1..], id)
  }

  /** With unique ids, a document of the collection is what `findById` returns for its id. */
  lemma LookupUnique(docs: seq<Topic>, t: Topic)
    requires UniqueIds(docs) && t in docs
    ensures Lookup(docs, t.id) == Some(t)
  {
    var k :| 0 <= k < |docs| && docs[k] == t;
    var r := Lookup(docs, t.id);
    var j :| 0 <= j < |docs| && docs[j] == r.value;
    assert docs[j].id == docs[k].id;
  }

  /** Every document whose id is `t.id` replaced by `t`; the others untouched. */
  function Replace(docs: seq<Topic>, t: Topic): (r: seq<Topic>)
    ensures |r| == |docs|
    ensures forall i :: 0 <= i < |docs| ==> r[i] == if docs[i].id == t.id then t else docs[i]
  {
    seq(|docs|, i requires 0 <= i < |docs| => if docs[i].id == t.id then t else docs[i])
  }

  /** `save(doc)`: replace the stored document with the same id, or append a new one. */
  function Upsert(docs: seq<Topic>, t: Topic): (r: seq<Topic>)
  {
    if Lookup(docs, t.id).Some? then Replace(docs, t) else docs + [t]
  }

  lemma UpsertUnique(docs: seq<Topic>, t: Topic)
    requires UniqueIds(docs)
    ensures UniqueIds(Upsert(docs, t))
    ensures Lookup(Upsert(docs, t), t.id) == Some(t)
    ensures t in Upsert(docs, t)
  {
    var r := Upsert(docs, t);
    if Lookup(docs, t.id).None? {
      assert r[|docs|] == t;
    } else {
      var k :| 0 <= k < |docs| && docs[k] == Lookup(docs, t.id).value;
      assert r[k] == t;
    }
    LookupUnique(r, t);
  }

  /** What `save` leaves of the other documents: those with another id are exactly kept. */
  lemma UpsertOthers(docs: seq<Topic>, t: Topic, u: Topic)
    requires u.id != t.id
    ensures u in Upsert(docs, t) <==> u in docs
  {
    var r := Upsert(docs, t);
    if u in docs {
      var k :| 0 <= k < |docs| && docs[k] == u;
      assert r[k] == u;
    }
    if u in r {
      var k :| 0 <= k < |r| && r[k] == u;
      if k < |docs| { assert docs[k] == u; }
    }
  }

  /** A natural that no document uses, neither as its id nor as its parent reference. */
  function FreshId(docs: seq<Topic>): (r: Id)
    ensures forall t :: t in docs ==> t.id < r && (t.parentId.Some? ==> t.parentId.value < r)
  {
    if docs == [] then 0
    else
      var rest := FreshId(docs[1..]);
      var here := if docs[0].parentId.Some? && docs[0].parentId.value > docs[0].id
                  then docs[0].parentId.value + 1 else docs[0].id + 1;
      assert forall t :: t in docs ==> t == docs[0] || t in docs[1..];
      if here > rest then here else rest
  }

  /** `s` is ordered by ascending `key` (a descending sort uses the negated key). */
  predicate SortedBy(s: seq<Topic>, key: Topic -> int)
  {
    forall i, j :: 0 <= i < j < |s| ==> key(s[i]) <= key(s[j])
  }

  /** Places `t` before the first element of `s` whose key exceeds its own. */
  function InsertByKey(t: Topic, s: seq<Topic>, key: Topic -> int): (r: seq<Topic>)
    requires SortedBy(s, key)
    ensures SortedBy(r, key)
    ensures multiset(r) == multiset(s) + multiset{t}
  {
    if s == [] then [t]
    else if key(t) < key(s[0]) then [t] + s
    else
      var rest := InsertByKey(t, s[1..], key);
      assert multiset(s) == multiset{s[0]} + multiset(s[1..]) by { assert s == [s[0]] + s[1..]; }
      HeadBelowRest(t, s, rest, key);
      [s[0]] + rest
  }

  /** Sortedness step of InsertByKey: the head of `s` stays below every element of the tail it keeps. */
  lemma HeadBelowRest(t: Topic, s: seq<Topic>, rest: seq<Topic>, key: Topic -> int)
    requires s != [] && SortedBy(s, key) && key(s[0]) <= key(t)
    requires SortedBy(rest, key) && multiset(rest) == multiset(s[1..]) + multiset{t}
    ensures SortedBy([s[0]] + rest, key)
  {
    forall x | x in rest
      ensures key(s[0]) <= key(x)
    {
      assert x in multiset(rest);
      if x != t {
        assert x in multiset(s[1..]);
        var k :| 0 <= k < |s[1..]| && s[1..][k] == x;
        assert s[k + 1] == x;
      }
    }
    var r := [s[0]] + rest;
    forall i, j | 0 <= i < j < |r|
      ensures key(r[i]) <= key(r[j])
    {
      if i == 0 {
        assert r[j] == rest[j - 1];
        assert r[j] in rest;
      } else {
        assert r[i] == rest[i - 1] && r[j] == rest[j - 1];
      }
    }
  }

  /** `sort({ key: 1 })`: the same documents, ordered by ascending key. */
  function SortBy(s: seq<Topic>, key: Topic -> int): (r: seq<Topic>)
    ensures SortedBy(r, key)
    ensures multiset(r) == multiset(s)
    ensures forall t :: t in r <==> t in s
  {
    if s == [] then []
    else
      assert s == s[..|s| - 1] + [s[|s| - 1]];
      var r := InsertByKey(s[|s| - 1], SortBy(s[..|s| - 1], key), key);
      assert forall t :: t in r <==> t in multiset(r);
      assert forall t :: t in s <==> t in multiset(s);
      r
  }
}
