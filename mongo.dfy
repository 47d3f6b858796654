/**
 * A document collection of the store, as the handlers use it: an ordered sequence of
 * documents (the order `find` returns them in without a sort), each with its `_id`.
 * Only the operations the handlers call are given: filtering on `_id`, `updateOne`,
 * `deleteOne`, and `skip`/`limit` on a cursor.
 */
module Mongo {
  import opened Wrappers

  /** The text of an ObjectId; two ObjectIds are equal when their texts are. */
  type Id = string

  datatype Doc<B> = Doc(id: Id, fields: B)

  /** What `updateOne` reports. */
  datatype UpdateResult = UpdateResult(matchedCount: nat, modifiedCount: nat)

  /**
   * Whether `d` satisfies the filter `{ _id: new ObjectId(key) }`. A missing key
   * (`new ObjectId(undefined)`) is a freshly generated id, which no stored document has.
   */
  predicate Matches<B>(d: Doc<B>, key: Option<Id>) {
    key == Some(d.id)
  }

  /** `_id` is a unique index in every collection. */
  ghost predicate UniqueIds<B>(docs: seq<Doc<B>>) {
    forall i, j :: 0 <= i < j < |docs| ==> docs[i].id != docs[j].id
  }

  predicate IdUnused<B>(docs: seq<Doc<B>>, id: Id) {
    forall i :: 0 <= i < |docs| ==> docs[i].id != id
  }

  /** `docs[i]` is the first document, in collection order, that the filter selects. */
  ghost predicate IsFirstMatch<B>(docs: seq<Doc<B>>, key: Option<Id>, i: int) {
    0 <= i < |docs| && Matches(docs[i], key) && forall j :: 0 <= j < i ==> !Matches(docs[j], key)
  }

  ghost predicate AnyMatch<B>(docs: seq<Doc<B>>, key: Option<Id>) {
    exists i :: 0 <= i < |docs| && Matches(docs[i], key)
  }

  /** The position of the first document the filter selects, if any. */
  function FirstMatch<B>(docs: seq<Doc<B>>, key: Option<Id>): (r: Option<nat>)
    ensures r.Some? ==> IsFirstMatch(docs, key, r.value)
    ensures r.None? <==> !AnyMatch(docs, key)
  {
    if docs == [] then None
    else if Matches(docs[0], key) then Some(0)
    else match FirstMatch(docs[1..], key)
      case None => None
      case Some(i) => Some(i + 1)
  }

  /** Under a unique `_id`, the document carrying the key is the first match. */
  lemma UniqueMatchIsFirst<B>(docs: seq<Doc<B>>, key: Option<Id>, i: int)
    requires UniqueIds(docs) && 0 <= i < |docs| && Matches(docs[i], key)
    ensures IsFirstMatch(docs, key, i)
  {
  }

  /**
   * `updateOne(filter, update)`: the first selected document gets its fields passed
   * through `update`, every other document and every `_id` stay as they were; a filter
   * that selects nothing changes nothing. `modifiedCount` is 1 exactly when the
   * collection changed.
   */
  function UpdateOne<B(==)>(docs: seq<Doc<B>>, key: Option<Id>, update: B -> B): (r: (seq<Doc<B>>, UpdateResult))
    ensures |r.0| == |docs|
    ensures forall i :: 0 <= i < |docs| ==> r.0[i].id == docs[i].id
    ensures forall i :: 0 <= i < |docs| ==>
      r.0[i].fields == if IsFirstMatch(docs, key, i) then update(docs[i].fields) else docs[i].fields
    ensures r.1.matchedCount == (if AnyMatch(docs, key) then 1 else 0)
    ensures r.1.modifiedCount == (if r.0 == docs then 0 else 1)
  {
    match FirstMatch(docs, key)
    case None => (docs, UpdateResult(0, 0))
    case Some(i) =>
      var d := Doc(docs[i].id, update(docs[i].fields));
      var changed := d != docs[i];
      assert changed ==> docs[i := d][i] != docs[i];
      (docs[i := d], UpdateResult(1, if changed then 1 else 0))
  }

  /** Two updates through the same filter reach the same document: the first match depends only on `_id`s. */
  lemma {:induction false} UpdateTwice<B>(docs: seq<Doc<B>>, key: Option<Id>, f: B -> B, g: B -> B, i: int)
    requires IsFirstMatch(docs, key, i)
    ensures var once := UpdateOne(docs, key, f).0;
      IsFirstMatch(once, key, i) && UpdateOne(once, key, g).0[i].fields == g(f(docs[i].fields))
  {
    var once := UpdateOne(docs, key, f).0;
    assert forall j :: 0 <= j < i ==> once[j].id == docs[j].id;
  }

  /** Repeating an update whose second application changes nothing leaves the collection as the first left it. */
  lemma {:induction false} UpdateAgainUnchanged<B>(docs: seq<Doc<B>>, key: Option<Id>, f: B -> B, i: int)
    requires IsFirstMatch(docs, key, i) && f(f(docs[i].fields)) == f(docs[i].fields)
    ensures var once := UpdateOne(docs, key, f).0;
      UpdateOne(once, key, f) == (once, UpdateResult(1, 0))
  {
    var once := UpdateOne(docs, key, f).0;
    UpdateTwice(docs, key, f, f, i);
    var twice := UpdateOne(once, key, f).0;
    assert twice == once by {
      forall j | 0 <= j < |once| ensures twice[j] == once[j] {
        if j != i {
          assert !IsFirstMatch(once, key, j);
        }
      }
    }
  }

  /** An update never changes which `_id`s a collection holds, so it keeps them unique. */
  lemma UpdateOneKeepsUniqueIds<B>(docs: seq<Doc<B>>, key: Option<Id>, update: B -> B)
    requires UniqueIds(docs)
    ensures UniqueIds(UpdateOne(docs, key, update).0)
  {
  }

  /**
   * `deleteOne(filter)`: removes the first selected document and reports how many
   * were deleted (0 or 1).
   */
  function DeleteOne<B>(docs: seq<Doc<B>>, key: Option<Id>): (r: (seq<Doc<B>>, nat))
    ensures r.1 == (if AnyMatch(docs, key) then 1 else 0)
    ensures |r.0| == |docs| - r.1
    ensures r.1 == 0 ==> r.0 == docs
    ensures forall d :: d in r.0 ==> d in docs && (UniqueIds(docs) ==> !Matches(d, key))
    ensures forall d :: d in docs && !Matches(d, key) ==> d in r.0
  {
    match FirstMatch(docs, key)
    case None => (docs, 0)
    case Some(i) =>
      var rest := docs[..i] + docs[i + 1..];
      assert forall d :: d in rest ==> d in docs[..i] || d in docs[i + 1..];
      assert forall d :: d in docs && !Matches(d, key) ==> d in rest by {
        forall d | d in docs && !Matches(d, key) ensures d in rest {
          var k :| 0 <= k < |docs| && docs[k] == d;
          if k < i { assert rest[k] == d; } else { assert k > i && rest[k - 1] == d; }
        }
      }
      (rest, 1)
  }

  lemma {:induction false} DeleteOneKeepsUniqueIds<B>(docs: seq<Doc<B>>, key: Option<Id>)
    requires UniqueIds(docs)
    ensures UniqueIds(DeleteOne(docs, key).0)
  {
    var r := DeleteOne(docs, key).0;
    match FirstMatch(docs, key)
    case None =>
    case Some(i) =>
      assert r == docs[..i] + docs[i + 1..];
      forall a, b | 0 <= a < b < |r| ensures r[a].id != r[b].id {
        var a' := if a < i then a else a + 1;
        var b' := if b < i then b else b + 1;
        assert r[a] == docs[a'] && r[b] == docs[b'] && a' < b';
      }
  }

  /** `insertOne` with a fresh `_id` appends the document. */
  lemma InsertKeepsUniqueIds<B>(docs: seq<Doc<B>>, d: Doc<B>)
    requires UniqueIds(docs) && IdUnused(docs, d.id)
    ensures UniqueIds(docs + [d])
  {
  }

  function Min(a: nat, b: nat): nat { if a <= b then a else b }

  /**
   * `cursor.skip(skip).limit(limit)`: at most `limit` consecutive elements, starting
   * at position `skip`; nothing when `skip` is past the end.
   */
  function SkipLimit<T>(s: seq<T>, skip: nat, limit: nat): (r: seq<T>)
    ensures |r| == if skip >= |s| then 0 else Min(limit, |s| - skip)
    ensures forall i :: 0 <= i < |r| ==> skip + i < |s| && r[i] == s[skip + i]
  {
    if skip >= |s| then [] else s[skip..][..Min(limit, |s| - skip)]
  }
}
