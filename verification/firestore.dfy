/**
 * The in-memory document store the routers run against when no Firestore
 * credentials are present: a global map from collection name to a map from
 * document id to document, changed in place by `add`, `set`, `update` and
 * `delete`, and read through snapshots and (optionally filtered) streams.
 */
module Firestore {
  import opened Values

  type Collection = map<string, Record>
  type Db = map<string, Collection>

  /** A single-field filter `where(field, operator, value)`. */
  datatype Filter = Filter(field: string, op: string, value: Value)

  /** A collection handle: the collection's name and at most one filter. */
  datatype CollectionRef = CollectionRef(name: string, filter: Option<Filter>)

  /** A document handle. */
  datatype DocRef = DocRef(collection: string, id: string)

  /** The database after a collection handle is constructed: the collection
      is created empty only when it is absent. */
  function Ensured(db: Db, name: string): (r: Db)
    ensures r.Keys == db.Keys + {name}
    ensures name !in db ==> r[name] == map[]
    ensures forall c :: c in db ==> r[c] == db[c]
  {
    if name in db then db else db[name := map[]]
  }

  /** The documents of a collection, empty when the collection is absent
      (`mock_db.get(name, {})`). */
  function Docs(db: Db, name: string): (c: Collection)
    ensures name in db ==> c == db[name]
    ensures name !in db ==> c == map[]
  {
    if name in db then db[name] else map[]
  }

  /** `where` builds a fresh handle on the same collection that holds only
      its own condition; the collection it re-constructs is already present. */
  function Where(c: CollectionRef, field: string, op: string, value: Value): (r: CollectionRef)
    ensures r.name == c.name && r.filter == Some(Filter(field, op, value))
  {
    CollectionRef(c.name, Some(Filter(field, op, value)))
  }

  /** Chaining `where` keeps only the last condition. */
  lemma WhereKeepsLastFilter(c: CollectionRef, f1: string, op1: string, v1: Value,
                             f2: string, op2: string, v2: Value)
    ensures Where(Where(c, f1, op1, v1), f2, op2, v2) == Where(c, f2, op2, v2)
  {
  }

  /** Whether a stream of a handle with this filter yields a document with
      this data: an unfiltered handle yields everything; a filtered one only
      documents that hold the field with a value equal to the given one under
      `==`, and nothing for any other operator. */
  predicate Matches(filter: Option<Filter>, data: Record) {
    match filter
    case None => true
    case Some(f) => f.field in data && f.op == "==" && PyEq(data[f.field], f.value)
  }

  /** The ids a stream yields. */
  function MatchingIds(coll: Collection, filter: Option<Filter>): (ids: set<string>)
    ensures forall k :: k in ids <==> k in coll && Matches(filter, coll[k])
  {
    set k | k in coll && Matches(filter, coll[k])
  }

  /** `collection.document(doc_id)`: the given id, or a fresh one (the
      `uuid4` text, supplied by the caller) when none is given. */
  function DocumentRef(c: CollectionRef, docId: Option<string>, freshId: string): (d: DocRef)
    ensures d.collection == c.name
    ensures docId.Some? ==> d.id == docId.value
    ensures docId.None? ==> d.id == freshId
  {
    DocRef(c.name, docId.GetOr(freshId))
  }

  /** The id `add` gives a document when the collection holds `size` documents. */
  function AddId(size: nat): string {
    "doc_" + NatToString(size + 1)
  }

  /** Different sizes give different ids. */
  lemma AddIdInjective(a: nat, b: nat)
    requires AddId(a) == AddId(b)
    ensures a == b
  {
    assert AddId(a)[4..] == NatToString(a + 1);
    assert AddId(b)[4..] == NatToString(b + 1);
    NatToStringInjective(a + 1, b + 1);
  }

  /** The first `n` ids `add` hands out: `doc_1` to `doc_<n>`. */
  function FirstAddIds(n: nat): set<string> {
    set i | 0 <= i < n :: AddId(i)
  }

  lemma {:induction false} FirstAddIdsCount(n: nat)
    ensures |FirstAddIds(n)| == n
  {
    if n > 0 {
      FirstAddIdsCount(n - 1);
      assert FirstAddIds(n) == FirstAddIds(n - 1) + {AddId(n - 1)};
      if AddId(n - 1) in FirstAddIds(n - 1) {
        var i :| 0 <= i < n - 1 && AddId(i) == AddId(n - 1);
        AddIdInjective(i, n - 1);
      }
    }
  }

  lemma SubsetCard<T>(a: set<T>, b: set<T>)
    requires a <= b
    ensures |a| <= |b|
  {
    assert b == a + (b - a);
  }

  /** `add` as written can reuse the id of a stored document: with `doc_1`
      and `doc_2` stored, deleting `doc_1` leaves one document, so the next
      `add` names its document `doc_2` and replaces the one stored there. */
  lemma AddAfterDeleteOverwrites(name: string, first: Record, second: Record, added: Record)
    ensures var db0: Db := map[name := map["doc_1" := first, "doc_2" := second]];
      var db1 := Deleted(db0, DocRef(name, "doc_1"));
      var id := AddId(|db1[name]|);
      && id == "doc_2" && id in db1[name]
      && Stored(db1, DocRef(name, id), added)[name] == map["doc_2" := added]
  {
    var db0: Db := map[name := map["doc_1" := first, "doc_2" := second]];
    var db1 := Deleted(db0, DocRef(name, "doc_1"));
    assert db1[name].Keys == {"doc_2"};
    assert db1[name] == map["doc_2" := second];
    assert |db1[name]| == 1;
    SecondAddId();
    var db2 := Stored(db1, DocRef(name, "doc_2"), added);
    assert db2[name].Keys == {"doc_2"};
  }

  lemma SecondAddId()
    ensures AddId(1) == "doc_2"
  {
    assert NatToString(2) == "2";
  }

  /** The ids of a streamed document list. */
  function IdsOf(docs: seq<(string, Record)>): set<string> {
    set i | 0 <= i < |docs| :: docs[i].0
  }

  predicate DistinctIds(docs: seq<(string, Record)>) {
    forall i, j :: 0 <= i < j < |docs| ==> docs[i].0 != docs[j].0
  }

  /** A document list that is exactly what a stream of `coll` under `filter`
      yields: every matching document once, with its stored data. */
  predicate IsStreamOf(docs: seq<(string, Record)>, coll: Collection, filter: Option<Filter>) {
    && DistinctIds(docs)
    && (forall i :: 0 <= i < |docs| ==> docs[i].0 in coll && docs[i].1 == coll[docs[i].0])
    && IdsOf(docs) == MatchingIds(coll, filter)
    && |docs| == |MatchingIds(coll, filter)|
  }

  lemma IdsOfAppend(docs: seq<(string, Record)>, id: string, data: Record)
    ensures IdsOf(docs + [(id, data)]) == IdsOf(docs) + {id}
  {
    var ext := docs + [(id, data)];
    forall k | k in IdsOf(ext) ensures k in IdsOf(docs) + {id} {
      var i :| 0 <= i < |ext| && ext[i].0 == k;
      if i < |docs| { assert docs[i].0 == k; }
    }
    forall k | k in IdsOf(docs) ensures k in IdsOf(ext) {
      var i :| 0 <= i < |docs| && docs[i].0 == k;
      assert ext[i].0 == k;
    }
    assert ext[|docs|].0 == id;
  }

  /** The database after `document(d).set(data)`: the document is replaced
      (or created) and nothing else changes. */
  function Stored(db: Db, d: DocRef, data: Record): (r: Db)
    requires d.collection in db
    ensures r.Keys == db.Keys
    ensures forall c :: c in db && c != d.collection ==> r[c] == db[c]
    ensures r[d.collection].Keys == db[d.collection].Keys + {d.id}
    ensures r[d.collection][d.id] == data
    ensures forall k :: k in db[d.collection] && k != d.id ==> r[d.collection][k] == db[d.collection][k]
  {
    db[d.collection := db[d.collection][d.id := data]]
  }

  /** The database after `document(d).update(fields)`: the fields are merged
      into the document when it exists, a missing document stays missing, and
      nothing else changes. */
  function Updated(db: Db, d: DocRef, fields: Record): (r: Db)
    requires d.collection in db
    ensures r.Keys == db.Keys
    ensures forall c :: c in db && c != d.collection ==> r[c] == db[c]
    ensures r[d.collection].Keys == db[d.collection].Keys
    ensures d.id in db[d.collection] ==> r[d.collection][d.id] == Merge(db[d.collection][d.id], fields)
    ensures forall k :: k in db[d.collection] && k != d.id ==> r[d.collection][k] == db[d.collection][k]
    ensures d.id !in db[d.collection] ==> r == db
  {
    if d.id in db[d.collection] then db[d.collection := db[d.collection][d.id := Merge(db[d.collection][d.id], fields)]]
    else db
  }

  /** The database after `document(d).delete()`: exactly that document is gone. */
  function Deleted(db: Db, d: DocRef): (r: Db)
    requires d.collection in db
    ensures r.Keys == db.Keys
    ensures forall c :: c in db && c != d.collection ==> r[c] == db[c]
    ensures r[d.collection].Keys == db[d.collection].Keys - {d.id}
    ensures forall k :: k in db[d.collection] && k != d.id ==> r[d.collection][k] == db[d.collection][k]
  {
    db[d.collection := db[d.collection] - {d.id}]
  }

  /** Deleting a document that is not there changes nothing. */
  lemma DeleteAbsentIsNoop(db: Db, d: DocRef)
    requires d.collection in db && d.id !in db[d.collection]
    ensures Deleted(db, d) == db
  {
    assert db[d.collection] - {d.id} == db[d.collection];
  }

  class MockFirestore {
    /** The global `mock_db`. */
    var db: Db

    constructor ()
      ensures db == map[]
    {
      db := map[];
    }

    /** `client.collection(name)`: constructing the handle creates the
        collection empty only if it is absent. */
    method Collection(name: string) returns (c: CollectionRef)
      modifies this
      ensures c == CollectionRef(name, None)
      ensures db == Ensured(old(db), name)
      ensures name in old(db) ==> db == old(db)
    {
      if name !in db {
        db := db[name := map[]];
      }
      c := CollectionRef(name, None);
    }

    /** `add(data)`: stores the data under `doc_<size + 1>` and returns that id. */
    method Add(c: CollectionRef, data: Record) returns (id: string)
      requires c.name in db
      modifies this
      ensures id == AddId(|old(db)[c.name]|)
      ensures db == Stored(old(db), DocRef(c.name, id), data)
    {
      id := AddId(|db[c.name]|);
      db := db[c.name := db[c.name][id := data]];
    }

    /** `add` with the id it evidently intends, one that no stored document
        has: the first of `doc_1`, `doc_2`, ... that is free.  It is found
        within the first `size + 1` candidates. */
    method AddFresh(c: CollectionRef, data: Record) returns (id: string)
      requires c.name in db
      modifies this
      ensures id !in old(db)[c.name]
      ensures db == Stored(old(db), DocRef(c.name, id), data)
      ensures |db[c.name]| == |old(db)[c.name]| + 1
    {
      var coll := db[c.name];
      var n: nat := 0;
      while AddId(n) in coll
        invariant db == old(db)
        invariant FirstAddIds(n) <= coll.Keys
        invariant n <= |coll|
        decreases |coll| - n
      {
        assert FirstAddIds(n + 1) == FirstAddIds(n) + {AddId(n)};
        FirstAddIdsCount(n + 1);
        SubsetCard(FirstAddIds(n + 1), coll.Keys);
        n := n + 1;
      }
      id := AddId(n);
      db := db[c.name := coll[id := data]];
    }

    /** `document.set(data)`. */
    method Set(d: DocRef, data: Record)
      requires d.collection in db
      modifies this
      ensures db == Stored(old(db), d, data)
    {
      db := db[d.collection := db[d.collection][d.id := data]];
    }

    /** `document.update(fields)`. */
    method Update(d: DocRef, fields: Record)
      requires d.collection in db
      modifies this
      ensures db == Updated(old(db), d, fields)
    {
      if d.id in db[d.collection] {
        var coll := db[d.collection];
        db := db[d.collection := coll[d.id := Merge(coll[d.id], fields)]];
      }
    }

    /** `document.delete()`. */
    method Delete(d: DocRef)
      requires d.collection in db
      modifies this
      ensures db == Deleted(old(db), d)
    {
      if d.id in db[d.collection] {
        db := db[d.collection := db[d.collection] - {d.id}];
      } else {
        DeleteAbsentIsNoop(db, d);
      }
    }

    /** `document.get().exists`. */
    predicate Exists(d: DocRef)
      reads this
    {
      d.id in Docs(db, d.collection)
    }

    /** `document.get().to_dict()`: the stored document, or the empty one. */
    function SnapshotToDict(d: DocRef): (r: Record)
      reads this
      requires d.collection in db
      ensures Exists(d) ==> r == db[d.collection][d.id]
      ensures !Exists(d) ==> r == map[]
    {
      if d.id in db[d.collection] then db[d.collection][d.id] else map[]
    }

    /** `stream()`: every document of the collection that the handle's filter
        lets through, each once, paired with its id. */
    method Stream(c: CollectionRef) returns (docs: seq<(string, Record)>)
      ensures IsStreamOf(docs, Docs(db, c.name), c.filter)
    {
      var coll := Docs(db, c.name);
      var remaining := coll.Keys;
      docs := [];
      while remaining != {}
        invariant StreamInv(docs, coll, c.filter, remaining)
        decreases remaining
      {
        var k :| k in remaining;
        StreamStep(docs, coll, c.filter, remaining, k);
        if Matches(c.filter, coll[k]) {
          docs := docs + [(k, coll[k])];
        }
        remaining := remaining - {k};
      }
    }
  }

  /** What a stream has built once the ids in `remaining` are still to visit. */
  predicate StreamInv(docs: seq<(string, Record)>, coll: Collection, filter: Option<Filter>, remaining: set<string>) {
    && remaining <= coll.Keys
    && DistinctIds(docs)
    && (forall i :: 0 <= i < |docs| ==> docs[i].0 in coll && docs[i].0 !in remaining && docs[i].1 == coll[docs[i].0])
    && IdsOf(docs) == MatchingIds(coll, filter) - remaining
    && |docs| == |IdsOf(docs)|
  }

  lemma StreamStep(docs: seq<(string, Record)>, coll: Collection, filter: Option<Filter>,
                   remaining: set<string>, k: string)
    requires StreamInv(docs, coll, filter, remaining) && k in remaining
    ensures Matches(filter, coll[k]) ==> StreamInv(docs + [(k, coll[k])], coll, filter, remaining - {k})
    ensures !Matches(filter, coll[k]) ==> StreamInv(docs, coll, filter, remaining - {k})
  {
    if Matches(filter, coll[k]) {
      StreamTake(docs, coll, filter, remaining, k);
    } else {
      StreamSkip(docs, coll, filter, remaining, k);
    }
  }

  /** Passing over a document the filter rejects keeps the invariant. */
  lemma StreamSkip(docs: seq<(string, Record)>, coll: Collection, filter: Option<Filter>,
                   remaining: set<string>, k: string)
    requires StreamInv(docs, coll, filter, remaining) && k in remaining
    requires !Matches(filter, coll[k])
    ensures StreamInv(docs, coll, filter, remaining - {k})
  {
    assert MatchingIds(coll, filter) - (remaining - {k}) == MatchingIds(coll, filter) - remaining;
  }

  /** Appending a document the filter lets through keeps the invariant. */
  lemma StreamTake(docs: seq<(string, Record)>, coll: Collection, filter: Option<Filter>,
                   remaining: set<string>, k: string)
    requires StreamInv(docs, coll, filter, remaining) && k in remaining
    requires Matches(filter, coll[k])
    ensures StreamInv(docs + [(k, coll[k])], coll, filter, remaining - {k})
  {
    var ext := docs + [(k, coll[k])];
    assert k !in IdsOf(docs);
    IdsOfAppend(docs, k, coll[k]);
    assert DistinctIds(ext) by {
      forall i, j | 0 <= i < j < |ext| ensures ext[i].0 != ext[j].0 {
        if j == |docs| {
          assert ext[i].0 in IdsOf(docs);
        }
      }
    }
    assert IdsOf(ext) == MatchingIds(coll, filter) - (remaining - {k});
    assert |IdsOf(ext)| == |IdsOf(docs)| + 1;
  }
}
