/**
 * The request handling that the campaign and order routers share, written
 * once over a collection name: list every document (each tagged with its
 * id), read one, create one under a fresh id, update one, delete one, and
 * list by status.  Each handler first constructs the collection handle,
 * which creates the collection when it is absent.
 */
module Crud {
  import opened Values
  import opened Firestore

  /** An `HTTPException(status_code, detail)`. */
  datatype HttpError = HttpError(status: nat, detail: string)

  /** `ListResponse(data, count)`. */
  datatype ListResponse = ListResponse(data: seq<Record>, count: nat)

  /** A document as a handler returns it: its data with `id` set to the
      document id (`data["id"] = doc.id`). */
  function Tagged(id: string, data: Record): (t: Record)
    ensures t.Keys == data.Keys + {"id"}
    ensures t["id"] == Str(id)
    ensures forall k :: k in data && k != "id" ==> t[k] == data[k]
  {
    data["id" := Str(id)]
  }

  /** The id a tagged document carries. */
  function IdOf(t: Record): string {
    if "id" in t && t["id"].Str? then t["id"].s else ""
  }

  lemma IdOfTagged(id: string, data: Record)
    ensures IdOf(Tagged(id, data)) == id
  {
  }

  /** `data` lists the documents of `coll` that `filter` lets through: each
      one once, tagged with its id, and no other. */
  predicate IsListingOf(data: seq<Record>, coll: Collection, filter: Option<Filter>) {
    && |data| == |MatchingIds(coll, filter)|
    && (forall i :: 0 <= i < |data| ==>
          IdOf(data[i]) in coll && Matches(filter, coll[IdOf(data[i])])
          && data[i] == Tagged(IdOf(data[i]), coll[IdOf(data[i])]))
    && (forall i, j :: 0 <= i < j < |data| ==> IdOf(data[i]) != IdOf(data[j]))
  }

  /** The listing loop of every list handler: tag each streamed document
      with its id, in stream order. */
  method TagDocs(docs: seq<(string, Record)>) returns (data: seq<Record>)
    ensures |data| == |docs|
    ensures forall i :: 0 <= i < |docs| ==> data[i] == Tagged(docs[i].0, docs[i].1)
  {
    data := [];
    for i := 0 to |docs|
      invariant |data| == i
      invariant forall j :: 0 <= j < i ==> data[j] == Tagged(docs[j].0, docs[j].1)
    {
      data := data + [Tagged(docs[i].0, docs[i].1)];
    }
  }

  /** Tagging a stream gives a listing of what was streamed. */
  lemma TaggedStreamIsListing(docs: seq<(string, Record)>, data: seq<Record>,
                              coll: Collection, filter: Option<Filter>)
    requires IsStreamOf(docs, coll, filter)
    requires |data| == |docs|
    requires forall i :: 0 <= i < |docs| ==> data[i] == Tagged(docs[i].0, docs[i].1)
    ensures IsListingOf(data, coll, filter)
  {
    forall i | 0 <= i < |data|
      ensures IdOf(data[i]) == docs[i].0
    {
      IdOfTagged(docs[i].0, docs[i].1);
    }
    forall i | 0 <= i < |data|
      ensures IdOf(data[i]) in coll && Matches(filter, coll[IdOf(data[i])])
    {
      assert docs[i].0 in IdsOf(docs);
    }
  }

  /** The ids a listing carries. */
  function ListedIds(data: seq<Record>): set<string> {
    set i | 0 <= i < |data| :: IdOf(data[i])
  }

  lemma {:induction false} DistinctIdsCount(data: seq<Record>)
    requires forall i, j :: 0 <= i < j < |data| ==> IdOf(data[i]) != IdOf(data[j])
    ensures |ListedIds(data)| == |data|
    decreases |data|
  {
    if data != [] {
      var init := data[..|data| - 1];
      DistinctIdsCount(init);
      assert ListedIds(data) == ListedIds(init) + {IdOf(data[|data| - 1])} by {
        forall k | k in ListedIds(data) ensures k in ListedIds(init) + {IdOf(data[|data| - 1])} {
          var i :| 0 <= i < |data| && IdOf(data[i]) == k;
          if i < |init| { assert IdOf(init[i]) == k; }
        }
        forall k | k in ListedIds(init) ensures k in ListedIds(data) {
          var i :| 0 <= i < |init| && IdOf(init[i]) == k;
          assert IdOf(data[i]) == k;
        }
        assert IdOf(data[|data| - 1]) in ListedIds(data);
      }
      assert IdOf(data[|data| - 1]) !in ListedIds(init);
    }
  }

  /** A listing is complete: every document the filter lets through is in it. */
  lemma ListingIsComplete(data: seq<Record>, coll: Collection, filter: Option<Filter>, k: string)
    requires IsListingOf(data, coll, filter)
    requires k in coll && Matches(filter, coll[k])
    ensures exists i :: 0 <= i < |data| && IdOf(data[i]) == k && data[i] == Tagged(k, coll[k])
  {
    DistinctIdsCount(data);
    var listed := ListedIds(data);
    var matching := MatchingIds(coll, filter);
    assert listed <= matching;
    if k !in listed {
      assert listed <= matching - {k};
      assert |listed| <= |matching - {k}| by {
        SubsetCard(listed, matching - {k});
      }
      assert false;
    }
  }

  /** List every document of a collection (`get_campaigns`, `get_orders`). */
  method ListAll(store: MockFirestore, name: string) returns (resp: ListResponse)
    modifies store
    ensures store.db == Ensured(old(store.db), name)
    ensures IsListingOf(resp.data, store.db[name], None)
    ensures resp.count == |resp.data|
  {
    var c := store.Collection(name);
    var docs := store.Stream(c);
    var data := TagDocs(docs);
    TaggedStreamIsListing(docs, data, store.db[name], None);
    resp := ListResponse(data, |data|);
  }

  /** Read one document; 404 with `notFound` when it does not exist. */
  method GetOne(store: MockFirestore, name: string, id: string, notFound: string)
    returns (r: Result<Record, HttpError>)
    modifies store
    ensures store.db == Ensured(old(store.db), name)
    ensures r.Ok? <==> id in store.db[name]
    ensures r.Ok? ==> r.value == Tagged(id, store.db[name][id])
    ensures r.Err? ==> r.error == HttpError(404, notFound)
  {
    var c := store.Collection(name);
    var d := DocumentRef(c, Some(id), "");
    if !store.Exists(d) {
      return Err(HttpError(404, notFound));
    }
    var data := store.SnapshotToDict(d);
    r := Ok(Tagged(id, data));
  }

  /** Store a new document under a fresh id (`collection.document()` picks
      the `uuid4` text, given here as `freshId`) and return it tagged. */
  method CreateOne(store: MockFirestore, name: string, data: Record, freshId: string)
    returns (created: Record)
    modifies store
    ensures store.db == Stored(Ensured(old(store.db), name), DocRef(name, freshId), data)
    ensures created == Tagged(freshId, data)
  {
    var c := store.Collection(name);
    var d := DocumentRef(c, None, freshId);
    store.Set(d, data);
    created := Tagged(d.id, data);
  }

  /** Merge the submitted data into an existing document; the response is
      the submitted data tagged with the id, not the merged document. */
  method UpdateOne(store: MockFirestore, name: string, id: string, data: Record, notFound: string)
    returns (r: Result<Record, HttpError>)
    modifies store
    ensures id !in Docs(old(store.db), name) ==>
      r == Err(HttpError(404, notFound)) && store.db == Ensured(old(store.db), name)
    ensures id in Docs(old(store.db), name) ==>
      r == Ok(Tagged(id, data)) && store.db == Updated(old(store.db), DocRef(name, id), data)
  {
    var c := store.Collection(name);
    var d := DocumentRef(c, Some(id), "");
    if !store.Exists(d) {
      return Err(HttpError(404, notFound));
    }
    store.Update(d, data);
    r := Ok(Tagged(id, data));
  }

  /** Delete an existing document; 404 with `notFound` when it does not exist. */
  method DeleteOne(store: MockFirestore, name: string, id: string, notFound: string, message: string)
    returns (r: Result<string, HttpError>)
    modifies store
    ensures id !in Docs(old(store.db), name) ==>
      r == Err(HttpError(404, notFound)) && store.db == Ensured(old(store.db), name)
    ensures id in Docs(old(store.db), name) ==>
      r == Ok(message) && store.db == Deleted(old(store.db), DocRef(name, id))
  {
    var c := store.Collection(name);
    var d := DocumentRef(c, Some(id), "");
    if !store.Exists(d) {
      return Err(HttpError(404, notFound));
    }
    store.Delete(d);
    r := Ok(message);
  }

  /** The text of the `TypeError` raised by calling the store's `where` with
      a `filter=` keyword argument, which it does not accept. */
  const WhereKeywordError := "MockFirestoreCollection.where() got an unexpected keyword argument 'filter'"

  /** The status listing as written (`where(filter=FieldFilter(...))`): against
      the in-memory store the call raises, so the handler always answers 500. */
  method ListByStatusAsWritten(store: MockFirestore, name: string, status: string, errorPrefix: string)
    returns (r: Result<ListResponse, HttpError>)
    modifies store
    ensures store.db == Ensured(old(store.db), name)
    ensures r == Err(HttpError(500, errorPrefix + WhereKeywordError))
  {
    var c := store.Collection(name);
    r := Err(HttpError(500, errorPrefix + WhereKeywordError));
  }

  /** The status listing with the filter passed the way the store accepts it
      (`where("status", "==", status)`): the documents whose status is `status`. */
  method ListByStatus(store: MockFirestore, name: string, status: string)
    returns (resp: ListResponse)
    modifies store
    ensures store.db == Ensured(old(store.db), name)
    ensures IsListingOf(resp.data, store.db[name], Some(Filter("status", "==", Str(status))))
    ensures resp.count == |resp.data|
  {
    var c := store.Collection(name);
    var q := Where(c, "status", "==", Str(status));
    var docs := store.Stream(q);
    var data := TagDocs(docs);
    TaggedStreamIsListing(docs, data, store.db[name], q.filter);
    resp := ListResponse(data, |data|);
  }

  /** Under the status filter, a listed document has exactly that status. */
  lemma StatusListingHasStatus(data: seq<Record>, coll: Collection, status: string, i: int)
    requires IsListingOf(data, coll, Some(Filter("status", "==", Str(status))))
    requires 0 <= i < |data|
    ensures "status" in data[i] && data[i]["status"] == Str(status)
  {
    var k := IdOf(data[i]);
    assert Matches(Some(Filter("status", "==", Str(status))), coll[k]);
  }
}
