/**
 * The order router of the buyer backend: list, read, create, update,
 * delete, list-by-status and the status-only update used to track an
 * order through shipping and delivery.
 */
module Orders {
  import opened Values
  import opened Firestore
  import opened Schemas
  import opened Crud

  const OrdersCollection := "orders"
  const OrderNotFound := "Order not found"

  /** The stored form of a created order: the body plus both timestamps. */
  function NewOrderDoc(o: OrderCreate, now: string): (r: Record)
    ensures r.Keys == OrderRecord(o).Keys + {"createdAt", "updatedAt"}
    ensures r["createdAt"] == Time(now) && r["updatedAt"] == Time(now)
    ensures forall k :: k in OrderRecord(o) ==> r[k] == OrderRecord(o)[k]
  {
    OrderRecord(o)["createdAt" := Time(now)]["updatedAt" := Time(now)]
  }

  function OrderUpdateFields(o: OrderCreate, now: string): (r: Record)
    ensures r.Keys == OrderRecord(o).Keys + {"updatedAt"}
    ensures "createdAt" !in r && r["updatedAt"] == Time(now)
  {
    OrderRecord(o)["updatedAt" := Time(now)]
  }

  method GetOrders(store: MockFirestore) returns (resp: ListResponse)
    modifies store
    ensures store.db == Ensured(old(store.db), OrdersCollection)
    ensures IsListingOf(resp.data, store.db[OrdersCollection], None)
    ensures resp.count == |resp.data|
  {
    resp := ListAll(store, OrdersCollection);
  }

  method GetOrder(store: MockFirestore, orderId: string) returns (r: Result<Record, HttpError>)
    modifies store
    ensures store.db == Ensured(old(store.db), OrdersCollection)
    ensures r.Ok? <==> orderId in store.db[OrdersCollection]
    ensures r.Ok? ==> r.value == Tagged(orderId, store.db[OrdersCollection][orderId])
    ensures r.Err? ==> r.error == HttpError(404, OrderNotFound)
  {
    r := GetOne(store, OrdersCollection, orderId, OrderNotFound);
  }

  method CreateOrder(store: MockFirestore, o: OrderCreate, now: string, freshId: string)
    returns (created: Record)
    modifies store
    ensures store.db == Stored(Ensured(old(store.db), OrdersCollection),
                               DocRef(OrdersCollection, freshId), NewOrderDoc(o, now))
    ensures created == Tagged(freshId, NewOrderDoc(o, now))
  {
    created := CreateOne(store, OrdersCollection, NewOrderDoc(o, now), freshId);
  }

  method UpdateOrder(store: MockFirestore, orderId: string, o: OrderCreate, now: string)
    returns (r: Result<Record, HttpError>)
    modifies store
    ensures orderId !in Docs(old(store.db), OrdersCollection) ==>
      r == Err(HttpError(404, OrderNotFound)) && store.db == Ensured(old(store.db), OrdersCollection)
    ensures orderId in Docs(old(store.db), OrdersCollection) ==>
      r == Ok(Tagged(orderId, OrderUpdateFields(o, now)))
      && store.db == Updated(old(store.db), DocRef(OrdersCollection, orderId), OrderUpdateFields(o, now))
  {
    r := UpdateOne(store, OrdersCollection, orderId, OrderUpdateFields(o, now), OrderNotFound);
  }

  method DeleteOrder(store: MockFirestore, orderId: string) returns (r: Result<string, HttpError>)
    modifies store
    ensures orderId !in Docs(old(store.db), OrdersCollection) ==>
      r == Err(HttpError(404, OrderNotFound)) && store.db == Ensured(old(store.db), OrdersCollection)
    ensures orderId in Docs(old(store.db), OrdersCollection) ==>
      r == Ok("Order " + orderId + " deleted successfully")
      && store.db == Deleted(old(store.db), DocRef(OrdersCollection, orderId))
  {
    r := DeleteOne(store, OrdersCollection, orderId, OrderNotFound,
                   "Order " + orderId + " deleted successfully");
  }

  /** `get_orders_by_status` as written: the `filter=` call fails against
      the in-memory store, so every request answers 500. */
  method GetOrdersByStatus(store: MockFirestore, statusFilter: string)
    returns (r: Result<ListResponse, HttpError>)
    modifies store
    ensures store.db == Ensured(old(store.db), OrdersCollection)
    ensures r == Err(HttpError(500, "Error fetching orders by status: " + WhereKeywordError))
  {
    r := ListByStatusAsWritten(store, OrdersCollection, statusFilter, "Error fetching orders by status: ");
  }

  /** The intended status listing: the orders whose status is the one asked for. */
  method GetOrdersByStatusFixed(store: MockFirestore, statusFilter: string)
    returns (resp: ListResponse)
    modifies store
    ensures store.db == Ensured(old(store.db), OrdersCollection)
    ensures IsListingOf(resp.data, store.db[OrdersCollection], Some(Filter("status", "==", Str(statusFilter))))
    ensures resp.count == |resp.data|
  {
    resp := ListByStatus(store, OrdersCollection, statusFilter);
  }

  /** `new_status in ["pending", "shipped", "delivered", "cancelled"]`. */
  predicate ValidOrderStatus(v: Value) {
    v.Str? && ParseOrderStatus(v.s).Some?
  }

  /** Exactly the four order statuses are accepted, whatever else the body holds. */
  lemma ValidOrderStatusIff(v: Value)
    ensures ValidOrderStatus(v) <==>
      v in {Str("pending"), Str("shipped"), Str("delivered"), Str("cancelled")}
  {
  }

  /** What `update_order_status` answers and the database it leaves. */
  function OrderStatusSpec(db: Db, orderId: string, statusUpdate: Record, now: string)
    : (out: (Result<Record, HttpError>, Db))
    ensures OrdersCollection in out.1
  {
    var db0 := Ensured(db, OrdersCollection);
    if orderId !in db0[OrdersCollection] then (Err(HttpError(404, OrderNotFound)), db0)
    else
      var newStatus := Get(statusUpdate, "status", Null);
      if !ValidOrderStatus(newStatus) then (Err(HttpError(400, "Invalid status")), db0)
      else
        var d := DocRef(OrdersCollection, orderId);
        var db1 := Updated(db0, d, map["status" := newStatus, "updatedAt" := Time(now)]);
        (Ok(Tagged(orderId, db1[OrdersCollection][orderId])), db1)
  }

  /** `update_order_status`: check the order exists, check the status, write
      only the status and the update time, and answer with the re-read order. */
  method UpdateOrderStatus(store: MockFirestore, orderId: string, statusUpdate: Record, now: string)
    returns (r: Result<Record, HttpError>)
    modifies store
    ensures (r, store.db) == OrderStatusSpec(old(store.db), orderId, statusUpdate, now)
  {
    var c := store.Collection(OrdersCollection);
    var d := DocumentRef(c, Some(orderId), "");
    if !store.Exists(d) {
      return Err(HttpError(404, OrderNotFound));
    }
    var newStatus := Get(statusUpdate, "status", Null);
    if !ValidOrderStatus(newStatus) {
      return Err(HttpError(400, "Invalid status"));
    }
    store.Update(d, map["status" := newStatus, "updatedAt" := Time(now)]);
    var data := store.SnapshotToDict(d);
    r := Ok(Tagged(orderId, data));
  }

  /** A status update that succeeds sets the status and the update time of
      that order, keeps every other field of it, and leaves every other
      order and every other collection as they were. */
  lemma OrderStatusUpdateEffect(db: Db, orderId: string, statusUpdate: Record, now: string)
    requires orderId in Docs(db, OrdersCollection)
    requires ValidOrderStatus(Get(statusUpdate, "status", Null))
    ensures var (r, db1) := OrderStatusSpec(db, orderId, statusUpdate, now);
      && r.Ok?
      && r.value["status"] == statusUpdate["status"]
      && r.value["updatedAt"] == Time(now)
      && r.value["id"] == Str(orderId)
      && db1[OrdersCollection].Keys == db[OrdersCollection].Keys
      && (forall k :: k in db[OrdersCollection][orderId] && k != "status" && k != "updatedAt" ==>
            db1[OrdersCollection][orderId][k] == db[OrdersCollection][orderId][k])
      && (forall k :: k in db[OrdersCollection] && k != orderId ==>
            db1[OrdersCollection][k] == db[OrdersCollection][k])
      && (forall c :: c in db && c != OrdersCollection ==> c in db1 && db1[c] == db[c])
  {
  }

  /** A refused status update (unknown order or invalid status) changes no document. */
  lemma OrderStatusRefusalChangesNothing(db: Db, orderId: string, statusUpdate: Record, now: string)
    requires OrderStatusSpec(db, orderId, statusUpdate, now).0.Err?
    ensures var db1 := OrderStatusSpec(db, orderId, statusUpdate, now).1;
      forall c :: Docs(db1, c) == Docs(db, c)
    ensures var r := OrderStatusSpec(db, orderId, statusUpdate, now).0;
      r.error.status == 404 <==> orderId !in Docs(db, OrdersCollection)
  {
  }
}
