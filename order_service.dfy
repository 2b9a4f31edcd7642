/** server/src/services/order.service.ts: the order query builder, the order lookups, the
    bulk insert with its sync job, and the status update with its follow-up jobs. A single
    insert (`createOrder`) is the store's `InsertOrder`; `getOrderOrderKey` is the store's
    `FindOrderByKey`. */
module Orders {
  import opened Wrappers
  import opened Domain
  import opened Seqs
  import opened Store
  import opened Constants
  import opened Queues
  import Products

  /** The query string of `GET /orders`. */
  datatype OrderQuery = OrderQuery(
    search: Option<string>, status: Option<string>, sortBy: Option<string>,
    sortOrder: Option<string>, lineItem: Option<string>)

  /** The `find` filter and `sort` object `getOrders` builds; `None` is an absent key. */
  datatype OrderFind = OrderFind(
    status: Option<string>, lineItem: Option<string>, textSearch: Option<string>, sort: Products.SortSpec)

  /** The sort fields `getOrders` accepts. */
  predicate SortableField(s: Option<string>) {
    s == Some("total") || s == Some("date_created")
  }

  /** `getOrders`' query and sort construction. `isValidId` is `Types.ObjectId.isValid`. */
  function GetOrdersQuery(q: OrderQuery, isValidId: string -> bool): (r: OrderFind)
    ensures r.status.Some? <==> Truthy(q.status)
    ensures r.status.Some? ==> r.status == q.status
    ensures r.lineItem.Some? <==> Truthy(q.lineItem) && isValidId(q.lineItem.value)
    ensures r.lineItem.Some? ==> r.lineItem == q.lineItem
    ensures r.textSearch.Some? <==> Truthy(q.search)
    ensures r.textSearch.Some? ==> r.textSearch == q.search
    ensures SortableField(q.sortBy) ==> Some(r.sort.field) == q.sortBy
    ensures !SortableField(q.sortBy) ==> r.sort.field == "date_created"
    ensures r.sort.direction == 1 <==> q.sortOrder == Some("asc")
    ensures r.sort.direction == 1 || r.sort.direction == -1
  {
    var status := if Truthy(q.status) then q.status else None;
    var lineItem := if Truthy(q.lineItem) && isValidId(q.lineItem.value) then q.lineItem else None;
    var text := if Truthy(q.search) then q.search else None;
    var field := if SortableField(q.sortBy) then q.sortBy.value else "date_created";
    var direction := if q.sortOrder == Some("asc") then 1 else -1;
    OrderFind(status, lineItem, text, Products.SortSpec(field, direction))
  }

  /** Whether a stored order passes the status and line-item filters of a query (the text
      search is not modelled); `toId` is `new Types.ObjectId(lineItem)`. */
  function MatchesFilters(f: OrderFind, toId: string -> ObjectId): Stored<Order> -> bool {
    (o: Stored<Order>) =>
      (f.status.None? || o.doc.status == f.status.value)
      && (f.lineItem.None? || References(o, toId(f.lineItem.value)))
  }

  /** A query that names neither a status nor a valid line item keeps every order; an
      invalid line-item id is dropped rather than matching nothing. */
  lemma {:induction false} UnfilteredQueryKeepsAll(orders: seq<Stored<Order>>, q: OrderQuery,
                                                   isValidId: string -> bool, toId: string -> ObjectId)
    requires !Truthy(q.status)
    requires !Truthy(q.lineItem) || !isValidId(q.lineItem.value)
    ensures Filter(MatchesFilters(GetOrdersQuery(q, isValidId), toId), orders) == orders
  {
    if |orders| > 0 {
      UnfilteredQueryKeepsAll(orders[1..], q, isValidId, toId);
      assert orders == [orders[0]] + orders[1..];
    }
  }

  /** `getOrderProducts`: none when no order has the key; otherwise the products that
      order lists among its line items. */
  function GetOrderProducts(orders: seq<Stored<Order>>, products: seq<Stored<Product>>, orderKey: string)
    : (r: Option<seq<Stored<Product>>>)
    ensures r.None? <==> forall i :: 0 <= i < |orders| ==> orders[i].doc.orderKey != orderKey
    ensures r.Some? ==> exists o :: (o in orders && o.doc.orderKey == orderKey
      && forall p :: p in r.value <==> p in products && References(o, p.oid))
  {
    match FindOrderByKey(orders, orderKey)
    case None => None
    case Some(o) => Some(Products.GetProductsByIds(products, o.doc.lineItems))
  }

  /** The payload of the job `createManyOrders` enqueues once the orders are stored. */
  function SyncSummaryOf(inserted: seq<Stored<Order>>): Payload {
    SyncSummary(|inserted|, Oids(inserted))
  }

  /** `createManyOrders`: all orders are stored, then one sync job records how many. If the
      orders queue is gone the enqueue throws, after the insert. */
  method CreateManyOrders(store: RecordStore, queues: QueueService, docs: seq<Order>)
    returns (r: Result<seq<Stored<Order>>>)
    requires store.Valid()
    modifies store, queues
    ensures store.Valid()
    ensures store.orders == old(store.orders) + Allocate(old(store.nextId), docs)
    ensures store.products == old(store.products) && store.nextId == old(store.nextId) + |docs|
    ensures QUEUE_ORDERS in old(queues.queues) ==>
      r == Ok(Allocate(old(store.nextId), docs))
      && queues.jobs == old(queues.jobs)
         + [OrdersJob(SYNC_ORDERS, SyncSummary(|docs|, Oids(Allocate(old(store.nextId), docs))), SYNC_DEFAULTS, NO_OPTIONS)]
    ensures QUEUE_ORDERS !in old(queues.queues) ==> r.Err? && queues.jobs == old(queues.jobs)
    ensures queues.queues == old(queues.queues) && queues.flows == old(queues.flows)
  {
    var newOrders := store.InsertManyOrders(docs);
    var enqueued := queues.AddOrderSyncJob(SyncSummaryOf(newOrders), NO_OPTIONS);
    if enqueued.Fail? {
      return Err(enqueued.error);
    }
    r := Ok(newOrders);
  }

  /** The follow-up status job's payload. Its `oldStatus` is read from the document after
      the update, so it is always the new status. */
  function StatusChangeOf(updated: Stored<Order>, newStatus: string): (p: Payload)
    ensures p.StatusChange? && p.orderId == updated.oid && p.newStatus == newStatus
    ensures updated.doc.status == newStatus ==> p.oldStatus == newStatus
  {
    StatusChange(updated.oid, updated.doc.orderKey, updated.doc.status, newStatus)
  }

  function OrderEmailOf(updated: Stored<Order>, newStatus: string): Payload
    requires updated.doc.billing.email.Some?
  {
    OrderEmail(updated.oid, updated.doc.orderKey, updated.doc.billing.email.value,
               updated.doc.billing.firstName + " " + updated.doc.billing.lastName,
               updated.doc.total, newStatus)
  }

  /** The jobs `updateOrderStatus` enqueues for an updated order: one status job, and an
      e-mail job exactly when the billing e-mail is non-empty. */
  function FollowUpJobs(updated: Stored<Order>, newStatus: string): (r: seq<Job>)
    ensures 1 <= |r| <= 2
    ensures r[0].name == UPDATE_ORDER_STATUS && r[0].queue == QUEUE_ORDERS
    ensures r[0].data.StatusChange? && r[0].data.newStatus == newStatus
    ensures |r| == 2 <==> Truthy(updated.doc.billing.email)
    ensures |r| == 2 ==>
      r[1].name == SEND_ORDER_EMAIL && r[1].queue == QUEUE_ORDERS
      && r[1].data.OrderEmail? && r[1].data.customerEmail == updated.doc.billing.email.value
  {
    [OrdersJob(UPDATE_ORDER_STATUS, StatusChangeOf(updated, newStatus), STATUS_DEFAULTS, NO_OPTIONS)]
    + (if Truthy(updated.doc.billing.email)
       then [OrdersJob(SEND_ORDER_EMAIL, OrderEmailOf(updated, newStatus), EMAIL_DEFAULTS, NO_OPTIONS)]
       else [])
  }

  /** The enqueue half of `updateOrderStatus`, once an order was updated. */
  method EnqueueFollowUps(queues: QueueService, updated: Stored<Order>, newStatus: string) returns (r: Outcome)
    modifies queues
    ensures QUEUE_ORDERS in old(queues.queues) ==> r == Pass && queues.jobs == old(queues.jobs) + FollowUpJobs(updated, newStatus)
    ensures QUEUE_ORDERS !in old(queues.queues) ==> r.Fail? && queues.jobs == old(queues.jobs)
    ensures queues.queues == old(queues.queues) && queues.flows == old(queues.flows)
  {
    ghost var jobs0 := queues.jobs;
    var follow := FollowUpJobs(updated, newStatus);
    r := queues.AddUpdateOrderStatusJob(StatusChangeOf(updated, newStatus), NO_OPTIONS);
    if r.Fail? {
      return;
    }
    assert queues.jobs == jobs0 + follow[..1];
    if Truthy(updated.doc.billing.email) {
      r := queues.AddOrderEmailJob(OrderEmailOf(updated, newStatus), NO_OPTIONS);
      assert follow == follow[..1] + [follow[1]];
    }
    assert queues.jobs == jobs0 + follow;
  }

  /** `updateOrderStatus`: the first order with the key gets the new status. For a missing
      key nothing is stored or enqueued and the result is none; otherwise the follow-up
      jobs are enqueued and the updated order is returned. */
  method UpdateOrderStatus(store: RecordStore, queues: QueueService, orderKey: string, newStatus: string)
    returns (r: Result<Option<Stored<Order>>>)
    requires store.Valid()
    modifies store, queues
    ensures store.Valid()
    ensures store.orders == SetFirstStatus(old(store.orders), orderKey, newStatus)
    ensures store.products == old(store.products) && store.nextId == old(store.nextId)
    ensures FindOrderByKey(old(store.orders), orderKey).None? ==> r == Ok(None) && queues.jobs == old(queues.jobs)
    ensures FindOrderByKey(old(store.orders), orderKey).Some? && QUEUE_ORDERS in old(queues.queues) ==>
      var updated := FindOrderByKey(store.orders, orderKey).value;
      && r == Ok(Some(updated))
      && updated.doc.status == newStatus
      && queues.jobs == old(queues.jobs) + FollowUpJobs(updated, newStatus)
    ensures FindOrderByKey(old(store.orders), orderKey).Some? && QUEUE_ORDERS !in old(queues.queues) ==>
      r.Err? && queues.jobs == old(queues.jobs)
    ensures queues.queues == old(queues.queues) && queues.flows == old(queues.flows)
  {
    var updated := store.UpdateFirstStatus(orderKey, newStatus);
    if updated.None? {
      return Ok(None);
    }
    var enqueued := EnqueueFollowUps(queues, updated.value, newStatus);
    if enqueued.Fail? {
      return Err(enqueued.error);
    }
    r := Ok(updated);
  }

  /** `syncOrdersWithDateFilter`: the remote orders created after the date, or an empty list
      when the remote call fails; it never throws. */
  function SyncOrdersWithDateFilter(afterDate: string, fetchOrders: string -> Result<seq<RemoteOrder>>)
    : (r: seq<RemoteOrder>)
    ensures fetchOrders(afterDate).Err? ==> r == []
    ensures fetchOrders(afterDate).Ok? ==> r == fetchOrders(afterDate).value
  {
    match fetchOrders(afterDate)
    case Ok(data) => data
    case Err(_) => []
  }
}
