/** server/src/services/worker.service.ts: the worker registry, the routing of jobs by name,
    and the handlers that ingest remote orders and products. */
module Workers {
  import opened Wrappers
  import opened Domain
  import opened Constants
  import opened Store
  import opened Queues
  import Orders
  import Products
  import Cron

  /** The job function a worker was created with. */
  datatype Processor = OrdersProcessor | ProductsProcessor

  /** A registered worker: its processor, `isPaused()` and `isRunning()`. */
  datatype WorkerState = WorkerState(processor: Processor, paused: bool, running: bool)

  /** The orders worker's handlers, one per `case` of its `switch`. */
  datatype Handler =
    | SyncOrdersHandler
    | ProcessOrderHandler
    | SendOrderEmailHandler
    | UpdateOrderStatusHandler
    | CleanupOldOrdersHandler
    | ProcessOrderFlowHandler

  /** The job name each handler is dispatched on. */
  function HandlerName(h: Handler): string {
    match h
    case SyncOrdersHandler => SYNC_ORDERS
    case ProcessOrderHandler => PROCESS_ORDER
    case SendOrderEmailHandler => SEND_ORDER_EMAIL
    case UpdateOrderStatusHandler => UPDATE_ORDER_STATUS
    case CleanupOldOrdersHandler => CLEANUP_OLD_ORDERS
    case ProcessOrderFlowHandler => ORDERS_FLOW
  }

  /** The `switch` of `processOrdersJob`: a known name selects its handler, anything else
      is the "Unknown job type" error. */
  function RouteOrdersJob(name: string): (r: Result<Handler>)
    ensures r.Ok? <==> name in ORDER_JOB_NAMES
    ensures r.Ok? ==> HandlerName(r.value) == name
    ensures r.Err? ==> r.error == "Unknown job type: " + name
  {
    if name == SYNC_ORDERS then Ok(SyncOrdersHandler)
    else if name == PROCESS_ORDER then Ok(ProcessOrderHandler)
    else if name == SEND_ORDER_EMAIL then Ok(SendOrderEmailHandler)
    else if name == UPDATE_ORDER_STATUS then Ok(UpdateOrderStatusHandler)
    else if name == CLEANUP_OLD_ORDERS then Ok(CleanupOldOrdersHandler)
    else if name == ORDERS_FLOW then Ok(ProcessOrderFlowHandler)
    else Err("Unknown job type: " + name)
  }

  /** Every handler is reached by its own name, and by no other. */
  lemma RouteOrdersJobInverse(h: Handler)
    ensures RouteOrdersJob(HandlerName(h)) == Ok(h)
  {
    JobNamesDistinct();
    var names := ORDER_JOB_NAMES;
    match h
    case SyncOrdersHandler =>
    case ProcessOrderHandler =>
      assert names[0] != names[1];
    case SendOrderEmailHandler =>
      assert names[0] != names[2] && names[1] != names[2];
    case UpdateOrderStatusHandler =>
      assert names[0] != names[3] && names[1] != names[3] && names[2] != names[3];
    case CleanupOldOrdersHandler =>
      assert names[0] != names[4] && names[1] != names[4] && names[2] != names[4] && names[3] != names[4];
    case ProcessOrderFlowHandler =>
      assert names[0] != names[5] && names[1] != names[5] && names[2] != names[5]
        && names[3] != names[5] && names[4] != names[5];
  }

  /** The options `handleProcessOrder` gives the status job for a known order. */
  const RETRY_TWICE: JobOptions := NO_OPTIONS.(attempts := Some(2))
  /** The options of each product child of an order flow. */
  const RETRY_THRICE: JobOptions := NO_OPTIONS.(attempts := Some(3))

  /** One `process_order` job per remote order, in list order. */
  function ProcessOrderJobs(orders: seq<RemoteOrder>): (r: seq<Job>)
    ensures |r| == |orders|
    ensures forall i :: 0 <= i < |orders| ==>
      r[i] == OrdersJob(PROCESS_ORDER, RemoteOrderData(orders[i]), PROCESS_ORDER_DEFAULTS, NO_OPTIONS)
  {
    seq(|orders|, i requires 0 <= i < |orders| => OrdersJob(PROCESS_ORDER, RemoteOrderData(orders[i]), PROCESS_ORDER_DEFAULTS, NO_OPTIONS))
  }

  /** `transformedOrder`: the stored shape of a remote order, with no line items yet (the
      flow parent fills them in). */
  function TransformOrder(ro: RemoteOrder): (o: Order)
    ensures o.lineItems == []
    ensures o.orderKey == ro.orderKey && o.status == ro.status
    ensures o.customerNote == (if ro.customerNote.Some? then ro.customerNote.value else "")
  {
    Order(ro.id, ro.number, ro.orderKey, ro.status, ro.dateCreated, ro.total, ro.customerId,
          ro.customerNote.GetOr(""), ro.billing, ro.shipping, [])
  }

  /** `childrens`: one `process_product` child per line item, on the products queue. */
  function ProductChildren(items: seq<RemoteLineItem>): (r: seq<ChildJob>)
    ensures |r| == |items|
    ensures forall i :: 0 <= i < |items| ==>
      r[i].name == PROCESS_PRODUCT && r[i].queue == QUEUE_PRODUCTS
      && r[i].opts.attempts == Some(3) && r[i].data == ProductRequest(items[i])
  {
    seq(|items|, i requires 0 <= i < |items| => ChildJob(PROCESS_PRODUCT, ProductRequest(items[i]), QUEUE_PRODUCTS, RETRY_THRICE))
  }

  /** `orderPayload`: the flow's order with its line items set to the children's values. */
  function FlowDocument(doc: Order, childValues: seq<ObjectId>): (o: Order)
    ensures |o.lineItems| == |childValues|
    ensures forall i :: 0 <= i < |childValues| ==> o.lineItems[i] == Some(childValues[i])
    ensures o.(lineItems := doc.lineItems) == doc
  {
    doc.(lineItems := seq(|childValues|, i requires 0 <= i < |childValues| => Some(childValues[i])))
  }

  /** The order a flow writes lists exactly the products its children returned. */
  lemma FlowDocumentReferences(doc: Order, childValues: seq<ObjectId>)
    ensures forall id :: Some(id) in FlowDocument(doc, childValues).lineItems <==> id in childValues
  {
    var o := FlowDocument(doc, childValues);
    forall id | Some(id) in o.lineItems ensures id in childValues {
      var i :| 0 <= i < |o.lineItems| && o.lineItems[i] == Some(id);
    }
    forall id | id in childValues ensures Some(id) in o.lineItems {
      var i :| 0 <= i < |childValues| && childValues[i] == id;
      assert o.lineItems[i] == Some(id);
    }
  }

  /** The fields `handleUpdateOrderStatus` reads, `data.orderKey` and `data.newStatus`. */
  datatype StatusFields = StatusFields(orderKey: string, newStatus: string)

  /** Only the payload `updateOrderStatus` enqueues has both fields at the top level. */
  function StatusRequest(data: Payload): Option<StatusFields> {
    if data.StatusChange? then Some(StatusFields(data.orderKey, data.newStatus)) else None
  }

  /** Whether `handleUpdateOrderStatus` returns without updating: the fields are absent, no
      order has the key, or the stored status already is the new one. */
  predicate UpdateSkipped(orders: seq<Stored<Order>>, data: Payload) {
    match StatusRequest(data)
    case None => true
    case Some(f) =>
      match FindOrderByKey(orders, f.orderKey)
      case None => true
      case Some(o) => o.doc.status == f.newStatus
  }

  /** The status job `handleProcessOrder` enqueues for a known order nests its fields under
      `data`, so the status handler sees no `orderKey` and no `newStatus`. Under this model's
      reading of a lookup by an undefined key as matching nothing, it never updates. */
  lemma EnvelopeIsSkipped(orders: seq<Stored<Order>>, orderKey: string, status: string)
    ensures UpdateSkipped(orders, StatusEnvelope(orderKey, status))
  {
  }

  /** The cascade stops: the status job `updateOrderStatus` enqueues finds the order already
      carrying the new status, so handling it updates nothing and enqueues nothing. */
  lemma CascadeTerminates(orders: seq<Stored<Order>>, orderKey: string, newStatus: string)
    requires FindOrderByKey(orders, orderKey).Some?
    ensures var after := SetFirstStatus(orders, orderKey, newStatus);
      FindOrderByKey(after, orderKey).Some?
      && UpdateSkipped(after, Orders.FollowUpJobs(FindOrderByKey(after, orderKey).value, newStatus)[0].data)
  {
    SetFirstStatusFound(orders, orderKey, newStatus);
  }

  /** The worker registry, and the handlers the two workers run. */
  class WorkerService {
    var workers: map<string, WorkerState>

    /** `initializeWorkers`: one worker per queue, each running. */
    constructor ()
      ensures workers == map[QUEUE_ORDERS := WorkerState(OrdersProcessor, false, true),
                             QUEUE_PRODUCTS := WorkerState(ProductsProcessor, false, true)]
    {
      workers := map[];
      new;
      CreateWorker(QUEUE_ORDERS, OrdersProcessor);
      CreateWorker(QUEUE_PRODUCTS, ProductsProcessor);
    }

    /** `createWorker`: registers a running worker unless one exists for the queue, in which
        case the registry is left as it is. */
    method CreateWorker(queueName: string, processor: Processor)
      modifies this
      ensures queueName in old(workers) ==> workers == old(workers)
      ensures queueName !in old(workers) ==> workers == old(workers)[queueName := WorkerState(processor, false, true)]
    {
      if queueName in workers {
        return;
      }
      workers := workers[queueName := WorkerState(processor, false, true)];
    }

    function GetWorker(queueName: string): (r: Option<WorkerState>)
      reads this
      ensures r.Some? <==> queueName in workers
      ensures r.Some? ==> r.value == workers[queueName]
    {
      if queueName in workers then Some(workers[queueName]) else None
    }

    method PauseWorker(queueName: string) returns (r: Outcome)
      modifies this
      ensures queueName in old(workers) ==> r == Pass && workers == old(workers)[queueName := old(workers)[queueName].(paused := true)]
      ensures queueName !in old(workers) ==> r == Fail("Worker for queue " + queueName + " not found") && workers == old(workers)
    {
      var worker := GetWorker(queueName);
      if worker.None? {
        return Fail("Worker for queue " + queueName + " not found");
      }
      workers := workers[queueName := worker.value.(paused := true)];
      r := Pass;
    }

    method ResumeWorker(queueName: string) returns (r: Outcome)
      modifies this
      ensures queueName in old(workers) ==> r == Pass && workers == old(workers)[queueName := old(workers)[queueName].(paused := false)]
      ensures queueName !in old(workers) ==> r == Fail("Worker for queue " + queueName + " not found") && workers == old(workers)
    {
      var worker := GetWorker(queueName);
      if worker.None? {
        return Fail("Worker for queue " + queueName + " not found");
      }
      workers := workers[queueName := worker.value.(paused := false)];
      r := Pass;
    }

    /** `closeWorkers`: every worker is closed and the registry emptied. */
    method CloseWorkers()
      modifies this
      ensures workers == map[]
    {
      workers := map[];
    }

    /** `handleProcessProduct`: the stored product with the line item's external id, or, when
        there is none, the one fetched and created; its `_id` is the child's value. A fetch
        failure is rethrown. A payload without `product_id` is rejected. */
    method HandleProcessProduct(store: RecordStore, data: Payload, fetchProduct: int -> Result<RemoteProduct>)
      returns (r: Result<JobValue>)
      requires store.Valid()
      modifies store
      ensures store.Valid()
      ensures !data.ProductRequest? ==>
        r == Err("product_id is required") && store.products == old(store.products) && store.nextId == old(store.nextId)
      ensures data.ProductRequest? && FindProductByExternalId(old(store.products), data.item.productId).Some? ==>
        r == Ok(ProductIdValue(FindProductByExternalId(old(store.products), data.item.productId).value.oid))
        && store.products == old(store.products) && store.nextId == old(store.nextId)
      ensures (data.ProductRequest? && FindProductByExternalId(old(store.products), data.item.productId).None?
               && fetchProduct(data.item.productId).Err?) ==>
        r == Err(fetchProduct(data.item.productId).error)
        && store.products == old(store.products) && store.nextId == old(store.nextId)
      ensures (data.ProductRequest? && FindProductByExternalId(old(store.products), data.item.productId).None?
               && fetchProduct(data.item.productId).Ok?) ==>
        r == Ok(ProductIdValue(old(store.nextId)))
        && store.products == old(store.products)
           + [Stored(old(store.nextId), Products.ToProduct(fetchProduct(data.item.productId).value))]
        && store.nextId == old(store.nextId) + 1
      ensures store.orders == old(store.orders)
    {
      if !data.ProductRequest? {
        return Err("product_id is required");
      }
      var productId := data.item.productId;
      var product := FindProductByExternalId(store.products, productId);
      if product.None? {
        var created := Products.FetchAndCreateProducts(store, productId, fetchProduct);
        if created.Err? {
          return Err(created.error);
        }
        product := Some(created.value);
      }
      r := Ok(ProductIdValue(product.value.oid));
    }

    /** Two `process_product` runs for the same line item create at most one product: when the
        remote catalog returns the product it was asked for, the second run finds the product
        the first one stored, returns the same `_id`, and changes nothing. Together the two runs
        have exactly the effect of one. */
    method ProcessProductTwice(store: RecordStore, data: Payload, fetchProduct: int -> Result<RemoteProduct>)
      returns (r1: Result<JobValue>, r2: Result<JobValue>)
      requires store.Valid()
      requires data.ProductRequest? && fetchProduct(data.item.productId).Ok? ==>
        fetchProduct(data.item.productId).value.id == data.item.productId
      modifies store
      ensures store.Valid()
      ensures r2 == r1
      ensures (!data.ProductRequest? || FindProductByExternalId(old(store.products), data.item.productId).Some?
               || fetchProduct(data.item.productId).Err?) ==>
        store.products == old(store.products) && store.nextId == old(store.nextId)
      ensures (data.ProductRequest? && FindProductByExternalId(old(store.products), data.item.productId).None?
               && fetchProduct(data.item.productId).Ok?) ==>
        r1 == Ok(ProductIdValue(old(store.nextId)))
        && store.products == old(store.products)
           + [Stored(old(store.nextId), Products.ToProduct(fetchProduct(data.item.productId).value))]
        && store.nextId == old(store.nextId) + 1
      ensures store.orders == old(store.orders)
    {
      ghost var products0 := store.products;
      ghost var nextId0 := store.nextId;
      r1 := HandleProcessProduct(store, data, fetchProduct);
      if data.ProductRequest? && FindProductByExternalId(products0, data.item.productId).None?
         && fetchProduct(data.item.productId).Ok? {
        var created := Stored(nextId0, Products.ToProduct(fetchProduct(data.item.productId).value));
        FindProductAfterAppend(products0, created, data.item.productId);
      }
      r2 := HandleProcessProduct(store, data, fetchProduct);
    }

    /** `handleSyncOrders`: one `process_order` job per remote order of the window, in order;
        nothing for an empty list. */
    method HandleSyncOrders(queues: QueueService, afterDate: string, fetchOrders: string -> Result<seq<RemoteOrder>>)
      returns (r: Result<JobValue>)
      modifies queues
      ensures |Orders.SyncOrdersWithDateFilter(afterDate, fetchOrders)| == 0 ==>
        r == Ok(Undefined) && queues.jobs == old(queues.jobs)
      ensures |Orders.SyncOrdersWithDateFilter(afterDate, fetchOrders)| > 0 && QUEUE_ORDERS in old(queues.queues) ==>
        r == Ok(Done("Orders processing job added to the queue"))
        && queues.jobs == old(queues.jobs) + ProcessOrderJobs(Orders.SyncOrdersWithDateFilter(afterDate, fetchOrders))
      ensures |Orders.SyncOrdersWithDateFilter(afterDate, fetchOrders)| > 0 && QUEUE_ORDERS !in old(queues.queues) ==>
        r.Err? && queues.jobs == old(queues.jobs)
      ensures queues.queues == old(queues.queues) && queues.flows == old(queues.flows)
    {
      var wooCommerceOrders := Cron.FetchOrdersFromWooCommerce(afterDate, fetchOrders).value;
      if |wooCommerceOrders| == 0 {
        return Ok(Undefined);
      }
      var i := 0;
      while i < |wooCommerceOrders|
        invariant 0 <= i <= |wooCommerceOrders|
        invariant queues.jobs == old(queues.jobs) + ProcessOrderJobs(wooCommerceOrders[..i])
        invariant QUEUE_ORDERS !in old(queues.queues) ==> i == 0
        invariant queues.queues == old(queues.queues) && queues.flows == old(queues.flows)
      {
        var added := queues.AddProcessOrderJob(RemoteOrderData(wooCommerceOrders[i]), NO_OPTIONS);
        if added.Fail? {
          return Err(added.error);
        }
        assert ProcessOrderJobs(wooCommerceOrders[..i + 1]) == ProcessOrderJobs(wooCommerceOrders[..i])
          + [OrdersJob(PROCESS_ORDER, RemoteOrderData(wooCommerceOrders[i]), PROCESS_ORDER_DEFAULTS, NO_OPTIONS)];
        i := i + 1;
      }
      assert wooCommerceOrders[..i] == wooCommerceOrders;
      r := Ok(Done("Orders processing job added to the queue"));
    }

    /** `handleProcessOrder`: never writes an order. A known `order_key` gets one status job
        (not awaited, so its failure is ignored); an unknown one gets one flow whose
        children fetch the order's products. */
    method HandleProcessOrder(store: RecordStore, queues: QueueService, data: Payload) returns (r: Result<JobValue>)
      modifies queues
      ensures !data.RemoteOrderData? ==> r.Err? && queues.jobs == old(queues.jobs)
      ensures data.RemoteOrderData? && FindOrderByKey(store.orders, data.order.orderKey).Some? ==>
        r == Ok(Undefined)
        && queues.jobs == old(queues.jobs)
           + (if QUEUE_ORDERS in old(queues.queues)
              then [OrdersJob(UPDATE_ORDER_STATUS, StatusEnvelope(data.order.orderKey, data.order.status), STATUS_DEFAULTS, RETRY_TWICE)]
              else [])
      ensures data.RemoteOrderData? && FindOrderByKey(store.orders, data.order.orderKey).None? && QUEUE_ORDERS in old(queues.flows) ==>
        r == Ok(Undefined)
        && queues.jobs == old(queues.jobs)
           + [Job(QUEUE_ORDERS, ORDERS_FLOW, FlowOrder(TransformOrder(data.order)), Override(FLOW_DEFAULTS, NO_OPTIONS),
                  ProductChildren(data.order.lineItems))]
      ensures data.RemoteOrderData? && FindOrderByKey(store.orders, data.order.orderKey).None? && QUEUE_ORDERS !in old(queues.flows) ==>
        r.Err? && queues.jobs == old(queues.jobs)
      ensures queues.queues == old(queues.queues) && queues.flows == old(queues.flows)
    {
      if !data.RemoteOrderData? {
        return Err("Cannot read properties of undefined (reading 'toString')");
      }
      var remote := data.order;
      var order := FindOrderByKey(store.orders, remote.orderKey);
      if order.Some? {
        var _ := queues.AddUpdateOrderStatusJob(StatusEnvelope(remote.orderKey, remote.status), RETRY_TWICE);
        return Ok(Undefined);
      }
      var transformedOrder := TransformOrder(remote);
      var childrens := ProductChildren(remote.lineItems);
      var added := queues.AddProcessOrderFlowJob(FlowOrder(transformedOrder), childrens, NO_OPTIONS);
      if added.Fail? {
        return Err(added.error);
      }
      r := Ok(Undefined);
    }

    /** `handleUpdateOrderStatus`: nothing happens when the fields are absent, the order is
        missing or already has the status; otherwise `updateOrderStatus` runs once. */
    method HandleUpdateOrderStatus(store: RecordStore, queues: QueueService, data: Payload) returns (r: Result<JobValue>)
      requires store.Valid()
      modifies store, queues
      ensures store.Valid()
      ensures UpdateSkipped(old(store.orders), data) ==>
        r == Ok(Undefined) && store.orders == old(store.orders) && queues.jobs == old(queues.jobs)
      ensures !UpdateSkipped(old(store.orders), data) ==>
        var f := StatusRequest(data).value;
        && store.orders == SetFirstStatus(old(store.orders), f.orderKey, f.newStatus)
        && FindOrderByKey(store.orders, f.orderKey).Some?
        && (QUEUE_ORDERS in old(queues.queues) ==>
              r == Ok(Done("Order status updated successfully"))
              && queues.jobs == old(queues.jobs) + Orders.FollowUpJobs(FindOrderByKey(store.orders, f.orderKey).value, f.newStatus))
        && (QUEUE_ORDERS !in old(queues.queues) ==> r.Err? && queues.jobs == old(queues.jobs))
      ensures store.products == old(store.products) && store.nextId == old(store.nextId)
      ensures queues.queues == old(queues.queues) && queues.flows == old(queues.flows)
    {
      var request := StatusRequest(data);
      if request.None? {
        return Ok(Undefined);
      }
      var order := FindOrderByKey(store.orders, request.value.orderKey);
      if order.None? {
        return Ok(Undefined);
      }
      if order.value.doc.status == request.value.newStatus {
        return Ok(Undefined);
      }
      SetFirstStatusFound(store.orders, request.value.orderKey, request.value.newStatus);
      var updated := Orders.UpdateOrderStatus(store, queues, request.value.orderKey, request.value.newStatus);
      if updated.Err? {
        return Err(updated.error);
      }
      r := Ok(Done("Order status updated successfully"));
    }

    /** `handleSendOrderEmail`: a stub that sends nothing and reports success for any payload. */
    function HandleSendOrderEmail(data: Payload): (r: JobValue)
      ensures r.Done? && r.message == "Order email sent successfully"
    {
      Done("Order email sent successfully")
    }

    /** `handleCleanupOldOrders`: a stub that does not run the sweep and reports success for
        any payload. */
    function HandleCleanupOldOrders(data: Payload): (r: JobValue)
      ensures r.Done? && r.message == "Old orders cleaned up successfully"
    {
      Done("Old orders cleaned up successfully")
    }

    /** `handleProcessOrderFlow`: once every child is done (the broker's guarantee), one order
        is written whose line items are the children's values. */
    method HandleProcessOrderFlow(store: RecordStore, data: Payload, childValues: seq<ObjectId>) returns (r: Result<JobValue>)
      requires store.Valid()
      modifies store
      ensures store.Valid()
      ensures !data.FlowOrder? ==> r.Err? && store.orders == old(store.orders) && store.nextId == old(store.nextId)
      ensures data.FlowOrder? ==>
        r == Ok(OrderValue(Stored(old(store.nextId), FlowDocument(data.document, childValues))))
        && store.orders == old(store.orders) + [Stored(old(store.nextId), FlowDocument(data.document, childValues))]
        && store.nextId == old(store.nextId) + 1
      ensures store.products == old(store.products)
    {
      if !data.FlowOrder? {
        return Err("Order validation failed");
      }
      var orderPayload := FlowDocument(data.document, childValues);
      var order := store.InsertOrder(orderPayload);
      r := Ok(OrderValue(order));
    }

    /** `processOrdersJob`: routes a job of the orders queue to its handler. An unknown name
        fails and changes nothing; the two stubs change nothing either. */
    method ProcessOrdersJob(store: RecordStore, queues: QueueService, job: Job, afterDate: string,
                            fetchOrders: string -> Result<seq<RemoteOrder>>, childValues: seq<ObjectId>)
      returns (r: Result<JobValue>)
      requires store.Valid()
      modifies store, queues
      ensures store.Valid()
      ensures RouteOrdersJob(job.name).Err? ==> r == Err("Unknown job type: " + job.name)
      ensures job.name == SEND_ORDER_EMAIL ==> r == Ok(Done("Order email sent successfully"))
      ensures job.name == CLEANUP_OLD_ORDERS ==> r == Ok(Done("Old orders cleaned up successfully"))
      ensures job.name !in {UPDATE_ORDER_STATUS, ORDERS_FLOW} ==>
        store.orders == old(store.orders) && store.products == old(store.products) && store.nextId == old(store.nextId)
      ensures job.name !in {SYNC_ORDERS, PROCESS_ORDER, UPDATE_ORDER_STATUS} ==> queues.jobs == old(queues.jobs)
      ensures store.products == old(store.products)
      ensures queues.queues == old(queues.queues) && queues.flows == old(queues.flows)
    {
      var route := RouteOrdersJob(job.name);
      if route.Err? {
        return Err(route.error);
      }
      match route.value
      case SyncOrdersHandler =>
        r := HandleSyncOrders(queues, afterDate, fetchOrders);
      case ProcessOrderHandler =>
        r := HandleProcessOrder(store, queues, job.data);
      case SendOrderEmailHandler =>
        r := Ok(HandleSendOrderEmail(job.data));
      case UpdateOrderStatusHandler =>
        r := HandleUpdateOrderStatus(store, queues, job.data);
      case CleanupOldOrdersHandler =>
        r := Ok(HandleCleanupOldOrders(job.data));
      case ProcessOrderFlowHandler =>
        r := HandleProcessOrderFlow(store, job.data, childValues);
    }

    /** `processProductsJob`: only `process_product` has a handler; any other name falls
        through the `switch` and returns undefined without error. */
    method ProcessProductsJob(store: RecordStore, job: Job, fetchProduct: int -> Result<RemoteProduct>)
      returns (r: Result<JobValue>)
      requires store.Valid()
      modifies store
      ensures store.Valid()
      ensures job.name != PROCESS_PRODUCT ==>
        r == Ok(Undefined) && store.products == old(store.products) && store.nextId == old(store.nextId)
      ensures job.name == PROCESS_PRODUCT && r.Ok? ==> r.value.ProductIdValue?
      ensures store.orders == old(store.orders)
    {
      if job.name == PROCESS_PRODUCT {
        r := HandleProcessProduct(store, job.data, fetchProduct);
      } else {
        r := Ok(Undefined);
      }
    }
  }
}
