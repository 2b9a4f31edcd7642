/** The records of the system: stored orders and products, the remote catalog's records,
    and the jobs the queues hold. */
module Domain {
  import opened Wrappers

  /** A document's internal identifier (`_id`, a MongoDB ObjectId), allocated by the store. */
  type ObjectId = nat

  /** One entry of an order's `line_items`: a product reference, which may be null. */
  type ProductRef = Option<ObjectId>

  /** A billing or shipping block; only the fields the services read are kept. */
  datatype Contact = Contact(email: Option<string>, firstName: string, lastName: string)

  /** An order document (IOrder without `_id`). `total` is kept as the remote's text. */
  datatype Order = Order(
    id: string,
    number: string,
    orderKey: string,
    status: string,
    dateCreated: int,
    total: string,
    customerId: string,
    customerNote: string,
    billing: Contact,
    shipping: Contact,
    lineItems: seq<ProductRef>)

  /** A product document (IProduct without `_id`); `productId` is the external id. */
  datatype Product = Product(
    productId: int,
    name: string,
    description: string,
    metaData: seq<string>,
    sku: Option<string>,
    stockStatus: string,
    categories: seq<string>,
    price: Option<string>,
    images: seq<string>)

  /** A document as the store holds it: its `_id` and its fields. */
  datatype Stored<T> = Stored(oid: ObjectId, doc: T)

  /** A remote order's line item; the product job reads its `product_id`. */
  datatype RemoteLineItem = RemoteLineItem(productId: int, name: string, quantity: int)

  /** An order as the remote catalog returns it. */
  datatype RemoteOrder = RemoteOrder(
    id: string,
    number: string,
    orderKey: string,
    status: string,
    dateCreated: int,
    total: string,
    customerId: string,
    customerNote: Option<string>,
    billing: Contact,
    shipping: Contact,
    lineItems: seq<RemoteLineItem>)

  /** A product as the remote catalog returns it. */
  datatype RemoteProduct = RemoteProduct(
    id: int,
    name: string,
    description: string,
    metaData: seq<string>,
    sku: Option<string>,
    stockStatus: string,
    categories: seq<string>,
    price: Option<string>,
    images: seq<string>)

  datatype BackoffKind = Exponential | Fixed
  datatype Backoff = Backoff(kind: BackoffKind, delay: int)

  /** Job options; `None` is a key that is absent from the options object. */
  datatype JobOptions = JobOptions(
    priority: Option<int>,
    delay: Option<int>,
    attempts: Option<int>,
    backoff: Option<Backoff>)

  /** The payload shapes the system puts on its queues. */
  datatype Payload =
    | EmptyData
      /** `{ syncedCount, timestamp, orderIds }` from createManyOrders (timestamp left out) */
    | SyncSummary(syncedCount: nat, orderIds: seq<ObjectId>)
      /** a remote order, the payload of a process_order job */
    | RemoteOrderData(order: RemoteOrder)
      /** `{ data: { orderKey, status } }`, enqueued by the process_order handler */
    | StatusEnvelope(orderKey: string, status: string)
      /** `{ orderId, orderKey, oldStatus, newStatus, timestamp }` (timestamp left out) */
    | StatusChange(orderId: ObjectId, orderKey: string, oldStatus: string, newStatus: string)
      /** the notification payload of updateOrderStatus */
    | OrderEmail(orderId: ObjectId, orderKey: string, customerEmail: string, customerName: string,
                 orderTotal: string, status: string)
      /** `{ ...item }`: a line item, the payload of a process_product child job */
    | ProductRequest(item: RemoteLineItem)
      /** an order document, the payload of the flow parent */
    | FlowOrder(document: Order)

  /** A child of a flow (BullMQ's FlowChildJob). */
  datatype ChildJob = ChildJob(name: string, data: Payload, queue: string, opts: JobOptions)

  /** One entry of the job list: a plain job has no children, a flow parent lists them. */
  datatype Job = Job(queue: string, name: string, data: Payload, opts: JobOptions, children: seq<ChildJob>)

  /** What a job handler returns to the broker. */
  datatype JobValue =
    | Undefined
    | Done(message: string)
    | ProductIdValue(id: ObjectId)
    | OrderValue(order: Stored<Order>)
}
