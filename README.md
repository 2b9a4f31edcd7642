# Order and product ingestion pipeline of woocommerce-store, in Dafny

This project models the server side of the woocommerce-store back end. It pulls orders and products from a remote WooCommerce catalog into its own database through a job queue, and it periodically sweeps out old orders and the products only they used.

The model has two parts:

- **Record store** (`Store.RecordStore`). It holds the two MongoDB collections, orders and products. Each collection is a sequence of documents with fresh `_id`s. The store's invariant is that ids are unique and increasing.
- **Job list** (`Queues.QueueService`). It holds the registered queues and flow producers, and the sequence of jobs added so far. Each job carries its queue, its name, its payload and its merged options.

The modules follow the server's files:

| module | file | what it holds |
|---|---|---|
| `Constants` | `server/src/utils/constants.utils.ts` | queue names, job names, priorities, delays |
| `Domain` | models and types | orders, products, remote records, payloads, jobs |
| `Store` | MongoDB collections | the queries the services issue |
| `Queues` | `server/src/services/queue.service.ts` | enqueue layer; option merging and per-type defaults |
| `Products` | `server/src/services/product.service.ts` | product queries and the fetch-and-create path |
| `Orders` | `server/src/services/order.service.ts` | order queries, bulk insert, status update |
| `Cleanup` | `server/src/services/cleanup.service.ts` | retention sweep, preview, stats |
| `Cron` | `server/src/services/cron.service.ts` | sync and cleanup triggers |
| `Workers` | `server/src/services/worker.service.ts` | worker registry, job routing, ingestion handlers |
| `Controller` | `server/src/controllers/queue.controller.ts` | operator endpoints |

`Wrappers` and `Seqs` are generic support: Option/Result, and order-preserving filtering with its lemmas.

**How the sweep is proved.** `Cleanup.Sweep` is a pure reference definition of one sweep. `Cleanup.CleanupOldOrders` performs the sweep on the store in the same order as the source: select, collect candidates, delete orders, reference-count the candidates, delete orphans. Its contract says the final state and the result are `Sweep`'s. The lemmas about `Sweep` state what the sweep guarantees.

**Behaviour worth noting:**

- **`cleanup_old_orders` handler:** a stub that deletes nothing and reports success (`Workers.WorkerService.HandleCleanupOldOrders`). Only the cron trigger and the weekly schedule run the sweep.
- **Follow-up status job:** `updateOrderStatus` enqueues a follow-up `update_order_status` job as well as the e-mail job.
  - That job's `oldStatus` is read from the already-updated document, so it equals `newStatus` (`Orders.StatusChangeOf`).
  - The cascade stops, because that job finds the status already set (`Workers.CascadeTerminates`).
- **Status job for a known order:** the `process_order` handler nests the fields under `data`, as `{ data: { orderKey, status } }`. The status handler reads `data.orderKey` and `data.newStatus`, so it sees neither field. Under this model's reading of a lookup by an undefined key as matching nothing, it never updates (`Workers.EnvelopeIsSkipped`).

## Model

| member | source | states |
|---|---|---|
| Constants.PrioritiesOrdered | server/src/utils/constants.utils.ts:24-28 | HIGH=1 < MEDIUM=2 < LOW=3 |
| Constants.DelaysOrdered | server/src/utils/constants.utils.ts:30-35 | IMMEDIATE=0 < SHORT=5000 < MEDIUM=30000 < LONG=300000 |
| Constants.QueueNamesDistinct | server/src/utils/constants.utils.ts:6-9 | the two queue names differ |
| Constants.JobNamesDistinct | server/src/utils/constants.utils.ts:11-22 | the orders worker's six job names, the flow parent's included, are pairwise distinct; none of them is `process_product` |
| Store.FindOrderByKey | server/src/services/order.service.ts:60-63 | `getOrderOrderKey`: a found order is stored and has the key; none is found exactly when no order has the key |
| Store.FindProductByExternalId | server/src/services/product.service.ts:35-38 | `getProductById` matches the external `product_id`, not `_id`; none is found exactly when no product has that id |
| Store.FindProductAfterAppend | server/src/services/worker.service.ts:123-130 | after a product is appended, a lookup that found a product before finds the same one; otherwise it finds the new product exactly when its external id matches |
| Store.RefCount | server/src/services/cleanup.service.ts:82-86 | the count is zero exactly when no order lists the id among its line items |
| Store.SetFirstStatus | server/src/services/order.service.ts:90-94 | length and ids are kept; each order is either unchanged or has the key and differs only in its status |
| Store.SetFirstStatusFound | server/src/services/order.service.ts:90-94 | after the update, the key finds the same order, now with the new status; a missing key still finds none |
| Store.MatchingIdsAtMost | server/src/services/cleanup.service.ts:45-49 | with unique ids, `deleteMany({_id: {$in: ids}})` removes at most `|ids|` documents |
| Store.RecordStore.InsertOrder | server/src/services/order.service.ts:38-42 | `createOrder` appends exactly one order with a fresh id; products are untouched |
| Store.RecordStore.InsertProduct | server/src/services/product.service.ts:53-57 | `createProduct` appends exactly one product with a fresh id; orders are untouched |
| Store.RecordStore.InsertManyOrders | server/src/services/order.service.ts:76-77 | all given orders are appended, in order, with consecutive fresh ids |
| Store.RecordStore.InsertManyProducts | server/src/services/product.service.ts:30-33 | `createManyProducts` appends all given products, in order, with consecutive fresh ids |
| Store.RecordStore.DeleteOrdersOlderThan | server/src/services/cleanup.service.ts:35-37 | exactly the orders created before the cutoff are removed; the order of the rest and the store invariant are kept; the count is the number removed |
| Store.RecordStore.DeleteProductsIn | server/src/services/cleanup.service.ts:45-49 | exactly the products whose id is listed are removed; the count is the number removed |
| Store.RecordStore.UpdateFirstStatus | server/src/services/order.service.ts:90-94 | `findOneAndUpdate(..., {new: true})` returns the updated document, or none exactly when no order had the key |
| Queues.MergedOptions | server/src/services/queue.service.ts:140-149 | `addJob`'s options always have all four keys: the caller's value where given, else MEDIUM priority, delay 0, 3 attempts, exponential back-off from 2000 ms |
| Queues.HelperDefaultsTable | server/src/services/queue.service.ts:162-251 | without caller options: sync, process-order and status jobs run at HIGH; e-mail jobs at LOW after SHORT; cleanup jobs at LOW after LONG |
| Queues.CallerOptionsWin | server/src/services/queue.service.ts:162-251 | each key the caller gives wins over both the per-type and the `addJob` default |
| Queues.BackgroundJobsRankLower | server/src/services/queue.service.ts:162-251 | without caller options, e-mail and cleanup jobs rank below sync jobs, and cleanup jobs wait longer than e-mail jobs |
| Queues.QueueService.constructor | server/src/services/queue.service.ts:49-59 | starts with the orders and products queues and the orders flow registered, and no jobs |
| Queues.QueueService.CreateQueue | server/src/services/queue.service.ts:61-80 | idempotent: an existing name leaves the registry unchanged |
| Queues.QueueService.CreateFlow | server/src/services/queue.service.ts:82-94 | idempotent per name |
| Queues.QueueService.GetQueue | server/src/services/queue.service.ts:96-98 | some queue is returned exactly when the name is registered |
| Queues.QueueService.AddFlowJob | server/src/services/queue.service.ts:104-126 | unregistered flow: "Flow X not found", nothing enqueued; otherwise one parent job with its children |
| Queues.QueueService.AddJob | server/src/services/queue.service.ts:128-160 | unregistered queue: "Queue X not found", nothing enqueued; otherwise exactly one job with the merged options |
| Queues.QueueService.AddOrderSyncJob | server/src/services/queue.service.ts:162-170 | one `sync_orders` job on the orders queue, HIGH unless overridden |
| Queues.QueueService.AddProcessOrderJob | server/src/services/queue.service.ts:172-180 | one `process_order` job on the orders queue, HIGH unless overridden |
| Queues.QueueService.AddProcessOrderFlowJob | server/src/services/queue.service.ts:182-204 | one `orders-FLOW` parent on the orders queue, MEDIUM unless overridden; fails when the orders flow is not registered |
| Queues.QueueService.AddOrderEmailJob | server/src/services/queue.service.ts:206-220 | one `send_order_email` job on the orders queue, LOW and SHORT unless overridden |
| Queues.QueueService.AddUpdateOrderStatusJob | server/src/services/queue.service.ts:222-235 | one `update_order_status` job on the orders queue, HIGH unless overridden |
| Queues.QueueService.AddCleanupOrdersJob | server/src/services/queue.service.ts:237-251 | one `cleanup_old_orders` job on the orders queue, LOW and LONG unless overridden |
| Queues.QueueService.GetQueueStats | server/src/services/queue.service.ts:253-274 | an error exactly for an unregistered queue; otherwise the five list lengths |
| Queues.QueueService.PauseQueue | server/src/services/queue.service.ts:276-284 | unknown queue: an error, nothing changes; otherwise that queue becomes paused |
| Queues.QueueService.ResumeQueue | server/src/services/queue.service.ts:286-294 | unknown queue: an error, nothing changes; otherwise that queue stops being paused |
| Queues.QueueService.CloseQueues | server/src/services/queue.service.ts:296-303 | the queue registry is empty afterwards |
| Products.GetProductsQuery | server/src/services/product.service.ts:7-18 | a text filter exactly for a non-empty search; a sort exactly when field and order are both given, ascending exactly for "asc", otherwise descending |
| Products.GetProductsByIds | server/src/services/product.service.ts:48-51 | exactly the stored products whose `_id` is listed, in store order |
| Products.ToProduct | server/src/services/product.service.ts:64-74 | the remote `id` becomes the external `product_id`; name, description, meta data, SKU, stock status, categories, price and images are copied |
| Products.ToProductInjective | server/src/services/product.service.ts:64-74 | the mapping drops no remote field |
| Products.FetchAndCreateProducts | server/src/services/product.service.ts:59-85 | remote failure: the same error, nothing stored; otherwise exactly one product built from the remote record |
| Products.SyncProducts | server/src/services/product.service.ts:87-98 | the remote list, or `[]` on remote failure |
| Orders.GetOrdersQuery | server/src/services/order.service.ts:10-26 | status filter exactly for a truthy status; line-item filter exactly for a truthy, valid id; sort field `total` or `date_created` when asked, else `date_created`; direction 1 exactly for "asc", else -1 |
| Orders.UnfilteredQueryKeepsAll | server/src/services/order.service.ts:15-17 | with no status and no valid line item, the filters keep every order; an invalid id is dropped rather than matching nothing |
| Orders.GetOrderProducts | server/src/services/order.service.ts:65-74 | null exactly when no order has the key; otherwise the stored products that order lists |
| Orders.CreateManyOrders | server/src/services/order.service.ts:76-87 | all orders are inserted, then one sync job records how many and their ids |
| Orders.StatusChangeOf | server/src/services/order.service.ts:97-103 | the follow-up payload carries the order id and `newStatus`; its `oldStatus` is read from the updated document, so once that document holds the new status `oldStatus` equals it |
| Orders.FollowUpJobs | server/src/services/order.service.ts:96-116 | exactly one status job carrying `newStatus`, plus one e-mail job when, and only when, the billing e-mail is non-empty |
| Orders.EnqueueFollowUps | server/src/services/order.service.ts:96-116 | enqueues exactly the follow-up jobs, in that order |
| Orders.UpdateOrderStatus | server/src/services/order.service.ts:89-119 | missing key: null, nothing stored or enqueued; otherwise the status is set, the follow-up jobs are enqueued, and the updated order is returned |
| Orders.SyncOrdersWithDateFilter | server/src/services/order.service.ts:135-155 | the remote list, or `[]` on remote failure; never an error |
| Cleanup.OlderThan | server/src/services/cleanup.service.ts:15-17 | exactly the orders created strictly before the cutoff |
| Cleanup.Survivors | server/src/services/cleanup.service.ts:35-37 | exactly the orders created at or after the cutoff |
| Cleanup.AddRefs | server/src/services/cleanup.service.ts:28-32 | adding one order's line items keeps the set duplicate-free and adds exactly its non-null ids |
| Cleanup.CandidateRefs | server/src/services/cleanup.service.ts:26-33 | the candidate set is duplicate-free and holds exactly the non-null product refs of the given orders |
| Cleanup.CollectCandidates | server/src/services/cleanup.service.ts:26-33 | the nested loops build exactly the candidate set, in first-occurrence order |
| Cleanup.FindOrphanedProducts | server/src/services/cleanup.service.ts:71-100 | the candidates whose reference count against the stored orders is zero, in candidate order |
| Cleanup.OrphansOfCandidates | server/src/services/cleanup.service.ts:73-89 | empty for no candidates; otherwise a subsequence of the candidates, holding exactly those no order lists |
| Cleanup.Sweep | server/src/services/cleanup.service.ts:6-69 | the reference sweep keeps only stored documents, and reports as deleted exactly the number of documents each collection lost |
| Cleanup.CleanupOldOrders | server/src/services/cleanup.service.ts:6-69 | the final store and the result are the reference sweep's |
| Cleanup.SweepKeepsRecentOrders | server/src/services/cleanup.service.ts:15-37 | exactly the orders created at or after the cutoff survive |
| Cleanup.SweepCountsOldOrders | server/src/services/cleanup.service.ts:35-58 | `deletedOrders` is the number of orders created before the cutoff |
| Cleanup.SweepWithoutOldOrders | server/src/services/cleanup.service.ts:19-22 | no old order: result `{0, 0}` and both collections unchanged |
| Cleanup.SweepDeletesExactlyOrphans | server/src/services/cleanup.service.ts:35-52 | a product is deleted exactly when an old order listed it and no surviving order lists it; the count uses the state after the order deletion |
| Cleanup.SweepKeepsReferencedProducts | server/src/services/cleanup.service.ts:81-89 | a product listed by a surviving order is never deleted |
| Cleanup.SweepProductCountBound | server/src/services/cleanup.service.ts:44-52 | `deletedProducts` is at most the size of the candidate set |
| Cleanup.SweepIdempotent | server/src/services/cleanup.service.ts:15-22 | a second run with the same cutoff changes nothing and reports `{0, 0}` |
| Cleanup.PreviewCleanup | server/src/services/cleanup.service.ts:128-180 | changes nothing; `ordersCount` is the number of old orders; `productsToCheck` is the candidate set and its count is the set's size; each summary's `line_items_count` is that order's line-item count |
| Cleanup.GetCleanupStats | server/src/services/cleanup.service.ts:102-126 | totals of both collections; `oldOrders` is the number of orders created before the cutoff, so it is at most `totalOrders` and zero exactly when no order is older |
| Cron.SyncJobs | server/src/services/cron.service.ts:53-58 | at most one sync job, exactly when the orders queue is registered |
| Cron.SyncJobOptions | server/src/services/cron.service.ts:53-57 | the sync job runs at HIGH priority, with no delay and three attempts |
| Cron.StartSyncProcess | server/src/services/cron.service.ts:53-58 | enqueues exactly one `sync_orders` job with an empty payload and attempts 3 |
| Cron.TriggerOrderSync | server/src/services/cron.service.ts:92-98 | the manual sync behaves exactly like `startSyncProcess`, including its error |
| Cron.ScheduledOrderSync | server/src/services/cron.service.ts:12-23 | the daily sync enqueues the same job; an error is swallowed |
| Cron.TriggerCleanup | server/src/services/cron.service.ts:100-109 | returns the sweeper's result unchanged |
| Cron.ScheduledCleanup | server/src/services/cron.service.ts:32-47 | the weekly job performs the sweep |
| Cron.FetchOrdersFromWooCommerce | server/src/services/cron.service.ts:60-76 | the service list; its ServerError path cannot be reached |
| Workers.RouteOrdersJob | server/src/services/worker.service.ts:87-115 | a handler exactly for the six known names, matching the name; otherwise "Unknown job type: NAME" |
| Workers.RouteOrdersJobInverse | server/src/services/worker.service.ts:89-109 | every handler is reached by its own name |
| Workers.ProcessOrderJobs | server/src/services/worker.service.ts:158-160 | one `process_order` job per remote order, in list order |
| Workers.TransformOrder | server/src/services/worker.service.ts:194-206 | the flow's order has no line items and copies `order_key` and `status`; a missing note becomes "" |
| Workers.ProductChildren | server/src/services/worker.service.ts:208-221 | one `process_product` child per line item, on the products queue, with attempts 3 |
| Workers.FlowDocument | server/src/services/worker.service.ts:278-283 | the written order's line items are the children's values in order; every other field is the flow payload's |
| Workers.FlowDocumentReferences | server/src/services/worker.service.ts:276-285 | the written order lists exactly the products the children returned |
| Workers.EnvelopeIsSkipped | server/src/services/worker.service.ts:180-186 | the status job enqueued for a known order carries neither field the status handler reads; with a lookup by an undefined key matching nothing, the handler never updates |
| Workers.CascadeTerminates | server/src/services/worker.service.ts:238-257 | the follow-up status job from `updateOrderStatus` finds the status already set and skips |
| Workers.WorkerService.constructor | server/src/services/worker.service.ts:23-32 | one running, unpaused worker per queue |
| Workers.WorkerService.CreateWorker | server/src/services/worker.service.ts:34-69 | idempotent per queue name |
| Workers.WorkerService.GetWorker | server/src/services/worker.service.ts:301-303 | some worker exactly when one is registered |
| Workers.WorkerService.PauseWorker | server/src/services/worker.service.ts:305-313 | unregistered queue: "Worker for queue X not found", nothing changes; otherwise that worker becomes paused |
| Workers.WorkerService.ResumeWorker | server/src/services/worker.service.ts:315-323 | unregistered queue: an error, nothing changes; otherwise that worker stops being paused |
| Workers.WorkerService.CloseWorkers | server/src/services/worker.service.ts:325-332 | the worker registry is empty afterwards |
| Workers.WorkerService.HandleProcessProduct | server/src/services/worker.service.ts:120-137 | existing product: its `_id`, nothing created; otherwise exactly one product is created and its `_id` returned; a fetch failure is rethrown with nothing created; a payload without `product_id` fails with "product_id is required" |
| Workers.WorkerService.ProcessProductTwice | server/src/services/worker.service.ts:120-137 | when the remote returns the product asked for, a second run for the same line item returns the first run's result and changes nothing, so both runs together have the effect of one |
| Workers.WorkerService.HandleSyncOrders | server/src/services/worker.service.ts:143-167 | empty remote list: nothing enqueued; otherwise exactly one `process_order` job per remote order, in order |
| Workers.WorkerService.HandleProcessOrder | server/src/services/worker.service.ts:169-227 | never writes the store; known key: exactly one status job with attempts 2 and no flow; unknown key: exactly one flow with one product child per line item |
| Workers.WorkerService.HandleUpdateOrderStatus | server/src/services/worker.service.ts:238-257 | fields absent, order missing or status already equal: nothing changes; otherwise exactly one `updateOrderStatus` |
| Workers.WorkerService.HandleSendOrderEmail | server/src/services/worker.service.ts:229-236 | a stub: sends nothing and reports "Order email sent successfully" for any payload |
| Workers.WorkerService.HandleCleanupOldOrders | server/src/services/worker.service.ts:259-266 | a stub: runs no sweep and reports "Old orders cleaned up successfully" for any payload |
| Workers.WorkerService.HandleProcessOrderFlow | server/src/services/worker.service.ts:271-295 | a payload that is not an order document fails and stores nothing; otherwise exactly one order is created and returned, its line items being the children's values |
| Workers.WorkerService.ProcessOrdersJob | server/src/services/worker.service.ts:87-115 | unknown name: the error; the e-mail and cleanup stubs change neither the store nor the job list |
| Workers.WorkerService.ProcessProductsJob | server/src/services/worker.service.ts:75-85 | a name other than `process_product` returns undefined without error and changes nothing |
| Controller.GetQueueStats | server/src/controllers/queue.controller.ts:12-28 | a name outside {orders, products} gets 400; an unregistered queue gets 500; otherwise 200 with the stats |
| Controller.StatsEntry | server/src/controllers/queue.controller.ts:36-41 | one queue's entry: its stats, or the "Failed to get statistics" error entry exactly when its stats fail |
| Controller.GetAllQueuesStats | server/src/controllers/queue.controller.ts:31-49 | 200, with one entry per queue name; a failing queue does not stop the others |
| Controller.AddOrderJob | server/src/controllers/queue.controller.ts:52-92 | missing type or data: 400, nothing enqueued; an unknown type: 400, nothing enqueued; each of the five types adds exactly one job of that name; a service failure gives 500; success gives 201 with queueName "orders" |
| Controller.PauseQueue | server/src/controllers/queue.controller.ts:95-111 | an invalid name gets 400 and no queue changes; a registered queue: 200 "Queue X paused successfully" and it becomes paused; otherwise 500 "Failed to pause queue" |
| Controller.ResumeQueue | server/src/controllers/queue.controller.ts:114-130 | an invalid name gets 400 and no queue changes; a registered queue: 200 and it stops being paused; otherwise 500 |
| Controller.PauseWorker | server/src/controllers/queue.controller.ts:133-149 | an invalid name gets 400 and no worker changes; a registered worker: 200 "Worker for queue X paused successfully" and it becomes paused; otherwise 500 "Failed to pause worker" |
| Controller.ResumeWorker | server/src/controllers/queue.controller.ts:152-168 | an invalid name gets 400 and no worker changes; a registered worker: 200 and it stops being paused; otherwise 500 |
| Controller.QueueHealthOf | server/src/controllers/queue.controller.ts:186-189 | a missing queue reports `exists` false and `isPaused` false |
| Controller.WorkerHealthOf | server/src/controllers/queue.controller.ts:191-194 | a missing worker reports `exists` false and `isRunning` false |
| Controller.HealthCheck | server/src/controllers/queue.controller.ts:171-206 | status "healthy", with one queue entry and one worker entry per queue name |
| Controller.StartupIsHealthy | server/src/controllers/queue.controller.ts:181-194 | right after start-up, every queue is present and unpaused and every worker present and running |

## Left out

- **Client:** the React client (`client/`) is not part of this model.
- **Broker internals:** BullMQ's own behaviour is not modelled.
  - Not modelled: scheduling by priority and delay, back-off timing, retries, stall detection, and retention counts (`removeOnComplete`/`removeOnFail`).
  - The model records the options each job is given, not what the broker does with them.
  - A flow parent is handed its children's values as a parameter. That it runs only after every child has completed is assumed, not proved.
- **Flow options:** `addFlowJob` spreads the options beside `name`, `data` and `children` rather than under `opts`. The model keeps them as the parent job's options; whether the broker honours them there is not modelled.
- **Broker lists:** the five job lists that `getQueueStats` measures are broker state. They are a parameter.
- **MongoDB specifics:** text search (`$text`), `populate`, `lean` and `select`, and sorting.
  - `GetProductsQuery` and `GetOrdersQuery` build the filter and the sort, but do not apply them.
  - `Orders.MatchesFilters` applies the status and line-item filters, not the text search.
  - `Types.ObjectId.isValid` and `new Types.ObjectId(s)` are function parameters.
- **Undefined keys:** Mongoose's handling of an undefined key in a filter is not modelled. The model reads a lookup by an undefined key as matching no document.
- Workers.EnvelopeIsSkipped: holds only under that reading of an undefined key. `handleUpdateOrderStatus` has no guard: it calls `getOrderOrderKey(undefined)`, that is `Order.findOne({ order_key: undefined })`. If Mongoose drops the undefined key, the query matches some stored order. Its status then differs from `undefined`, so `updateOrderStatus(undefined, undefined)` would run. This model does not capture that.
- **Schema validation:** schema validation and indexes are not modelled. A flow parent whose payload is not an order document fails, with a fixed message.
- **Dates:** dates and date arithmetic are not modelled.
  - The retention cutoff ("three months ago") is the integer parameter `cutoff`.
  - The sync window's start is the string parameter `afterDate`.
  - `timestamp` fields of payloads and `cutoffDate` of the stats are left out.
- **`parseFloat`:** `parseFloat(total)` is not modelled. The total is kept as the remote's string.
- **Remote catalog:** the remote calls are function parameters that may fail. The error message's exact text is not modelled.
- Workers.WorkerService.ProcessProductTwice: assumes the remote catalog returns the product it was asked for, that is a record whose `id` is the requested `product_id`. Nothing in the source checks this; without it, a second run may fetch and store another copy.
- **Process-product payloads:** a `process_product` job whose payload has no `product_id` is rejected by the model. In the source it reaches the remote catalog with `NaN`.
- **Process-order payloads:**
  - A `process_order` payload that is not a remote order fails, with the error `data.id.toString()` would raise.
  - Orders sent through the operator endpoint are modelled only with the payload shapes the system itself produces.
- **Status-handler fields:** `Workers.StatusRequest` finds `orderKey`/`newStatus` only in the payload `updateOrderStatus` enqueues. An e-mail payload sent to a status job by hand, which has `orderKey` but no `newStatus`, is treated as having neither.
- **`isStatusUpdate`:** the constant `isStatusUpdate: true` field of the e-mail payload is left out.
- **Un-awaited rejection:** `handleProcessOrder` does not await its status job. A failure of that enqueue is ignored in the model; its effect on the process (an unhandled rejection) is not modelled.
- **Schedules and logging:** node-cron schedules, `startCronJobs`/`stopCronJobs`, logging and connection configuration are left out.
- **Concurrency:** worker concurrency and races between parallel sync passes are not modelled. Every run is one operation after another, so the cleanup race between selecting and deleting cannot arise in this model.
- **HTTP:** the routes, error classes and response helpers are not modelled. A response is its status code and a body datatype.
- **Stub handlers:**
  - `handleSendOrderEmail` and `handleCleanupOldOrders` are stubs that return constant messages. The cleanup stub does not run the sweep.
  - The `success: true` flag of the results of `handleSyncOrders`, `handleSendOrderEmail` and `handleCleanupOldOrders` is left out; only the message is kept.
- **Worker state:** a registered worker is running from creation. Pausing changes only its paused flag.
- **Unused helpers:** `getProductBySku`, `getOrderById`, `getProductOrders` and `syncOrders` are not part of this model. No modelled operation calls them.
- **Explicit `undefined`:** an option passed as explicitly `undefined`, which object spread would copy over a default, is not modelled. An option is either present with a value or absent.
- Workers.WorkerService.ProcessOrdersJob: for the four real handlers the contract states only the routing and what stays unchanged. Each handler's full effect is stated by that handler's own contract.
- Workers.WorkerService.ProcessProductsJob: for `process_product` the contract states only that the value is a product id. The full effect is `HandleProcessProduct`'s contract.
