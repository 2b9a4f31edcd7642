/** server/src/services/cron.service.ts: the sync and cleanup triggers. The scheduled bodies
    and the manual triggers share one path each; when the schedules fire is not modelled. */
module Cron {
  import opened Wrappers
  import opened Domain
  import opened Constants
  import opened Store
  import opened Queues
  import Orders
  import Cleanup

  /** The caller options `startSyncProcess` passes. */
  const SYNC_OPTIONS: JobOptions := NO_OPTIONS.(attempts := Some(3))

  /** The job a sync trigger enqueues when the orders queue is registered. */
  function SyncJobs(registered: map<string, QueueState>): (r: seq<Job>)
    ensures |r| <= 1
    ensures |r| == 1 <==> QUEUE_ORDERS in registered
  {
    if QUEUE_ORDERS in registered then [OrdersJob(SYNC_ORDERS, EmptyData, SYNC_DEFAULTS, SYNC_OPTIONS)] else []
  }

  /** The sync job runs at HIGH priority, without delay, with three attempts. */
  lemma SyncJobOptions()
    ensures HelperOptions(SYNC_DEFAULTS, SYNC_OPTIONS)
      == JobOptions(Some(PRIORITY_HIGH), Some(DELAY_IMMEDIATE), Some(3), Some(Backoff(Exponential, 2000)))
  {
  }

  /** `startSyncProcess`: one `sync_orders` job with an empty payload. */
  method StartSyncProcess(queues: QueueService) returns (r: Outcome)
    modifies queues
    ensures r == Pass <==> QUEUE_ORDERS in old(queues.queues)
    ensures queues.jobs == old(queues.jobs) + SyncJobs(old(queues.queues))
    ensures queues.queues == old(queues.queues) && queues.flows == old(queues.flows)
  {
    r := queues.AddOrderSyncJob(EmptyData, SYNC_OPTIONS);
  }

  /** `triggerOrderSync`: the manual sync, which is `startSyncProcess`; an error propagates. */
  method TriggerOrderSync(queues: QueueService) returns (r: Outcome)
    modifies queues
    ensures r == Pass <==> QUEUE_ORDERS in old(queues.queues)
    ensures queues.jobs == old(queues.jobs) + SyncJobs(old(queues.queues))
    ensures queues.queues == old(queues.queues) && queues.flows == old(queues.flows)
  {
    r := StartSyncProcess(queues);
  }

  /** The daily schedule's body: `startSyncProcess`, with any error caught and logged. */
  method ScheduledOrderSync(queues: QueueService)
    modifies queues
    ensures queues.jobs == old(queues.jobs) + SyncJobs(old(queues.queues))
    ensures queues.queues == old(queues.queues) && queues.flows == old(queues.flows)
  {
    var _ := StartSyncProcess(queues);
  }

  /** `triggerCleanup`: the manual sweep; its result is the sweeper's, unchanged. */
  method TriggerCleanup(store: RecordStore, cutoff: int) returns (res: Cleanup.CleanupResult)
    requires store.Valid()
    modifies store
    ensures store.Valid()
    ensures var expected := Cleanup.Sweep(old(store.orders), old(store.products), cutoff);
      store.orders == expected.orders && store.products == expected.products && res == expected.result
    ensures store.nextId == old(store.nextId)
  {
    res := Cleanup.CleanupOldOrders(store, cutoff);
  }

  /** The weekly schedule's body: the sweep, its result only logged. */
  method ScheduledCleanup(store: RecordStore, cutoff: int)
    requires store.Valid()
    modifies store
    ensures store.Valid()
    ensures var expected := Cleanup.Sweep(old(store.orders), old(store.products), cutoff);
      store.orders == expected.orders && store.products == expected.products
    ensures store.nextId == old(store.nextId)
  {
    var _ := Cleanup.CleanupOldOrders(store, cutoff);
  }

  /** `fetchOrdersFromWooCommerce`: the order service's list. Because that service turns a
      remote failure into an empty list, the ServerError path is never taken. */
  function FetchOrdersFromWooCommerce(afterDate: string, fetchOrders: string -> Result<seq<RemoteOrder>>)
    : (r: Result<seq<RemoteOrder>>)
    ensures r.Ok?
    ensures fetchOrders(afterDate).Err? ==> r.value == []
    ensures fetchOrders(afterDate).Ok? ==> r.value == fetchOrders(afterDate).value
  {
    Ok(Orders.SyncOrdersWithDateFilter(afterDate, fetchOrders))
  }
}
