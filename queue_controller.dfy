/** server/src/controllers/queue.controller.ts: the operator endpoints. Each validates its
    input before touching a queue or worker, and maps a service error to status 500. */
module Controller {
  import opened Wrappers
  import opened Domain
  import opened Constants
  import opened Queues
  import opened Workers

  const OK: int := 200
  const CREATED: int := 201
  const BAD_REQUEST: int := 400
  const INTERNAL_SERVER_ERROR: int := 500

  /** `health.queues[name]`: `exists` and `isPaused`. */
  datatype QueueHealth = QueueHealth(present: bool, isPaused: bool)
  /** `health.workers[name]`: `exists` and `isRunning`. */
  datatype WorkerHealth = WorkerHealth(present: bool, isRunning: bool)

  /** The JSON bodies the endpoints send. */
  datatype Body =
    | ErrorBody(message: string)
    | MessageBody(message: string)
    | StatsBody(message: string, stats: QueueCounts)
    | AllStatsBody(message: string, allStats: map<string, Result<QueueCounts>>)
    | JobAddedBody(message: string, jobType: string, queueName: string)
    | HealthBody(message: string, status: string, queues: map<string, QueueHealth>, workers: map<string, WorkerHealth>)

  datatype Response = Response(status: int, body: Body)

  const INVALID_QUEUE_NAME: Response := Response(BAD_REQUEST, ErrorBody("Invalid queue name"))

  /** `Object.values(QUEUE_NAMES).includes(queueName)` */
  predicate ValidQueueName(queueName: string) {
    queueName in QUEUE_NAMES
  }

  /** `GET /queues/:queueName/stats` */
  method GetQueueStats(queues: QueueService, queueName: string, lists: BrokerLists) returns (res: Response)
    ensures !ValidQueueName(queueName) ==> res == INVALID_QUEUE_NAME
    ensures ValidQueueName(queueName) && queueName in queues.queues ==>
      res == Response(OK, StatsBody("Queue statistics retrieved successfully", queues.GetQueueStats(queueName, lists).value))
    ensures ValidQueueName(queueName) && queueName !in queues.queues ==>
      res == Response(INTERNAL_SERVER_ERROR, ErrorBody("Failed to get queue statistics"))
  {
    if !ValidQueueName(queueName) {
      return INVALID_QUEUE_NAME;
    }
    var stats := queues.GetQueueStats(queueName, lists);
    if stats.Err? {
      return Response(INTERNAL_SERVER_ERROR, ErrorBody("Failed to get queue statistics"));
    }
    res := Response(OK, StatsBody("Queue statistics retrieved successfully", stats.value));
  }

  /** The entry `getAllQueuesStats` records for one queue: its counts, or the error entry. */
  function StatsEntry(queues: QueueService, queueName: string, lists: BrokerLists): (r: Result<QueueCounts>)
    reads queues
    ensures r.Err? <==> queueName !in queues.queues
    ensures r.Err? ==> r.error == "Failed to get statistics"
    ensures r.Ok? ==> r == queues.GetQueueStats(queueName, lists)
  {
    match queues.GetQueueStats(queueName, lists)
    case Ok(counts) => Ok(counts)
    case Err(_) => Err("Failed to get statistics")
  }

  /** `GET /queues/stats`: one entry per queue name; a queue whose statistics fail gets an
      error entry and the other queues are still reported. */
  method GetAllQueuesStats(queues: QueueService, lists: string -> BrokerLists) returns (res: Response)
    ensures res.status == OK && res.body.AllStatsBody?
    ensures forall name :: name in res.body.allStats <==> name in QUEUE_NAMES
    ensures forall name :: name in res.body.allStats ==> res.body.allStats[name] == StatsEntry(queues, name, lists(name))
  {
    var allStats: map<string, Result<QueueCounts>> := map[];
    var names := QUEUE_NAMES;
    for i := 0 to |names|
      invariant forall name :: name in allStats <==> name in names[..i]
      invariant forall name :: name in allStats ==> allStats[name] == StatsEntry(queues, name, lists(name))
    {
      var queueName := names[i];
      var stats := queues.GetQueueStats(queueName, lists(queueName));
      if stats.Ok? {
        allStats := allStats[queueName := stats];
      } else {
        allStats := allStats[queueName := Err("Failed to get statistics")];
      }
      assert names[..i + 1] == names[..i] + [queueName];
    }
    assert names[..|names|] == names;
    res := Response(OK, AllStatsBody("All queue statistics retrieved successfully", allStats));
  }

  /** The job types `addOrderJob` accepts. */
  const ADDABLE_JOB_TYPES: seq<string> :=
    [SYNC_ORDERS, PROCESS_ORDER, SEND_ORDER_EMAIL, UPDATE_ORDER_STATUS, CLEANUP_OLD_ORDERS]

  /** The per-type defaults of the helper each accepted job type is sent to. */
  function HelperDefaults(jobType: string): JobOptions
    requires jobType in ADDABLE_JOB_TYPES
  {
    if jobType == SYNC_ORDERS then SYNC_DEFAULTS
    else if jobType == PROCESS_ORDER then PROCESS_ORDER_DEFAULTS
    else if jobType == SEND_ORDER_EMAIL then EMAIL_DEFAULTS
    else if jobType == UPDATE_ORDER_STATUS then STATUS_DEFAULTS
    else CLEANUP_DEFAULTS
  }

  /** `POST /queues/orders/jobs`. `jobType` and `data` are `None` when absent or falsy. */
  method AddOrderJob(queues: QueueService, jobType: Option<string>, data: Option<Payload>, options: JobOptions)
    returns (res: Response)
    modifies queues
    ensures !Truthy(jobType) || data.None? ==>
      res == Response(BAD_REQUEST, ErrorBody("Job type and data are required")) && queues.jobs == old(queues.jobs)
    ensures Truthy(jobType) && data.Some? && jobType.value !in ADDABLE_JOB_TYPES ==>
      res == Response(BAD_REQUEST, ErrorBody("Invalid job type")) && queues.jobs == old(queues.jobs)
    ensures Truthy(jobType) && data.Some? && jobType.value in ADDABLE_JOB_TYPES && QUEUE_ORDERS in old(queues.queues) ==>
      res == Response(CREATED, JobAddedBody("Job added successfully", jobType.value, QUEUE_ORDERS))
      && queues.jobs == old(queues.jobs) + [OrdersJob(jobType.value, data.value, HelperDefaults(jobType.value), options)]
    ensures Truthy(jobType) && data.Some? && jobType.value in ADDABLE_JOB_TYPES && QUEUE_ORDERS !in old(queues.queues) ==>
      res == Response(INTERNAL_SERVER_ERROR, ErrorBody("Failed to add job")) && queues.jobs == old(queues.jobs)
    ensures queues.queues == old(queues.queues) && queues.flows == old(queues.flows)
  {
    if !Truthy(jobType) || data.None? {
      return Response(BAD_REQUEST, ErrorBody("Job type and data are required"));
    }
    var added: Outcome;
    var t := jobType.value;
    if t == SYNC_ORDERS {
      added := queues.AddOrderSyncJob(data.value, options);
    } else if t == PROCESS_ORDER {
      added := queues.AddProcessOrderJob(data.value, options);
    } else if t == SEND_ORDER_EMAIL {
      added := queues.AddOrderEmailJob(data.value, options);
    } else if t == UPDATE_ORDER_STATUS {
      added := queues.AddUpdateOrderStatusJob(data.value, options);
    } else if t == CLEANUP_OLD_ORDERS {
      added := queues.AddCleanupOrdersJob(data.value, options);
    } else {
      return Response(BAD_REQUEST, ErrorBody("Invalid job type"));
    }
    if added.Fail? {
      return Response(INTERNAL_SERVER_ERROR, ErrorBody("Failed to add job"));
    }
    res := Response(CREATED, JobAddedBody("Job added successfully", t, QUEUE_ORDERS));
  }

  /** `POST /queues/:queueName/pause` */
  method PauseQueue(queues: QueueService, queueName: string) returns (res: Response)
    modifies queues
    ensures !ValidQueueName(queueName) ==> res == INVALID_QUEUE_NAME && queues.queues == old(queues.queues)
    ensures ValidQueueName(queueName) && queueName in old(queues.queues) ==>
      res == Response(OK, MessageBody("Queue " + queueName + " paused successfully"))
      && queues.queues == old(queues.queues)[queueName := QueueState(true)]
    ensures ValidQueueName(queueName) && queueName !in old(queues.queues) ==>
      res == Response(INTERNAL_SERVER_ERROR, ErrorBody("Failed to pause queue")) && queues.queues == old(queues.queues)
    ensures queues.jobs == old(queues.jobs) && queues.flows == old(queues.flows)
  {
    if !ValidQueueName(queueName) {
      return INVALID_QUEUE_NAME;
    }
    var paused := queues.PauseQueue(queueName);
    if paused.Fail? {
      return Response(INTERNAL_SERVER_ERROR, ErrorBody("Failed to pause queue"));
    }
    res := Response(OK, MessageBody("Queue " + queueName + " paused successfully"));
  }

  /** `POST /queues/:queueName/resume` */
  method ResumeQueue(queues: QueueService, queueName: string) returns (res: Response)
    modifies queues
    ensures !ValidQueueName(queueName) ==> res == INVALID_QUEUE_NAME && queues.queues == old(queues.queues)
    ensures ValidQueueName(queueName) && queueName in old(queues.queues) ==>
      res == Response(OK, MessageBody("Queue " + queueName + " resumed successfully"))
      && queues.queues == old(queues.queues)[queueName := QueueState(false)]
    ensures ValidQueueName(queueName) && queueName !in old(queues.queues) ==>
      res == Response(INTERNAL_SERVER_ERROR, ErrorBody("Failed to resume queue")) && queues.queues == old(queues.queues)
    ensures queues.jobs == old(queues.jobs) && queues.flows == old(queues.flows)
  {
    if !ValidQueueName(queueName) {
      return INVALID_QUEUE_NAME;
    }
    var resumed := queues.ResumeQueue(queueName);
    if resumed.Fail? {
      return Response(INTERNAL_SERVER_ERROR, ErrorBody("Failed to resume queue"));
    }
    res := Response(OK, MessageBody("Queue " + queueName + " resumed successfully"));
  }

  /** `POST /workers/:queueName/pause` */
  method PauseWorker(workers: WorkerService, queueName: string) returns (res: Response)
    modifies workers
    ensures !ValidQueueName(queueName) ==> res == INVALID_QUEUE_NAME && workers.workers == old(workers.workers)
    ensures ValidQueueName(queueName) && queueName in old(workers.workers) ==>
      res == Response(OK, MessageBody("Worker for queue " + queueName + " paused successfully"))
      && workers.workers == old(workers.workers)[queueName := old(workers.workers)[queueName].(paused := true)]
    ensures ValidQueueName(queueName) && queueName !in old(workers.workers) ==>
      res == Response(INTERNAL_SERVER_ERROR, ErrorBody("Failed to pause worker")) && workers.workers == old(workers.workers)
  {
    if !ValidQueueName(queueName) {
      return INVALID_QUEUE_NAME;
    }
    var paused := workers.PauseWorker(queueName);
    if paused.Fail? {
      return Response(INTERNAL_SERVER_ERROR, ErrorBody("Failed to pause worker"));
    }
    res := Response(OK, MessageBody("Worker for queue " + queueName + " paused successfully"));
  }

  /** `POST /workers/:queueName/resume` */
  method ResumeWorker(workers: WorkerService, queueName: string) returns (res: Response)
    modifies workers
    ensures !ValidQueueName(queueName) ==> res == INVALID_QUEUE_NAME && workers.workers == old(workers.workers)
    ensures ValidQueueName(queueName) && queueName in old(workers.workers) ==>
      res == Response(OK, MessageBody("Worker for queue " + queueName + " resumed successfully"))
      && workers.workers == old(workers.workers)[queueName := old(workers.workers)[queueName].(paused := false)]
    ensures ValidQueueName(queueName) && queueName !in old(workers.workers) ==>
      res == Response(INTERNAL_SERVER_ERROR, ErrorBody("Failed to resume worker")) && workers.workers == old(workers.workers)
  {
    if !ValidQueueName(queueName) {
      return INVALID_QUEUE_NAME;
    }
    var resumed := workers.ResumeWorker(queueName);
    if resumed.Fail? {
      return Response(INTERNAL_SERVER_ERROR, ErrorBody("Failed to resume worker"));
    }
    res := Response(OK, MessageBody("Worker for queue " + queueName + " resumed successfully"));
  }

  /** The health entry of one queue: a missing queue is reported as not paused. */
  function QueueHealthOf(queues: QueueService, queueName: string): (h: QueueHealth)
    reads queues
    ensures h.present <==> queueName in queues.queues
    ensures h.isPaused <==> queueName in queues.queues && queues.queues[queueName].paused
  {
    match queues.GetQueue(queueName)
    case Some(q) => QueueHealth(true, q.paused)
    case None => QueueHealth(false, false)
  }

  /** The health entry of one worker: a missing worker is reported as not running. */
  function WorkerHealthOf(workers: WorkerService, queueName: string): (h: WorkerHealth)
    reads workers
    ensures h.present <==> queueName in workers.workers
    ensures h.isRunning <==> queueName in workers.workers && workers.workers[queueName].running
  {
    match workers.GetWorker(queueName)
    case Some(w) => WorkerHealth(true, w.running)
    case None => WorkerHealth(false, false)
  }

  /** `GET /queues/health`: one queue entry and one worker entry per queue name. */
  method HealthCheck(queues: QueueService, workers: WorkerService) returns (res: Response)
    ensures res.status == OK && res.body.HealthBody? && res.body.status == "healthy"
    ensures forall name :: name in res.body.queues <==> name in QUEUE_NAMES
    ensures forall name :: name in res.body.workers <==> name in QUEUE_NAMES
    ensures forall name :: name in res.body.queues ==> res.body.queues[name] == QueueHealthOf(queues, name)
    ensures forall name :: name in res.body.workers ==> res.body.workers[name] == WorkerHealthOf(workers, name)
  {
    var queueHealth: map<string, QueueHealth> := map[];
    var workerHealth: map<string, WorkerHealth> := map[];
    var names := QUEUE_NAMES;
    for i := 0 to |names|
      invariant forall name :: name in queueHealth <==> name in names[..i]
      invariant forall name :: name in workerHealth <==> name in names[..i]
      invariant forall name :: name in queueHealth ==> queueHealth[name] == QueueHealthOf(queues, name)
      invariant forall name :: name in workerHealth ==> workerHealth[name] == WorkerHealthOf(workers, name)
    {
      var queueName := names[i];
      var queue := queues.GetQueue(queueName);
      var worker := workers.GetWorker(queueName);
      queueHealth := queueHealth[queueName := QueueHealth(queue.Some?, if queue.Some? then queue.value.paused else false)];
      workerHealth := workerHealth[queueName := WorkerHealth(worker.Some?, if worker.Some? then worker.value.running else false)];
      assert names[..i + 1] == names[..i] + [queueName];
    }
    assert names[..|names|] == names;
    res := Response(OK, HealthBody("Queue system health check completed", "healthy", queueHealth, workerHealth));
  }

  /** Right after start-up both queues and both workers report present, not paused, and
      the workers running. */
  lemma StartupIsHealthy(queues: QueueService, workers: WorkerService)
    requires queues.queues == map[QUEUE_ORDERS := QueueState(false), QUEUE_PRODUCTS := QueueState(false)]
    requires workers.workers == map[QUEUE_ORDERS := WorkerState(OrdersProcessor, false, true),
                                    QUEUE_PRODUCTS := WorkerState(ProductsProcessor, false, true)]
    ensures forall name :: name in QUEUE_NAMES ==>
      QueueHealthOf(queues, name) == QueueHealth(true, false) && WorkerHealthOf(workers, name) == WorkerHealth(true, true)
  {
  }
}
