/** The enqueue layer of server/src/services/queue.service.ts: the queue and flow registries,
    the job list they feed, option merging and the per-type defaults. */
module Queues {
  import opened Wrappers
  import opened Domain
  import opened Constants

  /** A registered queue; `paused` is what `queue.isPaused()` reports. */
  datatype QueueState = QueueState(paused: bool)

  /** The five job-state lists the broker keeps for a queue (broker state, read by getQueueStats). */
  datatype BrokerLists = BrokerLists(waiting: seq<Job>, active: seq<Job>, completed: seq<Job>,
                                     failed: seq<Job>, delayed: seq<Job>)

  datatype QueueCounts = QueueCounts(waiting: nat, active: nat, completed: nat, failed: nat, delayed: nat)

  /** An options object with no keys (an omitted `options` argument). */
  const NO_OPTIONS: JobOptions := JobOptions(None, None, None, None)

  /** `{ ...base, ...over }`: each key present in `over` replaces the one in `base`. */
  function Override(base: JobOptions, over: JobOptions): JobOptions {
    JobOptions(
      if over.priority.Some? then over.priority else base.priority,
      if over.delay.Some? then over.delay else base.delay,
      if over.attempts.Some? then over.attempts else base.attempts,
      if over.backoff.Some? then over.backoff else base.backoff)
  }

  /** The defaults `addJob` spreads the caller's options over. */
  const ADD_JOB_DEFAULTS: JobOptions :=
    JobOptions(Some(PRIORITY_MEDIUM), Some(DELAY_IMMEDIATE), Some(3), Some(Backoff(Exponential, 2000)))

  /** The options `addJob` hands to the broker: every key has a value whatever the caller
      passes; each key the caller passes is the one used, the others are `addJob`'s defaults. */
  function MergedOptions(options: JobOptions): (m: JobOptions)
    ensures m.priority == Some(options.priority.GetOr(PRIORITY_MEDIUM))
    ensures m.delay == Some(options.delay.GetOr(DELAY_IMMEDIATE))
    ensures m.attempts == Some(options.attempts.GetOr(3))
    ensures m.backoff == Some(options.backoff.GetOr(Backoff(Exponential, 2000)))
  {
    Override(ADD_JOB_DEFAULTS, options)
  }

  /** The per-type defaults each `add*Job` helper spreads the caller's options over. */
  const SYNC_DEFAULTS: JobOptions := NO_OPTIONS.(priority := Some(PRIORITY_HIGH))
  const PROCESS_ORDER_DEFAULTS: JobOptions := NO_OPTIONS.(priority := Some(PRIORITY_HIGH))
  const EMAIL_DEFAULTS: JobOptions := NO_OPTIONS.(priority := Some(PRIORITY_LOW), delay := Some(DELAY_SHORT))
  const STATUS_DEFAULTS: JobOptions := NO_OPTIONS.(priority := Some(PRIORITY_HIGH))
  const CLEANUP_DEFAULTS: JobOptions := NO_OPTIONS.(priority := Some(PRIORITY_LOW), delay := Some(DELAY_LONG))
  const FLOW_DEFAULTS: JobOptions := NO_OPTIONS.(priority := Some(PRIORITY_MEDIUM))

  /** The options of a job added by an `add*Job` helper: the helper's defaults under the
      caller's options, and `addJob`'s defaults under both. */
  function HelperOptions(typeDefaults: JobOptions, options: JobOptions): JobOptions {
    MergedOptions(Override(typeDefaults, options))
  }

  /** The job an `add*Job` helper appends to the orders queue. */
  function OrdersJob(jobType: string, data: Payload, typeDefaults: JobOptions, options: JobOptions): Job {
    Job(QUEUE_ORDERS, jobType, data, HelperOptions(typeDefaults, options), [])
  }

  /** The per-type table: with no caller options, sync, process-order and status jobs run at
      HIGH priority without delay, the e-mail job at LOW after SHORT, the cleanup job at LOW
      after LONG; all keep three attempts and exponential back-off from 2000 ms. */
  lemma HelperDefaultsTable()
    ensures HelperOptions(SYNC_DEFAULTS, NO_OPTIONS)
      == JobOptions(Some(PRIORITY_HIGH), Some(DELAY_IMMEDIATE), Some(3), Some(Backoff(Exponential, 2000)))
    ensures HelperOptions(PROCESS_ORDER_DEFAULTS, NO_OPTIONS) == HelperOptions(SYNC_DEFAULTS, NO_OPTIONS)
    ensures HelperOptions(STATUS_DEFAULTS, NO_OPTIONS) == HelperOptions(SYNC_DEFAULTS, NO_OPTIONS)
    ensures HelperOptions(EMAIL_DEFAULTS, NO_OPTIONS)
      == JobOptions(Some(PRIORITY_LOW), Some(DELAY_SHORT), Some(3), Some(Backoff(Exponential, 2000)))
    ensures HelperOptions(CLEANUP_DEFAULTS, NO_OPTIONS)
      == JobOptions(Some(PRIORITY_LOW), Some(DELAY_LONG), Some(3), Some(Backoff(Exponential, 2000)))
  {
  }

  /** With no caller options, the e-mail and cleanup jobs rank below the sync, process-order
      and status jobs (a larger number is a lower priority), and the cleanup job waits longer
      than the e-mail job. */
  lemma BackgroundJobsRankLower()
    ensures HelperOptions(EMAIL_DEFAULTS, NO_OPTIONS).priority.value > HelperOptions(SYNC_DEFAULTS, NO_OPTIONS).priority.value
    ensures HelperOptions(CLEANUP_DEFAULTS, NO_OPTIONS).priority.value > HelperOptions(SYNC_DEFAULTS, NO_OPTIONS).priority.value
    ensures HelperOptions(CLEANUP_DEFAULTS, NO_OPTIONS).delay.value > HelperOptions(EMAIL_DEFAULTS, NO_OPTIONS).delay.value
  {
    HelperDefaultsTable();
    PrioritiesOrdered();
    DelaysOrdered();
  }

  /** A caller's key wins over the helper's default and over `addJob`'s default. */
  lemma CallerOptionsWin(typeDefaults: JobOptions, options: JobOptions)
    ensures options.priority.Some? ==> HelperOptions(typeDefaults, options).priority == options.priority
    ensures options.delay.Some? ==> HelperOptions(typeDefaults, options).delay == options.delay
    ensures options.attempts.Some? ==> HelperOptions(typeDefaults, options).attempts == options.attempts
    ensures options.backoff.Some? ==> HelperOptions(typeDefaults, options).backoff == options.backoff
  {
  }

  /** The queue service: registered queues, registered flow producers, and the job list. */
  class QueueService {
    var queues: map<string, QueueState>
    var flows: set<string>
    var jobs: seq<Job>

    /** `initializeQueues`: the orders and products queues and the orders flow. */
    constructor ()
      ensures queues == map[QUEUE_ORDERS := QueueState(false), QUEUE_PRODUCTS := QueueState(false)]
      ensures flows == {QUEUE_ORDERS}
      ensures jobs == []
    {
      queues, flows, jobs := map[], {}, [];
      new;
      CreateQueue(QUEUE_ORDERS);
      CreateQueue(QUEUE_PRODUCTS);
      CreateFlow(QUEUE_ORDERS);
    }

    /** `createQueue`: registers a queue unless one of that name exists. */
    method CreateQueue(queueName: string)
      modifies this
      ensures queueName in old(queues) ==> queues == old(queues)
      ensures queueName !in old(queues) ==> queues == old(queues)[queueName := QueueState(false)]
      ensures flows == old(flows) && jobs == old(jobs)
    {
      if queueName in queues {
        return;
      }
      queues := queues[queueName := QueueState(false)];
    }

    /** `createFlow`: registers a flow producer unless one of that name exists. */
    method CreateFlow(queueName: string)
      modifies this
      ensures flows == old(flows) + {queueName}
      ensures queues == old(queues) && jobs == old(jobs)
    {
      if queueName in flows {
        return;
      }
      flows := flows + {queueName};
    }

    function GetQueue(queueName: string): (r: Option<QueueState>)
      reads this
      ensures r.Some? <==> queueName in queues
      ensures r.Some? ==> r.value == queues[queueName]
    {
      if queueName in queues then Some(queues[queueName]) else None
    }

    /** `addFlowJob`: appends the flow parent with its children. The options are spread beside
        name, queueName, data and children, as the source does. */
    method AddFlowJob(flowName: string, queueName: string, data: Payload, children: seq<ChildJob>,
                      options: JobOptions) returns (r: Outcome)
      modifies this
      ensures queueName in old(flows) ==> r == Pass && jobs == old(jobs) + [Job(queueName, flowName, data, options, children)]
      ensures queueName !in old(flows) ==> r == Fail("Flow " + queueName + " not found") && jobs == old(jobs)
      ensures queues == old(queues) && flows == old(flows)
    {
      if queueName !in flows {
        return Fail("Flow " + queueName + " not found");
      }
      jobs := jobs + [Job(queueName, flowName, data, options, children)];
      r := Pass;
    }

    /** `addJob`: an unregistered queue throws and nothing is enqueued; otherwise one job is
        appended whose options are the caller's over the defaults. */
    method AddJob(queueName: string, jobType: string, data: Payload, options: JobOptions) returns (r: Outcome)
      modifies this
      ensures queueName in old(queues) ==> (r == Pass
        && jobs == old(jobs) + [Job(queueName, jobType, data, MergedOptions(options), [])])
      ensures queueName !in old(queues) ==> r == Fail("Queue " + queueName + " not found") && jobs == old(jobs)
      ensures queues == old(queues) && flows == old(flows)
    {
      var queue := GetQueue(queueName);
      if queue.None? {
        return Fail("Queue " + queueName + " not found");
      }
      var jobOptions := MergedOptions(options);
      jobs := jobs + [Job(queueName, jobType, data, jobOptions, [])];
      r := Pass;
    }

    method AddOrderSyncJob(data: Payload, options: JobOptions) returns (r: Outcome)
      modifies this
      ensures QUEUE_ORDERS in old(queues) ==> (r == Pass
        && jobs == old(jobs) + [OrdersJob(SYNC_ORDERS, data, SYNC_DEFAULTS, options)])
      ensures QUEUE_ORDERS !in old(queues) ==> r.Fail? && jobs == old(jobs)
      ensures queues == old(queues) && flows == old(flows)
    {
      r := AddJob(QUEUE_ORDERS, SYNC_ORDERS, data, Override(SYNC_DEFAULTS, options));
    }

    method AddProcessOrderJob(data: Payload, options: JobOptions) returns (r: Outcome)
      modifies this
      ensures QUEUE_ORDERS in old(queues) ==> (r == Pass
        && jobs == old(jobs) + [OrdersJob(PROCESS_ORDER, data, PROCESS_ORDER_DEFAULTS, options)])
      ensures QUEUE_ORDERS !in old(queues) ==> r.Fail? && jobs == old(jobs)
      ensures queues == old(queues) && flows == old(flows)
    {
      r := AddJob(QUEUE_ORDERS, PROCESS_ORDER, data, Override(PROCESS_ORDER_DEFAULTS, options));
    }

    /** `addProcessOrderFlowJob`: the parent `orders-FLOW` on the orders queue at MEDIUM
        priority unless the caller says otherwise. */
    method AddProcessOrderFlowJob(data: Payload, children: seq<ChildJob>, options: JobOptions) returns (r: Outcome)
      modifies this
      ensures QUEUE_ORDERS in old(flows) ==> (r == Pass
        && jobs == old(jobs) + [Job(QUEUE_ORDERS, ORDERS_FLOW, data, Override(FLOW_DEFAULTS, options), children)])
      ensures QUEUE_ORDERS !in old(flows) ==> r == Fail("Flow " + QUEUE_ORDERS + " not found") && jobs == old(jobs)
      ensures queues == old(queues) && flows == old(flows)
    {
      if QUEUE_ORDERS !in flows {
        return Fail("Flow " + QUEUE_ORDERS + " not found");
      }
      r := AddFlowJob(ORDERS_FLOW, QUEUE_ORDERS, data, children, Override(FLOW_DEFAULTS, options));
    }

    method AddOrderEmailJob(data: Payload, options: JobOptions) returns (r: Outcome)
      modifies this
      ensures QUEUE_ORDERS in old(queues) ==> (r == Pass
        && jobs == old(jobs) + [OrdersJob(SEND_ORDER_EMAIL, data, EMAIL_DEFAULTS, options)])
      ensures QUEUE_ORDERS !in old(queues) ==> r.Fail? && jobs == old(jobs)
      ensures queues == old(queues) && flows == old(flows)
    {
      r := AddJob(QUEUE_ORDERS, SEND_ORDER_EMAIL, data, Override(EMAIL_DEFAULTS, options));
    }

    method AddUpdateOrderStatusJob(data: Payload, options: JobOptions) returns (r: Outcome)
      modifies this
      ensures QUEUE_ORDERS in old(queues) ==> (r == Pass
        && jobs == old(jobs) + [OrdersJob(UPDATE_ORDER_STATUS, data, STATUS_DEFAULTS, options)])
      ensures QUEUE_ORDERS !in old(queues) ==> r.Fail? && jobs == old(jobs)
      ensures queues == old(queues) && flows == old(flows)
    {
      r := AddJob(QUEUE_ORDERS, UPDATE_ORDER_STATUS, data, Override(STATUS_DEFAULTS, options));
    }

    method AddCleanupOrdersJob(data: Payload, options: JobOptions) returns (r: Outcome)
      modifies this
      ensures QUEUE_ORDERS in old(queues) ==> (r == Pass
        && jobs == old(jobs) + [OrdersJob(CLEANUP_OLD_ORDERS, data, CLEANUP_DEFAULTS, options)])
      ensures QUEUE_ORDERS !in old(queues) ==> r.Fail? && jobs == old(jobs)
      ensures queues == old(queues) && flows == old(flows)
    {
      r := AddJob(QUEUE_ORDERS, CLEANUP_OLD_ORDERS, data, Override(CLEANUP_DEFAULTS, options));
    }

    /** `getQueueStats`: an unknown queue throws; otherwise the lengths of the five lists. */
    function GetQueueStats(queueName: string, lists: BrokerLists): (r: Result<QueueCounts>)
      reads this
      ensures r.Err? <==> queueName !in queues
      ensures r.Err? ==> r.error == "Queue " + queueName + " not found"
      ensures r.Ok? ==> r.value == QueueCounts(|lists.waiting|, |lists.active|, |lists.completed|,
                                               |lists.failed|, |lists.delayed|)
    {
      if queueName !in queues then Err("Queue " + queueName + " not found")
      else Ok(QueueCounts(|lists.waiting|, |lists.active|, |lists.completed|, |lists.failed|, |lists.delayed|))
    }

    method PauseQueue(queueName: string) returns (r: Outcome)
      modifies this
      ensures queueName in old(queues) ==> r == Pass && queues == old(queues)[queueName := QueueState(true)]
      ensures queueName !in old(queues) ==> r == Fail("Queue " + queueName + " not found") && queues == old(queues)
      ensures flows == old(flows) && jobs == old(jobs)
    {
      if queueName !in queues {
        return Fail("Queue " + queueName + " not found");
      }
      queues := queues[queueName := QueueState(true)];
      r := Pass;
    }

    method ResumeQueue(queueName: string) returns (r: Outcome)
      modifies this
      ensures queueName in old(queues) ==> r == Pass && queues == old(queues)[queueName := QueueState(false)]
      ensures queueName !in old(queues) ==> r == Fail("Queue " + queueName + " not found") && queues == old(queues)
      ensures flows == old(flows) && jobs == old(jobs)
    {
      if queueName !in queues {
        return Fail("Queue " + queueName + " not found");
      }
      queues := queues[queueName := QueueState(false)];
      r := Pass;
    }

    /** `closeQueues`: the queue registry is emptied; the flow registry is left as it is. */
    method CloseQueues()
      modifies this
      ensures queues == map[]
      ensures flows == old(flows) && jobs == old(jobs)
    {
      queues := map[];
    }
  }
}
