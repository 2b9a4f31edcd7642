/** The name, priority and delay tables of server/src/utils/constants.utils.ts. */
module Constants {

  const QUEUE_ORDERS: string := "orders"
  const QUEUE_PRODUCTS: string := "products"
  /** `Object.values(QUEUE_NAMES)`, in declaration order. */
  const QUEUE_NAMES: seq<string> := [QUEUE_ORDERS, QUEUE_PRODUCTS]

  const SYNC_ORDERS: string := "sync_orders"
  const PROCESS_ORDER: string := "process_order"
  const SEND_ORDER_EMAIL: string := "send_order_email"
  const UPDATE_ORDER_STATUS: string := "update_order_status"
  const CLEANUP_OLD_ORDERS: string := "cleanup_old_orders"
  const PROCESS_PRODUCT: string := "process_product"
  /** The flow parent's job name, `${QUEUE_NAMES.ORDERS}-FLOW`. */
  const ORDERS_FLOW: string := QUEUE_ORDERS + "-FLOW"

  const PRIORITY_HIGH: int := 1
  const PRIORITY_MEDIUM: int := 2
  const PRIORITY_LOW: int := 3

  const DELAY_IMMEDIATE: int := 0
  const DELAY_SHORT: int := 5000
  const DELAY_MEDIUM: int := 30000
  const DELAY_LONG: int := 300000

  /** The job names the orders worker dispatches on. */
  const ORDER_JOB_NAMES: seq<string> :=
    [SYNC_ORDERS, PROCESS_ORDER, SEND_ORDER_EMAIL, UPDATE_ORDER_STATUS, CLEANUP_OLD_ORDERS, ORDERS_FLOW]

  /** A smaller number is a higher priority. */
  lemma PrioritiesOrdered()
    ensures PRIORITY_HIGH < PRIORITY_MEDIUM < PRIORITY_LOW
  {
  }

  lemma DelaysOrdered()
    ensures DELAY_IMMEDIATE < DELAY_SHORT < DELAY_MEDIUM < DELAY_LONG
  {
  }

  lemma QueueNamesDistinct()
    ensures QUEUE_ORDERS != QUEUE_PRODUCTS
  {
  }

  /** The six job-type names, and the flow parent's name, are pairwise distinct. */
  lemma JobNamesDistinct()
    ensures forall i, j :: 0 <= i < j < |ORDER_JOB_NAMES| ==> ORDER_JOB_NAMES[i] != ORDER_JOB_NAMES[j]
    ensures PROCESS_PRODUCT !in ORDER_JOB_NAMES
  {
    var names := ORDER_JOB_NAMES;
    forall i, j | 0 <= i < j < |names| ensures names[i] != names[j] {
      // names of different lengths, or differing in their second character
      assert names[i][1] != names[j][1] || |names[i]| != |names[j]|;
    }
  }
}
