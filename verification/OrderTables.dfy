/** The order state machine, the order service's tables, and what each handler decides and writes. */
module OrderTables {
  import opened Results
  import opened InventoryTables
  import opened Totals

  datatype OrderStatus =
    | Created
    | InventoryReserved
    | InventoryFailed
    | PaymentPending
    | PaymentFailed
    | Confirmed
    | Cancelled
    | Expired

  function Transitions(from: OrderStatus): set<OrderStatus> {
    match from
    case Created => {InventoryReserved, InventoryFailed, OrderStatus.Expired, Cancelled}
    case InventoryReserved => {PaymentPending, Cancelled}
    case PaymentPending => {Confirmed, PaymentFailed}
    case PaymentFailed => {Cancelled}
    case InventoryFailed => {Cancelled}
    case Confirmed => {}
    case Cancelled => {}
    case Expired => {}
  }

  predicate CanTransition(from: OrderStatus, to: OrderStatus) {
    to in Transitions(from)
  }

  predicate IsCancellable(status: OrderStatus) {
    CanTransition(status, Cancelled)
  }

  type CustomerId = nat
  type Key = nat

  /**
   `ordered` are the items with the prices the client sent, as the outbox row of the order keeps them;
   `order_items` holds `Reload(ordered)`. `total` is the column `total_amount`, in cents.
   */
  datatype OrderRow =
    OrderRow(customer: CustomerId, ordered: seq<Item>, total: int, key: Key, status: OrderStatus, version: int)
  {
    /** What the inventory service is asked to reserve. */
    function Lines(): seq<Line> {
      LinesOf(ordered)
    }

    /** The exact total its `order.created` carries. */
    function Announced(): real {
      Total(ordered)
    }
  }

  datatype EventKind = OrderCreated | OrderConfirmed | OrderCancelled

  datatype OutboxEvent = OutboxEvent(order: OrderId, kind: EventKind)

  /** `orders` with its items, and the outbox in commit order. */
  datatype OrderDb = OrderDb(orders: map<OrderId, OrderRow>, outbox: seq<OutboxEvent>)

  datatype OrderError = InvalidOrder | DuplicateKey | VersionConflict | IllegalTransition | NotFound

  // ----- repository -----

  function Outboxed(id: OrderId, kinds: seq<EventKind>): (events: seq<OutboxEvent>)
    ensures |events| == |kinds|
    ensures forall i :: 0 <= i < |events| ==> events[i] == OutboxEvent(id, kinds[i])
  {
    seq(|kinds|, i requires 0 <= i < |kinds| => OutboxEvent(id, kinds[i]))
  }

  predicate KeyUsed(db: OrderDb, key: Key) {
    exists id :: id in db.orders && db.orders[id].key == key
  }

  /** `save`: the primary key, the unique idempotency key and the check on unit prices guard the insert. */
  function SaveOrder(db: OrderDb, id: OrderId, row: OrderRow, kinds: seq<EventKind>): Result<OrderDb, OrderError> {
    if id in db.orders || KeyUsed(db, row.key) then Err(DuplicateKey)
    else if !Storable(row.ordered) then Err(InvalidOrder)
    else Ok(OrderDb(db.orders[id := row], db.outbox + Outboxed(id, kinds)))
  }

  /** `update`: writes status, version and total of the row that still has the version the aggregate was loaded with. */
  function UpdateOrder(db: OrderDb, id: OrderId, loaded: int, status: OrderStatus, version: int, total: int,
                       kinds: seq<EventKind>): Result<OrderDb, OrderError>
  {
    if id !in db.orders || db.orders[id].version != loaded then Err(VersionConflict)
    else
      var row := db.orders[id].(status := status, version := version, total := total);
      Ok(OrderDb(db.orders[id := row], db.outbox + Outboxed(id, kinds)))
  }

  // ----- handlers -----

  datatype Trigger =
    | OnInventoryReserved
    | OnPaymentCompleted
    | OnPaymentFailed
    | OnInventoryFailed
    | OnCustomerCancel(customer: CustomerId)

  /** What a handler does with an order it loaded: nothing, throw, or walk `path` and write once. */
  datatype Plan = Ignore | Refuse(error: OrderError) | Write(path: seq<OrderStatus>, kinds: seq<EventKind>)

  function PlanFor(trigger: Trigger, row: OrderRow): Plan {
    match trigger
    case OnInventoryReserved =>
      if row.status == Created then Write([InventoryReserved, PaymentPending], []) else Ignore
    case OnPaymentCompleted =>
      if row.status == PaymentPending then Write([Confirmed], [OrderConfirmed]) else Ignore
    case OnPaymentFailed =>
      if row.status == PaymentPending then Write([PaymentFailed, Cancelled], [OrderCancelled])
      else if IsCancellable(row.status) then Write([Cancelled], [OrderCancelled])
      else Ignore
    case OnInventoryFailed =>
      if row.status == Created then Write([InventoryFailed, Cancelled], [])
      else if IsCancellable(row.status) then Write([Cancelled], [])
      else Ignore
    case OnCustomerCancel(customer) =>
      if row.customer != customer then Refuse(NotFound)
      else if IsCancellable(row.status) then Write([Cancelled], [OrderCancelled])
      else Refuse(IllegalTransition)
  }

  /** The single write at the end of a handler that loaded `row`, whose total it recomputed from the stored prices. */
  function Commit(db: OrderDb, id: OrderId, row: OrderRow, plan: Plan): Result<OrderDb, OrderError> {
    match plan
    case Ignore => Ok(db)
    case Refuse(e) => Err(e)
    case Write(path, kinds) =>
      if path == [] then Ok(db)
      else UpdateOrder(db, id, row.version, path[|path| - 1], row.version + |path|, Shown(row.ordered), kinds)
  }

  /** A whole handler run without interference. */
  function Handle(db: OrderDb, id: OrderId, trigger: Trigger): Result<OrderDb, OrderError> {
    if id in db.orders then Commit(db, id, db.orders[id], PlanFor(trigger, db.orders[id]))
    else if trigger.OnCustomerCancel? then Err(NotFound)
    else Ok(db)
  }

  /** The row a valid creation request inserts, with the total of the prices as sent. */
  function NewOrder(customer: CustomerId, ordered: seq<Item>, key: Key): Result<OrderRow, OrderError> {
    if ordered == [] || !Sellable(ordered) then Err(InvalidOrder)
    else Ok(OrderRow(customer, ordered, Charged(ordered), key, Created, 1))
  }

  /** Each status follows from the one before it in the transition graph. */
  predicate IsWalk(walk: seq<OrderStatus>) {
    forall i :: 0 < i < |walk| ==> CanTransition(walk[i - 1], walk[i])
  }

  const CONFIRMING := [Created, InventoryReserved, PaymentPending, Confirmed]
  const UNPAID := [Created, InventoryReserved, PaymentPending, PaymentFailed, Cancelled]
  const WITHDRAWN := [Created, InventoryReserved, Cancelled]
  const UNRESERVED := [Created, InventoryFailed, Cancelled]
  const CALLED_OFF := [Created, Cancelled]
  const LAPSED := [Created, OrderStatus.Expired]

  /**
   The lives of an order. The graph allows exactly these six, each broken off anywhere: an order is CONFIRMED
   only after its stock was reserved and its payment was pending, no status comes twice, and the graph leaves
   no status but CONFIRMED, CANCELLED and EXPIRED without a way on.
   */
  lemma WalksAreLives(walk: seq<OrderStatus>)
    requires walk != [] && walk[0] == Created
    ensures IsWalk(walk) <==>
            || walk <= CONFIRMING || walk <= UNPAID || walk <= WITHDRAWN
            || walk <= UNRESERVED || walk <= CALLED_OFF || walk <= LAPSED
  {
    if IsWalk(walk) {
      WalksEnd(walk);
    }
  }

  lemma WalksEnd(walk: seq<OrderStatus>)
    requires walk != [] && walk[0] == Created && IsWalk(walk)
    ensures || walk <= CONFIRMING || walk <= UNPAID || walk <= WITHDRAWN
            || walk <= UNRESERVED || walk <= CALLED_OFF || walk <= LAPSED
  {
    assert |walk| > 1 ==> CanTransition(walk[0], walk[1]);
    assert |walk| > 2 ==> CanTransition(walk[1], walk[2]);
    assert |walk| > 3 ==> CanTransition(walk[2], walk[3]);
    assert |walk| > 4 ==> CanTransition(walk[3], walk[4]);
    assert |walk| > 5 ==> CanTransition(walk[4], walk[5]);
  }

  /** Whatever a handler writes walks the transition graph, although it is written at once. */
  lemma PlansAreLegal(trigger: Trigger, row: OrderRow)
    requires PlanFor(trigger, row).Write?
    ensures PlanFor(trigger, row).path != [] && IsWalk([row.status] + PlanFor(trigger, row).path)
  {
    var path := PlanFor(trigger, row).path;
    var walk := [row.status] + path;
    assert |walk| <= 3 && walk[0] == row.status && walk[1] == path[0];
    if |path| == 2 {
      assert walk[2] == path[1];
    }
  }
}
