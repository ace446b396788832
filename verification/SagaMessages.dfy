/** The messages of the saga, and which queue each reaches. */
module SagaMessages {
  import opened Results
  import opened InventoryTables
  import opened Totals
  import opened OrderTables

  /** `total` is the exact total of the prices the client sent, which `inventory.reserved` passes on. */
  datatype Message =
    | CreatedEvent(order: OrderId, items: seq<Line>, total: real)
    | ConfirmedEvent(order: OrderId)
    | CancelledEvent(order: OrderId)
    | ReservedEvent(order: OrderId, total: real)
    | NotReservedEvent(order: OrderId)
    | PaidEvent(order: OrderId)
    | NotPaidEvent(order: OrderId)
    | ReleasedEvent(order: OrderId)

  /** What the outbox row's payload says: `order.created` carries the items and the total as the client sent them. */
  function PayloadOf(event: OutboxEvent, row: OrderRow): Message {
    match event.kind
    case OrderCreated => CreatedEvent(event.order, row.Lines(), row.Announced())
    case OrderConfirmed => ConfirmedEvent(event.order)
    case OrderCancelled => CancelledEvent(event.order)
  }

  /** The order handler a message triggers. */
  function TriggerOf(m: Message): Option<Trigger> {
    match m
    case ReservedEvent(_, _) => Some(OnInventoryReserved)
    case NotReservedEvent(_) => Some(OnInventoryFailed)
    case PaidEvent(_) => Some(OnPaymentCompleted)
    case NotPaidEvent(_) => Some(OnPaymentFailed)
    case _ => None
  }

  /** The queues the saga's services consume. */
  datatype Queue = InventoryOrderEvents | PaymentInventoryEvents | OrderInventoryEvents | OrderPaymentEvents

  /** The bindings `setupTopology` makes. */
  predicate Bound(q: Queue, m: Message) {
    match q
    case InventoryOrderEvents => m.CreatedEvent? || m.CancelledEvent?
    case PaymentInventoryEvents => m.ReservedEvent?
    case OrderInventoryEvents => m.ReservedEvent? || m.NotReservedEvent?
    case OrderPaymentEvents => m.PaidEvent? || m.NotPaidEvent?
  }

  function Routed(q: Queue, m: Message): seq<Message> {
    if Bound(q, m) then [m] else []
  }
}
