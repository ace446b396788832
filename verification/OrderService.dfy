/** The `Order` aggregate root: transitions bump the version; the loaded version stays. */
module OrderAggregate {
  import opened InventoryTables
  import opened OrderTables
  import opened Totals

  class Order {
    const id: OrderId
    const customer: CustomerId
    const initialVersion: int
    const total: int // recomputed from the stored prices, in cents
    var status: OrderStatus
    var version: int

    constructor (id: OrderId, row: OrderRow)
      ensures this.id == id && customer == row.customer && total == Shown(row.ordered)
      ensures status == row.status && version == initialVersion == row.version
    {
      this.id, customer, initialVersion := id, row.customer, row.version;
      total := Cents(Total(Reload(row.ordered)));
      status, version := row.status, row.version;
    }

    method TransitionTo(newStatus: OrderStatus) returns (ok: bool)
      modifies this
      ensures ok <==> CanTransition(old(status), newStatus)
      ensures if ok then status == newStatus && version == old(version) + 1
              else status == old(status) && version == old(version)
    {
      if !CanTransition(status, newStatus) {
        return false;
      }
      status := newStatus;
      version := version + 1;
      return true;
    }

    method Cancel() returns (ok: bool)
      modifies this
      ensures ok <==> IsCancellable(old(status))
      ensures if ok then status == Cancelled && version == old(version) + 1
              else status == old(status) && version == old(version)
    {
      if !IsCancellable(status) {
        return false;
      }
      ok := TransitionTo(Cancelled);
    }
  }
}

/** `KnexOrderRepository`: insert and version-guarded update, each with its outbox rows. */
module OrderRepositories {
  import opened Results
  import opened InventoryTables
  import opened OrderTables
  import opened Totals
  import opened OrderAggregate

  class OrderRepository {
    var orders: map<OrderId, OrderRow>
    var outbox: seq<OutboxEvent>

    constructor ()
      ensures Contents() == OrderDb(map[], [])
    {
      orders, outbox := map[], [];
    }

    function Contents(): OrderDb
      reads this
    {
      OrderDb(orders, outbox)
    }

    method WriteOutbox(id: OrderId, kinds: seq<EventKind>)
      modifies this`outbox
      ensures outbox == old(outbox) + Outboxed(id, kinds)
    {
      for i := 0 to |kinds|
        invariant outbox == old(outbox) + Outboxed(id, kinds[..i])
      {
        outbox := outbox + [OutboxEvent(id, kinds[i])];
        assert Outboxed(id, kinds[..i + 1]) == Outboxed(id, kinds[..i]) + [OutboxEvent(id, kinds[i])];
      }
      assert kinds[..|kinds|] == kinds;
    }

    method Save(id: OrderId, row: OrderRow, kinds: seq<EventKind>) returns (error: Option<OrderError>)
      modifies this
      ensures match SaveOrder(old(Contents()), id, row, kinds)
              case Ok(db) => error.None? && Contents() == db
              case Err(e) => error == Some(e) && Contents() == old(Contents())
    {
      if id in orders || KeyUsed(Contents(), row.key) {
        return Some(DuplicateKey);
      }
      if !Storable(row.ordered) {
        return Some(InvalidOrder);
      }
      orders := orders[id := row];
      WriteOutbox(id, kinds);
      return None;
    }

    method Update(order: Order, kinds: seq<EventKind>) returns (error: Option<OrderError>)
      modifies this
      ensures match UpdateOrder(old(Contents()), order.id, order.initialVersion, order.status, order.version,
                order.total, kinds)
              case Ok(db) => error.None? && Contents() == db
              case Err(e) => error == Some(e) && Contents() == old(Contents())
    {
      if order.id !in orders || orders[order.id].version != order.initialVersion {
        return Some(VersionConflict);
      }
      orders := orders[order.id := orders[order.id].(status := order.status, version := order.version,
            total := order.total)];
      WriteOutbox(order.id, kinds);
      return None;
    }
  }
}

/** `OrderEventHandlers`, `CancelOrderHandler` and `CreateOrderHandler`, run without interference. */
module OrderHandlers {
  import opened Results
  import opened InventoryTables
  import opened OrderTables
  import opened Totals
  import opened OrderAggregate
  import opened OrderRepositories

  class OrderEventHandlers {
    const repository: OrderRepository

    constructor (repository: OrderRepository)
      ensures this.repository == repository
    {
      this.repository := repository;
    }

    method OnReserved(id: OrderId) returns (error: Option<OrderError>)
      modifies repository
      ensures Handle(old(repository.Contents()), id, OnInventoryReserved) == Ok(repository.Contents()) && error.None?
      ensures var was := old(repository.orders);
              if id in was && was[id].status == Created then
                && repository.orders == was[id := was[id].(status := PaymentPending, version := was[id].version + 2,
                                                           total := Shown(was[id].ordered))]
                && repository.outbox == old(repository.outbox)
              else repository.Contents() == old(repository.Contents())
    {
      if id !in repository.orders {
        return None;
      }
      var order := new Order(id, repository.orders[id]);
      if order.status != Created {
        return None;
      }
      var reserved := order.TransitionTo(InventoryReserved);
      var pending := order.TransitionTo(PaymentPending);
      error := repository.Update(order, []);
    }

    method OnCompleted(id: OrderId) returns (error: Option<OrderError>)
      modifies repository
      ensures Handle(old(repository.Contents()), id, OnPaymentCompleted) == Ok(repository.Contents()) && error.None?
      ensures var was := old(repository.orders);
              if id in was && was[id].status == PaymentPending then
                && repository.orders == was[id := was[id].(status := Confirmed, version := was[id].version + 1,
                                                           total := Shown(was[id].ordered))]
                && repository.outbox == old(repository.outbox) + [OutboxEvent(id, OrderConfirmed)]
              else repository.Contents() == old(repository.Contents())
    {
      if id !in repository.orders {
        return None;
      }
      var order := new Order(id, repository.orders[id]);
      if order.status == Confirmed {
        return None;
      }
      if order.status != PaymentPending {
        return None;
      }
      var confirmed := order.TransitionTo(Confirmed);
      error := repository.Update(order, [OrderConfirmed]);
    }

    method OnPaymentFailure(id: OrderId) returns (error: Option<OrderError>)
      modifies repository
      ensures Handle(old(repository.Contents()), id, OnPaymentFailed) == Ok(repository.Contents()) && error.None?
      ensures var was := old(repository.orders);
              if id in was && was[id].status !in {Confirmed, Cancelled, OrderStatus.Expired} then
                && repository.orders == was[id := was[id].(status := Cancelled, total := Shown(was[id].ordered),
                      version := was[id].version + if was[id].status == PaymentPending then 2 else 1)]
                && repository.outbox == old(repository.outbox) + [OutboxEvent(id, OrderCancelled)]
              else repository.Contents() == old(repository.Contents())
    {
      if id !in repository.orders {
        return None;
      }
      var order := new Order(id, repository.orders[id]);
      if order.status == Cancelled {
        return None;
      }
      if order.status == PaymentPending {
        var failed := order.TransitionTo(PaymentFailed);
      }
      if !IsCancellable(order.status) {
        return None;
      }
      var cancelled := order.Cancel();
      error := repository.Update(order, [OrderCancelled]);
    }

    method OnReservationFailure(id: OrderId) returns (error: Option<OrderError>)
      modifies repository
      ensures Handle(old(repository.Contents()), id, OnInventoryFailed) == Ok(repository.Contents()) && error.None?
      ensures var was := old(repository.orders);
              if id in was && was[id].status in {Created, InventoryReserved, InventoryFailed, PaymentFailed} then
                && repository.orders == was[id := was[id].(status := Cancelled, total := Shown(was[id].ordered),
                      version := was[id].version + if was[id].status == Created then 2 else 1)]
                && repository.outbox == old(repository.outbox)
              else repository.Contents() == old(repository.Contents())
    {
      if id !in repository.orders {
        return None;
      }
      var order := new Order(id, repository.orders[id]);
      if order.status == Cancelled {
        return None;
      }
      if order.status == Created {
        var failed := order.TransitionTo(InventoryFailed);
      }
      if !IsCancellable(order.status) {
        return None;
      }
      var cancelled := order.Cancel();
      error := repository.Update(order, []);
    }
  }

  method CancelOrder(repository: OrderRepository, id: OrderId, customer: CustomerId) returns (error: Option<OrderError>)
    modifies repository
    ensures match Handle(old(repository.Contents()), id, OnCustomerCancel(customer))
            case Ok(db) => error.None? && repository.Contents() == db
            case Err(e) => error == Some(e) && repository.Contents() == old(repository.Contents())
    ensures var was := old(repository.orders);
            if id !in was || was[id].customer != customer then error == Some(NotFound)
            else if was[id].status !in {Created, InventoryReserved, InventoryFailed, PaymentFailed} then
              error == Some(IllegalTransition)
            else
              && error.None?
              && repository.orders == was[id := was[id].(status := Cancelled, version := was[id].version + 1,
                                                         total := Shown(was[id].ordered))]
              && repository.outbox == old(repository.outbox) + [OutboxEvent(id, OrderCancelled)]
  {
    if id !in repository.orders {
      return Some(NotFound);
    }
    var order := new Order(id, repository.orders[id]);
    if order.customer != customer {
      return Some(NotFound);
    }
    var cancelled := order.Cancel();
    if !cancelled {
      return Some(IllegalTransition);
    }
    error := repository.Update(order, [OrderCancelled]);
  }

  /** Returns the id of the order with this key: the one found, or the new one inserted. */
  method CreateOrder(repository: OrderRepository, newId: OrderId, customer: CustomerId, ordered: seq<Item>, key: Key)
    returns (r: Result<OrderId, OrderError>)
    modifies repository
    ensures KeyUsed(old(repository.Contents()), key) ==> r.Ok? && repository.Contents() == old(repository.Contents())
    ensures !KeyUsed(old(repository.Contents()), key) ==>
              match NewOrder(customer, ordered, key)
              case Err(e) => r == Err(e)
              case Ok(row) =>
                match SaveOrder(old(repository.Contents()), newId, row, [OrderCreated])
                case Err(e) => r == Err(e)
                case Ok(db) => r == Ok(newId) && repository.Contents() == db
    ensures r.Ok? ==> r.value in repository.orders && repository.orders[r.value].key == key
    ensures r.Err? ==> repository.Contents() == old(repository.Contents())
    ensures var was := old(repository.orders);
            (forall id :: id in was ==> was[id].key != key) ==>
              && (r.Ok? <==>
                    && ordered != [] && newId !in was
                    && forall i :: 0 <= i < |ordered| ==>
                         ordered[i].price > 0.0 && ordered[i].quantity > 0 && Cents(ordered[i].price) > 0)
              && (r.Ok? ==>
                    && repository.orders ==
                        was[newId := OrderRow(customer, ordered, Cents(Total(ordered)), key, Created, 1)]
                    && repository.outbox == old(repository.outbox) + [OutboxEvent(newId, OrderCreated)])
  {
    if KeyUsed(repository.Contents(), key) {
      var id :| id in repository.orders && repository.orders[id].key == key;
      return Ok(id);
    }
    match NewOrder(customer, ordered, key)
    case Err(e) => return Err(e);
    case Ok(row) =>
      var error := repository.Save(newId, row, [OrderCreated]);
      if error.Some? {
        return Err(error.value);
      }
      return Ok(newId);
  }
}
