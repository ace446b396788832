/**
 The saga with each message handled once: confirmed publishes, queues that keep the order of one
 order's messages (messages of different orders may overtake each other, as between competing
 consumers), handlers that run to their end, and no reservation that expires.
 */
module FifoSaga {
  import opened Results
  import opened InventoryTables
  import opened StockLedger
  import opened OrderTables
  import opened Totals
  import opened SagaMessages

  /**
   `outbox` holds the rows still unpublished. `ids` lists the orders, `charged` the orders whose
   payment succeeded, and `early` those whose `payment.completed` was handled while they were
   still CREATED; these three only record.
   */
  datatype State = State(
    orders: map<OrderId, OrderRow>,
    outbox: seq<Message>,
    inventory: seq<Message>,  // inventory.order-events
    due: seq<Message>,        // payment.inventory-events
    replies: seq<Message>,    // order.inventory-events
    outcomes: seq<Message>,   // order.payment-events
    stock: Tables,
    ids: seq<OrderId>,
    charged: set<OrderId>,
    early: set<OrderId>)

  datatype Action =
    | Create(id: OrderId, customer: CustomerId, ordered: seq<Item>, key: Key)
    | Cancel(id: OrderId, customer: CustomerId)
    | Relay(i: nat)
    | HandleOrderEvent(i: nat, expiresAt: int)
    | HandleDue(i: nat, success: bool)
    | HandleReply(i: nat)
    | HandleOutcome(i: nat)

  /** No earlier message of the same order is still waiting. */
  predicate Ready(q: seq<Message>, i: nat) {
    i < |q| && forall j :: 0 <= j < i ==> q[j].order != q[i].order
  }

  function Without(q: seq<Message>, i: nat): seq<Message>
    requires i < |q|
  {
    q[..i] + q[i + 1..]
  }

  /** The broker copies a message to every queue bound to it. */
  function Publish(s: State, m: Message): State {
    s.(inventory := s.inventory + Routed(InventoryOrderEvents, m),
       due := s.due + Routed(PaymentInventoryEvents, m),
       replies := s.replies + Routed(OrderInventoryEvents, m),
       outcomes := s.outcomes + Routed(OrderPaymentEvents, m))
  }

  function Payloads(events: seq<OutboxEvent>, row: OrderRow): seq<Message> {
    seq(|events|, i requires 0 <= i < |events| => PayloadOf(events[i], row))
  }

  /** What a handler's write leaves: the row, and the rows it adds to the outbox. */
  function HandleOrder(s: State, id: OrderId, trigger: Trigger): State {
    match Handle(OrderDb(s.orders, []), id, trigger)
    case Err(_) => s
    case Ok(db) =>
      if id in db.orders then s.(orders := db.orders, outbox := s.outbox + Payloads(db.outbox, db.orders[id])) else s
  }

  function HandleTriggered(s: State, m: Message): State {
    match TriggerOf(m)
    case None => s
    case Some(trigger) => HandleOrder(s, m.order, trigger)
  }

  /** `onOrderCreated` and `onOrderCancelled`. */
  function HandleStock(s: State, m: Message, expiresAt: int): State {
    match m
    case CreatedEvent(order, items, total) =>
      (match RunActs(s.stock, ReserveActs(order, items, expiresAt))
       case Ok(t) => Publish(s.(stock := t), ReservedEvent(order, total))
       case Err(_) => Publish(s, NotReservedEvent(order)))
    case CancelledEvent(order) => s.(stock := Transact(s.stock, ReleaseActs(s.stock, OfOrder(order))))
    case _ => s
  }

  /** `onInventoryReserved`: one payment execution, whose result is published. */
  function HandlePayment(s: State, m: Message, success: bool): State {
    if !m.ReservedEvent? then s
    else if success then Publish(s.(charged := s.charged + {m.order}), PaidEvent(m.order))
    else Publish(s, NotPaidEvent(m.order))
  }

  predicate IsEarly(s: State, m: Message) {
    m.PaidEvent? && m.order in s.orders && s.orders[m.order].status == Created
  }

  function CreateOrder(s: State, id: OrderId, customer: CustomerId, ordered: seq<Item>, key: Key): State {
    match NewOrder(customer, ordered, key)
    case Err(_) => s
    case Ok(row) =>
      match SaveOrder(OrderDb(s.orders, []), id, row, [OrderCreated])
      case Err(_) => s
      case Ok(db) => s.(orders := db.orders, outbox := s.outbox + [PayloadOf(OutboxEvent(id, OrderCreated), row)],
            ids := s.ids + [id])
  }

  function Step(s: State, a: Action): State {
    match a
    case Create(id, customer, ordered, key) => CreateOrder(s, id, customer, ordered, key)
    case Cancel(id, customer) => HandleOrder(s, id, OnCustomerCancel(customer))
    case Relay(i) => if Ready(s.outbox, i) then Publish(s.(outbox := Without(s.outbox, i)), s.outbox[i]) else s
    case HandleOrderEvent(i, expiresAt) =>
      if Ready(s.inventory, i) then HandleStock(s.(inventory := Without(s.inventory, i)), s.inventory[i], expiresAt)
          else s
    case HandleDue(i, success) =>
      if Ready(s.due, i) then HandlePayment(s.(due := Without(s.due, i)), s.due[i], success) else s
    case HandleReply(i) =>
      if Ready(s.replies, i) then HandleTriggered(s.(replies := Without(s.replies, i)), s.replies[i]) else s
    case HandleOutcome(i) =>
      if Ready(s.outcomes, i) then
        var m := s.outcomes[i];
        var early := if IsEarly(s, m) then s.early + {m.order} else s.early;
        HandleTriggered(s.(outcomes := Without(s.outcomes, i), early := early), m)
      else s
  }

  function Start(stock: map<Sku, Stock>): State {
    State(map[], [], [], [], [], [], Tables(stock, []), [], {}, {})
  }

  function Run(stock: map<Sku, Stock>, actions: seq<Action>): State {
    if actions == [] then Start(stock) else Step(Run(stock, actions[..|actions| - 1]), actions[|actions| - 1])
  }

  /** Nothing is left to publish or to handle. */
  predicate Quiet(s: State) {
    s.outbox == [] && s.inventory == [] && s.due == [] && s.replies == [] && s.outcomes == []
  }
}

/** One order's share of queues and reservation rows. */
module PerOrder {
  import opened InventoryTables
  import opened StockLedger
  import opened SagaMessages
  import opened FifoSaga

  /** The messages of one order, in queue order. */
  function For(q: seq<Message>, o: OrderId): seq<Message> {
    if q == [] then []
    else For(q[..|q| - 1], o) + if q[|q| - 1].order == o then [q[|q| - 1]] else []
  }

  lemma {:induction false} ForConcat(a: seq<Message>, b: seq<Message>, o: OrderId)
    ensures For(a + b, o) == For(a, o) + For(b, o)
    decreases |b|
  {
    if b == [] {
      assert a + b == a;
    } else {
      var n := |b| - 1;
      assert (a + b)[..|a| + n] == a + b[..n];
      ForConcat(a, b[..n], o);
    }
  }

  lemma ForOne(m: Message, o: OrderId)
    ensures For([m], o) == if m.order == o then [m] else []
  {
    assert [m][..0] == [];
  }

  lemma ForAppend(q: seq<Message>, m: Message, o: OrderId)
    ensures For(q + [m], o) == For(q, o) + if m.order == o then [m] else []
  {
    ForConcat(q, [m], o);
    ForOne(m, o);
  }

  lemma {:induction false} ForNone(q: seq<Message>, o: OrderId)
    requires forall i :: 0 <= i < |q| ==> q[i].order != o
    ensures For(q, o) == []
  {
    if q != [] {
      ForNone(q[..|q| - 1], o);
    }
  }

  /** Handling a ready message takes the first message of its order, and none of any other order. */
  lemma ForWithout(q: seq<Message>, i: nat, o: OrderId)
    requires Ready(q, i)
    ensures For(q, o) == (if q[i].order == o then [q[i]] else []) + For(Without(q, i), o)
  {
    var a, b := q[..i], q[i + 1..];
    assert q == a + [q[i]] + b;
    ForConcat(a + [q[i]], b, o);
    ForAppend(a, q[i], o);
    ForConcat(a, b, o);
    if q[i].order == o {
      ForNone(a, o);
    }
  }

  /** A ready message is the first of its order. */
  lemma IsFirst(q: seq<Message>, i: nat)
    requires Ready(q, i)
    ensures For(q, q[i].order) != [] && For(q, q[i].order)[0] == q[i]
  {
    ForWithout(q, i, q[i].order);
  }

  // ----- reservation rows -----

  function OrderQty(rows: seq<Reservation>, o: OrderId, sku: Sku): int {
    if rows == [] then 0
    else OrderQty(rows[..|rows| - 1], o, sku) + if rows[|rows| - 1].order == o then Held(rows[|rows| - 1], sku) else 0
  }

  /** The order's ACTIVE reservations are exactly its items. */
  ghost predicate Holds(rows: seq<Reservation>, o: OrderId, items: seq<Line>) {
    forall sku: Sku :: OrderQty(rows, o, sku) == LineQty(items, sku)
  }

  predicate HoldsNothing(rows: seq<Reservation>, o: OrderId) {
    forall i :: 0 <= i < |rows| && rows[i].order == o ==> rows[i].status != Active
  }

  lemma {:induction false} NothingHeld(rows: seq<Reservation>, o: OrderId, sku: Sku)
    requires HoldsNothing(rows, o)
    ensures OrderQty(rows, o, sku) == 0
    decreases |rows|
  {
    if rows != [] {
      NothingHeld(rows[..|rows| - 1], o, sku);
    }
  }

  lemma {:induction false} QtyAfterReserve(rows: seq<Reservation>, order: OrderId, lines: seq<Line>, expiresAt: int,
                                           o: OrderId, sku: Sku)
    ensures OrderQty(rows + NewRows(order, lines, expiresAt), o, sku) == OrderQty(rows, o, sku) + if o == order
            then LineQty(lines, sku) else 0
    decreases |lines|
  {
    if lines == [] {
      assert rows + NewRows(order, lines, expiresAt) == rows;
    } else {
      var n := |lines| - 1;
      var all := rows + NewRows(order, lines, expiresAt);
      assert all[..|all| - 1] == rows + NewRows(order, lines[..n], expiresAt);
      QtyAfterReserve(rows, order, lines[..n], expiresAt, o, sku);
    }
  }

  /** The rows of `o` are the same in both. */
  predicate SameRows(rows: seq<Reservation>, rows': seq<Reservation>, o: OrderId) {
    && |rows| == |rows'|
    && forall i :: 0 <= i < |rows| ==> rows'[i].order == rows[i].order && (rows[i].order == o ==> rows'[i] == rows[i])
  }

  lemma {:induction false} SameQty(rows: seq<Reservation>, rows': seq<Reservation>, o: OrderId, sku: Sku)
    requires SameRows(rows, rows', o)
    ensures OrderQty(rows', o, sku) == OrderQty(rows, o, sku)
    decreases |rows|
  {
    if rows != [] {
      SameQty(rows[..|rows| - 1], rows'[..|rows| - 1], o, sku);
    }
  }

  // ----- summing over the orders -----

  function SumQty(rows: seq<Reservation>, ids: seq<OrderId>, sku: Sku): int {
    if ids == [] then 0 else SumQty(rows, ids[..|ids| - 1], sku) + OrderQty(rows, ids[|ids| - 1], sku)
  }

  lemma {:induction false} SumQtyRow(rows: seq<Reservation>, ids: seq<OrderId>, sku: Sku)
    requires rows != [] && Distinct(ids)
    ensures var row := rows[|rows| - 1];
            SumQty(rows, ids, sku) == SumQty(rows[..|rows| - 1], ids, sku)
            + if row.order in ids then Held(row, sku) else 0
    decreases |ids|
  {
    if ids != [] {
      var n := |ids| - 1;
      SumQtyRow(rows, ids[..n], sku);
      assert ids == ids[..n] + [ids[n]];
    }
  }

  lemma {:induction false} SumQtyEmpty(ids: seq<OrderId>, sku: Sku)
    ensures SumQty([], ids, sku) == 0
    decreases |ids|
  {
    if ids != [] {
      SumQtyEmpty(ids[..|ids| - 1], sku);
    }
  }

  /** Every ACTIVE unit of a SKU belongs to one of the orders. */
  lemma {:induction false} ActiveQtyIsSum(rows: seq<Reservation>, ids: seq<OrderId>, sku: Sku)
    requires Distinct(ids) && forall i :: 0 <= i < |rows| ==> rows[i].order in ids
    ensures ActiveQty(rows, sku) == SumQty(rows, ids, sku)
    decreases |rows|
  {
    if rows == [] {
      SumQtyEmpty(ids, sku);
    } else {
      ActiveQtyIsSum(rows[..|rows| - 1], ids, sku);
      SumQtyRow(rows, ids, sku);
    }
  }
}

/** Where the saga stands for each order, kept by every step. */
module SagaPhases {
  import opened Results
  import opened InventoryTables
  import opened StockLedger
  import opened OrderTables
  import opened Totals
  import opened SagaMessages
  import opened FifoSaga
  import opened PerOrder

  /** What the inventory service has still to be told about the order. */
  function Todo(s: State, o: OrderId): seq<Message> {
    For(s.inventory, o) + For(s.outbox, o)
  }

  /** One order's part of the state. */
  datatype View = View(todo: seq<Message>, due: seq<Message>, replies: seq<Message>, outcomes: seq<Message>,
        charged: bool, early: bool)

  function ViewOf(s: State, o: OrderId): View {
    View(Todo(s, o), For(s.due, o), For(s.replies, o), For(s.outcomes, o), o in s.charged, o in s.early)
  }

  /** The payment is due, or its result is on the way, or `payment.completed` came too early and was lost. */
  predicate Paying(v: View, o: OrderId, total: real) {
    || (v.due == [ReservedEvent(o, total)] && v.outcomes == [] && !v.charged && !v.early)
    || (v.due == [] && v.outcomes == [PaidEvent(o)] && v.charged && !v.early)
    || (v.due == [] && v.outcomes == [NotPaidEvent(o)] && !v.charged && !v.early)
    || (v.due == [] && v.outcomes == [] && v.charged && v.early)
  }

  ghost predicate CreatedPhase(row: OrderRow, o: OrderId, v: View, rows: seq<Reservation>) {
    || (v == View([CreatedEvent(o, row.Lines(), row.Announced())], [], [], [], false, false) && HoldsNothing(rows, o))
    || (v == View([], [], [NotReservedEvent(o)], [], false, false) && HoldsNothing(rows, o))
    || (v.todo == [] && v.replies == [ReservedEvent(o, row.Announced())] && Paying(v, o, row.Announced())
          && Holds(rows, o, row.Lines()))
  }

  ghost predicate Phase(row: OrderRow, o: OrderId, v: View, rows: seq<Reservation>) {
    match row.status
    case Created => CreatedPhase(row, o, v, rows)
    case PaymentPending => v.todo == [] && v.replies == [] && Paying(v, o, row.Announced())
        && Holds(rows, o, row.Lines())
    case Confirmed =>
      (v.todo == [] || v.todo == [ConfirmedEvent(o)]) && v == View(v.todo, [], [], [], true, false)
          && Holds(rows, o, row.Lines())
    case Cancelled =>
      || (v.todo == [CreatedEvent(o, row.Lines(), row.Announced()), CancelledEvent(o)] && HoldsNothing(rows, o))
      || v.todo == [CancelledEvent(o)]
      || (v.todo == [] && HoldsNothing(rows, o))
    case _ => false
  }

  predicate Unheard(v: View, rows: seq<Reservation>, o: OrderId) {
    v == View([], [], [], [], false, false) && forall i :: 0 <= i < |rows| ==> rows[i].order != o
  }

  ghost predicate OrderOk(orders: map<OrderId, OrderRow>, o: OrderId, v: View, rows: seq<Reservation>) {
    if o in orders then Phase(orders[o], o, v, rows) else Unheard(v, rows, o)
  }

  ghost predicate Inv(s: State, initial: map<Sku, nat>) {
    && Ledger(s.stock, initial)
    && Distinct(s.ids) && (forall o :: o in s.ids <==> o in s.orders)
    && forall o: OrderId :: OrderOk(s.orders, o, ViewOf(s, o), s.stock.rows)
  }

  // ----- order handlers -----

  /** An order's row after a handler, and what it adds to the outbox. */
  function Written(row: OrderRow, plan: Plan): OrderRow {
    if plan.Write? && plan.path != [] then row.(status := plan.path[|plan.path| - 1],
          version := row.version + |plan.path|, total := Shown(row.ordered)) else row
  }

  function Told(o: OrderId, row: OrderRow, plan: Plan): seq<Message> {
    if !plan.Write? || plan.path == [] || plan.kinds == [] then [] else [PayloadOf(OutboxEvent(o, plan.kinds[0]), row)]
  }

  /** A plan tells at most one event. */
  lemma PayloadsAreTold(o: OrderId, row: OrderRow, row': OrderRow, trigger: Trigger)
    requires PlanFor(trigger, row).Write? && row'.ordered == row.ordered
    ensures Payloads(Outboxed(o, PlanFor(trigger, row).kinds), row') == Told(o, row, PlanFor(trigger, row))
  {
    PlansAreLegal(trigger, row);
  }

  lemma HandleOrderIs(s: State, o: OrderId, trigger: Trigger)
    ensures if o in s.orders then
              var plan := PlanFor(trigger, s.orders[o]);
              HandleOrder(s, o, trigger) ==
                  s.(orders := s.orders[o := Written(s.orders[o], plan)],
                    outbox := s.outbox + Told(o, s.orders[o], plan))
            else HandleOrder(s, o, trigger) == s
  {
    if o in s.orders {
      var row := s.orders[o];
      var plan := PlanFor(trigger, row);
      if plan.Write? {
        PlansAreLegal(trigger, row);
        PayloadsAreTold(o, row, Written(row, plan), trigger);
        assert [] + Outboxed(o, plan.kinds) == Outboxed(o, plan.kinds);
        assert Handle(OrderDb(s.orders, []), o, trigger) ==
            Ok(OrderDb(s.orders[o := Written(row, plan)], Outboxed(o, plan.kinds)));
      } else {
        assert s.orders[o := row] == s.orders && s.outbox + [] == s.outbox;
        assert Payloads([], row) == [];
      }
    }
  }

  /** The order after the handler that `m` triggers, if any. */
  function RowAfter(row: OrderRow, m: Message): OrderRow {
    if TriggerOf(m).Some? then Written(row, PlanFor(TriggerOf(m).value, row)) else row
  }

  function ToldAfter(o: OrderId, row: OrderRow, m: Message): seq<Message> {
    if TriggerOf(m).Some? then Told(o, row, PlanFor(TriggerOf(m).value, row)) else []
  }

  lemma HandleTriggeredIs(s: State, m: Message)
    ensures var o := m.order;
            if o in s.orders then
              HandleTriggered(s, m) == s.(orders := s.orders[o := RowAfter(s.orders[o], m)],
                    outbox := s.outbox + ToldAfter(o, s.orders[o], m))
            else HandleTriggered(s, m) == s
  {
    if TriggerOf(m).Some? {
      HandleOrderIs(s, m.order, TriggerOf(m).value);
    } else if m.order in s.orders {
      assert s.orders[m.order := s.orders[m.order]] == s.orders;
      assert s.outbox + [] == s.outbox;
    }
  }

  lemma CancelPhase(row: OrderRow, o: OrderId, v: View, rows: seq<Reservation>, customer: CustomerId)
    requires Phase(row, o, v, rows)
    ensures var plan := PlanFor(OnCustomerCancel(customer), row);
            Phase(Written(row, plan), o, v.(todo := v.todo + Told(o, row, plan)), rows)
  {
    assert v.todo + [] == v.todo;
  }

  lemma ReplyPhase(row: OrderRow, o: OrderId, v: View, rows: seq<Reservation>)
    requires Phase(row, o, v, rows) && v.replies != []
    ensures var m := v.replies[0];
            Phase(RowAfter(row, m), o, v.(replies := v.replies[1..], todo := v.todo + ToldAfter(o, row, m)), rows)
  {
    assert v.todo + [] == v.todo;
  }

  /** A `payment.completed` that finds its order still CREATED changes nothing, and is not sent again. */
  lemma OutcomePhase(row: OrderRow, o: OrderId, v: View, rows: seq<Reservation>)
    requires Phase(row, o, v, rows) && v.outcomes != []
    ensures var m := v.outcomes[0];
            var early := v.early || (m.PaidEvent? && row.status == Created);
            Phase(RowAfter(row, m), o, v.(outcomes := v.outcomes[1..], early := early,
                  todo := v.todo + ToldAfter(o, row, m)), rows)
  {
    assert v.todo + [] == v.todo;
  }

  lemma DuePhase(row: OrderRow, o: OrderId, v: View, rows: seq<Reservation>, success: bool)
    requires Phase(row, o, v, rows) && v.due != []
    ensures var v' := v.(due := v.due[1..]);
            Phase(row, o,
                  if !v.due[0].ReservedEvent? then v'
                  else if success then v'.(charged := true, outcomes := v.outcomes + [PaidEvent(o)])
                  else v'.(outcomes := v.outcomes + [NotPaidEvent(o)]), rows)
  {
  }

  /**
   Relaying an outbox row moves it to the inventory queue, or out of sight if the inventory service
   does not consume it.
   */
  lemma RelayPhase(row: OrderRow, o: OrderId, v: View, rows: seq<Reservation>, sent: seq<Message>,
                   waiting: seq<Message>)
    requires Phase(row, o, v, rows) && v.todo == sent + waiting && waiting != []
    ensures Phase(row, o, v.(todo := sent + Routed(InventoryOrderEvents, waiting[0]) + waiting[1..]), rows)
    ensures Routed(PaymentInventoryEvents, waiting[0]) == Routed(OrderInventoryEvents, waiting[0]) ==
            Routed(OrderPaymentEvents, waiting[0]) == []
  {
    assert waiting[0] in v.todo;
    if Bound(InventoryOrderEvents, waiting[0]) {
      assert sent + [waiting[0]] + waiting[1..] == v.todo;
    } else {
      assert v.todo == [ConfirmedEvent(o)];
      assert sent + [] + waiting[1..] == [];
    }
  }

  // ----- stock -----

  /** Nothing about the reservations of `o` changed. */
  ghost predicate SameFor(rows: seq<Reservation>, rows': seq<Reservation>, o: OrderId) {
    && (forall sku: Sku :: OrderQty(rows', o, sku) == OrderQty(rows, o, sku))
    && (HoldsNothing(rows, o) ==> HoldsNothing(rows', o))
    && ((forall i :: 0 <= i < |rows| ==> rows[i].order != o) ==> forall i :: 0 <= i < |rows'| ==> rows'[i].order != o)
  }

  lemma SameForOk(orders: map<OrderId, OrderRow>, o: OrderId, v: View, rows: seq<Reservation>, rows': seq<Reservation>)
    requires OrderOk(orders, o, v, rows) && SameFor(rows, rows', o)
    ensures OrderOk(orders, o, v, rows')
  {
  }

  lemma ReserveLeavesOthers(rows: seq<Reservation>, order: OrderId, lines: seq<Line>, expiresAt: int, o: OrderId)
    requires o != order
    ensures SameFor(rows, rows + NewRows(order, lines, expiresAt), o)
  {
    forall sku: Sku
      ensures OrderQty(rows + NewRows(order, lines, expiresAt), o, sku) == OrderQty(rows, o, sku)
    {
      QtyAfterReserve(rows, order, lines, expiresAt, o, sku);
    }
  }

  lemma ReserveHolds(rows: seq<Reservation>, order: OrderId, items: seq<Line>, expiresAt: int)
    requires HoldsNothing(rows, order)
    ensures Holds(rows + NewRows(order, SortLines(items), expiresAt), order, items)
  {
    forall sku: Sku
      ensures OrderQty(rows + NewRows(order, SortLines(items), expiresAt), order, sku) == LineQty(items, sku)
    {
      QtyAfterReserve(rows, order, SortLines(items), expiresAt, order, sku);
      NothingHeld(rows, order, sku);
      SortKeepsTotals(items, sku);
    }
  }

  lemma ReleaseFrees(t: Tables, order: OrderId, initial: map<Sku, nat>)
    requires Ledger(t, initial)
    ensures var t' := Transact(t, ReleaseActs(t, OfOrder(order)));
            && Ledger(t', initial) && HoldsNothing(t'.rows, order)
            && forall o: OrderId :: o != order ==> SameFor(t.rows, t'.rows, o)
  {
    GivingBackNeverThrows(t, OfOrder(order), initial);
    OpIsSound(t, GiveBack(OfOrder(order)));
    ActsKeepLedger(t, ReleaseActs(t, OfOrder(order)), initial);
    var t' := Transact(t, ReleaseActs(t, OfOrder(order)));
    forall o: OrderId | o != order
      ensures SameFor(t.rows, t'.rows, o)
    {
      forall sku: Sku
        ensures OrderQty(t'.rows, o, sku) == OrderQty(t.rows, o, sku)
      {
        SameQty(t.rows, t'.rows, o, sku);
      }
    }
  }

  lemma ReserveAdds(t: Tables, order: OrderId, items: seq<Line>, expiresAt: int, initial: map<Sku, nat>)
    requires Ledger(t, initial) && RunActs(t, ReserveActs(order, items, expiresAt)).Ok?
    ensures var t' := RunActs(t, ReserveActs(order, items, expiresAt)).value;
            Ledger(t', initial) && t'.rows == t.rows + NewRows(order, SortLines(items), expiresAt)
  {
    OpIsSound(t, Reserve(order, items, expiresAt));
    ActsKeepLedger(t, ReserveActs(order, items, expiresAt), initial);
    TakesEffect(t, order, SortLines(items), expiresAt);
  }

  lemma ReservedPhase(row: OrderRow, o: OrderId, v: View, rows: seq<Reservation>, rows': seq<Reservation>)
    requires Phase(row, o, v, rows) && v.todo != [] && v.todo[0].CreatedEvent?
    requires HoldsNothing(rows, o) ==> Holds(rows', o, row.Lines())
    ensures Phase(row, o, v.(todo := v.todo[1..], due := v.due + [ReservedEvent(o, row.Announced())],
              replies := v.replies + [ReservedEvent(o, row.Announced())]), rows')
  {
  }

  lemma RefusedPhase(row: OrderRow, o: OrderId, v: View, rows: seq<Reservation>)
    requires Phase(row, o, v, rows) && v.todo != [] && v.todo[0].CreatedEvent?
    ensures Phase(row, o, v.(todo := v.todo[1..], replies := v.replies + [NotReservedEvent(o)]), rows)
  {
  }

  lemma ReleasedPhase(row: OrderRow, o: OrderId, v: View, rows: seq<Reservation>, rows': seq<Reservation>)
    requires Phase(row, o, v, rows) && v.todo != [] && v.todo[0].CancelledEvent? && HoldsNothing(rows', o)
    ensures Phase(row, o, v.(todo := v.todo[1..]), rows')
  {
  }

  // ----- views -----

  function Extended(q: seq<Message>, queue: Queue, m: Message, o: OrderId): seq<Message> {
    if m.order == o && Bound(queue, m) then q + [m] else q
  }

  lemma RoutedFor(queue: Queue, q: seq<Message>, m: Message, o: OrderId)
    ensures For(q + Routed(queue, m), o) == Extended(For(q, o), queue, m, o)
  {
    if Bound(queue, m) {
      ForAppend(q, m, o);
    } else {
      assert q + [] == q;
    }
  }

  /**
   What a publish makes of an order's view, of which `sent` waits in the inventory queue and `waiting`
   in the outbox.
   */
  function Published(v: View, sent: seq<Message>, waiting: seq<Message>, m: Message, o: OrderId): View {
    v.(todo := Extended(sent, InventoryOrderEvents, m, o) + waiting,
       due := Extended(v.due, PaymentInventoryEvents, m, o),
       replies := Extended(v.replies, OrderInventoryEvents, m, o),
       outcomes := Extended(v.outcomes, OrderPaymentEvents, m, o))
  }

  lemma PublishView(s: State, m: Message, o: OrderId)
    ensures ViewOf(Publish(s, m), o) == Published(ViewOf(s, o), For(s.inventory, o), For(s.outbox, o), m, o)
  {
    RoutedFor(InventoryOrderEvents, s.inventory, m, o);
    RoutedFor(PaymentInventoryEvents, s.due, m, o);
    RoutedFor(OrderInventoryEvents, s.replies, m, o);
    RoutedFor(OrderPaymentEvents, s.outcomes, m, o);
  }

  /** What the publish of a reply of the inventory or the payment service makes of the view `v`. */
  function Heard(v: View, m: Message, o: OrderId): View {
    if m.order != o then v
    else match m
      case ReservedEvent(_, _) => v.(due := v.due + [m], replies := v.replies + [m])
      case NotReservedEvent(_) => v.(replies := v.replies + [m])
      case PaidEvent(_) => v.(outcomes := v.outcomes + [m])
      case NotPaidEvent(_) => v.(outcomes := v.outcomes + [m])
      case _ => v
  }

  lemma PublishedIsHeard(v: View, sent: seq<Message>, waiting: seq<Message>, m: Message, o: OrderId)
    requires v.todo == sent + waiting && !Bound(InventoryOrderEvents, m)
    ensures Published(v, sent, waiting, m, o) == Heard(v, m, o)
  {
  }

  lemma HeardView(s: State, m: Message, o: OrderId)
    requires !Bound(InventoryOrderEvents, m)
    ensures ViewOf(Publish(s, m), o) == Heard(ViewOf(s, o), m, o)
  {
    PublishView(s, m, o);
    PublishedIsHeard(ViewOf(s, o), For(s.inventory, o), For(s.outbox, o), m, o);
  }

  /** An outbox grown by at most one message of `order`. */
  lemma GrownFor(outbox: seq<Message>, told: seq<Message>, order: OrderId, o: OrderId)
    requires |told| <= 1 && (told != [] ==> told[0].order == order)
    ensures For(outbox + told, o) == For(outbox, o) + (if order == o then told else [])
  {
    if told == [] {
      assert outbox + told == outbox;
    } else {
      assert told == [told[0]];
      ForAppend(outbox, told[0], o);
    }
  }

  lemma GrownView(s: State, s': State, told: seq<Message>, order: OrderId, o: OrderId)
    requires |told| <= 1 && (told != [] ==> told[0].order == order)
    requires s'.outbox == s.outbox + told && s'.inventory == s.inventory && s'.due == s.due
    requires s'.replies == s.replies && s'.outcomes == s.outcomes && s'.charged == s.charged && s'.early == s.early
    ensures ViewOf(s', o) == if o == order then ViewOf(s, o).(todo := Todo(s, o) + told) else ViewOf(s, o)
  {
    GrownFor(s.outbox, told, order, o);
    assert For(s.inventory, o) + (For(s.outbox, o) + told) == Todo(s, o) + told;
  }

  /** A write of one order shows in that order's view only. */
  lemma WriteView(s: State, order: OrderId, plan: Plan, o: OrderId)
    requires order in s.orders
    ensures var row := s.orders[order];
            var s' := s.(orders := s.orders[order := Written(row, plan)], outbox := s.outbox + Told(order, row, plan));
            ViewOf(s', o) == if o == order then ViewOf(s, o).(todo := Todo(s, o) + Told(order, row, plan))
                else ViewOf(s, o)
  {
    var row := s.orders[order];
    var told := Told(order, row, plan);
    GrownView(s, s.(orders := s.orders[order := Written(row, plan)], outbox := s.outbox + told), told, order, o);
  }

  lemma TriggeredView(s: State, m: Message, o: OrderId)
    requires m.order in s.orders
    ensures var row := s.orders[m.order];
            ViewOf(HandleTriggered(s, m), o) == if o == m.order
                then ViewOf(s, o).(todo := Todo(s, o) + ToldAfter(o, row, m)) else ViewOf(s, o)
  {
    var told := ToldAfter(m.order, s.orders[m.order], m);
    HandleTriggeredIs(s, m);
    GrownView(s, HandleTriggered(s, m), told, m.order, o);
  }

  /** A queue that holds a message of an order shows it in the order's view, so the order exists. */
  lemma HeardOf(s: State, initial: map<Sku, nat>, o: OrderId)
    requires Inv(s, initial)
    requires Todo(s, o) != [] || For(s.due, o) != [] || For(s.replies, o) != [] || For(s.outcomes, o) != []
    ensures o in s.orders
  {
    assert OrderOk(s.orders, o, ViewOf(s, o), s.stock.rows);
  }

  /** An order after another one's write, or after its own. */
  lemma WrittenOrder(orders: map<OrderId, OrderRow>, order: OrderId, row: OrderRow, o: OrderId, v: View, v': View,
                     rows: seq<Reservation>)
    requires order in orders && OrderOk(orders, o, v, rows)
    requires if o == order then Phase(row, o, v', rows) else v' == v
    ensures OrderOk(orders[order := row], o, v', rows)
  {
  }

  /** A handler's effect on the view of `o`, when `v1` is that view without the message. */
  lemma TriggeredOrder(s: State, s1: State, m: Message, o: OrderId, v1: View)
    requires OrderOk(s.orders, o, ViewOf(s, o), s.stock.rows) && m.order in s.orders && s1.orders == s.orders
    requires ViewOf(s1, o) == if o == m.order then v1 else ViewOf(s, o)
    requires o == m.order ==>
               Phase(RowAfter(s.orders[o], m), o, v1.(todo := v1.todo + ToldAfter(o, s.orders[o], m)), s.stock.rows)
    ensures OrderOk(HandleTriggered(s1, m).orders, o, ViewOf(HandleTriggered(s1, m), o), s.stock.rows)
  {
    HandleTriggeredIs(s1, m);
    TriggeredView(s1, m, o);
    var v' := ViewOf(HandleTriggered(s1, m), o);
    WrittenOrder(s.orders, m.order, RowAfter(s.orders[m.order], m), o, ViewOf(s, o), v', s.stock.rows);
  }

  lemma ReplyOrder(s: State, s1: State, m: Message, o: OrderId)
    requires OrderOk(s.orders, o, ViewOf(s, o), s.stock.rows) && m.order in s.orders && s1.orders == s.orders
    requires ViewOf(s1, o) == ViewOf(s, o).(replies := For(s1.replies, o))
    requires For(s.replies, o) == (if m.order == o then [m] else []) + For(s1.replies, o)
    ensures OrderOk(HandleTriggered(s1, m).orders, o, ViewOf(HandleTriggered(s1, m), o), s.stock.rows)
  {
    if o == m.order {
      ReplyPhase(s.orders[o], o, ViewOf(s, o), s.stock.rows);
    }
    TriggeredOrder(s, s1, m, o, ViewOf(s, o).(replies := For(s1.replies, o)));
  }

  lemma TriggeredTouches(s: State, m: Message)
    ensures var s' := HandleTriggered(s, m); s'.stock == s.stock && s'.ids == s.ids
    ensures m.order in s.orders ==> HandleTriggered(s, m).orders.Keys == s.orders.Keys
  {
    HandleTriggeredIs(s, m);
  }

  lemma ReplyKeepsInv(s: State, i: nat, initial: map<Sku, nat>)
    requires Inv(s, initial) && Ready(s.replies, i)
    ensures Inv(Step(s, HandleReply(i)), initial)
  {
    var m, s1 := s.replies[i], s.(replies := Without(s.replies, i));
    IsFirst(s.replies, i);
    HeardOf(s, initial, m.order);
    TriggeredTouches(s1, m);
    forall o: OrderId
      ensures OrderOk(HandleTriggered(s1, m).orders, o, ViewOf(HandleTriggered(s1, m), o), s.stock.rows)
    {
      assert OrderOk(s.orders, o, ViewOf(s, o), s.stock.rows);
      ForWithout(s.replies, i, o);
      ReplyOrder(s, s1, m, o);
    }
  }

  lemma OutcomeOrder(s: State, s1: State, m: Message, o: OrderId)
    requires OrderOk(s.orders, o, ViewOf(s, o), s.stock.rows) && m.order in s.orders && s1.orders == s.orders
    requires ViewOf(s1, o) == ViewOf(s, o).(outcomes := For(s1.outcomes, o), early := o in s1.early)
    requires For(s.outcomes, o) == (if m.order == o then [m] else []) + For(s1.outcomes, o)
    requires o in s1.early <==> o in s.early || (o == m.order && IsEarly(s, m))
    ensures OrderOk(HandleTriggered(s1, m).orders, o, ViewOf(HandleTriggered(s1, m), o), s.stock.rows)
  {
    if o == m.order {
      OutcomePhase(s.orders[o], o, ViewOf(s, o), s.stock.rows);
    }
    TriggeredOrder(s, s1, m, o, ViewOf(s, o).(outcomes := For(s1.outcomes, o), early := o in s1.early));
  }

  lemma OutcomeKeepsInv(s: State, i: nat, initial: map<Sku, nat>)
    requires Inv(s, initial) && Ready(s.outcomes, i)
    ensures Inv(Step(s, HandleOutcome(i)), initial)
  {
    var m := s.outcomes[i];
    var early := if IsEarly(s, m) then s.early + {m.order} else s.early;
    var s1 := s.(outcomes := Without(s.outcomes, i), early := early);
    IsFirst(s.outcomes, i);
    HeardOf(s, initial, m.order);
    TriggeredTouches(s1, m);
    forall o: OrderId
      ensures OrderOk(HandleTriggered(s1, m).orders, o, ViewOf(HandleTriggered(s1, m), o), s.stock.rows)
    {
      assert OrderOk(s.orders, o, ViewOf(s, o), s.stock.rows);
      ForWithout(s.outcomes, i, o);
      OutcomeOrder(s, s1, m, o);
    }
  }

  lemma CancelKeepsInv(s: State, order: OrderId, customer: CustomerId, initial: map<Sku, nat>)
    requires Inv(s, initial)
    ensures Inv(Step(s, Cancel(order, customer)), initial)
  {
    HandleOrderIs(s, order, OnCustomerCancel(customer));
    if order in s.orders {
      var s' := Step(s, Cancel(order, customer));
      forall o: OrderId
        ensures OrderOk(s'.orders, o, ViewOf(s', o), s'.stock.rows)
      {
        assert OrderOk(s.orders, o, ViewOf(s, o), s.stock.rows);
        WriteView(s, order, PlanFor(OnCustomerCancel(customer), s.orders[order]), o);
        if o == order {
          CancelPhase(s.orders[o], o, ViewOf(s, o), s.stock.rows, customer);
        }
      }
    }
  }

  lemma CreateView(s: State, m: Message, o: OrderId)
    ensures ViewOf(s.(outbox := s.outbox + [m]), o) == if o == m.order then ViewOf(s, o).(todo := Todo(s, o) + [m])
            else ViewOf(s, o)
  {
    ForAppend(s.outbox, m, o);
    assert For(s.inventory, o) + (For(s.outbox, o) + [m]) == Todo(s, o) + [m];
  }

  lemma CreateKeepsInv(s: State, a: Action, initial: map<Sku, nat>)
    requires Inv(s, initial) && a.Create?
    ensures Inv(Step(s, a), initial)
  {
    var made := NewOrder(a.customer, a.ordered, a.key);
    if made.Ok? && SaveOrder(OrderDb(s.orders, []), a.id, made.value, [OrderCreated]).Ok? {
      var row := made.value;
      var m := CreatedEvent(a.id, row.Lines(), row.Announced());
      var s1 := s.(outbox := s.outbox + [m]);
      var s' := s1.(orders := s.orders[a.id := row], ids := s.ids + [a.id]);
      assert Step(s, a) == s';
      forall o: OrderId
        ensures OrderOk(s'.orders, o, ViewOf(s', o), s'.stock.rows)
      {
        assert OrderOk(s.orders, o, ViewOf(s, o), s.stock.rows);
        CreateView(s, m, o);
        assert ViewOf(s', o) == ViewOf(s1, o);
      }
    }
  }

  /** Relaying an outbox row: what was `waiting` loses its first message to what was `sent`. */
  lemma RelayedView(v: View, sent: seq<Message>, waiting: seq<Message>, rest: seq<Message>, m: Message, o: OrderId)
    requires v.todo == sent + waiting && waiting == (if m.order == o then [m] else []) + rest
    requires m.CreatedEvent? || m.ConfirmedEvent? || m.CancelledEvent?
    ensures Published(v.(todo := sent + rest), sent, rest, m, o) ==
            if m.order == o then v.(todo := sent + Routed(InventoryOrderEvents, m) + rest) else v
  {
    assert [] + rest == rest;
    assert sent + [] == sent;
  }

  lemma RelayOrder(orders: map<OrderId, OrderRow>, o: OrderId, v: View, rows: seq<Reservation>, sent: seq<Message>,
                   waiting: seq<Message>,
                   rest: seq<Message>, m: Message)
    requires OrderOk(orders, o, v, rows) && v.todo == sent + waiting
             && waiting == (if m.order == o then [m] else []) + rest
    requires m.CreatedEvent? || m.ConfirmedEvent? || m.CancelledEvent?
    ensures OrderOk(orders, o, Published(v.(todo := sent + rest), sent, rest, m, o), rows)
  {
    RelayedView(v, sent, waiting, rest, m, o);
    if m.order == o {
      assert waiting[0] == m && waiting[1..] == rest;
      RelayPhase(orders[o], o, v, rows, sent, waiting);
    }
  }

  /** Only the order service's own events are in the outbox. */
  lemma OutboxHolds(s: State, i: nat, initial: map<Sku, nat>)
    requires Inv(s, initial) && Ready(s.outbox, i)
    ensures s.outbox[i].CreatedEvent? || s.outbox[i].ConfirmedEvent? || s.outbox[i].CancelledEvent?
  {
    var m := s.outbox[i];
    IsFirst(s.outbox, i);
    HeardOf(s, initial, m.order);
    assert OrderOk(s.orders, m.order, ViewOf(s, m.order), s.stock.rows);
    assert m in Todo(s, m.order);
  }

  lemma RelayKeepsInv(s: State, i: nat, initial: map<Sku, nat>)
    requires Inv(s, initial) && Ready(s.outbox, i)
    ensures Inv(Step(s, Relay(i)), initial)
  {
    var m, s1 := s.outbox[i], s.(outbox := Without(s.outbox, i));
    OutboxHolds(s, i, initial);
    forall o: OrderId
      ensures OrderOk(s.orders, o, ViewOf(Publish(s1, m), o), s.stock.rows)
    {
      assert OrderOk(s.orders, o, ViewOf(s, o), s.stock.rows);
      ForWithout(s.outbox, i, o);
      PublishView(s1, m, o);
      RelayOrder(s.orders, o, ViewOf(s, o), s.stock.rows, For(s.inventory, o), For(s.outbox, o), For(s1.outbox, o), m);
    }
  }

  lemma PaymentView(s: State, m: Message, success: bool, o: OrderId)
    requires m.ReservedEvent?
    ensures var v := ViewOf(s, o);
            ViewOf(HandlePayment(s, m, success), o) ==
            if m.order != o then v
            else if success then v.(charged := true, outcomes := v.outcomes + [PaidEvent(o)])
            else v.(outcomes := v.outcomes + [NotPaidEvent(o)])
  {
    if success {
      HeardView(s.(charged := s.charged + {m.order}), PaidEvent(m.order), o);
    } else {
      HeardView(s, NotPaidEvent(m.order), o);
    }
  }

  lemma PaymentTouches(s: State, m: Message, success: bool)
    ensures var s' := HandlePayment(s, m, success); s'.orders == s.orders && s'.stock == s.stock && s'.ids == s.ids
  {
  }

  /** A message is the first of its order in the view, and its handling starts with the rest. */
  lemma DueOrder(s: State, s1: State, m: Message, success: bool, o: OrderId)
    requires OrderOk(s.orders, o, ViewOf(s, o), s.stock.rows)
    requires ViewOf(s1, o) == ViewOf(s, o).(due := For(s1.due, o))
    requires For(s.due, o) == (if m.order == o then [m] else []) + For(s1.due, o)
    ensures OrderOk(s.orders, o, ViewOf(HandlePayment(s1, m, success), o), s.stock.rows)
  {
    if m.ReservedEvent? {
      PaymentView(s1, m, success, o);
    }
    if o == m.order {
      DuePhase(s.orders[o], o, ViewOf(s, o), s.stock.rows, success);
    }
  }

  lemma DueKeepsInv(s: State, i: nat, success: bool, initial: map<Sku, nat>)
    requires Inv(s, initial) && Ready(s.due, i)
    ensures Inv(Step(s, HandleDue(i, success)), initial)
  {
    var m, s1 := s.due[i], s.(due := Without(s.due, i));
    PaymentTouches(s1, m, success);
    forall o: OrderId
      ensures OrderOk(s.orders, o, ViewOf(HandlePayment(s1, m, success), o), s.stock.rows)
    {
      assert OrderOk(s.orders, o, ViewOf(s, o), s.stock.rows);
      ForWithout(s.due, i, o);
      DueOrder(s, s1, m, success, o);
    }
  }

  /** The view `v1` is `v` after `m` was taken from the inventory queue. */
  predicate FirstTaken(v: View, v1: View, m: Message, o: OrderId) {
    v1 == v.(todo := v1.todo) && v.todo == (if m.order == o then [m] else []) + v1.todo
  }

  lemma TakeView(s: State, i: nat, o: OrderId)
    requires Ready(s.inventory, i)
    ensures FirstTaken(ViewOf(s, o), ViewOf(s.(inventory := Without(s.inventory, i)), o), s.inventory[i], o)
  {
    ForWithout(s.inventory, i, o);
  }

  lemma CreatedPayload(row: OrderRow, o: OrderId, v: View, rows: seq<Reservation>)
    requires Phase(row, o, v, rows) && v.todo != [] && v.todo[0].CreatedEvent?
    ensures v.todo[0] == CreatedEvent(o, row.Lines(), row.Announced())
  {
  }

  lemma ReservedOwn(orders: map<OrderId, OrderRow>, v: View, v1: View, m: Message, rows: seq<Reservation>,
                    rows': seq<Reservation>)
    requires var o := m.order; OrderOk(orders, o, v, rows) && FirstTaken(v, v1, m, o) && m.CreatedEvent?
    requires HoldsNothing(rows, m.order) ==> Holds(rows', m.order, m.items)
    ensures OrderOk(orders, m.order, Heard(v1, ReservedEvent(m.order, m.total), m.order), rows')
  {
    var o := m.order;
    assert v.todo[0] == m && v.todo[1..] == v1.todo;
    CreatedPayload(orders[o], o, v, rows);
    ReservedPhase(orders[o], o, v, rows, rows');
  }

  lemma ReservedOrder(orders: map<OrderId, OrderRow>, o: OrderId, v: View, v1: View, m: Message, rows: seq<Reservation>,
                      rows': seq<Reservation>, expiresAt: int)
    requires OrderOk(orders, o, v, rows) && FirstTaken(v, v1, m, o) && m.CreatedEvent?
    requires rows' == rows + NewRows(m.order, SortLines(m.items), expiresAt)
    ensures OrderOk(orders, o, Heard(v1, ReservedEvent(m.order, m.total), o), rows')
  {
    if o != m.order {
      assert v1.todo == v.todo;
      ReserveLeavesOthers(rows, m.order, SortLines(m.items), expiresAt, o);
      SameForOk(orders, o, v, rows, rows');
    } else {
      if HoldsNothing(rows, o) {
        ReserveHolds(rows, o, m.items, expiresAt);
      }
      ReservedOwn(orders, v, v1, m, rows, rows');
    }
  }

  lemma RefusedOrder(orders: map<OrderId, OrderRow>, o: OrderId, v: View, v1: View, m: Message, rows: seq<Reservation>)
    requires OrderOk(orders, o, v, rows) && FirstTaken(v, v1, m, o) && m.CreatedEvent?
    ensures OrderOk(orders, o, Heard(v1, NotReservedEvent(m.order), o), rows)
  {
    if o == m.order {
      assert v.todo[0] == m && v.todo[1..] == v1.todo;
      RefusedPhase(orders[o], o, v, rows);
    } else {
      assert v1.todo == v.todo;
    }
  }

  lemma ReleasedOrder(orders: map<OrderId, OrderRow>, o: OrderId, v: View, v1: View, m: Message,
                      rows: seq<Reservation>, rows': seq<Reservation>)
    requires OrderOk(orders, o, v, rows) && FirstTaken(v, v1, m, o) && m.CancelledEvent?
    requires if o == m.order then HoldsNothing(rows', o) else SameFor(rows, rows', o)
    ensures OrderOk(orders, o, v1, rows')
  {
    if o == m.order {
      assert v.todo[0] == m && v.todo[1..] == v1.todo;
      ReleasedPhase(orders[o], o, v, rows, rows');
    } else {
      assert v1.todo == v.todo;
      SameForOk(orders, o, v, rows, rows');
    }
  }

  /** Any other message in the inventory queue is ignored. */
  lemma IgnoredOrder(orders: map<OrderId, OrderRow>, o: OrderId, v: View, v1: View, m: Message, rows: seq<Reservation>)
    requires OrderOk(orders, o, v, rows) && FirstTaken(v, v1, m, o) && !m.CreatedEvent? && !m.CancelledEvent?
    ensures OrderOk(orders, o, v1, rows)
  {
    if o == m.order {
      assert v.todo[0] == m;
    } else {
      assert v1.todo == v.todo;
    }
  }

  lemma StockView(s: State, t: Tables, o: OrderId)
    ensures ViewOf(s.(stock := t), o) == ViewOf(s, o)
  {
  }

  lemma StockTouches(s: State, m: Message, expiresAt: int)
    ensures var s' := HandleStock(s, m, expiresAt); s'.orders == s.orders && s'.ids == s.ids
  {
  }

  /** `s1` is `s` after `m` was taken from the inventory queue. */
  ghost predicate Taking(s: State, s1: State, m: Message) {
    && s1.stock == s.stock && s1.orders == s.orders && s1.ids == s.ids
    && forall o: OrderId :: FirstTaken(ViewOf(s, o), ViewOf(s1, o), m, o)
  }

  lemma ReservedKeepsInv(s: State, s1: State, m: Message, t: Tables, expiresAt: int, initial: map<Sku, nat>)
    requires Inv(s, initial) && m.CreatedEvent? && Taking(s, s1, m) && Ledger(t, initial)
    requires t.rows == s.stock.rows + NewRows(m.order, SortLines(m.items), expiresAt)
    ensures Inv(Publish(s1.(stock := t), ReservedEvent(m.order, m.total)), initial)
  {
    var reserved := ReservedEvent(m.order, m.total);
    forall o: OrderId
      ensures OrderOk(s.orders, o, ViewOf(Publish(s1.(stock := t), reserved), o), t.rows)
    {
      assert OrderOk(s.orders, o, ViewOf(s, o), s.stock.rows) && FirstTaken(ViewOf(s, o), ViewOf(s1, o), m, o);
      HeardView(s1.(stock := t), reserved, o);
      StockView(s1, t, o);
      ReservedOrder(s.orders, o, ViewOf(s, o), ViewOf(s1, o), m, s.stock.rows, t.rows, expiresAt);
    }
  }

  lemma RefusedKeepsInv(s: State, s1: State, m: Message, initial: map<Sku, nat>)
    requires Inv(s, initial) && m.CreatedEvent? && Taking(s, s1, m)
    ensures Inv(Publish(s1, NotReservedEvent(m.order)), initial)
  {
    forall o: OrderId
      ensures OrderOk(s.orders, o, ViewOf(Publish(s1, NotReservedEvent(m.order)), o), s.stock.rows)
    {
      assert OrderOk(s.orders, o, ViewOf(s, o), s.stock.rows) && FirstTaken(ViewOf(s, o), ViewOf(s1, o), m, o);
      HeardView(s1, NotReservedEvent(m.order), o);
      RefusedOrder(s.orders, o, ViewOf(s, o), ViewOf(s1, o), m, s.stock.rows);
    }
  }

  lemma ReserveKeepsInv(s: State, s1: State, m: Message, expiresAt: int, initial: map<Sku, nat>)
    requires Inv(s, initial) && m.CreatedEvent? && Taking(s, s1, m)
    ensures Inv(HandleStock(s1, m, expiresAt), initial)
  {
    var r := RunActs(s.stock, ReserveActs(m.order, m.items, expiresAt));
    if r.Ok? {
      ReserveAdds(s.stock, m.order, m.items, expiresAt, initial);
      ReservedKeepsInv(s, s1, m, r.value, expiresAt, initial);
    } else {
      RefusedKeepsInv(s, s1, m, initial);
    }
  }

  lemma ReleaseKeepsInv(s: State, s1: State, m: Message, expiresAt: int, initial: map<Sku, nat>)
    requires Inv(s, initial) && m.CancelledEvent? && Taking(s, s1, m)
    ensures Inv(HandleStock(s1, m, expiresAt), initial)
  {
    ReleaseFrees(s.stock, m.order, initial);
    var t := Transact(s.stock, ReleaseActs(s.stock, OfOrder(m.order)));
    forall o: OrderId
      ensures OrderOk(s.orders, o, ViewOf(s1.(stock := t), o), t.rows)
    {
      assert OrderOk(s.orders, o, ViewOf(s, o), s.stock.rows) && FirstTaken(ViewOf(s, o), ViewOf(s1, o), m, o);
      ReleasedOrder(s.orders, o, ViewOf(s, o), ViewOf(s1, o), m, s.stock.rows, t.rows);
      StockView(s1, t, o);
    }
  }

  lemma IgnoreKeepsInv(s: State, s1: State, m: Message, expiresAt: int, initial: map<Sku, nat>)
    requires Inv(s, initial) && !m.CreatedEvent? && !m.CancelledEvent? && Taking(s, s1, m)
    ensures Inv(HandleStock(s1, m, expiresAt), initial)
  {
    forall o: OrderId
      ensures OrderOk(s.orders, o, ViewOf(s1, o), s.stock.rows)
    {
      assert OrderOk(s.orders, o, ViewOf(s, o), s.stock.rows) && FirstTaken(ViewOf(s, o), ViewOf(s1, o), m, o);
      IgnoredOrder(s.orders, o, ViewOf(s, o), ViewOf(s1, o), m, s.stock.rows);
    }
  }

  lemma OrderEventKeepsInv(s: State, i: nat, expiresAt: int, initial: map<Sku, nat>)
    requires Inv(s, initial) && Ready(s.inventory, i)
    ensures Inv(Step(s, HandleOrderEvent(i, expiresAt)), initial)
  {
    var m, s1 := s.inventory[i], s.(inventory := Without(s.inventory, i));
    forall o: OrderId
      ensures FirstTaken(ViewOf(s, o), ViewOf(s1, o), m, o)
    {
      TakeView(s, i, o);
    }
    if m.CreatedEvent? {
      ReserveKeepsInv(s, s1, m, expiresAt, initial);
    } else if m.CancelledEvent? {
      ReleaseKeepsInv(s, s1, m, expiresAt, initial);
    } else {
      IgnoreKeepsInv(s, s1, m, expiresAt, initial);
    }
  }

  lemma StepKeepsInv(s: State, a: Action, initial: map<Sku, nat>)
    requires Inv(s, initial)
    ensures Inv(Step(s, a), initial)
  {
    match a
    case Create(_, _, _, _) => CreateKeepsInv(s, a, initial);
    case Cancel(id, customer) => CancelKeepsInv(s, id, customer, initial);
    case Relay(i) =>
      if Ready(s.outbox, i) {
        RelayKeepsInv(s, i, initial);
      }
    case HandleOrderEvent(i, expiresAt) =>
      if Ready(s.inventory, i) {
        OrderEventKeepsInv(s, i, expiresAt, initial);
      }
    case HandleDue(i, success) =>
      if Ready(s.due, i) {
        DueKeepsInv(s, i, success, initial);
      }
    case HandleReply(i) =>
      if Ready(s.replies, i) {
        ReplyKeepsInv(s, i, initial);
      }
    case HandleOutcome(i) =>
      if Ready(s.outcomes, i) {
        OutcomeKeepsInv(s, i, initial);
      }
  }

  /** No stock is reserved yet. */
  predicate Unreserved(stock: map<Sku, Stock>, initial: map<Sku, nat>) {
    stock.Keys == initial.Keys && forall sku :: sku in stock ==>
        stock[sku].reserved == 0 && stock[sku].available == initial[sku]
  }

  lemma {:induction false} RunKeepsInv(stock: map<Sku, Stock>, initial: map<Sku, nat>, actions: seq<Action>)
    requires Unreserved(stock, initial)
    ensures Inv(Run(stock, actions), initial)
    decreases |actions|
  {
    if actions != [] {
      RunKeepsInv(stock, initial, actions[..|actions| - 1]);
      StepKeepsInv(Run(stock, actions[..|actions| - 1]), actions[|actions| - 1], initial);
    }
  }
}

/** What the saga has settled when nothing is left to do, and that it gets there. */
module SagaQuiescence {
  import opened Results
  import opened InventoryTables
  import opened StockLedger
  import opened OrderTables
  import opened Totals
  import opened SagaMessages
  import opened FifoSaga
  import opened PerOrder
  import opened SagaPhases

  /** The units of a SKU that orders in these states keep reserved. */
  function KeptQty(orders: map<OrderId, OrderRow>, ids: seq<OrderId>, sku: Sku): int {
    if ids == [] then 0
    else
      var last := ids[|ids| - 1];
      KeptQty(orders, ids[..|ids| - 1], sku)
      + if last in orders && orders[last].status in {Confirmed, PaymentPending}
        then LineQty(orders[last].Lines(), sku) else 0
  }

  /** How an order ends: as the saga promises, or stuck because its `payment.completed` came too early. */
  predicate Settled(s: State, o: OrderId)
    requires o in s.orders
  {
    match s.orders[o].status
    case Confirmed => o in s.charged && o !in s.early
    case Cancelled => HoldsNothing(s.stock.rows, o)
    case PaymentPending => o in s.charged && o in s.early
    case _ => false
  }

  lemma QuietOrder(s: State, o: OrderId, initial: map<Sku, nat>)
    requires Inv(s, initial) && Quiet(s) && o in s.orders
    ensures Settled(s, o)
    ensures s.orders[o].status in {Confirmed, PaymentPending} ==> Holds(s.stock.rows, o, s.orders[o].Lines())
  {
    assert OrderOk(s.orders, o, ViewOf(s, o), s.stock.rows);
    assert ViewOf(s, o) == View([], [], [], [], o in s.charged, o in s.early);
  }

  lemma {:induction false} KeptIsHeld(s: State, ids: seq<OrderId>, sku: Sku, initial: map<Sku, nat>)
    requires Inv(s, initial) && Quiet(s) && forall k :: 0 <= k < |ids| ==> ids[k] in s.orders
    ensures SumQty(s.stock.rows, ids, sku) == KeptQty(s.orders, ids, sku)
    decreases |ids|
  {
    if ids != [] {
      var o := ids[|ids| - 1];
      KeptIsHeld(s, ids[..|ids| - 1], sku, initial);
      QuietOrder(s, o, initial);
      if s.orders[o].status == Cancelled {
        NothingHeld(s.stock.rows, o, sku);
      }
    }
  }

  lemma QuietStock(s: State, initial: map<Sku, nat>, sku: Sku)
    requires Inv(s, initial) && Quiet(s) && sku in initial
    ensures sku in s.stock.stock
    ensures s.stock.stock[sku].reserved == KeptQty(s.orders, s.ids, sku)
    ensures s.stock.stock[sku].available == initial[sku] - KeptQty(s.orders, s.ids, sku)
  {
    forall i | 0 <= i < |s.stock.rows|
      ensures s.stock.rows[i].order in s.ids
    {
      assert OrderOk(s.orders, s.stock.rows[i].order, ViewOf(s, s.stock.rows[i].order), s.stock.rows);
    }
    ActiveQtyIsSum(s.stock.rows, s.ids, sku);
    KeptIsHeld(s, s.ids, sku, initial);
  }

  /**
   Quiescence and compensation: whenever nothing is left to publish or handle, every order is
   CONFIRMED or CANCELLED, unless its `payment.completed` was handled while it was still CREATED;
   such an order is stuck in PAYMENT_PENDING, charged. CANCELLED orders hold no ACTIVE
   reservation, and each SKU's reserved units are exactly those of the orders not cancelled.
   */
  lemma Quiescence(stock: map<Sku, Stock>, initial: map<Sku, nat>, actions: seq<Action>)
    requires Unreserved(stock, initial) && Quiet(Run(stock, actions))
    ensures var s := Run(stock, actions);
            && (forall o :: o in s.orders ==> Settled(s, o))
            && (forall o :: o in s.orders && o !in s.early ==> s.orders[o].status in {Confirmed, Cancelled})
            && forall sku :: sku in initial ==>
                 && sku in s.stock.stock
                 && s.stock.stock[sku].reserved == KeptQty(s.orders, s.ids, sku)
                 && s.stock.stock[sku].available == initial[sku] - KeptQty(s.orders, s.ids, sku)
  {
    RunKeepsInv(stock, initial, actions);
    QuietState(Run(stock, actions), initial);
  }

  lemma QuietState(s: State, initial: map<Sku, nat>)
    requires Inv(s, initial) && Quiet(s)
    ensures forall o :: o in s.orders ==> Settled(s, o)
    ensures forall sku :: sku in initial ==>
              && sku in s.stock.stock
              && s.stock.stock[sku].reserved == KeptQty(s.orders, s.ids, sku)
              && s.stock.stock[sku].available == initial[sku] - KeptQty(s.orders, s.ids, sku)
  {
    forall o | o in s.orders
      ensures Settled(s, o)
    {
      QuietOrder(s, o, initial);
    }
    forall sku | sku in initial
      ensures sku in s.stock.stock && s.stock.stock[sku].reserved == KeptQty(s.orders, s.ids, sku)
      ensures s.stock.stock[sku].available == initial[sku] - KeptQty(s.orders, s.ids, sku)
    {
      QuietStock(s, initial, sku);
    }
  }

  /**
   A reservation reply and its `payment.completed` are waiting for an order that is still CREATED, and
   nothing else.
   */
  predicate BothWaiting(s: State, o: OrderId, total: real) {
    && o in s.orders && s.orders[o].status == Created && o !in s.early
    && s.outbox == [] && s.inventory == [] && s.due == []
    && s.replies == [ReservedEvent(o, total)] && s.outcomes == [PaidEvent(o)]
  }

  /** A handled reply moves the order on, and touches no outcome. */
  lemma ReplyMoves(s: State, o: OrderId, total: real)
    requires o in s.orders && s.orders[o].status == Created && s.replies == [ReservedEvent(o, total)]
    ensures var s' := Step(s, HandleReply(0));
            o in s'.orders && s'.orders[o].status == PaymentPending && s'.outcomes == s.outcomes && s'.early == s.early
  {
    HandleTriggeredIs(s.(replies := Without(s.replies, 0)), s.replies[0]);
  }

  lemma PaymentConfirms(s: State, o: OrderId)
    requires o in s.orders && s.orders[o].status == PaymentPending && s.outcomes == [PaidEvent(o)]
    ensures var s' := Step(s, HandleOutcome(0));
            o in s'.orders && s'.orders[o].status == Confirmed && s'.early == s.early
  {
    HandleTriggeredIs(s.(outcomes := Without(s.outcomes, 0)), s.outcomes[0]);
  }

  /** Handled in order, they confirm the order. */
  lemma ReplyFirstConfirms(s: State, o: OrderId, total: real)
    requires BothWaiting(s, o, total)
    ensures var s' := Step(Step(s, HandleReply(0)), HandleOutcome(0));
            o in s'.orders && s'.orders[o].status == Confirmed && o !in s'.early
  {
    ReplyMoves(s, o, total);
    PaymentConfirms(Step(s, HandleReply(0)), o);
  }

  /** Handled in the other order, they leave it stuck for good. */
  lemma PaymentFirstStrands(s: State, o: OrderId, total: real)
    requires BothWaiting(s, o, total)
    ensures var s' := Step(Step(s, HandleOutcome(0)), HandleReply(0));
            o in s'.orders && s'.orders[o].status == PaymentPending && o in s'.early && Quiet(s')
  {
    var s1 := s.(outcomes := Without(s.outcomes, 0), early := s.early + {o});
    HandleTriggeredIs(s1, s.outcomes[0]);
    var s2 := HandleTriggered(s1, s.outcomes[0]);
    assert s2.orders[o] == s.orders[o] && s2.outbox == [] && s2.replies == s.replies && o in s2.early;
    HandleTriggeredIs(s2.(replies := Without(s2.replies, 0)), s2.replies[0]);
  }

  // ----- it gets there -----

  /** Where a message waits. */
  datatype Place = Outbox | At(queue: Queue)

  /** How many deliveries a waiting message can still cause, its own included. */
  function Weight(place: Place, m: Message): nat {
    match place
    case Outbox => if m.CreatedEvent? then 9 else if m.ReservedEvent? then 8 else if m.ConfirmedEvent?
        || m.CancelledEvent? then 2 else 4
    case At(InventoryOrderEvents) => if m.CreatedEvent? then 8 else 1
    case At(PaymentInventoryEvents) => 4
    case At(OrderInventoryEvents) => 3
    case At(OrderPaymentEvents) => 3
  }

  function TotalWeight(place: Place, ms: seq<Message>): nat {
    if ms == [] then 0 else TotalWeight(place, ms[..|ms| - 1]) + Weight(place, ms[|ms| - 1])
  }

  function Measure(s: State): nat {
    TotalWeight(Outbox, s.outbox) + TotalWeight(At(InventoryOrderEvents), s.inventory)
        + TotalWeight(At(PaymentInventoryEvents), s.due)
    + TotalWeight(At(OrderInventoryEvents), s.replies) + TotalWeight(At(OrderPaymentEvents), s.outcomes)
  }

  lemma {:induction false} WeightConcat(place: Place, a: seq<Message>, b: seq<Message>)
    ensures TotalWeight(place, a + b) == TotalWeight(place, a) + TotalWeight(place, b)
    decreases |b|
  {
    if b == [] {
      assert a + b == a;
    } else {
      var n := |b| - 1;
      assert (a + b)[..|a| + n] == a + b[..n];
      WeightConcat(place, a, b[..n]);
    }
  }

  lemma WeightWithout(place: Place, ms: seq<Message>, i: nat)
    requires i < |ms|
    ensures TotalWeight(place, Without(ms, i)) == TotalWeight(place, ms) - Weight(place, ms[i])
  {
    assert ms == ms[..i + 1] + ms[i + 1..];
    WeightConcat(place, ms[..i + 1], ms[i + 1..]);
    WeightConcat(place, ms[..i], ms[i + 1..]);
    assert ms[..i + 1][..i] == ms[..i];
  }

  function RoutedWeight(q: Queue, m: Message): nat {
    if Bound(q, m) then Weight(At(q), m) else 0
  }

  lemma RoutesWeighLess(m: Message)
    ensures RoutedWeight(InventoryOrderEvents, m) + RoutedWeight(PaymentInventoryEvents, m)
            + RoutedWeight(OrderInventoryEvents, m) + RoutedWeight(OrderPaymentEvents, m) < Weight(Outbox, m)
  {
  }

  lemma RoutedIs(q: Queue, ms: seq<Message>, m: Message)
    ensures TotalWeight(At(q), ms + Routed(q, m)) == TotalWeight(At(q), ms) + RoutedWeight(q, m)
  {
    WeightConcat(At(q), ms, Routed(q, m));
    if Bound(q, m) {
      assert [m][..0] == [];
    }
  }

  /** A published message weighs less in its queues than it did in the outbox. */
  lemma PublishWeight(s: State, m: Message)
    ensures Measure(Publish(s, m)) < Measure(s) + Weight(Outbox, m)
  {
    RoutedIs(InventoryOrderEvents, s.inventory, m);
    RoutedIs(PaymentInventoryEvents, s.due, m);
    RoutedIs(OrderInventoryEvents, s.replies, m);
    RoutedIs(OrderPaymentEvents, s.outcomes, m);
    RoutesWeighLess(m);
  }

  lemma GrownWeight(s: State, s': State, told: seq<Message>)
    requires |told| <= 1 && (told != [] ==> told[0].ConfirmedEvent? || told[0].CancelledEvent?)
    requires s'.outbox == s.outbox + told && s'.inventory == s.inventory && s'.due == s.due
    requires s'.replies == s.replies && s'.outcomes == s.outcomes
    ensures Measure(s') <= Measure(s) + 2
  {
    WeightConcat(Outbox, s.outbox, told);
    if told != [] {
      assert told[..0] == [];
    }
  }

  lemma ToldOutcome(o: OrderId, row: OrderRow, m: Message)
    ensures var told := ToldAfter(o, row, m);
            |told| <= 1 && (told != [] ==> told[0].ConfirmedEvent? || told[0].CancelledEvent?)
  {
  }

  /** A handled reply or outcome adds at most one row to the outbox, order.confirmed or order.cancelled. */
  lemma TriggeredWeight(s: State, m: Message)
    ensures Measure(HandleTriggered(s, m)) <= Measure(s) + 2
  {
    HandleTriggeredIs(s, m);
    if m.order in s.orders {
      ToldOutcome(m.order, s.orders[m.order], m);
      GrownWeight(s, HandleTriggered(s, m), ToldAfter(m.order, s.orders[m.order], m));
    }
  }

  /** The actions that deliver a waiting message; the others are the clients'. */
  predicate Delivers(s: State, a: Action) {
    match a
    case Create(_, _, _, _) => false
    case Cancel(_, _) => false
    case Relay(i) => Ready(s.outbox, i)
    case HandleOrderEvent(i, _) => Ready(s.inventory, i)
    case HandleDue(i, _) => Ready(s.due, i)
    case HandleReply(i) => Ready(s.replies, i)
    case HandleOutcome(i) => Ready(s.outcomes, i)
  }

  lemma ReplyWeight(s: State, t: Tables, m: Message)
    requires m.ReservedEvent? || m.NotReservedEvent?
    ensures Measure(Publish(s.(stock := t), m)) <= Measure(s) + 7
  {
    PublishWeight(s.(stock := t), m);
  }

  lemma StockWeight(s: State, m: Message, expiresAt: int)
    ensures Measure(HandleStock(s, m, expiresAt)) <= Measure(s) + if m.CreatedEvent? then 7 else 0
  {
    if m.CreatedEvent? {
      var r := RunActs(s.stock, ReserveActs(m.order, m.items, expiresAt));
      if r.Ok? {
        ReplyWeight(s, r.value, ReservedEvent(m.order, m.total));
      } else {
        assert s.(stock := s.stock) == s;
        ReplyWeight(s, s.stock, NotReservedEvent(m.order));
      }
    }
  }

  lemma OrderEventShrinks(s: State, i: nat, expiresAt: int)
    requires Ready(s.inventory, i)
    ensures Measure(Step(s, HandleOrderEvent(i, expiresAt))) < Measure(s)
  {
    WeightWithout(At(InventoryOrderEvents), s.inventory, i);
    StockWeight(s.(inventory := Without(s.inventory, i)), s.inventory[i], expiresAt);
  }

  lemma PaidWeight(s: State, m: Message)
    requires m.PaidEvent? || m.NotPaidEvent?
    ensures Measure(Publish(s, m)) <= Measure(s) + 3
  {
    PublishWeight(s, m);
  }

  lemma PaymentWeight(s: State, m: Message, success: bool)
    ensures Measure(HandlePayment(s, m, success)) <= Measure(s) + 3
  {
    if success {
      PaidWeight(s.(charged := s.charged + {m.order}), PaidEvent(m.order));
    } else {
      PaidWeight(s, NotPaidEvent(m.order));
    }
  }

  lemma DueShrinks(s: State, i: nat, success: bool)
    requires Ready(s.due, i)
    ensures Measure(Step(s, HandleDue(i, success))) < Measure(s)
  {
    WeightWithout(At(PaymentInventoryEvents), s.due, i);
    PaymentWeight(s.(due := Without(s.due, i)), s.due[i], success);
  }

  lemma RelayShrinks(s: State, i: nat)
    requires Ready(s.outbox, i)
    ensures Measure(Step(s, Relay(i))) < Measure(s)
  {
    WeightWithout(Outbox, s.outbox, i);
    PublishWeight(s.(outbox := Without(s.outbox, i)), s.outbox[i]);
  }

  lemma ReplyShrinks(s: State, i: nat)
    requires Ready(s.replies, i)
    ensures Measure(Step(s, HandleReply(i))) < Measure(s)
  {
    WeightWithout(At(OrderInventoryEvents), s.replies, i);
    TriggeredWeight(s.(replies := Without(s.replies, i)), s.replies[i]);
  }

  lemma OutcomeShrinks(s: State, i: nat)
    requires Ready(s.outcomes, i)
    ensures Measure(Step(s, HandleOutcome(i))) < Measure(s)
  {
    var early := if IsEarly(s, s.outcomes[i]) then s.early + {s.outcomes[i].order} else s.early;
    WeightWithout(At(OrderPaymentEvents), s.outcomes, i);
    TriggeredWeight(s.(outcomes := Without(s.outcomes, i), early := early), s.outcomes[i]);
  }

  /** Every delivery shrinks the work left, so no run of deliveries is longer than it. */
  lemma DeliveryShrinks(s: State, a: Action)
    requires Delivers(s, a)
    ensures Measure(Step(s, a)) < Measure(s)
  {
    match a
    case Relay(i) => RelayShrinks(s, i);
    case HandleOrderEvent(i, expiresAt) => OrderEventShrinks(s, i, expiresAt);
    case HandleDue(i, success) => DueShrinks(s, i, success);
    case HandleReply(i) => ReplyShrinks(s, i);
    case HandleOutcome(i) => OutcomeShrinks(s, i);
  }

  /** Some delivery is possible until the system is quiet. */
  lemma SomethingDelivers(s: State) returns (a: Action)
    requires !Quiet(s)
    ensures Delivers(s, a)
  {
    a := if s.outbox != [] then Relay(0)
         else if s.inventory != [] then HandleOrderEvent(0, 0)
         else if s.due != [] then HandleDue(0, true)
         else if s.replies != [] then HandleReply(0)
         else HandleOutcome(0);
  }

  function Follow(s: State, actions: seq<Action>): State
    decreases |actions|
  {
    if actions == [] then s else Follow(Step(s, actions[0]), actions[1..])
  }

  /** Every action delivers a message that is waiting when its turn comes. */
  predicate AllDeliver(s: State, actions: seq<Action>)
    decreases |actions|
  {
    actions != [] ==> Delivers(s, actions[0]) && AllDeliver(Step(s, actions[0]), actions[1..])
  }

  lemma {:induction false} FollowIsRun(stock: map<Sku, Stock>, actions: seq<Action>, more: seq<Action>)
    ensures Run(stock, actions + more) == Follow(Run(stock, actions), more)
    decreases |more|
  {
    if more == [] {
      assert actions + more == actions;
    } else {
      var next := actions + [more[0]];
      assert next[..|actions|] == actions;
      assert actions + more == next + more[1..];
      FollowIsRun(stock, next, more[1..]);
    }
  }

  /** From any state, deliveries alone reach a quiet one, and no series of deliveries is longer than the work left. */
  lemma {:induction false} DeliveriesAreBounded(s: State, more: seq<Action>)
    requires AllDeliver(s, more)
    ensures |more| <= Measure(s)
    decreases |more|
  {
    if more != [] {
      DeliveryShrinks(s, more[0]);
      DeliveriesAreBounded(Step(s, more[0]), more[1..]);
    }
  }

  lemma {:induction false} ReachesQuiet(s: State) returns (more: seq<Action>)
    ensures AllDeliver(s, more) && Quiet(Follow(s, more))
    decreases Measure(s)
  {
    if Quiet(s) {
      return [];
    }
    var a := SomethingDelivers(s);
    DeliveryShrinks(s, a);
    var rest := ReachesQuiet(Step(s, a));
    more := [a] + rest;
    assert more[1..] == rest;
  }
}
