/** Orders that end otherwise than the saga promises: a cancelled one that was charged, a charged one that is stuck. */
module SagaExceptions {
  import opened Results
  import opened InventoryTables
  import opened StockLedger
  import opened OrderTables
  import opened Totals
  import opened SagaMessages
  import opened FifoSaga
  import opened PerOrder
  import opened SagaPhases
  import opened SagaQuiescence

  // ----- charged, and cancelled -----

  /** The order is CANCELLED although its payment succeeded. */
  predicate Wasted(s: State, o: OrderId) {
    o in s.orders && s.orders[o].status == Cancelled && o in s.charged
  }

  /** A customer's cancellation is accepted after the charge, or the charge succeeds after the order was cancelled. */
  predicate Collides(s: State, a: Action, o: OrderId) {
    o in s.orders &&
    match a
    case Cancel(id, customer) => id == o && s.orders[o].customer == customer && s.orders[o].status == Created
        && o in s.charged
    case HandleDue(i, success) =>
      && success && Ready(s.due, i) && s.due[i].ReservedEvent? && s.due[i].order == o
      && s.orders[o].status == Cancelled
    case _ => false
  }

  lemma CancelsUncharged(row: OrderRow, o: OrderId, v: View, rows: seq<Reservation>, m: Message)
    requires Phase(row, o, v, rows) && row.status != Cancelled && RowAfter(row, m).status == Cancelled
    requires (v.replies != [] && m == v.replies[0]) || (v.outcomes != [] && m == v.outcomes[0])
    ensures !v.charged
  {
  }

  lemma TriggeredWastes(s: State, s1: State, m: Message, initial: map<Sku, nat>, o: OrderId)
    requires Inv(s, initial) && s1.orders == s.orders && s1.charged == s.charged
    requires m.order in s.orders
    requires var v := ViewOf(s, m.order);
             (v.replies != [] && m == v.replies[0]) || (v.outcomes != [] && m == v.outcomes[0])
    ensures Wasted(HandleTriggered(s1, m), o) <==> Wasted(s, o)
  {
    HandleTriggeredIs(s1, m);
    if o == m.order {
      var row, v := s.orders[o], ViewOf(s, o);
      assert OrderOk(s.orders, o, v, s.stock.rows);
      if row.status != Cancelled && RowAfter(row, m).status == Cancelled {
        CancelsUncharged(row, o, v, s.stock.rows, m);
      }
    }
  }

  lemma ReplyWastes(s: State, i: nat, initial: map<Sku, nat>, o: OrderId)
    requires Inv(s, initial) && Ready(s.replies, i)
    ensures Wasted(Step(s, HandleReply(i)), o) <==> Wasted(s, o)
  {
    var m, s1 := s.replies[i], s.(replies := Without(s.replies, i));
    IsFirst(s.replies, i);
    HeardOf(s, initial, m.order);
    TriggeredWastes(s, s1, m, initial, o);
  }

  lemma OutcomeWastes(s: State, i: nat, initial: map<Sku, nat>, o: OrderId)
    requires Inv(s, initial) && Ready(s.outcomes, i)
    ensures Wasted(Step(s, HandleOutcome(i)), o) <==> Wasted(s, o)
  {
    var m := s.outcomes[i];
    var early := if IsEarly(s, m) then s.early + {m.order} else s.early;
    var s1 := s.(outcomes := Without(s.outcomes, i), early := early);
    IsFirst(s.outcomes, i);
    HeardOf(s, initial, m.order);
    TriggeredWastes(s, s1, m, initial, o);
  }

  lemma CancelWastes(s: State, id: OrderId, customer: CustomerId, initial: map<Sku, nat>, o: OrderId)
    requires Inv(s, initial)
    ensures Wasted(Step(s, Cancel(id, customer)), o) <==> Wasted(s, o) || Collides(s, Cancel(id, customer), o)
  {
    HandleOrderIs(s, id, OnCustomerCancel(customer));
    if id in s.orders {
      assert OrderOk(s.orders, id, ViewOf(s, id), s.stock.rows);
    }
  }

  lemma DueWastes(s: State, i: nat, success: bool, o: OrderId)
    requires Ready(s.due, i)
    ensures Wasted(Step(s, HandleDue(i, success)), o) <==> Wasted(s, o) || Collides(s, HandleDue(i, success), o)
  {
    PaymentTouches(s.(due := Without(s.due, i)), s.due[i], success);
  }

  lemma CreateWastes(s: State, a: Action, initial: map<Sku, nat>, o: OrderId)
    requires Inv(s, initial) && a.Create?
    ensures Wasted(Step(s, a), o) <==> Wasted(s, o)
  {
  }

  lemma StockWastes(s: State, a: Action, o: OrderId)
    requires a.Relay? || a.HandleOrderEvent?
    ensures Wasted(Step(s, a), o) <==> Wasted(s, o)
  {
    if a.HandleOrderEvent? && Ready(s.inventory, a.i) {
      StockTouches(s.(inventory := Without(s.inventory, a.i)), s.inventory[a.i], a.expiresAt);
      StockCharges(s.(inventory := Without(s.inventory, a.i)), s.inventory[a.i], a.expiresAt);
    }
  }

  lemma StockCharges(s: State, m: Message, expiresAt: int)
    ensures HandleStock(s, m, expiresAt).charged == s.charged
  {
  }

  lemma StepWastes(s: State, a: Action, initial: map<Sku, nat>, o: OrderId)
    requires Inv(s, initial)
    ensures Wasted(Step(s, a), o) <==> Wasted(s, o) || Collides(s, a, o)
  {
    match a
    case Create(_, _, _, _) => CreateWastes(s, a, initial, o);
    case Cancel(id, customer) => CancelWastes(s, id, customer, initial, o);
    case Relay(_) => StockWastes(s, a, o);
    case HandleOrderEvent(_, _) => StockWastes(s, a, o);
    case HandleDue(i, success) =>
      if Ready(s.due, i) {
        DueWastes(s, i, success, o);
      }
    case HandleReply(i) =>
      if Ready(s.replies, i) {
        ReplyWastes(s, i, initial, o);
      }
    case HandleOutcome(i) =>
      if Ready(s.outcomes, i) {
        OutcomeWastes(s, i, initial, o);
      }
  }

  /** The `k`-th step collides. */
  predicate CollidesAt(stock: map<Sku, Stock>, actions: seq<Action>, k: nat, o: OrderId)
    requires k < |actions|
  {
    Collides(Run(stock, actions[..k]), actions[k], o)
  }

  /**
   Exactly when a cancelled order is charged: some step accepted the customer's cancellation after the
   payment had succeeded, or let a payment succeed after the order was cancelled.
   */
  lemma {:induction false} ChargedAndCancelled(stock: map<Sku, Stock>, initial: map<Sku, nat>, actions: seq<Action>,
                                               o: OrderId)
    requires Unreserved(stock, initial)
    ensures Wasted(Run(stock, actions), o) <==> exists k :: 0 <= k < |actions| && CollidesAt(stock, actions, k, o)
    decreases |actions|
  {
    if actions != [] {
      var n := |actions| - 1;
      var front := actions[..n];
      ChargedAndCancelled(stock, initial, front, o);
      RunKeepsInv(stock, initial, front);
      StepWastes(Run(stock, front), actions[n], initial, o);
      assert forall k :: 0 <= k < n ==> front[..k] == actions[..k];
      assert CollidesAt(stock, actions, n, o) <==> Collides(Run(stock, front), actions[n], o);
      assert forall k :: 0 <= k < n ==> (CollidesAt(stock, front, k, o) <==> CollidesAt(stock, actions, k, o));
    }
  }

  // ----- runs that show it -----

  const STOCK := map[1 := Stock(1, 0, 1)]

  /** One unit of SKU 1 at 10.00. */
  const ORDERED := [Item(1, 10.0, 1)]

  function FirstRow(): OrderRow {
    OrderRow(0, ORDERED, Charged(ORDERED), 5, Created, 1)
  }

  /** Order 1 is created and reserved, and both copies of inventory.reserved are waiting. */
  function Reserved(): seq<Action> {
    [Create(1, 0, ORDERED, 5), Relay(0), HandleOrderEvent(0, 100)]
  }

  lemma RunMore(stock: map<Sku, Stock>, actions: seq<Action>, a: Action)
    ensures Run(stock, actions + [a]) == Step(Run(stock, actions), a)
  {
    assert (actions + [a])[..|actions|] == actions;
  }

  lemma CreatedState()
    ensures Step(Start(STOCK), Create(1, 0, ORDERED, 5)) ==
            Start(STOCK).(orders := map[1 := FirstRow()], ids := [1],
                          outbox := [CreatedEvent(1, FirstRow().Lines(), FirstRow().Announced())])
  {
    assert ORDERED[0].price == 10.0;
    assert Sellable(ORDERED) && Storable(ORDERED);
  }

  lemma CanReserve(t: Tables)
    requires t == Tables(STOCK, [])
    ensures RunActs(t, ReserveActs(1, FirstRow().Lines(), 100)).Ok?
  {
    var lines := FirstRow().Lines();
    assert lines == [Line(1, 1)] && lines[..0] == [];
    assert LineCount(lines, 1) == 1;
    ReserveAllOrNothing(t, 1, lines, 100);
  }

  lemma ReservedState()
    ensures var s, m := Run(STOCK, Reserved()), ReservedEvent(1, FirstRow().Announced());
            && s.orders == map[1 := FirstRow()] && s.charged == {} && s.early == {}
            && s.outbox == [] && s.inventory == [] && s.due == [m] && s.replies == [m] && s.outcomes == []
  {
    var created := CreatedEvent(1, FirstRow().Lines(), FirstRow().Announced());
    CreatedState();
    RunMore(STOCK, [], Create(1, 0, ORDERED, 5));
    assert [] + [Create(1, 0, ORDERED, 5)] == [Create(1, 0, ORDERED, 5)];
    var s1 := Run(STOCK, [Create(1, 0, ORDERED, 5)]);
    assert s1.outbox == [created];
    RunMore(STOCK, [Create(1, 0, ORDERED, 5)], Relay(0));
    assert [Create(1, 0, ORDERED, 5)] + [Relay(0)] == [Create(1, 0, ORDERED, 5), Relay(0)];
    var s2 := Step(s1, Relay(0));
    assert Without([created], 0) == [];
    assert s2.outbox == [] && s2.inventory == [created];
    RunMore(STOCK, [Create(1, 0, ORDERED, 5), Relay(0)], HandleOrderEvent(0, 100));
    assert [Create(1, 0, ORDERED, 5), Relay(0)] + [HandleOrderEvent(0, 100)] == Reserved();
    CanReserve(s2.stock);
    var s3 := Step(s2, HandleOrderEvent(0, 100));
    assert s3.inventory == [] && s3.due == [ReservedEvent(1, FirstRow().Announced())];
  }

  lemma PaidFirst(s: State, total: real)
    requires s.orders == map[1 := FirstRow()] && s.early == {} && s.outbox == [] && s.inventory == []
             && s.outcomes == []
    requires s.due == [ReservedEvent(1, total)] && s.replies == [ReservedEvent(1, total)]
    ensures BothWaiting(Step(s, HandleDue(0, true)), 1, total) && 1 in Step(s, HandleDue(0, true)).charged
  {
    assert Without(s.due, 0) == [];
    PublishesPaid(s.(due := [], charged := s.charged + {1}));
  }

  /** The payment succeeds before the order service has seen the reservation: the two messages race. */
  lemma RaceHappens()
    ensures var s := Run(STOCK, Reserved() + [HandleDue(0, true)]);
            BothWaiting(s, 1, FirstRow().Announced()) && 1 in s.charged
  {
    ReservedState();
    RunMore(STOCK, Reserved(), HandleDue(0, true));
    PaidFirst(Run(STOCK, Reserved()), FirstRow().Announced());
  }

  lemma PublishesPaid(s: State)
    requires s.outcomes == []
    ensures Publish(s, PaidEvent(1)) == s.(outcomes := [PaidEvent(1)])
  {
    assert s.inventory + [] == s.inventory && s.due + [] == s.due && s.replies + [] == s.replies;
    assert s.outcomes + [PaidEvent(1)] == [PaidEvent(1)];
  }

  /** A run that ends with nothing left to handle and a charged order stuck in PAYMENT_PENDING. */
  lemma StuckRun()
    ensures var s := Run(STOCK, Reserved() + [HandleDue(0, true)] + [HandleOutcome(0)] + [HandleReply(0)]);
            Quiet(s) && 1 in s.orders && s.orders[1].status == PaymentPending && 1 in s.charged && 1 in s.early
  {
    var race := Reserved() + [HandleDue(0, true)];
    RaceHappens();
    RunMore(STOCK, race, HandleOutcome(0));
    RunMore(STOCK, race + [HandleOutcome(0)], HandleReply(0));
    PaymentFirstStrands(Run(STOCK, race), 1, FirstRow().Announced());
    KeepsCharged(Run(STOCK, race), HandleOutcome(0), 1);
    KeepsCharged(Run(STOCK, race + [HandleOutcome(0)]), HandleReply(0), 1);
  }

  lemma KeepsCharged(s: State, a: Action, o: OrderId)
    requires o in s.charged && (a.HandleOutcome? || a.HandleReply?)
    ensures o in Step(s, a).charged
  {
    match a
    case HandleReply(i) =>
      if Ready(s.replies, i) {
        HandleTriggeredIs(s.(replies := Without(s.replies, i)), s.replies[i]);
      }
    case HandleOutcome(i) =>
      if Ready(s.outcomes, i) {
        var early := if IsEarly(s, s.outcomes[i]) then s.early + {s.outcomes[i].order} else s.early;
        HandleTriggeredIs(s.(outcomes := Without(s.outcomes, i), early := early), s.outcomes[i]);
      }
  }

  lemma {:induction false} WastedStays(s: State, more: seq<Action>, initial: map<Sku, nat>, o: OrderId)
    requires Inv(s, initial) && Wasted(s, o)
    ensures Wasted(Follow(s, more), o)
    decreases |more|
  {
    if more != [] {
      StepKeepsInv(s, more[0], initial);
      StepWastes(s, more[0], initial, o);
      WastedStays(Step(s, more[0]), more[1..], initial, o);
    }
  }

  /** A run that ends with nothing left to handle and an order that is CANCELLED and charged. */
  lemma WastedRun() returns (actions: seq<Action>)
    ensures Quiet(Run(STOCK, actions)) && Wasted(Run(STOCK, actions), 1)
  {
    var initial := map[1 := 1];
    var front := Reserved() + [Cancel(1, 0)] + [HandleDue(0, true)];
    ReservedState();
    RunMore(STOCK, Reserved(), Cancel(1, 0));
    RunMore(STOCK, Reserved() + [Cancel(1, 0)], HandleDue(0, true));
    CancelsFirst(Run(STOCK, Reserved()));
    assert Unreserved(STOCK, initial);
    RunKeepsInv(STOCK, initial, front);
    var more := ReachesQuiet(Run(STOCK, front));
    WastedStays(Run(STOCK, front), more, initial, 1);
    FollowIsRun(STOCK, front, more);
    actions := front + more;
  }

  lemma CancelsFirst(s: State)
    requires s.orders == map[1 := FirstRow()] && s.due == [ReservedEvent(1, FirstRow().Announced())]
    ensures Wasted(Step(Step(s, Cancel(1, 0)), HandleDue(0, true)), 1)
  {
    HandleOrderIs(s, 1, OnCustomerCancel(0));
    var s1 := Step(s, Cancel(1, 0));
    assert s1.orders[1].status == Cancelled && s1.due == s.due;
    DueWastes(s1, 0, true, 1);
  }
}

/**
 An order may be CONFIRMED on a payment that is not its own, or not of its amount: one that a client made
 under the order's saga key. Exactly when that cannot happen.
 */
module UnpaidConfirmation {
  import opened Results
  import opened InventoryTables
  import opened StockLedger
  import opened OrderTables
  import opened Totals
  import opened SagaMessages
  import opened Saga
  import opened Retry
  import O = OrderSystem
  import P = PaymentSystem
  import PT = PaymentTables
  import opened SagaRuns
  import PE = PaymentExecutions
  import SagaSafety

  // ----- from the reserved order to its confirmation -----

  /** A handler that starts and finishes without interference. */
  function Handling(trigger: Trigger, order: OrderId): seq<Action> {
    [OrderStep(O.StartHandle(0, trigger, order)), OrderStep(O.Finish(0))]
  }

  /** The order row has just moved to `status`; nothing else about the orders did. */
  predicate MovedTo(s: State, s': State, order: OrderId, status: OrderStatus) {
    && order in s.orders.db.orders && order in s'.orders.db.orders
    && s'.orders.db.orders[order].status == status
    && s'.orders.db.orders[order].ordered == s.orders.db.orders[order].ordered
    && s'.orders.jobs == s.orders.jobs && order in s'.orders.history
    && s'.messages == s.messages && s'.payments == s.payments && s'.requests == s.requests
  }

  lemma Handled(s: State, limit: nat, trigger: Trigger, order: OrderId, status: OrderStatus)
    requires 0 !in s.orders.jobs && order in s.orders.db.orders && order in s.orders.history
    requires Caused(O.StartHandle(0, trigger, order), s.messages)
    requires var plan := PlanFor(trigger, s.orders.db.orders[order]);
             plan.Write? && plan.path != [] && plan.path[|plan.path| - 1] == status
    ensures MovedTo(s, Follow(s, limit, Handling(trigger, order)), order, status)
  {
    var o := s.orders;
    var loaded := o.db.orders[order];
    var o1 := O.Step(o, O.StartHandle(0, trigger, order));
    assert o1.jobs[0] == O.Handling(trigger, order, loaded);
    assert OrderTables.Commit(o1.db, order, loaded, PlanFor(trigger, loaded)).Ok?;
    var o2 := O.Step(o1, O.Finish(0));
    assert o2 == O.FinishHandle(o1, 0, trigger, order, loaded);
    assert o2.jobs == o.jobs;
    FollowTwo(s, limit, Handling(trigger, order)[0], Handling(trigger, order)[1]);
  }

  /** A COMPLETED payment sits under the order's saga key, and its reservation message is out. */
  predicate KeyTaken(s: State, order: OrderId, total: real, id: PT.PaymentId) {
    && ReservedEvent(order, total) in s.messages && 0 !in s.payments.workers
    && PT.FindByKey(s.payments.db.payments, SagaKey(order)) == Some(id)
    && s.payments.db.payments[id].status == PT.Completed
    && 0 !in s.orders.jobs && order in s.orders.db.orders && order in s.orders.history
    && s.orders.db.orders[order].status == Created
  }

  function ConfirmingActions(order: OrderId, total: real): seq<Action> {
    [Pay(0, ReservedEvent(order, total)), Reply(0, true)] + Handling(OnInventoryReserved, order)
        + Handling(OnPaymentCompleted, order)
  }

  lemma KeyReusePays(s: State, limit: nat, order: OrderId, total: real, id: PT.PaymentId)
    requires KeyTaken(s, order, total, id)
    ensures var s' := Follow(s, limit, [Pay(0, ReservedEvent(order, total)), Reply(0, true)]);
            && s'.orders == s.orders && s'.messages == s.messages + {PaidEvent(order)} && s'.requests == s.requests
            && s'.payments.db == s.payments.db && s'.payments.charges == s.payments.charges
  {
    FollowTwo(s, limit, Pay(0, ReservedEvent(order, total)), Reply(0, true));
    SagaSafety.KeyReuseConfirmsUnpaid(s, limit, 0, order, total, id);
  }

  /** Then the saga confirms the order on that payment, whatever it is for, and asks the gateway for nothing. */
  lemma KeyReuseConfirms(s: State, limit: nat, order: OrderId, total: real, id: PT.PaymentId)
    requires KeyTaken(s, order, total, id)
    ensures var s' := Follow(s, limit, ConfirmingActions(order, total));
            && order in s'.orders.db.orders && s'.orders.db.orders[order].status == Confirmed
            && s'.orders.db.orders[order].ordered == s.orders.db.orders[order].ordered
            && s'.payments.db == s.payments.db && s'.payments.charges == s.payments.charges
            && s'.requests == s.requests
  {
    var pay := [Pay(0, ReservedEvent(order, total)), Reply(0, true)];
    var s1 := Follow(s, limit, pay);
    KeyReusePays(s, limit, order, total, id);
    var s2 := Follow(s1, limit, Handling(OnInventoryReserved, order));
    assert TriggerOf(ReservedEvent(order, total)) == Some(OnInventoryReserved);
    Handled(s1, limit, OnInventoryReserved, order, PaymentPending);
    assert TriggerOf(PaidEvent(order)) == Some(OnPaymentCompleted) && PaidEvent(order) in s2.messages;
    Handled(s2, limit, OnPaymentCompleted, order, Confirmed);
    FollowJoins(s, limit, pay, Handling(OnInventoryReserved, order));
    FollowJoins(s, limit, pay + Handling(OnInventoryReserved, order), Handling(OnPaymentCompleted, order));
  }

  // ----- a run that gets there -----

  const STOCK := map[0 := Stock(1, 0, 1)]

  /** The payment that a request leaves once the gateway has charged it. */
  function PaidRow(c: P.Command): PT.PaymentRow {
    PT.PaymentRow(c.order, c.key, c.amount, PT.Completed, Some(9), 3)
  }

  function RequestActions(c: P.Command): seq<Action> {
    PayingActions(PayByRequest(0, c), 0, c, true, [Success(9)]) + [PaymentStep(P.Answer(0))]
  }

  /** A client's request is charged before any order exists. */
  lemma RequestPaid(limit: nat, c: P.Command)
    requires limit > 0 && c.amount > 0
    ensures var s := Follow(Start(STOCK), limit, RequestActions(c));
            && s.payments.db.payments == [PaidRow(c)] && s.payments.workers == map[]
            && s.payments.charges == [P.Charge(c.order, true)]
            && s.orders == O.START && s.stock == Tables(STOCK, []) && s.messages == {} && s.requests == {c}
  {
    var s0 := Start(STOCK);
    var pay := PayingActions(PayByRequest(0, c), 0, c, true, [Success(9)]);
    ChargedAtOnce(limit, c);
    PayingIs(s0, limit, PayByRequest(0, c), 0, c, true, [Success(9)]);
    FollowJoins(s0, limit, pay, [PaymentStep(P.Answer(0))]);
    FollowOne(Follow(s0, limit, pay), limit, PaymentStep(P.Answer(0)));
  }

  lemma ChargedAtOnce(limit: nat, c: P.Command)
    requires limit > 0 && c.amount > 0
    ensures var s := P.Follow(P.START, limit, PE.Execution(0, c, true, [Success(9)]));
            && s.db.payments == [PaidRow(c)] && s.charges == [P.Charge(c.order, true)]
            && s.workers == map[0 := P.Answering(c.order, 0, true)]
  {
    var script := seq(limit, i => Success(9));
    assert CallsMade(script, limit) == 1 && script[..1] == [Success(9)];
    PE.ExecutionSettles(P.START, limit, 0, c, true, script);
    assert PE.ChargesFor(c.order, [Success(9)]) == [P.Charge(c.order, true)];
  }

  /** An order of one unit. */
  function NewRow(price: real): OrderRow {
    OrderRow(0, OneLine(price, 1), Charged(OneLine(price, 1)), 5, Created, 1)
  }

  function Creating(order: OrderId, price: real): seq<Action> {
    [OrderStep(O.StartCreate(0, order, 0, OneLine(price, 1), 5)), OrderStep(O.Finish(0))]
  }

  lemma OrderCreates(s: State, limit: nat, order: OrderId, price: real)
    requires s.orders == O.START && price > 0.0 && Cents(price) > 0
    ensures var s' := Follow(s, limit, Creating(order, price));
            && s'.orders.db.orders == map[order := NewRow(price)]
            && s'.orders.db.outbox == [OutboxEvent(order, OrderCreated)]
            && s'.orders.jobs == map[] && order in s'.orders.history
            && s'.payments == s.payments && s'.stock == s.stock && s'.messages == s.messages
            && s'.requests == s.requests
  {
    var ordered := OneLine(price, 1);
    assert ordered[0].price == price;
    assert Sellable(ordered) && Storable(ordered);
    var o1 := O.Step(s.orders, O.StartCreate(0, order, 0, ordered, 5));
    assert o1.jobs == map[0 := O.Creating(order, NewRow(price))];
    var o2 := O.Step(o1, O.Finish(0));
    assert o2 == O.FinishCreate(o1, 0, order, NewRow(price));
    assert Outboxed(order, [OrderCreated]) == [OutboxEvent(order, OrderCreated)];
    FollowTwo(s, limit, Creating(order, price)[0], Creating(order, price)[1]);
  }

  function Announcing(order: OrderId, row: OrderRow): seq<Action> {
    [PublishRow(0, true), ReserveStock(CreatedEvent(order, row.Lines(), row.Announced()), 0, true, false)]
  }

  lemma StockReserves(s: State, limit: nat, order: OrderId, row: OrderRow)
    requires s.orders.db.orders == map[order := row] && s.orders.db.outbox == [OutboxEvent(order, OrderCreated)]
    requires s.stock == Tables(STOCK, []) && row.Lines() == [Line(0, 1)]
    ensures var s' := Follow(s, limit, Announcing(order, row));
            && s'.orders == s.orders && s'.payments == s.payments && s'.requests == s.requests
            && ReservedEvent(order, row.Announced()) in s'.messages
  {
    var lines := row.Lines();
    assert lines[..0] == [];
    assert LineCount(lines, 0) == 1;
    ReserveAllOrNothing(s.stock, order, lines, 0);
    var s1 := Step(s, limit, PublishRow(0, true));
    assert CreatedEvent(order, lines, row.Announced()) in s1.messages && s1.stock == s.stock;
    FollowTwo(s, limit, Announcing(order, row)[0], Announcing(order, row)[1]);
  }

  /**
   A run from the start in which a client pays `c` under the saga key of `order`, and the order of one
   unit at `price`, created after that, is CONFIRMED. There is no other payment and no other charge.
   */
  lemma PrepaidRun(limit: nat, c: P.Command, order: OrderId, price: real) returns (actions: seq<Action>)
    requires limit > 0 && c.amount > 0 && c.key == SagaKey(order) && price > 0.0 && Cents(price) > 0
    ensures var s := Run(STOCK, limit, actions);
            && order in s.orders.db.orders && s.orders.db.orders[order].status == Confirmed
            && s.orders.db.orders[order].ordered == OneLine(price, 1)
            && s.payments.db.payments == [PaidRow(c)] && s.payments.charges == [P.Charge(c.order, true)]
            && s.requests == {c}
  {
    var row := NewRow(price);
    var a, b, d := RequestActions(c), Creating(order, price), Announcing(order, row);
    var s0 := Start(STOCK);
    var s1 := Follow(s0, limit, a);
    RequestPaid(limit, c);
    var s2 := Follow(s1, limit, b);
    OrderCreates(s1, limit, order, price);
    var s3 := Follow(s2, limit, d);
    StockReserves(s2, limit, order, row);
    KeyReuseConfirms(s3, limit, order, row.Announced(), 0);
    actions := a + b + d + ConfirmingActions(order, row.Announced());
    FollowJoins(s0, limit, a, b);
    FollowJoins(s0, limit, a + b, d);
    FollowJoins(s0, limit, a + b + d, ConfirmingActions(order, row.Announced()));
    assert [] + actions == actions;
    RunIsFollow(STOCK, limit, [], actions);
  }

  // ----- exactly when a confirmed order is paid for itself -----

  /** A payment that was completed is for this order and of the amount charged for what was ordered. */
  ghost predicate PaidForItself(payments: seq<PT.PaymentRow>, order: OrderId, row: OrderRow) {
    exists id: nat :: SagaSafety.IsPaid(payments, order, id) && payments[id].order == order
      && payments[id].amount == Charged(row.ordered)
  }

  /** In every run whose clients send no other payment requests than `requests`, `order` is CONFIRMED only if paid. */
  ghost predicate AlwaysPaid(limit: nat, order: OrderId, requests: set<P.Command>) {
    forall stock, actions :: ConfirmedIn(Run(stock, limit, actions), order, requests) ==>
        PaidForItself(Run(stock, limit, actions).payments.db.payments, order,
              Run(stock, limit, actions).orders.db.orders[order])
  }

  predicate ConfirmedIn(s: State, order: OrderId, requests: set<P.Command>) {
    s.requests <= requests && order in s.orders.db.orders && s.orders.db.orders[order].status == Confirmed
  }

  /** A request that would be accepted under the order's saga key: what the HTTP layer can see before the call. */
  predicate TakesKey(c: P.Command, order: OrderId) {
    c.key == SagaKey(order) && c.amount > 0
  }

  lemma PaidWithoutThem(stock: map<Sku, Stock>, limit: nat, actions: seq<Action>, order: OrderId,
                        requests: set<P.Command>)
    requires ConfirmedIn(Run(stock, limit, actions), order, requests)
    requires forall c :: c in requests ==> !TakesKey(c, order)
    ensures PaidForItself(Run(stock, limit, actions).payments.db.payments, order,
                  Run(stock, limit, actions).orders.db.orders[order])
  {
    SagaSafety.RunKeepsInv(stock, limit, actions);
    SagaSafety.ConfirmedMeansReservedAndPaid(stock, limit, actions, order);
    NotRequested(Run(stock, limit, actions), order, requests);
  }

  lemma NotRequested(s: State, order: OrderId, requests: set<P.Command>)
    requires P.DbOk(s.payments.db) && ConfirmedIn(s, order, requests)
    requires SagaSafety.PaidAsOrdered(s, order, s.orders.db.orders[order])
    requires forall c :: c in requests ==> !TakesKey(c, order)
    ensures PaidForItself(s.payments.db.payments, order, s.orders.db.orders[order])
  {
    var row := s.orders.db.orders[order];
    var id: nat :| SagaSafety.IsPaid(s.payments.db.payments, order, id) &&
      var payment := s.payments.db.payments[id];
      || (payment.order == order && payment.amount == Charged(row.ordered))
      || P.Command(payment.order, SagaKey(order), payment.amount) in s.requests;
    var payment := s.payments.db.payments[id];
    assert P.RowOk(s.payments.db, id);
    assert !TakesKey(P.Command(payment.order, SagaKey(order), payment.amount), order) ==> payment.amount <= 0;
  }

  /** A price of one unit that is not what `amount` paid. */
  lemma OtherPrice(amount: int) returns (price: real)
    ensures price > 0.0 && Cents(price) > 0 && Charged(OneLine(price, 1)) != amount
  {
    price := if amount == 1000 then 20.0 else 10.0;
    OneLineTotals(price, 1);
  }

  /** The client may even pay for this order, but not its amount. */
  lemma NotPaidWithThem(limit: nat, order: OrderId, requests: set<P.Command>, c: P.Command)
    requires limit > 0 && c in requests && TakesKey(c, order)
    ensures !AlwaysPaid(limit, order, requests)
  {
    var price := OtherPrice(c.amount);
    var actions := PrepaidRun(limit, c, order, price);
    var s := Run(STOCK, limit, actions);
    assert ConfirmedIn(s, order, requests);
    assert !PaidForItself([PaidRow(c)], order, s.orders.db.orders[order]);
  }

  /**
   A CONFIRMED order has a completed payment for itself and of its own amount, in every run, if and only if no
   client sends a payment request of a positive amount under the order's saga key, for this or any other order.
   */
  lemma PaidAsOrderedExactly(limit: nat, order: OrderId, requests: set<P.Command>)
    requires limit > 0
    ensures AlwaysPaid(limit, order, requests) <==>
            forall c :: c in requests && c.key == SagaKey(order) ==> c.amount <= 0
  {
    if c :| c in requests && TakesKey(c, order) {
      NotPaidWithThem(limit, order, requests, c);
    } else {
      forall stock, actions | ConfirmedIn(Run(stock, limit, actions), order, requests)
        ensures PaidForItself(Run(stock, limit, actions).payments.db.payments, order,
                      Run(stock, limit, actions).orders.db.orders[order])
      {
        PaidWithoutThem(stock, limit, actions, order, requests);
      }
    }
  }

  /** A client pays 7.00 for order 2 under the saga key of order 1. */
  const OTHERS := P.Command(2, SagaKey(1), 700)

  /** A run from the start that ends with order 1 CONFIRMED, one payment, for order 2, and no charge for order 1. */
  lemma UnpaidRun(limit: nat) returns (actions: seq<Action>)
    requires limit > 0
    ensures var s := Run(STOCK, limit, actions);
            && 1 in s.orders.db.orders && s.orders.db.orders[1].status == Confirmed
            && s.payments.db.payments == [PaidRow(OTHERS)] && s.payments.charges == [P.Charge(2, true)]
  {
    actions := PrepaidRun(limit, OTHERS, 1, 10.0);
  }

  /** A client pays a cent for order 1 under its saga key. */
  const A_CENT := P.Command(1, SagaKey(1), 1)

  /** A run from the start that ends with order 1, of 10.00, CONFIRMED, and one charge, of a cent. */
  lemma UnderpaidRun(limit: nat) returns (actions: seq<Action>)
    requires limit > 0
    ensures var s := Run(STOCK, limit, actions);
            && 1 in s.orders.db.orders && s.orders.db.orders[1].status == Confirmed
            && Charged(s.orders.db.orders[1].ordered) == 1000
            && s.payments.db.payments == [PaidRow(A_CENT)] && s.payments.charges == [P.Charge(1, true)]
  {
    actions := PrepaidRun(limit, A_CENT, 1, 10.0);
    OneLineTotals(10.0, 1);
  }
}
