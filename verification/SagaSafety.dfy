/**
 The three services together. A published message stays deliverable for ever, so messages may be
 duplicated, delayed and reordered; every database step of the order and payment services is a
 step of its own, and whatever is waiting in a process may be lost in a crash.
 */
module Saga {
  import opened Results
  import opened InventoryTables
  import opened StockLedger
  import opened OrderTables
  import opened Totals
  import opened SagaMessages
  import O = OrderSystem
  import P = PaymentSystem

  /**
   `commits` lists how many reservation rows there were after each committed inventory
   transaction, `payers` the executions started by `inventory.reserved` and their orders, and
   `requests` the payment commands that came over HTTP. These three only record.
   */
  datatype State = State(
    orders: O.State,
    payments: P.State,
    stock: Tables,
    messages: set<Message>,
    commits: seq<nat>,
    payers: map<nat, OrderId>,
    requests: set<P.Command>)

  datatype Action =
    | OrderStep(order: O.Action)
    | PublishRow(row: nat, broker: bool)
    | ReserveStock(created: Message, expiresAt: int, stored: bool, fallback: bool)
    | ReleaseStock(cancelled: Message)
    | OtherStock(op: Op)                       // the expiry sweep, and reserve and release over HTTP
    | Pay(worker: nat, reserved: Message)
    | PayByRequest(worker: nat, command: P.Command)
    | PaymentStep(payment: P.Action)
    | Reply(worker: nat, stored: bool)

  /** `payment-<orderId>`: keys are numbered so that these are the even ones. */
  function SagaKey(order: OrderId): nat {
    2 * order
  }

  function Send(s: State, m: Message): State {
    s.(messages := s.messages + {m})
  }

  /** An order handler starts only on the message it consumes; a customer may cancel at any time. */
  predicate Caused(a: O.Action, messages: set<Message>) {
    a.StartHandle? ==> a.trigger.OnCustomerCancel? || exists m ::
        m in messages && TriggerOf(m) == Some(a.trigger) && m.order == a.id
  }

  function Commit(s: State, acts: seq<Act>): State {
    match RunActs(s.stock, acts)
    case Err(_) => s
    case Ok(t) => s.(stock := t, commits := s.commits + [|t.rows|])
  }

  /**
   `onOrderCreated`. `stored`: the broker stored inventory.reserved; `fallback`: the catch block's
   inventory.failed was stored. After a commit both can happen (a lost confirm) or neither (a crash).
   */
  function Reserving(s: State, order: OrderId, items: seq<Line>, total: real, expiresAt: int, stored: bool,
                     fallback: bool): State {
    var acts := ReserveActs(order, items, expiresAt);
    var s1 := Commit(s, acts);
    var s2 := if RunActs(s.stock, acts).Ok? && stored then Send(s1, ReservedEvent(order, total)) else s1;
    if fallback then Send(s2, NotReservedEvent(order)) else s2
  }

  /** What the payment service publishes when an execution the saga started returns. */
  function Verdict(worker: P.Worker): Message
    requires worker.Answering?
  {
    if worker.success then PaidEvent(worker.order) else NotPaidEvent(worker.order)
  }

  /**
   The payment asked for by `inventory.reserved`: the total it carries, rounded to cents as it is
   stored and charged.
   */
  function CommandFor(m: Message): P.Command
    requires m.ReservedEvent?
  {
    P.Command(m.order, SagaKey(m.order), Cents(m.total))
  }

  function Step(s: State, limit: nat, a: Action): State {
    match a
    case OrderStep(a) => if Caused(a, s.messages) then s.(orders := O.Step(s.orders, a)) else s
    case PublishRow(i, broker) =>
      var db := s.orders.db;
      if broker && i < |db.outbox| && db.outbox[i].order in db.orders then
        Send(s, PayloadOf(db.outbox[i], db.orders[db.outbox[i].order]))
      else s
    case ReserveStock(m, expiresAt, stored, fallback) =>
      if m in s.messages && m.CreatedEvent? then Reserving(s, m.order, m.items, m.total, expiresAt, stored, fallback)
          else s
    case ReleaseStock(m) =>
      if m in s.messages && m.CancelledEvent? then Commit(s, ReleaseActs(s.stock, OfOrder(m.order))) else s
    case OtherStock(op) => Commit(s, ActsOf(s.stock, op))
    case Pay(w, m) =>
      if m in s.messages && m.ReservedEvent? && w !in s.payments.workers then
        s.(payments := P.Step(s.payments, limit, P.StartProcess(w, CommandFor(m))),
           payers := s.payers[w := m.order])
      else s
    case PayByRequest(w, command) =>
      if w !in s.payments.workers then
        s.(payments := P.Step(s.payments, limit, P.StartProcess(w, command)), payers := s.payers - {w},
              requests := s.requests + {command})
      else s
    case PaymentStep(a) => if a.StartProcess? then s else s.(payments := P.Step(s.payments, limit, a))
    case Reply(w, stored) =>
      if w in s.payments.workers && s.payments.workers[w].Answering? && w in s.payers then
        var s' := s.(payments := P.Drop(s.payments, w));
        if !stored then s' else Send(s', Verdict(s.payments.workers[w]))
      else s
  }

  function Start(stock: map<Sku, Stock>): State {
    State(O.START, P.START, Tables(stock, []), {}, [0], map[], {})
  }

  function Run(stock: map<Sku, Stock>, limit: nat, actions: seq<Action>): State {
    if actions == [] then Start(stock)
    else Step(Run(stock, limit, actions[..|actions| - 1]), limit, actions[|actions| - 1])
  }
}

/** A CONFIRMED order is reserved and paid, in every run. */
module SagaSafety {
  import opened Results
  import opened InventoryTables
  import opened StockLedger
  import opened OrderTables
  import opened Totals
  import opened SagaMessages
  import opened Saga
  import O = OrderSystem
  import P = PaymentSystem
  import PT = PaymentTables

  // ----- what a reservation leaves behind -----

  function LinesOf(rows: seq<Reservation>): (lines: seq<Line>)
    ensures |lines| == |rows|
    ensures forall i :: 0 <= i < |rows| ==> lines[i] == Line(rows[i].sku, rows[i].quantity)
  {
    seq(|rows|, i requires 0 <= i < |rows| => Line(rows[i].sku, rows[i].quantity))
  }

  /** Exactly one row per ordered line, with that line's SKU and quantity. */
  predicate Covers(rows: seq<Reservation>, order: OrderId, items: seq<Line>) {
    && (forall i :: 0 <= i < |rows| ==> rows[i].order == order)
    && multiset(LinesOf(rows)) == multiset(items)
  }

  /** The rows the `j`-th committed transaction created cover the order. */
  predicate CoveredBy(rows: seq<Reservation>, commits: seq<nat>, order: OrderId, items: seq<Line>, j: nat) {
    0 < j < |commits| && commits[j - 1] <= commits[j] <= |rows|
        && Covers(rows[commits[j - 1]..commits[j]], order, items)
  }

  ghost predicate ReservedAtOnce(rows: seq<Reservation>, commits: seq<nat>, order: OrderId, items: seq<Line>) {
    exists j: nat :: CoveredBy(rows, commits, order, items, j)
  }

  predicate CommitsOk(rows: seq<Reservation>, commits: seq<nat>) {
    commits != [] && commits[|commits| - 1] == |rows|
  }

  /** Transactions append rows and change only statuses of older ones. */
  predicate RowsKept(rows: seq<Reservation>, rows': seq<Reservation>) {
    && |rows| <= |rows'|
    && forall i :: 0 <= i < |rows| ==> rows'[i].(status := rows[i].status) == rows[i]
  }

  lemma StaysCovered(rows: seq<Reservation>, rows': seq<Reservation>, commits: seq<nat>, n: nat, order: OrderId,
                     items: seq<Line>)
    requires RowsKept(rows, rows') && ReservedAtOnce(rows, commits, order, items)
    ensures ReservedAtOnce(rows', commits + [n], order, items)
  {
    var j: nat :| CoveredBy(rows, commits, order, items, j);
    var a, b := commits[j - 1], commits[j];
    assert forall i :: a <= i < b ==> rows'[i].(status := rows[i].status) == rows[i];
    assert LinesOf(rows'[a..b]) == LinesOf(rows[a..b]);
    assert CoveredBy(rows', commits + [n], order, items, j);
  }

  lemma NewBlockCovers(rows: seq<Reservation>, commits: seq<nat>, order: OrderId, items: seq<Line>, lines: seq<Line>,
                       expiresAt: int)
    requires CommitsOk(rows, commits) && multiset(lines) == multiset(items)
    ensures var rows' := rows + NewRows(order, lines, expiresAt);
            ReservedAtOnce(rows', commits + [|rows'|], order, items)
  {
    var rows' := rows + NewRows(order, lines, expiresAt);
    var block := rows'[|rows|..];
    assert block == NewRows(order, lines, expiresAt);
    assert LinesOf(block) == lines;
    assert rows'[|rows|..|rows'|] == block;
    assert CoveredBy(rows', commits + [|rows'|], order, items, |commits|);
  }

  lemma ReserveCovers(t: Tables, order: OrderId, items: seq<Line>, expiresAt: int, commits: seq<nat>)
    requires RunActs(t, ReserveActs(order, items, expiresAt)).Ok? && CommitsOk(t.rows, commits)
    ensures var rows := RunActs(t, ReserveActs(order, items, expiresAt)).value.rows;
            ReservedAtOnce(rows, commits + [|rows|], order, items)
  {
    TakesEffect(t, order, SortLines(items), expiresAt);
    NewBlockCovers(t.rows, commits, order, items, SortLines(items), expiresAt);
  }

  // ----- the invariant -----

  ghost predicate CommittedOk(s: State) {
    && CommitsOk(s.stock.rows, s.commits)
    && (forall m :: m in s.messages && m.ReservedEvent? && m.order in s.orders.db.orders ==>
          ReservedAtOnce(s.stock.rows, s.commits, m.order, s.orders.db.orders[m.order].Lines()))
  }

  /** Payloads agree with the order they name. */
  predicate MessagesOk(orders: map<OrderId, OrderRow>, messages: set<Message>) {
    && (forall m :: m in messages && m.CreatedEvent? ==>
          m.order in orders && m.items == orders[m.order].Lines() && m.total == orders[m.order].Announced())
    && (forall m :: m in messages && m.ReservedEvent? ==> m.order in orders && m.total == orders[m.order].Announced())
    && (forall m :: m in messages && m.PaidEvent? ==>
          m.order in orders && ReservedEvent(m.order, orders[m.order].Announced()) in messages)
  }

  predicate JobsCaused(jobs: map<nat, O.Job>, messages: set<Message>) {
    forall w :: w in jobs && jobs[w].Handling? && jobs[w].trigger == OnPaymentCompleted ==>
        PaidEvent(jobs[w].id) in messages
  }

  predicate ConfirmedIsPaid(orders: map<OrderId, OrderRow>, messages: set<Message>) {
    forall id :: id in orders && orders[id].status == Confirmed ==> PaidEvent(id) in messages
  }

  predicate CancelledIsPublished(orders: map<OrderId, OrderRow>, messages: set<Message>) {
    forall m :: m in messages && m.CancelledEvent? ==> m.order in orders && orders[m.order].status == Cancelled
  }

  /** An execution the saga started pays for its order under the saga's key. */
  predicate PaysFor(payments: seq<PT.PaymentRow>, worker: P.Worker, order: OrderId) {
    match worker
    case Inserting(c) => c.order == order && c.key == SagaKey(order)
    case Inserted(e) => e.row.order == order && e.row.key == SagaKey(order)
    case Admitting(e) => e.row.order == order && e.row.key == SagaKey(order)
    case Charging(e, _) => e.row.order == order && e.row.key == SagaKey(order)
    case Charged(e, _) => e.row.order == order && e.row.key == SagaKey(order)
    case Rejected(e) => e.row.order == order && e.row.key == SagaKey(order)
    case Answering(o, id, _) => o == order && id < |payments| && payments[id].key == SagaKey(order)
    case _ => true
  }

  predicate PayersOk(payments: P.State, payers: map<nat, OrderId>) {
    forall w :: w in payers && w in payments.workers ==> PaysFor(payments.db.payments, payments.workers[w], payers[w])
  }

  predicate PayersReserved(orders: map<OrderId, OrderRow>, payers: map<nat, OrderId>, messages: set<Message>) {
    forall w :: w in payers ==>
      payers[w] in orders && ReservedEvent(payers[w], orders[payers[w]].Announced()) in messages
  }

  predicate IsPaid(payments: seq<PT.PaymentRow>, order: OrderId, id: nat) {
    id < |payments| && payments[id].key == SagaKey(order) && payments[id].status in {PT.Completed, PT.Refunded}
  }

  ghost predicate PaidOk(payments: seq<PT.PaymentRow>, messages: set<Message>) {
    forall m :: m in messages && m.PaidEvent? ==> exists id: nat :: IsPaid(payments, m.order, id)
  }

  /** Where a payment comes from: a request, or a reservation message. */
  predicate Asked(c: P.Command, requests: set<P.Command>, messages: set<Message>) {
    c in requests || exists m :: m in messages && m.ReservedEvent? && c == CommandFor(m)
  }

  predicate PaymentsAsked(payments: P.State, requests: set<P.Command>, messages: set<Message>) {
    && (forall i :: 0 <= i < |payments.db.payments| ==>
          var row := payments.db.payments[i];
          Asked(P.Command(row.order, row.key, row.amount), requests, messages))
    && (forall w :: w in payments.workers && payments.workers[w].Inserting? ==>
          Asked(payments.workers[w].command, requests, messages))
  }

  ghost predicate Inv(s: State, limit: nat) {
    && O.Inv(s.orders) && P.Inv(s.payments, limit)
    && CommittedOk(s)
    && MessagesOk(s.orders.db.orders, s.messages)
    && JobsCaused(s.orders.jobs, s.messages)
    && ConfirmedIsPaid(s.orders.db.orders, s.messages)
    && CancelledIsPublished(s.orders.db.orders, s.messages)
    && PayersOk(s.payments, s.payers)
    && PayersReserved(s.orders.db.orders, s.payers, s.messages)
    && PaidOk(s.payments.db.payments, s.messages)
    && PaymentsAsked(s.payments, s.requests, s.messages)
  }

  // ----- steps of the order service -----

  /** Orders keep their items and total, and a final status. */
  predicate OrdersKept(orders: map<OrderId, OrderRow>, orders': map<OrderId, OrderRow>) {
    forall id :: id in orders ==>
      && id in orders' && orders'[id].ordered == orders[id].ordered
      && (orders[id].status in {Confirmed, Cancelled} ==> orders'[id].status == orders[id].status)
  }

  /** An order becomes CONFIRMED only in the write of a handler of `payment.completed`. */
  predicate NewlyConfirmed(s: O.State, orders': map<OrderId, OrderRow>) {
    forall id ::
      && id in orders' && orders'[id].status == Confirmed
      && !(id in s.db.orders && s.db.orders[id].status == Confirmed)
      ==>
      exists w :: w in s.jobs && s.jobs[w].Handling? && s.jobs[w].trigger == OnPaymentCompleted && s.jobs[w].id == id
  }

  /** The row that a handler's plan leaves, if it writes at all. */
  lemma PlanConfirms(trigger: Trigger, row: OrderRow)
    requires PlanFor(trigger, row).Write? && PlanFor(trigger, row).path != []
    ensures var path := PlanFor(trigger, row).path;
            && (path[|path| - 1] == Confirmed ==> trigger == OnPaymentCompleted)
            && row.status !in {Confirmed, Cancelled}
  {
  }

  lemma RowReplaced(s: O.State, orders': map<OrderId, OrderRow>, worker: nat, id: OrderId, row': OrderRow)
    requires id in s.db.orders && orders' == s.db.orders[id := row'] && row'.ordered == s.db.orders[id].ordered
    requires s.db.orders[id].status !in {Confirmed, Cancelled}
    requires worker in s.jobs && s.jobs[worker].Handling? && s.jobs[worker].id == id
    requires row'.status == Confirmed ==> s.jobs[worker].trigger == OnPaymentCompleted
    ensures OrdersKept(s.db.orders, orders') && NewlyConfirmed(s, orders')
  {
  }

  /** A handler's write replaces the one row it had loaded. */
  lemma HandlerReplaces(s: O.State, worker: nat, trigger: Trigger, id: OrderId, loaded: OrderRow)
    requires O.Inv(s) && worker in s.jobs && s.jobs[worker] == O.Handling(trigger, id, loaded)
    requires PlanFor(trigger, loaded).Write? && OrderTables.Commit(s.db, id, loaded, PlanFor(trigger, loaded)).Ok?
    ensures id in s.db.orders && loaded == s.db.orders[id] && PlanFor(trigger, loaded).path != []
    ensures var s', path := O.FinishHandle(s, worker, trigger, id, loaded), PlanFor(trigger, loaded).path;
            && s'.jobs == s.jobs - {worker}
            && s'.db.orders == s.db.orders[id := loaded.(status := path[|path| - 1],
                  version := loaded.version + |path|, total := Shown(loaded.ordered))]
  {
    O.GuardedWrite(s, worker, trigger, id, loaded);
  }

  lemma HandlerWrites(s: O.State, worker: nat, trigger: Trigger, id: OrderId, loaded: OrderRow)
    requires O.Inv(s) && worker in s.jobs && s.jobs[worker] == O.Handling(trigger, id, loaded)
    ensures var s' := O.FinishHandle(s, worker, trigger, id, loaded);
            OrdersKept(s.db.orders, s'.db.orders) && NewlyConfirmed(s, s'.db.orders) && s'.jobs == s.jobs - {worker}
  {
    var plan := PlanFor(trigger, loaded);
    var s' := O.FinishHandle(s, worker, trigger, id, loaded);
    if plan.Write? && OrderTables.Commit(s.db, id, loaded, plan).Ok? {
      HandlerReplaces(s, worker, trigger, id, loaded);
      PlanConfirms(trigger, loaded);
      RowReplaced(s, s'.db.orders, worker, id, s'.db.orders[id]);
    }
  }

  lemma CreateWrites(s: O.State, worker: nat, id: OrderId, row: OrderRow)
    requires O.Inv(s) && worker in s.jobs && s.jobs[worker] == O.Creating(id, row)
    ensures var s' := O.FinishCreate(s, worker, id, row);
            OrdersKept(s.db.orders, s'.db.orders) && NewlyConfirmed(s, s'.db.orders) && s'.jobs == s.jobs - {worker}
  {
    assert O.JobOk(s.db, s.jobs[worker]);
  }

  lemma FinishFacts(s: O.State, worker: nat, messages: set<Message>)
    requires O.Inv(s) && worker in s.jobs
    ensures var s' := O.Step(s, O.Finish(worker));
            OrdersKept(s.db.orders, s'.db.orders) && NewlyConfirmed(s, s'.db.orders) && s'.jobs == s.jobs - {worker}
  {
    match s.jobs[worker]
    case Creating(id, row) => CreateWrites(s, worker, id, row);
    case Handling(trigger, id, loaded) => HandlerWrites(s, worker, trigger, id, loaded);
  }

  lemma FewerJobs(jobs: map<nat, O.Job>, worker: nat, messages: set<Message>)
    requires JobsCaused(jobs, messages)
    ensures JobsCaused(jobs - {worker}, messages)
  {
  }

  lemma OrderStepFacts(s: O.State, a: O.Action, messages: set<Message>)
    requires O.Inv(s) && JobsCaused(s.jobs, messages) && Caused(a, messages)
    ensures var s' := O.Step(s, a);
            OrdersKept(s.db.orders, s'.db.orders) && NewlyConfirmed(s, s'.db.orders) && JobsCaused(s'.jobs, messages)
  {
    match a
    case Finish(worker) =>
      if worker in s.jobs {
        FinishFacts(s, worker, messages);
        FewerJobs(s.jobs, worker, messages);
      }
    case StartCreate(_, _, _, _, _) => StartFacts(s, a, messages);
    case StartHandle(_, _, _) => StartFacts(s, a, messages);
    case Crash(worker) => FewerJobs(s.jobs, worker, messages);
  }

  lemma StartFacts(s: O.State, a: O.Action, messages: set<Message>)
    requires JobsCaused(s.jobs, messages) && Caused(a, messages) && (a.StartCreate? || a.StartHandle?)
    ensures O.Step(s, a).db == s.db && JobsCaused(O.Step(s, a).jobs, messages)
  {
  }

  lemma KeptMessages(orders: map<OrderId, OrderRow>, orders': map<OrderId, OrderRow>, messages: set<Message>)
    requires MessagesOk(orders, messages) && CancelledIsPublished(orders, messages) && OrdersKept(orders, orders')
    ensures MessagesOk(orders', messages) && CancelledIsPublished(orders', messages)
  {
  }

  lemma KeptPayers(orders: map<OrderId, OrderRow>, orders': map<OrderId, OrderRow>, payers: map<nat, OrderId>,
                   messages: set<Message>)
    requires PayersReserved(orders, payers, messages) && OrdersKept(orders, orders')
    ensures PayersReserved(orders', payers, messages)
  {
  }

  lemma KeptCommits(s: State, orders: O.State)
    requires CommittedOk(s) && OrdersKept(s.orders.db.orders, orders.db.orders)
             && MessagesOk(s.orders.db.orders, s.messages)
    ensures CommittedOk(s.(orders := orders))
  {
  }

  lemma ConfirmedStaysPaid(s: O.State, orders': map<OrderId, OrderRow>, messages: set<Message>)
    requires ConfirmedIsPaid(s.db.orders, messages) && JobsCaused(s.jobs, messages) && NewlyConfirmed(s, orders')
    ensures ConfirmedIsPaid(orders', messages)
  {
  }

  lemma OrderStepKeepsInv(s: State, limit: nat, a: O.Action)
    requires Inv(s, limit) && Caused(a, s.messages)
    ensures Inv(s.(orders := O.Step(s.orders, a)), limit)
  {
    O.StepKeepsInv(s.orders, a);
    OrderStepFacts(s.orders, a, s.messages);
    OrdersChanged(s, limit, O.Step(s.orders, a));
  }

  /** A change of the order side only needs the order side's clauses. */
  lemma OrdersChanged(s: State, limit: nat, orders: O.State)
    requires Inv(s, limit) && O.Inv(orders) && JobsCaused(orders.jobs, s.messages)
    requires OrdersKept(s.orders.db.orders, orders.db.orders) && NewlyConfirmed(s.orders, orders.db.orders)
    ensures Inv(s.(orders := orders), limit)
  {
    KeptMessages(s.orders.db.orders, orders.db.orders, s.messages);
    KeptPayers(s.orders.db.orders, orders.db.orders, s.payers, s.messages);
    KeptCommits(s, orders);
    ConfirmedStaysPaid(s.orders, orders.db.orders, s.messages);
  }

  // ----- steps of the inventory service -----

  lemma CommitKeepsRows(t: Tables, acts: seq<Act>)
    requires RunActs(t, acts).Ok?
    ensures RowsKept(t.rows, RunActs(t, acts).value.rows)
  {
    RowsAfter(t, acts);
  }

  lemma CommitKeepsInv(s: State, limit: nat, acts: seq<Act>)
    requires Inv(s, limit)
    ensures Inv(Saga.Commit(s, acts), limit)
  {
    if RunActs(s.stock, acts).Ok? {
      CommitKeepsRows(s.stock, acts);
      var rows' := RunActs(s.stock, acts).value.rows;
      forall m | m in s.messages && m.ReservedEvent? && m.order in s.orders.db.orders
        ensures ReservedAtOnce(rows', s.commits + [|rows'|], m.order, s.orders.db.orders[m.order].Lines())
      {
        StaysCovered(s.stock.rows, rows', s.commits, |rows'|, m.order, s.orders.db.orders[m.order].Lines());
      }
    }
  }

  /** What a message says is so when it is sent. */
  ghost predicate Truthful(s: State, m: Message) {
    var orders := s.orders.db.orders;
    match m
    case CreatedEvent(o, items, total) => o in orders && items == orders[o].Lines() && total == orders[o].Announced()
    case CancelledEvent(o) => o in orders && orders[o].status == Cancelled
    case ReservedEvent(o, total) =>
      o in orders && total == orders[o].Announced() && ReservedAtOnce(s.stock.rows, s.commits, o, orders[o].Lines())
    case PaidEvent(o) =>
      && o in orders && ReservedEvent(o, orders[o].Announced()) in s.messages
      && exists id: nat :: IsPaid(s.payments.db.payments, o, id)
    case _ => true
  }

  lemma SentMessages(s: State, m: Message)
    requires Truthful(s, m) && MessagesOk(s.orders.db.orders, s.messages)
             && CancelledIsPublished(s.orders.db.orders, s.messages)
    ensures MessagesOk(s.orders.db.orders, s.messages + {m})
            && CancelledIsPublished(s.orders.db.orders, s.messages + {m})
  {
  }

  lemma SentFacts(s: State, m: Message)
    requires Truthful(s, m) && CommittedOk(s) && PaidOk(s.payments.db.payments, s.messages)
    ensures CommittedOk(Send(s, m)) && PaidOk(s.payments.db.payments, s.messages + {m})
  {
  }

  /** What is justified by the messages sent so far stays justified. */
  lemma SentJustifies(s: State, m: Message)
    requires JobsCaused(s.orders.jobs, s.messages) && ConfirmedIsPaid(s.orders.db.orders, s.messages)
    requires PayersReserved(s.orders.db.orders, s.payers, s.messages)
             && PaymentsAsked(s.payments, s.requests, s.messages)
    ensures JobsCaused(s.orders.jobs, s.messages + {m}) && ConfirmedIsPaid(s.orders.db.orders, s.messages + {m})
    ensures PayersReserved(s.orders.db.orders, s.payers, s.messages + {m})
            && PaymentsAsked(s.payments, s.requests, s.messages + {m})
  {
  }

  /** More messages never falsify what earlier ones promised. */
  lemma SendKeepsInv(s: State, limit: nat, m: Message)
    requires Inv(s, limit) && Truthful(s, m)
    ensures Inv(Send(s, m), limit)
  {
    SentMessages(s, m);
    SentFacts(s, m);
    SentJustifies(s, m);
  }

  lemma ReserveKeepsInv(s: State, limit: nat, m: Message, expiresAt: int, stored: bool, fallback: bool)
    requires Inv(s, limit) && m in s.messages && m.CreatedEvent?
    ensures Inv(Reserving(s, m.order, m.items, m.total, expiresAt, stored, fallback), limit)
  {
    var acts := ReserveActs(m.order, m.items, expiresAt);
    CommitKeepsInv(s, limit, acts);
    var s1 := Saga.Commit(s, acts);
    var s2 := if RunActs(s.stock, acts).Ok? && stored then Send(s1, ReservedEvent(m.order, m.total)) else s1;
    if RunActs(s.stock, acts).Ok? && stored {
      ReserveCovers(s.stock, m.order, m.items, expiresAt, s.commits);
      SendKeepsInv(s1, limit, ReservedEvent(m.order, m.total));
    }
    if fallback {
      SendKeepsInv(s2, limit, NotReservedEvent(m.order));
    }
  }

  /** `order.cancelled` is only ever in the outbox of a CANCELLED order. */
  lemma OutboxedCancellation(s: O.State, i: nat)
    requires O.Inv(s) && i < |s.db.outbox| && s.db.outbox[i].kind == OrderCancelled
    ensures s.db.outbox[i].order in s.db.orders && s.db.orders[s.db.outbox[i].order].status == Cancelled
  {
    var id := s.db.outbox[i].order;
    CountsMember(s.db.outbox, i);
    if id in s.db.orders {
      assert O.EventsOk(s.db.outbox, id, s.db.orders[id]);
    }
  }

  lemma {:induction false} CountsMember(outbox: seq<OutboxEvent>, i: nat)
    requires i < |outbox|
    ensures O.Count(outbox, outbox[i]) >= 1
    decreases |outbox|
  {
    if i < |outbox| - 1 {
      CountsMember(outbox[..|outbox| - 1], i);
    }
  }

  lemma PayloadIsTrue(s: State, i: nat)
    requires O.Inv(s.orders) && i < |s.orders.db.outbox| && s.orders.db.outbox[i].order in s.orders.db.orders
    ensures Truthful(s, PayloadOf(s.orders.db.outbox[i], s.orders.db.orders[s.orders.db.outbox[i].order]))
  {
    if s.orders.db.outbox[i].kind == OrderCancelled {
      OutboxedCancellation(s.orders, i);
    }
  }

  lemma PublishKeepsInv(s: State, limit: nat, i: nat)
    requires Inv(s, limit) && i < |s.orders.db.outbox| && s.orders.db.outbox[i].order in s.orders.db.orders
    ensures Inv(Send(s, PayloadOf(s.orders.db.outbox[i], s.orders.db.orders[s.orders.db.outbox[i].order])), limit)
  {
    PayloadIsTrue(s, i);
    SendKeepsInv(s, limit, PayloadOf(s.orders.db.outbox[i], s.orders.db.orders[s.orders.db.outbox[i].order]));
  }

  // ----- steps of the payment service -----

  /** Payment rows keep their order, key and amount, and stay paid once they are. */
  predicate PaymentsKept(payments: seq<PT.PaymentRow>, payments': seq<PT.PaymentRow>) {
    && |payments| <= |payments'|
    && forall i :: 0 <= i < |payments| ==>
         && payments'[i].order == payments[i].order && payments'[i].key == payments[i].key
             && payments'[i].amount == payments[i].amount
         && (payments[i].status in {PT.Completed, PT.Refunded} ==> payments'[i].status in {PT.Completed, PT.Refunded})
  }

  lemma StoreKeepsPayments(db: PT.PaymentDb, e: PT.Entity, moved: Result<PT.Entity, PT.PaymentError>)
    requires P.DbOk(db) && P.Fits(db, e) && (moved.Ok? ==> P.Moves(e, moved.value)) && P.Store(db, moved).Ok?
    ensures PaymentsKept(db.payments, P.Store(db, moved).value.payments)
            && |P.Store(db, moved).value.payments| == |db.payments|
  {
    P.WriteKeepsDb(db, e, moved.value);
    P.MovesForward(e, moved.value);
  }

  /** What a payment step may do, seen from outside: rows kept, and new work only for orders already asked for. */
  ghost predicate StepOk(s: P.State, s': P.State) {
    && PaymentsKept(s.db.payments, s'.db.payments)
    && (forall w ::
          w in s'.workers && (s'.workers[w].Inserting? || P.Owns(s'.workers[w]) || s'.workers[w].Answering?) ==>
          && w in s.workers
          && forall order :: PaysFor(s.db.payments, s.workers[w], order) ==>
              PaysFor(s'.db.payments, s'.workers[w], order))
    && (forall w :: w in s'.workers && s'.workers[w].Inserting? ==> w in s.workers && s.workers[w] == s'.workers[w])
    && (forall i :: |s.db.payments| <= i < |s'.db.payments| ==>
          exists w :: w in s.workers && s.workers[w].Inserting?
                      && s.workers[w].command ==
                          P.Command(s'.db.payments[i].order, s'.db.payments[i].key, s'.db.payments[i].amount))
  }

  lemma WriteStepOk(s: P.State, w: nat, e: PT.Entity, moved: Result<PT.Entity, PT.PaymentError>, next: Option<P.Worker>)
    requires P.DbOk(s.db) && w in s.workers && P.Fits(s.db, e) && (moved.Ok? ==> P.Moves(e, moved.value))
    requires P.Store(s.db, moved).Ok? && next.Some? ==>
               !next.value.Inserting?
               && forall order :: PaysFor(s.db.payments, s.workers[w], order) ==>
                   PaysFor(P.Store(s.db, moved).value.payments, next.value, order)
    ensures StepOk(s, P.Proceed(s, w, P.Store(s.db, moved), next))
  {
    if P.Store(s.db, moved).Ok? {
      StoreKeepsPayments(s.db, e, moved);
    }
  }

  lemma InsertOk(s: P.State, limit: nat, w: nat)
    requires P.Inv(s, limit)
    ensures StepOk(s, P.Step(s, limit, P.Insert(w)))
  {
    if w in s.workers && s.workers[w].Inserting? {
      assert P.WorkerOk(s.db, s.workers[w]);
    }
  }

  lemma RecordOk(s: P.State, limit: nat, w: nat)
    requires P.Inv(s, limit)
    ensures StepOk(s, P.Step(s, limit, P.Record(w)))
  {
    if w in s.workers && (s.workers[w].Charged? || s.workers[w].Rejected?) {
      var e := s.workers[w].entity;
      assert P.WorkerOk(s.db, s.workers[w]);
      var moved := if s.workers[w].Charged? then PT.MarkCompleted(e, s.workers[w].transaction)
          else PT.TransitionTo(e, PT.Failed);
      if P.Store(s.db, moved).Ok? {
        StoreKeepsPayments(s.db, e, moved);
      }
      WriteStepOk(s, w, e, moved, Some(P.Answering(e.row.order, e.id, s.workers[w].Charged?)));
    }
  }

  lemma BeginOk(s: P.State, limit: nat, w: nat)
    requires P.Inv(s, limit)
    ensures StepOk(s, P.Step(s, limit, P.Begin(w)))
  {
    if w in s.workers && s.workers[w].Inserted? {
      var e := s.workers[w].entity;
      assert P.WorkerOk(s.db, s.workers[w]);
      var moved := PT.TransitionTo(e, PT.Processing);
      if P.Store(s.db, moved).Ok? {
        P.WriteKeepsDb(s.db, e, moved.value);
      }
      WriteStepOk(s, w, e, moved, Some(P.Admitting(P.Reloaded(P.Store(s.db, moved), e))));
    }
  }

  lemma WebhookOk(s: P.State, limit: nat, w: nat, verdict: Option<PT.TransactionId>)
    requires P.Inv(s, limit)
    ensures StepOk(s, P.Step(s, limit, P.ApplyWebhook(w, verdict)))
  {
    if w in s.workers && s.workers[w].Notified? {
      var e := s.workers[w].entity;
      assert P.WorkerOk(s.db, s.workers[w]);
      WriteStepOk(s, w, e, if verdict.Some? then PT.MarkCompleted(e, verdict.value) else PT.TransitionTo(e, PT.Failed),
            None);
    }
  }

  lemma RefundOk(s: P.State, limit: nat, w: nat)
    requires P.Inv(s, limit)
    ensures StepOk(s, P.Step(s, limit, P.RecordRefund(w)))
  {
    if w in s.workers && s.workers[w].RefundConfirmed? {
      var e := s.workers[w].entity;
      assert P.WorkerOk(s.db, s.workers[w]);
      var moved := PT.MarkRefunded(e);
      assert moved.Ok? ==> P.Moves(e, moved.value);
      WriteStepOk(s, w, e, moved, Some(P.RecordingRefund(PT.RefundRow(e.id, e.row.amount, s.workers[w].key))));
    }
  }

  /** The steps that write no payment row and give no worker a new payment to make. */
  predicate Quiet(a: P.Action) {
    !a.StartProcess? && !a.Insert? && !a.Begin? && !a.Record? && !a.ApplyWebhook? && !a.RecordRefund?
  }

  lemma QuietOk(s: P.State, limit: nat, a: P.Action)
    requires Quiet(a)
    ensures StepOk(s, P.Step(s, limit, a))
  {
  }

  lemma PaymentStepOk(s: P.State, limit: nat, a: P.Action)
    requires P.Inv(s, limit) && !a.StartProcess?
    ensures StepOk(s, P.Step(s, limit, a))
  {
    if Quiet(a) {
      QuietOk(s, limit, a);
    } else {
      match a
      case Insert(w) => InsertOk(s, limit, w);
      case Begin(w) => BeginOk(s, limit, w);
      case Record(w) => RecordOk(s, limit, w);
      case ApplyWebhook(w, verdict) => WebhookOk(s, limit, w, verdict);
      case RecordRefund(w) => RefundOk(s, limit, w);
    }
  }

  lemma StepKeepsPayers(s: P.State, s': P.State, payers: map<nat, OrderId>)
    requires StepOk(s, s') && PayersOk(s, payers)
    ensures PayersOk(s', payers)
  {
  }

  lemma StepKeepsPaid(s: P.State, s': P.State, messages: set<Message>)
    requires StepOk(s, s') && PaidOk(s.db.payments, messages)
    ensures PaidOk(s'.db.payments, messages)
  {
    forall m | m in messages && m.PaidEvent?
      ensures exists id: nat :: IsPaid(s'.db.payments, m.order, id)
    {
      var id: nat :| IsPaid(s.db.payments, m.order, id);
      assert IsPaid(s'.db.payments, m.order, id);
    }
  }

  lemma StepKeepsAsked(s: P.State, s': P.State, requests: set<P.Command>, messages: set<Message>)
    requires StepOk(s, s') && PaymentsAsked(s, requests, messages)
    ensures PaymentsAsked(s', requests, messages)
  {
  }

  /** A change of the payment side only needs the payment side's clauses. */
  lemma PaymentsChanged(s: State, limit: nat, payments: P.State, payers: map<nat, OrderId>, requests: set<P.Command>)
    requires Inv(s, limit) && P.Inv(payments, limit) && PayersOk(payments, payers)
    requires PayersReserved(s.orders.db.orders, payers, s.messages)
    requires PaidOk(payments.db.payments, s.messages) && PaymentsAsked(payments, requests, s.messages)
    ensures Inv(s.(payments := payments, payers := payers, requests := requests), limit)
  {
  }

  lemma PaymentStepKeepsInv(s: State, limit: nat, a: P.Action)
    requires Inv(s, limit) && !a.StartProcess?
    ensures Inv(s.(payments := P.Step(s.payments, limit, a)), limit)
  {
    var payments' := P.Step(s.payments, limit, a);
    P.StepKeepsInv(s.payments, limit, a);
    PaymentStepOk(s.payments, limit, a);
    StepKeepsPayers(s.payments, payments', s.payers);
    StepKeepsPaid(s.payments, payments', s.messages);
    StepKeepsAsked(s.payments, payments', s.requests, s.messages);
  }

  /** A new execution answers from the payment under its key, or goes on to insert one. */
  predicate Begun(s: P.State, s': P.State, w: nat, c: P.Command) {
    && s'.db == s.db
    && (forall v :: v in s'.workers && v != w ==> v in s.workers && s'.workers[v] == s.workers[v])
    && (w in s'.workers ==>
          || s'.workers[w] == P.Inserting(c)
          || (s'.workers[w].Answering? && s'.workers[w].order == c.order && s'.workers[w].payment < |s.db.payments|
              && s.db.payments[s'.workers[w].payment].key == c.key))
  }

  lemma StartBegins(s: P.State, limit: nat, w: nat, c: P.Command)
    requires w !in s.workers
    ensures Begun(s, P.Step(s, limit, P.StartProcess(w, c)), w, c)
  {
  }

  lemma BegunKeepsPayers(s: P.State, s': P.State, w: nat, c: P.Command, payers: map<nat, OrderId>)
    requires Begun(s, s', w, c) && PayersOk(s, payers) && c.key == SagaKey(c.order)
    ensures PayersOk(s', payers[w := c.order])
  {
  }

  lemma BegunKeepsAsked(s: P.State, s': P.State, w: nat, c: P.Command, requests: set<P.Command>, messages: set<Message>)
    requires Begun(s, s', w, c) && PaymentsAsked(s, requests, messages) && Asked(c, requests, messages)
    ensures PaymentsAsked(s', requests, messages)
  {
  }

  function Paying(s: State, limit: nat, w: nat, c: P.Command): State {
    s.(payments := P.Step(s.payments, limit, P.StartProcess(w, c)), payers := s.payers[w := c.order])
  }

  lemma PayIs(s: State, limit: nat, w: nat, m: Message)
    requires m in s.messages && m.ReservedEvent? && w !in s.payments.workers
    ensures Step(s, limit, Pay(w, m)) == Paying(s, limit, w, CommandFor(m))
  {
  }

  lemma PayingFacts(s: State, limit: nat, w: nat, c: P.Command)
    requires Inv(s, limit) && w !in s.payments.workers && c.key == SagaKey(c.order) && Asked(c, s.requests, s.messages)
    ensures var payments' := Paying(s, limit, w, c).payments;
            && P.Inv(payments', limit) && PayersOk(payments', s.payers[w := c.order]) && payments'.db == s.payments.db
            && PaymentsAsked(payments', s.requests, s.messages)
  {
    var payments' := P.Step(s.payments, limit, P.StartProcess(w, c));
    P.StepKeepsInv(s.payments, limit, P.StartProcess(w, c));
    StartBegins(s.payments, limit, w, c);
    BegunKeepsPayers(s.payments, payments', w, c, s.payers);
    BegunKeepsAsked(s.payments, payments', w, c, s.requests, s.messages);
  }

  lemma PayerAdded(s: State, w: nat, order: OrderId)
    requires PayersReserved(s.orders.db.orders, s.payers, s.messages)
    requires order in s.orders.db.orders && ReservedEvent(order, s.orders.db.orders[order].Announced()) in s.messages
    ensures PayersReserved(s.orders.db.orders, s.payers[w := order], s.messages)
  {
  }

  lemma PayingKeepsInv(s: State, limit: nat, w: nat, c: P.Command)
    requires Inv(s, limit) && w !in s.payments.workers
    requires c.order in s.orders.db.orders
             && ReservedEvent(c.order, s.orders.db.orders[c.order].Announced()) in s.messages
    requires c == CommandFor(ReservedEvent(c.order, s.orders.db.orders[c.order].Announced()))
    ensures Inv(Paying(s, limit, w, c), limit)
  {
    assert Asked(c, s.requests, s.messages);
    PayingFacts(s, limit, w, c);
    PayerAdded(s, w, c.order);
    PaymentsChanged(s, limit, Paying(s, limit, w, c).payments, s.payers[w := c.order], s.requests);
  }

  lemma PayKeepsInv(s: State, limit: nat, w: nat, m: Message)
    requires Inv(s, limit) && m in s.messages && m.ReservedEvent? && w !in s.payments.workers
    ensures Inv(Step(s, limit, Pay(w, m)), limit)
  {
    PayerIsReserved(s, m);
    PayIs(s, limit, w, m);
    PayingKeepsInv(s, limit, w, CommandFor(m));
  }

  lemma PayerIsReserved(s: State, m: Message)
    requires MessagesOk(s.orders.db.orders, s.messages) && m in s.messages && m.ReservedEvent?
    ensures m.order in s.orders.db.orders
            && ReservedEvent(m.order, s.orders.db.orders[m.order].Announced()) in s.messages
  {
    assert m == ReservedEvent(m.order, s.orders.db.orders[m.order].Announced());
  }

  lemma RequestKeepsInv(s: State, limit: nat, w: nat, c: P.Command)
    requires Inv(s, limit) && w !in s.payments.workers
    ensures Inv(Step(s, limit, PayByRequest(w, c)), limit)
  {
    var payments' := P.Step(s.payments, limit, P.StartProcess(w, c));
    P.StepKeepsInv(s.payments, limit, P.StartProcess(w, c));
    StartBegins(s.payments, limit, w, c);
    assert PaymentsAsked(s.payments, s.requests + {c}, s.messages);
    BegunKeepsAsked(s.payments, payments', w, c, s.requests + {c}, s.messages);
  }

  /** The message an execution's outcome is published as is true when it is sent. */
  lemma OutcomeIsPaid(s: State, limit: nat, w: nat)
    requires Inv(s, limit) && w in s.payments.workers && s.payments.workers[w].Answering? && w in s.payers
    ensures s.payments.workers[w].order == s.payers[w]
    ensures s.payments.workers[w].success ==> IsPaid(s.payments.db.payments, s.payers[w], s.payments.workers[w].payment)
  {
    assert P.WorkerOk(s.payments.db, s.payments.workers[w]);
    assert PaysFor(s.payments.db.payments, s.payments.workers[w], s.payers[w]);
  }

  lemma SendOutcome(s: State, limit: nat, order: OrderId, success: bool, id: nat)
    requires Inv(s, limit) && order in s.orders.db.orders
             && ReservedEvent(order, s.orders.db.orders[order].Announced()) in s.messages
    requires success ==> IsPaid(s.payments.db.payments, order, id)
    ensures Inv(Send(s, if success then PaidEvent(order) else NotPaidEvent(order)), limit)
  {
    SendKeepsInv(s, limit, if success then PaidEvent(order) else NotPaidEvent(order));
  }

  lemma SentReplyKeepsInv(s: State, limit: nat, w: nat, s': State)
    requires Inv(s, limit) && w in s.payments.workers && s.payments.workers[w].Answering? && w in s.payers
    requires Inv(s', limit) && s'.orders == s.orders && s'.messages == s.messages && s'.payments.db == s.payments.db
    ensures Inv(Send(s', Verdict(s.payments.workers[w])), limit)
  {
    var worker := s.payments.workers[w];
    OutcomeIsPaid(s, limit, w);
    PayerWasReserved(s, w);
    SendOutcome(s', limit, worker.order, worker.success, worker.payment);
  }

  lemma ReplyIs(s: State, limit: nat, w: nat, stored: bool)
    requires w in s.payments.workers && s.payments.workers[w].Answering? && w in s.payers
    ensures var s' := s.(payments := P.Drop(s.payments, w));
            Step(s, limit, Reply(w, stored)) == if stored then Send(s', Verdict(s.payments.workers[w])) else s'
  {
  }

  lemma ReplyKeepsInv(s: State, limit: nat, w: nat, stored: bool)
    requires Inv(s, limit) && w in s.payments.workers && s.payments.workers[w].Answering? && w in s.payers
    ensures Inv(Step(s, limit, Reply(w, stored)), limit)
  {
    ReplyIs(s, limit, w, stored);
    AnswerKeepsInv(s, limit, w);
    if stored {
      SentReplyKeepsInv(s, limit, w, s.(payments := P.Drop(s.payments, w)));
    }
  }

  lemma AnswerKeepsInv(s: State, limit: nat, w: nat)
    requires Inv(s, limit) && w in s.payments.workers && s.payments.workers[w].Answering?
    ensures Inv(s.(payments := P.Drop(s.payments, w)), limit)
  {
    assert P.Step(s.payments, limit, P.Answer(w)) == P.Drop(s.payments, w);
    PaymentStepKeepsInv(s, limit, P.Answer(w));
  }

  lemma PayerWasReserved(s: State, w: nat)
    requires PayersReserved(s.orders.db.orders, s.payers, s.messages) && w in s.payers
    ensures var order := s.payers[w];
            order in s.orders.db.orders && ReservedEvent(order, s.orders.db.orders[order].Announced()) in s.messages
  {
  }

  lemma OrderActionKeepsInv(s: State, limit: nat, a: O.Action)
    requires Inv(s, limit)
    ensures Inv(Step(s, limit, OrderStep(a)), limit)
  {
    if Caused(a, s.messages) {
      OrderStepKeepsInv(s, limit, a);
    }
  }

  lemma PublishActionKeepsInv(s: State, limit: nat, i: nat, broker: bool)
    requires Inv(s, limit)
    ensures Inv(Step(s, limit, PublishRow(i, broker)), limit)
  {
    var db := s.orders.db;
    if broker && i < |db.outbox| && db.outbox[i].order in db.orders {
      PublishKeepsInv(s, limit, i);
    }
  }

  lemma ReserveActionKeepsInv(s: State, limit: nat, m: Message, expiresAt: int, stored: bool, fallback: bool)
    requires Inv(s, limit)
    ensures Inv(Step(s, limit, ReserveStock(m, expiresAt, stored, fallback)), limit)
  {
    if m in s.messages && m.CreatedEvent? {
      ReserveKeepsInv(s, limit, m, expiresAt, stored, fallback);
    }
  }

  lemma ReleaseActionKeepsInv(s: State, limit: nat, m: Message)
    requires Inv(s, limit)
    ensures Inv(Step(s, limit, ReleaseStock(m)), limit)
  {
    if m in s.messages && m.CancelledEvent? {
      ReleaseIs(s, limit, m);
      CommittedKeepsInv(s, limit, Step(s, limit, ReleaseStock(m)), ReleaseActs(s.stock, OfOrder(m.order)));
    }
  }

  lemma OtherActionKeepsInv(s: State, limit: nat, op: Op)
    requires Inv(s, limit)
    ensures Inv(Step(s, limit, OtherStock(op)), limit)
  {
    OtherIs(s, limit, op);
    CommittedKeepsInv(s, limit, Step(s, limit, OtherStock(op)), ActsOf(s.stock, op));
  }

  lemma OtherIs(s: State, limit: nat, op: Op)
    ensures Step(s, limit, OtherStock(op)) == Saga.Commit(s, ActsOf(s.stock, op))
  {
  }

  lemma ReleaseIs(s: State, limit: nat, m: Message)
    requires m in s.messages && m.CancelledEvent?
    ensures Step(s, limit, ReleaseStock(m)) == Saga.Commit(s, ReleaseActs(s.stock, OfOrder(m.order)))
  {
  }

  lemma CommittedKeepsInv(s: State, limit: nat, s': State, acts: seq<Act>)
    requires Inv(s, limit) && s' == Saga.Commit(s, acts)
    ensures Inv(s', limit)
  {
    CommitKeepsInv(s, limit, acts);
  }

  lemma PayActionKeepsInv(s: State, limit: nat, w: nat, m: Message)
    requires Inv(s, limit)
    ensures Inv(Step(s, limit, Pay(w, m)), limit)
  {
    if m in s.messages && m.ReservedEvent? && w !in s.payments.workers {
      PayKeepsInv(s, limit, w, m);
    }
  }

  lemma RequestActionKeepsInv(s: State, limit: nat, w: nat, c: P.Command)
    requires Inv(s, limit)
    ensures Inv(Step(s, limit, PayByRequest(w, c)), limit)
  {
    if w !in s.payments.workers {
      RequestKeepsInv(s, limit, w, c);
    }
  }

  lemma PaymentActionKeepsInv(s: State, limit: nat, a: P.Action)
    requires Inv(s, limit)
    ensures Inv(Step(s, limit, PaymentStep(a)), limit)
  {
    if !a.StartProcess? {
      PaymentStepKeepsInv(s, limit, a);
    }
  }

  lemma ReplyActionKeepsInv(s: State, limit: nat, w: nat, stored: bool)
    requires Inv(s, limit)
    ensures Inv(Step(s, limit, Reply(w, stored)), limit)
  {
    if w in s.payments.workers && s.payments.workers[w].Answering? && w in s.payers {
      ReplyKeepsInv(s, limit, w, stored);
    }
  }

  lemma StepKeepsInv(s: State, limit: nat, a: Action)
    requires Inv(s, limit)
    ensures Inv(Step(s, limit, a), limit)
  {
    match a
    case OrderStep(a) => OrderActionKeepsInv(s, limit, a);
    case PublishRow(i, broker) => PublishActionKeepsInv(s, limit, i, broker);
    case ReserveStock(m, expiresAt, stored, fallback) => ReserveActionKeepsInv(s, limit, m, expiresAt, stored,
          fallback);
    case ReleaseStock(m) => ReleaseActionKeepsInv(s, limit, m);
    case OtherStock(op) => OtherActionKeepsInv(s, limit, op);
    case Pay(w, m) => PayActionKeepsInv(s, limit, w, m);
    case PayByRequest(w, c) => RequestActionKeepsInv(s, limit, w, c);
    case PaymentStep(a) => PaymentActionKeepsInv(s, limit, a);
    case Reply(w, stored) => ReplyActionKeepsInv(s, limit, w, stored);
  }

  lemma StartInv(stock: map<Sku, Stock>, limit: nat)
    ensures Inv(Start(stock), limit)
  {
    O.RunKeepsInv([]);
    P.RunKeepsInv(limit, []);
  }

  lemma {:induction false} RunKeepsInv(stock: map<Sku, Stock>, limit: nat, actions: seq<Action>)
    ensures Inv(Run(stock, limit, actions), limit)
    decreases |actions|
  {
    if actions == [] {
      StartInv(stock, limit);
    } else {
      RunKeepsInv(stock, limit, actions[..|actions| - 1]);
      StepKeepsInv(Run(stock, limit, actions[..|actions| - 1]), limit, actions[|actions| - 1]);
    }
  }

  // ----- main results -----

  /** The order's payment under its saga key, and whose it is. */
  ghost predicate PaidAsOrdered(s: State, order: OrderId, row: OrderRow) {
    exists id: nat :: IsPaid(s.payments.db.payments, order, id) &&
      var payment := s.payments.db.payments[id];
      || (payment.order == order && payment.amount == Charged(row.ordered))
      || P.Command(payment.order, SagaKey(order), payment.amount) in s.requests
  }

  lemma PaidMessageIsPaid(s: State, order: OrderId)
    requires PaidOk(s.payments.db.payments, s.messages) && PaymentsAsked(s.payments, s.requests, s.messages)
    requires MessagesOk(s.orders.db.orders, s.messages) && PaidEvent(order) in s.messages
    ensures order in s.orders.db.orders && PaidAsOrdered(s, order, s.orders.db.orders[order])
  {
    var id: nat :| IsPaid(s.payments.db.payments, order, id);
    var payment := s.payments.db.payments[id];
    assert Asked(P.Command(payment.order, payment.key, payment.amount), s.requests, s.messages);
  }

  lemma ConfirmedFacts(s: State, limit: nat, order: OrderId)
    requires Inv(s, limit) && order in s.orders.db.orders && s.orders.db.orders[order].status == Confirmed
    ensures ReservedAtOnce(s.stock.rows, s.commits, order, s.orders.db.orders[order].Lines())
    ensures PaidAsOrdered(s, order, s.orders.db.orders[order])
  {
    assert PaidEvent(order) in s.messages;
    assert ReservedEvent(order, s.orders.db.orders[order].Announced()) in s.messages;
    PaidMessageIsPaid(s, order);
  }

  /**
   Confirmed means reserved and paid, however messages are duplicated, delayed and reordered: one
   committed transaction created exactly one reservation row per ordered line with that line's
   quantity, and a payment under the order's saga key reached COMPLETED. That payment is for this
   order and the total of the prices as ordered, unless a client used the order's saga key in a
   payment request of its own. The order's stored total, by then rewritten, is at most half a cent per
   unit away from that amount, and equal to it for whole-cent prices.
   */
  lemma ConfirmedMeansReservedAndPaid(stock: map<Sku, Stock>, limit: nat, actions: seq<Action>, order: OrderId)
    requires var s := Run(stock, limit, actions);
             order in s.orders.db.orders && s.orders.db.orders[order].status == Confirmed
    ensures var s := Run(stock, limit, actions);
            var row := s.orders.db.orders[order];
            && ReservedAtOnce(s.stock.rows, s.commits, order, row.Lines())
            && PaidAsOrdered(s, order, row)
            && row.total == Shown(row.ordered)
            && -(Units(row.ordered) / 2) <= row.total - Charged(row.ordered) <= Units(row.ordered) / 2
            && ((forall i :: 0 <= i < |row.ordered| ==> WholeCents(row.ordered[i].price)) ==>
                  row.total == Charged(row.ordered))
  {
    RunKeepsInv(stock, limit, actions);
    ConfirmedFacts(Run(stock, limit, actions), limit, order);
    ConfirmedTotal(Run(stock, limit, actions).orders, order);
  }

  lemma ConfirmedTotal(s: O.State, order: OrderId)
    requires O.Inv(s) && order in s.db.orders && s.db.orders[order].status == Confirmed
    ensures var row := s.db.orders[order];
            && row.total == Shown(row.ordered)
            && -(Units(row.ordered) / 2) <= row.total - Charged(row.ordered) <= Units(row.ordered) / 2
            && ((forall i :: 0 <= i < |row.ordered| ==> WholeCents(row.ordered[i].price)) ==>
                  row.total == Charged(row.ordered))
  {
    O.HistoryCounts(s.history[order], s.db.orders[order]);
    O.TotalNearCharge(s.db.orders[order]);
  }

  /** No payment confirms two orders, whatever keys clients use: different orders have different saga keys. */
  lemma ConfirmedPaidSeparately(stock: map<Sku, Stock>, limit: nat, actions: seq<Action>, a: OrderId, b: OrderId)
    requires var s := Run(stock, limit, actions);
             && a != b && a in s.orders.db.orders && b in s.orders.db.orders
             && s.orders.db.orders[a].status == Confirmed && s.orders.db.orders[b].status == Confirmed
    ensures var payments := Run(stock, limit, actions).payments.db.payments;
            exists i: nat, j: nat :: i != j && IsPaid(payments, a, i) && IsPaid(payments, b, j)
  {
    RunKeepsInv(stock, limit, actions);
    var s := Run(stock, limit, actions);
    assert PaidEvent(a) in s.messages && PaidEvent(b) in s.messages;
    var i: nat :| IsPaid(s.payments.db.payments, a, i);
    var j: nat :| IsPaid(s.payments.db.payments, b, j);
    assert i != j;
  }

  /** Compensation never reaches a CONFIRMED order: `order.cancelled` is published for CANCELLED orders only. */
  lemma ConfirmedIsNeverCompensated(stock: map<Sku, Stock>, limit: nat, actions: seq<Action>, order: OrderId)
    requires CancelledEvent(order) in Run(stock, limit, actions).messages
    ensures var s := Run(stock, limit, actions);
            order in s.orders.db.orders && s.orders.db.orders[order].status == Cancelled
  {
    RunKeepsInv(stock, limit, actions);
  }

  /**
   The exception is real: once a client's payment, for whatever order and amount, is COMPLETED under the
   saga key of `order`, its `inventory.reserved` is answered with `payment.completed` and nothing is charged.
   */
  lemma KeyReuseConfirmsUnpaid(s: State, limit: nat, w: nat, order: OrderId, total: real, id: PT.PaymentId)
    requires ReservedEvent(order, total) in s.messages && w !in s.payments.workers
    requires PT.FindByKey(s.payments.db.payments, SagaKey(order)) == Some(id)
    requires s.payments.db.payments[id].status == PT.Completed
    ensures var s' := Step(Step(s, limit, Pay(w, ReservedEvent(order, total))), limit, Reply(w, true));
            && PaidEvent(order) in s'.messages
            && s'.payments.db == s.payments.db && s'.payments.charges == s.payments.charges
  {
    var s1 := Step(s, limit, Pay(w, ReservedEvent(order, total)));
    assert s1.payments.workers[w] == P.Answering(order, id, true);
  }
}
