/**
 Any number of order-service handlers interleaved: each loads an order in one step and writes it
 in a later one, under the version guard; creations look their key up and insert later. Handlers
 may crash at any point, and be started any number of times by duplicated messages.
 */
module OrderSystem {
  import opened Results
  import opened InventoryTables
  import opened Totals
  import opened OrderTables

  datatype Job =
    | Creating(id: OrderId, row: OrderRow)
    | Handling(trigger: Trigger, id: OrderId, loaded: OrderRow)

  /** A successful write: the order, and the version its handler had loaded. */
  datatype Written = Written(order: OrderId, loaded: int)

  /** `history` lists every status each order went through; `writes` the successful updates. Both only record. */
  datatype State = State(db: OrderDb, jobs: map<nat, Job>, history: map<OrderId, seq<OrderStatus>>,
        writes: seq<Written>)

  datatype Action =
    | StartCreate(worker: nat, id: OrderId, customer: CustomerId, ordered: seq<Item>, key: Key)
    | StartHandle(worker: nat, trigger: Trigger, id: OrderId)
    | Finish(worker: nat)
    | Crash(worker: nat)

  function Drop(s: State, worker: nat): State {
    s.(jobs := s.jobs - {worker})
  }

  function FinishCreate(s: State, worker: nat, id: OrderId, row: OrderRow): State {
    match SaveOrder(s.db, id, row, [OrderCreated])
    case Err(_) => Drop(s, worker)
    case Ok(db) => Drop(s.(db := db, history := s.history[id := [Created]]), worker)
  }

  function FinishHandle(s: State, worker: nat, trigger: Trigger, id: OrderId, loaded: OrderRow): State {
    var plan := PlanFor(trigger, loaded);
    match Commit(s.db, id, loaded, plan)
    case Err(_) => Drop(s, worker)
    case Ok(db) =>
      if plan.Write? && id in s.history then
        Drop(s.(db := db,
                history := s.history[id := s.history[id] + plan.path],
                writes := s.writes + [Written(id, loaded.version)]), worker)
      else Drop(s, worker)
  }

  function Step(s: State, a: Action): State {
    match a
    case StartCreate(worker, id, customer, ordered, key) =>
      if worker in s.jobs || KeyUsed(s.db, key) then s
      else (match NewOrder(customer, ordered, key)
            case Err(_) => s
            case Ok(row) => s.(jobs := s.jobs[worker := Creating(id, row)]))
    case StartHandle(worker, trigger, id) =>
      if worker in s.jobs || id !in s.db.orders then s
      else s.(jobs := s.jobs[worker := Handling(trigger, id, s.db.orders[id])])
    case Finish(worker) =>
      if worker !in s.jobs then s
      else (match s.jobs[worker]
            case Creating(id, row) => FinishCreate(s, worker, id, row)
            case Handling(trigger, id, loaded) => FinishHandle(s, worker, trigger, id, loaded))
    case Crash(worker) => Drop(s, worker)
  }

  const START := State(OrderDb(map[], []), map[], map[], [])

  function Run(actions: seq<Action>): State {
    if actions == [] then START else Step(Run(actions[..|actions| - 1]), actions[|actions| - 1])
  }

  /** A handler that nothing interrupts leaves what `Handle` says, and gives its worker up. */
  lemma UninterruptedHandler(s: State, worker: nat, trigger: Trigger, id: OrderId)
    requires worker !in s.jobs && id in s.db.orders
    ensures var s' := Step(Step(s, StartHandle(worker, trigger, id)), Finish(worker));
            && s'.jobs == s.jobs
            && (id in s.history ==>
                  s'.db == match Handle(s.db, id, trigger) case Ok(db) => db case Err(_) => s.db)
  {
    var s1 := Step(s, StartHandle(worker, trigger, id));
    assert s1.jobs[worker] == Handling(trigger, id, s.db.orders[id]) && s1.jobs - {worker} == s.jobs;
  }

  /** And a creation that nothing interrupts saves the new order, unless it is invalid, its key or its id is used. */
  lemma UninterruptedCreation(s: State, worker: nat, id: OrderId, customer: CustomerId, ordered: seq<Item>, key: Key)
    requires worker !in s.jobs
    ensures var s' := Step(Step(s, StartCreate(worker, id, customer, ordered, key)), Finish(worker));
            var row := OrderRow(customer, ordered, Cents(Total(ordered)), key, Created, 1);
            var saves := !KeyUsed(s.db, key) && id !in s.db.orders
                && ordered != [] && Sellable(ordered) && Storable(ordered);
            && s'.jobs == s.jobs
            && s'.db == if saves then OrderDb(s.db.orders[id := row], s.db.outbox + [OutboxEvent(id, OrderCreated)])
                        else s.db
  {
    var s1 := Step(s, StartCreate(worker, id, customer, ordered, key));
    assert worker in s1.jobs ==> s1.jobs - {worker} == s.jobs;
    assert Outboxed(id, [OrderCreated]) == [OutboxEvent(id, OrderCreated)];
  }

  // ----- counting outbox rows -----

  function Count(outbox: seq<OutboxEvent>, e: OutboxEvent): nat {
    if outbox == [] then 0 else Count(outbox[..|outbox| - 1], e) + if outbox[|outbox| - 1] == e then 1 else 0
  }

  lemma {:induction false} CountAppend(a: seq<OutboxEvent>, b: seq<OutboxEvent>, e: OutboxEvent)
    ensures Count(a + b, e) == Count(a, e) + Count(b, e)
    decreases |b|
  {
    if b == [] {
      assert a + b == a;
    } else {
      var n := |b| - 1;
      assert (a + b)[..|a| + n] == a + b[..n];
      CountAppend(a, b[..n], e);
    }
  }

  lemma CountAppendOne(a: seq<OutboxEvent>, id: OrderId, kind: EventKind, e: OutboxEvent)
    ensures Count(a + Outboxed(id, [kind]), e) == Count(a, e) + if e == OutboxEvent(id, kind) then 1 else 0
  {
    var one := Outboxed(id, [kind]);
    assert (a + one)[..|a|] == a && (a + one)[|a|] == OutboxEvent(id, kind);
  }

  // ----- the invariant -----

  predicate Stored(status: OrderStatus) {
    status in {Created, PaymentPending, Confirmed, Cancelled}
  }

  /** The recorded history ends in the stored status, walks the graph, and has one entry per version. */
  predicate HistoryOk(history: seq<OrderStatus>, row: OrderRow) {
    && |history| > 0
    && history[0] == Created
    && history[|history| - 1] == row.status
    && IsWalk(history)
    && row.version == |history|
    && Stored(row.status)
  }

  predicate EventsOk(outbox: seq<OutboxEvent>, id: OrderId, row: OrderRow) {
    && Count(outbox, OutboxEvent(id, OrderCreated)) == 1
    && Count(outbox, OutboxEvent(id, OrderConfirmed)) == (if row.status == Confirmed then 1 else 0)
    && Count(outbox, OutboxEvent(id, OrderCancelled)) <= (if row.status == Cancelled then 1 else 0)
  }

  /** A new order's total is that of the prices as sent; every write replaces it by the one of the stored prices. */
  predicate TotalOk(row: OrderRow) {
    Sellable(row.ordered) && row.total == if row.version == 1 then Charged(row.ordered) else Shown(row.ordered)
  }

  predicate TotalsOk(orders: map<OrderId, OrderRow>) {
    forall id :: id in orders ==> TotalOk(orders[id])
  }

  predicate JobOk(db: OrderDb, job: Job) {
    match job
    case Creating(id, row) => row.status == Created && row.version == 1 && row.ordered != [] && TotalOk(row)
    case Handling(trigger, id, loaded) =>
      && id in db.orders
      && loaded.version <= db.orders[id].version
      && (loaded.version == db.orders[id].version ==> loaded == db.orders[id])
  }

  predicate HistoriesOk(history: map<OrderId, seq<OrderStatus>>, orders: map<OrderId, OrderRow>) {
    && history.Keys == orders.Keys
    && (forall id :: id in orders ==> HistoryOk(history[id], orders[id]))
  }

  ghost predicate OutboxOk(db: OrderDb) {
    && (forall id :: id in db.orders ==> EventsOk(db.outbox, id, db.orders[id]))
    && (forall id, kind :: id !in db.orders ==> Count(db.outbox, OutboxEvent(id, kind)) == 0)
  }

  predicate KeysUnique(orders: map<OrderId, OrderRow>) {
    forall id, id' :: id in orders && id' in orders && orders[id].key == orders[id'].key ==> id == id'
  }

  predicate JobsOk(s: State) {
    forall w :: w in s.jobs ==> JobOk(s.db, s.jobs[w])
  }

  predicate WritesOk(s: State) {
    && (forall i :: 0 <= i < |s.writes| ==>
          s.writes[i].order in s.db.orders && s.writes[i].loaded < s.db.orders[s.writes[i].order].version)
    && (forall i, j :: 0 <= i < j < |s.writes| ==> s.writes[i] != s.writes[j])
  }

  ghost predicate Inv(s: State) {
    HistoriesOk(s.history, s.db.orders) && OutboxOk(s.db) && KeysUnique(s.db.orders) && TotalsOk(s.db.orders)
        && JobsOk(s) && WritesOk(s)
  }

  /** Only the row of `id` changes, to a later version, or it is new. */
  predicate RowWritten(orders: map<OrderId, OrderRow>, orders': map<OrderId, OrderRow>, id: OrderId) {
    && id in orders' && orders'.Keys == orders.Keys + {id}
    && (forall other :: other in orders && other != id ==> orders'[other] == orders[other])
    && (id in orders ==> orders'[id].key == orders[id].key && orders'[id].version > orders[id].version)
    && (id !in orders ==> forall other :: other in orders ==> orders[other].key != orders'[id].key)
  }

  lemma WriteKeepsKeys(orders: map<OrderId, OrderRow>, orders': map<OrderId, OrderRow>, id: OrderId)
    requires KeysUnique(orders) && RowWritten(orders, orders', id)
    ensures KeysUnique(orders')
  {
    forall a, b | a in orders' && b in orders' && orders'[a].key == orders'[b].key
      ensures a == b
    {
    }
  }

  lemma WriteKeepsHistories(s: State, s': State, id: OrderId)
    requires HistoriesOk(s.history, s.db.orders) && RowWritten(s.db.orders, s'.db.orders, id)
    requires s'.history.Keys == s.history.Keys + {id}
    requires forall other :: other in s.db.orders && other != id ==> s'.history[other] == s.history[other]
    requires HistoryOk(s'.history[id], s'.db.orders[id])
    ensures HistoriesOk(s'.history, s'.db.orders)
  {
  }

  /** The outbox grew by events of `id` only. */
  ghost predicate Grew(outbox: seq<OutboxEvent>, outbox': seq<OutboxEvent>, id: OrderId) {
    forall other, kind :: other != id ==>
        Count(outbox', OutboxEvent(other, kind)) == Count(outbox, OutboxEvent(other, kind))
  }

  lemma WriteKeepsOutbox(db: OrderDb, db': OrderDb, id: OrderId)
    requires OutboxOk(db) && RowWritten(db.orders, db'.orders, id) && Grew(db.outbox, db'.outbox, id)
    requires EventsOk(db'.outbox, id, db'.orders[id])
    ensures OutboxOk(db')
  {
    forall other | other in db'.orders
      ensures EventsOk(db'.outbox, other, db'.orders[other])
    {
      if other != id {
        assert EventsOk(db.outbox, other, db.orders[other]);
      }
    }
  }

  /** A job that loaded an older version keeps an older version. */
  lemma WriteKeepsJobs(s: State, s': State, id: OrderId)
    requires JobsOk(s) && RowWritten(s.db.orders, s'.db.orders, id)
    requires forall w :: w in s'.jobs ==> w in s.jobs && s'.jobs[w] == s.jobs[w]
    ensures JobsOk(s')
  {
    forall w | w in s'.jobs
      ensures JobOk(s'.db, s'.jobs[w])
    {
      assert JobOk(s.db, s.jobs[w]);
    }
  }

  lemma WriteKeepsWrites(s: State, s': State, id: OrderId)
    requires WritesOk(s) && RowWritten(s.db.orders, s'.db.orders, id)
    requires s'.writes == s.writes || (id in s.db.orders
               && s'.writes == s.writes + [Written(id, s.db.orders[id].version)])
    ensures WritesOk(s')
  {
  }

  lemma CreatedEvents(db: OrderDb, id: OrderId, row: OrderRow)
    requires OutboxOk(db) && SaveOrder(db, id, row, [OrderCreated]).Ok? && row.status == Created
    ensures var db' := SaveOrder(db, id, row, [OrderCreated]).value;
            RowWritten(db.orders, db'.orders, id) && Grew(db.outbox, db'.outbox, id) && EventsOk(db'.outbox, id, row)
  {
    var outbox' := db.outbox + Outboxed(id, [OrderCreated]);
    forall e: OutboxEvent
      ensures Count(outbox', e) == Count(db.outbox, e) + if e == OutboxEvent(id, OrderCreated) then 1 else 0
    {
      CountAppendOne(db.outbox, id, OrderCreated, e);
    }
    assert forall kind :: Count(db.outbox, OutboxEvent(id, kind)) == 0;
  }

  lemma CreateKeepsInv(s: State, worker: nat, id: OrderId, row: OrderRow)
    requires Inv(s) && worker in s.jobs && s.jobs[worker] == Creating(id, row)
    ensures Inv(FinishCreate(s, worker, id, row))
  {
    assert JobOk(s.db, s.jobs[worker]);
    if SaveOrder(s.db, id, row, [OrderCreated]).Ok? {
      CreatedEvents(s.db, id, row);
      WriteKeepsInv(s, FinishCreate(s, worker, id, row), id);
    }
  }

  /** What is left to show for a write of one order's row. */
  lemma WriteKeepsInv(s: State, s': State, id: OrderId)
    requires Inv(s) && RowWritten(s.db.orders, s'.db.orders, id)
    requires s'.history.Keys == s.history.Keys + {id}
             && (forall other :: other in s.history && other != id ==> s'.history[other] == s.history[other])
    requires HistoryOk(s'.history[id], s'.db.orders[id]) && TotalOk(s'.db.orders[id])
    requires Grew(s.db.outbox, s'.db.outbox, id) && EventsOk(s'.db.outbox, id, s'.db.orders[id])
    requires forall w :: w in s'.jobs ==> w in s.jobs && s'.jobs[w] == s.jobs[w]
    requires s'.writes == s.writes || (id in s.db.orders
               && s'.writes == s.writes + [Written(id, s.db.orders[id].version)])
    ensures Inv(s')
  {
    WriteKeepsKeys(s.db.orders, s'.db.orders, id);
    WriteKeepsHistories(s, s', id);
    WriteKeepsOutbox(s.db, s'.db, id);
    WriteKeepsJobs(s, s', id);
    WriteKeepsWrites(s, s', id);
  }

  lemma WalkExtends(history: seq<OrderStatus>, path: seq<OrderStatus>)
    requires |history| > 0 && IsWalk(history) && IsWalk([history[|history| - 1]] + path)
    ensures IsWalk(history + path)
  {
    var n := |history| - 1;
    var tail := [history[n]] + path;
    forall i | 0 < i < |history + path|
      ensures CanTransition((history + path)[i - 1], (history + path)[i])
    {
      if i > n {
        assert CanTransition(tail[i - n - 1], tail[i - n]);
      }
    }
  }

  lemma PlannedEvents(outbox: seq<OutboxEvent>, id: OrderId, trigger: Trigger, row: OrderRow)
    requires EventsOk(outbox, id, row) && PlanFor(trigger, row).Write?
    ensures var plan := PlanFor(trigger, row);
            var outbox' := outbox + Outboxed(id, plan.kinds);
            && plan.path != []
            && Grew(outbox, outbox', id)
            && EventsOk(outbox', id, row.(status := plan.path[|plan.path| - 1]))
  {
    var kinds := PlanFor(trigger, row).kinds;
    if kinds == [] {
      assert outbox + Outboxed(id, kinds) == outbox;
    } else {
      assert kinds == [kinds[0]];
      forall e: OutboxEvent
        ensures Count(outbox + Outboxed(id, kinds), e) ==
                Count(outbox, e) + if e == OutboxEvent(id, kinds[0]) then 1 else 0
      {
        CountAppendOne(outbox, id, kinds[0], e);
      }
    }
  }

  lemma PlannedHistory(history: seq<OrderStatus>, trigger: Trigger, row: OrderRow)
    requires HistoryOk(history, row) && PlanFor(trigger, row).Write?
    ensures var path := PlanFor(trigger, row).path;
            path != [] && HistoryOk(history + path, row.(status := path[|path| - 1], version := row.version + |path|))
  {
    PlansAreLegal(trigger, row);
    WalkExtends(history, PlanFor(trigger, row).path);
  }

  /** A write that passes the version guard was planned on the row it overwrites, and the plan's events fit. */
  lemma GuardedWrite(s: State, worker: nat, trigger: Trigger, id: OrderId, loaded: OrderRow)
    requires Inv(s) && worker in s.jobs && s.jobs[worker] == Handling(trigger, id, loaded)
    requires PlanFor(trigger, loaded).Write? && Commit(s.db, id, loaded, PlanFor(trigger, loaded)).Ok?
    ensures id in s.db.orders && loaded == s.db.orders[id]
    ensures var plan := PlanFor(trigger, loaded);
            var s' := FinishHandle(s, worker, trigger, id, loaded);
            && plan.path != []
            && RowWritten(s.db.orders, s'.db.orders, id)
            && s'.db.orders[id] == loaded.(status := plan.path[|plan.path| - 1],
                  version := loaded.version + |plan.path|, total := Shown(loaded.ordered))
            && s'.db.outbox == s.db.outbox + Outboxed(id, plan.kinds)
            && s'.history == s.history[id := s.history[id] + plan.path]
            && s'.writes == s.writes + [Written(id, loaded.version)]
            && s'.jobs == s.jobs - {worker}
  {
    PlansAreLegal(trigger, loaded);
    assert JobOk(s.db, s.jobs[worker]);
  }

  /** The row a handler writes, with the total recomputed. */
  function WrittenRow(row: OrderRow, path: seq<OrderStatus>): OrderRow
    requires path != []
  {
    row.(status := path[|path| - 1], version := row.version + |path|, total := Shown(row.ordered))
  }

  lemma WrittenRowOk(outbox: seq<OutboxEvent>, history: seq<OrderStatus>, id: OrderId, trigger: Trigger, row: OrderRow)
    requires EventsOk(outbox, id, row) && HistoryOk(history, row) && TotalOk(row) && PlanFor(trigger, row).Write?
    ensures var plan := PlanFor(trigger, row);
            && plan.path != []
            && HistoryOk(history + plan.path, WrittenRow(row, plan.path))
            && TotalOk(WrittenRow(row, plan.path))
            && Grew(outbox, outbox + Outboxed(id, plan.kinds), id)
            && EventsOk(outbox + Outboxed(id, plan.kinds), id, WrittenRow(row, plan.path))
  {
    PlannedEvents(outbox, id, trigger, row);
    PlannedHistory(history, trigger, row);
  }

  lemma HandleKeepsInv(s: State, worker: nat, trigger: Trigger, id: OrderId, loaded: OrderRow)
    requires Inv(s) && worker in s.jobs && s.jobs[worker] == Handling(trigger, id, loaded)
    ensures Inv(FinishHandle(s, worker, trigger, id, loaded))
  {
    var plan := PlanFor(trigger, loaded);
    if plan.Write? && Commit(s.db, id, loaded, plan).Ok? {
      GuardedWrite(s, worker, trigger, id, loaded);
      WrittenRowOk(s.db.outbox, s.history[id], id, trigger, loaded);
      WriteKeepsInv(s, FinishHandle(s, worker, trigger, id, loaded), id);
    }
  }

  lemma StepKeepsInv(s: State, a: Action)
    requires Inv(s)
    ensures Inv(Step(s, a))
  {
    match a
    case Finish(worker) =>
      if worker in s.jobs {
        match s.jobs[worker]
        case Creating(id, row) => CreateKeepsInv(s, worker, id, row);
        case Handling(trigger, id, loaded) => HandleKeepsInv(s, worker, trigger, id, loaded);
      }
    case _ =>
  }

  lemma {:induction false} RunKeepsInv(actions: seq<Action>)
    ensures Inv(Run(actions))
    decreases |actions|
  {
    if actions != [] {
      RunKeepsInv(actions[..|actions| - 1]);
      StepKeepsInv(Run(actions[..|actions| - 1]), actions[|actions| - 1]);
    }
  }

  // ----- main results -----

  /**
   Optimistic locking loses no update: in every run each order's history is a path in the
   transition graph from CREATED to its stored status, its version counts the steps, two handlers
   that loaded the same version never both write, and only four statuses are ever stored.
   */
  lemma NoLostUpdate(actions: seq<Action>, id: OrderId)
    requires id in Run(actions).db.orders
    ensures var s := Run(actions);
            && id in s.history
            && |s.history[id]| > 0 && s.history[id][0] == Created
            && s.history[id][|s.history[id]| - 1] == s.db.orders[id].status
            && IsWalk(s.history[id])
            && s.db.orders[id].version == 1 + |s.history[id][1..]|
            && Stored(s.db.orders[id].status)
            && forall i, j :: 0 <= i < j < |s.writes| && s.writes[i].order == id && s.writes[j].order == id ==>
                s.writes[i].loaded != s.writes[j].loaded
  {
    RunKeepsInv(actions);
    assert HistoryOk(Run(actions).history[id], Run(actions).db.orders[id]);
    WritesDiffer(Run(actions));
  }

  lemma WritesDiffer(s: State)
    requires WritesOk(s)
    ensures forall i, j :: 0 <= i < j < |s.writes| && s.writes[i].order == s.writes[j].order ==>
            s.writes[i].loaded != s.writes[j].loaded
  {
    forall i, j | 0 <= i < j < |s.writes| && s.writes[i].order == s.writes[j].order
      ensures s.writes[i].loaded != s.writes[j].loaded
    {
      assert s.writes[i] != s.writes[j];
    }
  }

  /**
   The stored total is the amount charged until the first update, and the total of the stored prices
   ever after: off by at most half the units ordered, in cents, and not at all for whole-cent prices.
   */
  lemma StoredTotal(actions: seq<Action>, id: OrderId)
    requires id in Run(actions).db.orders
    ensures var row := Run(actions).db.orders[id];
            && row.total == (if row.status == Created then Charged(row.ordered) else Shown(row.ordered))
            && -(Units(row.ordered) / 2) <= row.total - Charged(row.ordered) <= Units(row.ordered) / 2
            && ((forall i :: 0 <= i < |row.ordered| ==> WholeCents(row.ordered[i].price)) ==>
                  row.total == Charged(row.ordered))
  {
    RunKeepsInv(actions);
    var s := Run(actions);
    HistoryCounts(s.history[id], s.db.orders[id]);
    TotalNearCharge(s.db.orders[id]);
  }

  lemma HistoryCounts(history: seq<OrderStatus>, row: OrderRow)
    requires HistoryOk(history, row)
    ensures row.version == 1 <==> row.status == Created
  {
    if row.version > 1 {
      var n := |history| - 1;
      assert CanTransition(history[n - 1], history[n]);
    }
  }

  lemma TotalNearCharge(row: OrderRow)
    requires TotalOk(row)
    ensures Units(row.ordered) >= 0
    ensures -(Units(row.ordered) / 2) <= row.total - Charged(row.ordered) <= Units(row.ordered) / 2
    ensures (forall i :: 0 <= i < |row.ordered| ==> WholeCents(row.ordered[i].price)) ==>
            row.total == Charged(row.ordered)
  {
    ReloadedTotal(row.ordered);
    ChargedVersusShown(row.ordered);
    if forall i :: 0 <= i < |row.ordered| ==> WholeCents(row.ordered[i].price) {
      WholeCentsAreExact(row.ordered);
    }
  }

  /**
   One outcome per order: a key names at most one order, and each order's outbox rows are one
   order.created, one order.confirmed exactly when it is CONFIRMED, and an order.cancelled only
   when it is CANCELLED, so never both outcomes.
   */
  lemma OneOutcome(actions: seq<Action>, id: OrderId)
    requires id in Run(actions).db.orders
    ensures var s := Run(actions);
            && (forall other :: other in s.db.orders && s.db.orders[other].key == s.db.orders[id].key ==> other == id)
            && Count(s.db.outbox, OutboxEvent(id, OrderCreated)) == 1
            && Count(s.db.outbox, OutboxEvent(id, OrderConfirmed)) ==
                (if s.db.orders[id].status == Confirmed then 1 else 0)
            && Count(s.db.outbox, OutboxEvent(id, OrderCancelled)) <=
                (if s.db.orders[id].status == Cancelled then 1 else 0)
            && Count(s.db.outbox, OutboxEvent(id, OrderConfirmed))
                + Count(s.db.outbox, OutboxEvent(id, OrderCancelled)) <= 1
  {
    RunKeepsInv(actions);
    assert EventsOk(Run(actions).db.outbox, id, Run(actions).db.orders[id]);
  }

  lemma FinalOneMore(actions: seq<Action>, a: Action, id: OrderId)
    requires id in Run(actions).db.orders && Run(actions).db.orders[id].status in {Confirmed, Cancelled}
    ensures id in Run(actions + [a]).db.orders && Run(actions + [a]).db.orders[id] == Run(actions).db.orders[id]
  {
    assert (actions + [a])[..|actions|] == actions;
    RunKeepsInv(actions);
    FinalStep(Run(actions), a, id);
  }

  /** CONFIRMED and CANCELLED are final: no later run of handlers changes either. */
  lemma {:induction false} OutcomeIsFinal(actions: seq<Action>, more: seq<Action>, id: OrderId)
    requires id in Run(actions).db.orders && Run(actions).db.orders[id].status in {Confirmed, Cancelled}
    ensures id in Run(actions + more).db.orders && Run(actions + more).db.orders[id] == Run(actions).db.orders[id]
    decreases |more|
  {
    if more == [] {
      assert actions + more == actions;
    } else {
      FinalOneMore(actions, more[0], id);
      OutcomeIsFinal(actions + [more[0]], more[1..], id);
      assert actions + more == actions + [more[0]] + more[1..];
    }
  }

  lemma FinalStep(s: State, a: Action, id: OrderId)
    requires Inv(s) && id in s.db.orders && s.db.orders[id].status in {Confirmed, Cancelled}
    ensures id in Step(s, a).db.orders && Step(s, a).db.orders[id] == s.db.orders[id]
  {
    if a.Finish? && a.worker in s.jobs && s.jobs[a.worker].Handling? {
      var job := s.jobs[a.worker];
      FinalRow(s, a.worker, job.trigger, job.id, job.loaded, id);
    }
  }

  lemma FinalRow(s: State, worker: nat, trigger: Trigger, other: OrderId, loaded: OrderRow, id: OrderId)
    requires Inv(s) && worker in s.jobs && s.jobs[worker] == Handling(trigger, other, loaded)
    requires id in s.db.orders && s.db.orders[id].status in {Confirmed, Cancelled}
    ensures id in FinishHandle(s, worker, trigger, other, loaded).db.orders
    ensures FinishHandle(s, worker, trigger, other, loaded).db.orders[id] == s.db.orders[id]
  {
    assert JobOk(s.db, s.jobs[worker]);
    if other == id && loaded.version == s.db.orders[id].version {
      assert !PlanFor(trigger, loaded).Write?;
    }
  }
}
