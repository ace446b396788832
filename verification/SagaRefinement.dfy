/** Runs of the saga from any state, and a payment execution as a stretch of such a run. */
module SagaRuns {
  import opened Results
  import opened InventoryTables
  import opened Retry
  import opened Saga
  import P = PaymentSystem
  import PT = PaymentTables
  import PE = PaymentExecutions

  function Follow(s: State, limit: nat, actions: seq<Action>): State
    decreases |actions|
  {
    if actions == [] then s else Follow(Step(s, limit, actions[0]), limit, actions[1..])
  }

  lemma {:induction false} RunIsFollow(stock: map<Sku, Stock>, limit: nat, actions: seq<Action>, more: seq<Action>)
    ensures Run(stock, limit, actions + more) == Follow(Run(stock, limit, actions), limit, more)
    decreases |more|
  {
    if more == [] {
      assert actions + more == actions;
    } else {
      var next := actions + [more[0]];
      assert next[..|actions|] == actions;
      assert actions + more == next + more[1..];
      RunIsFollow(stock, limit, next, more[1..]);
    }
  }

  lemma {:induction false} FollowJoins(s: State, limit: nat, a: seq<Action>, b: seq<Action>)
    ensures Follow(s, limit, a + b) == Follow(Follow(s, limit, a), limit, b)
    decreases |a|
  {
    if a == [] {
      assert a + b == b;
    } else {
      assert (a + b)[1..] == a[1..] + b;
      FollowJoins(Step(s, limit, a[0]), limit, a[1..], b);
    }
  }

  lemma FollowOne(s: State, limit: nat, a: Action)
    ensures Follow(s, limit, [a]) == Step(s, limit, a)
  {
    assert [a][1..] == [];
    assert Follow(Step(s, limit, a), limit, []) == Step(s, limit, a);
  }

  lemma FollowTwo(s: State, limit: nat, a: Action, b: Action)
    ensures Follow(s, limit, [a, b]) == Step(Step(s, limit, a), limit, b)
  {
    assert [a, b][1..] == [b];
    FollowOne(Step(s, limit, a), limit, b);
  }

  function Lifted(actions: seq<P.Action>): seq<Action> {
    seq(|actions|, i requires 0 <= i < |actions| => PaymentStep(actions[i]))
  }

  lemma {:induction false} LiftedIs(s: State, limit: nat, actions: seq<P.Action>)
    requires forall i :: 0 <= i < |actions| ==> !actions[i].StartProcess?
    ensures Follow(s, limit, Lifted(actions)) == s.(payments := P.Follow(s.payments, limit, actions))
    decreases |actions|
  {
    if actions != [] {
      assert Lifted(actions)[1..] == Lifted(actions[1..]);
      LiftedIs(Step(s, limit, PaymentStep(actions[0])), limit, actions[1..]);
    }
  }

  /** An execution that `start` begins, uninterrupted up to its last write. */
  function PayingActions(start: Action, w: nat, c: P.Command, admitted: bool,
                         answers: seq<Outcome<PT.TransactionId>>): seq<Action> {
    [start] + Lifted(PE.Execution(w, c, admitted, answers)[1..])
  }

  lemma PayingIs(s: State, limit: nat, start: Action, w: nat, c: P.Command, admitted: bool,
                 answers: seq<Outcome<PT.TransactionId>>)
    requires Step(s, limit, start).payments == P.Step(s.payments, limit, P.StartProcess(w, c))
    ensures Follow(s, limit, PayingActions(start, w, c, admitted, answers)) ==
            Step(s, limit, start).(payments := P.Follow(s.payments, limit, PE.Execution(w, c, admitted, answers)))
  {
    var steps := PE.Execution(w, c, admitted, answers);
    assert steps[0] == P.StartProcess(w, c);
    FollowJoins(s, limit, [start], Lifted(steps[1..]));
    FollowOne(s, limit, start);
    LiftedIs(Step(s, limit, start), limit, steps[1..]);
  }
}

/** The handlers of the inventory and payment services are steps of both saga models. */
module SagaRefinement {
  import opened Results
  import opened InventoryTables
  import opened OrderTables
  import opened Totals
  import opened SagaMessages
  import opened SagaHandlers
  import opened Retry
  import opened Saga
  import opened SagaRuns
  import A = OutboxTables
  import F = FifoSaga
  import P = PaymentSystem
  import PT = PaymentTables
  import PH = PaymentHandlers
  import PE = PaymentExecutions

  /** `onInventoryReserved` as steps: the execution, and the publish with this answer of the broker. */
  function HandlerActions(w: nat, order: OrderId, total: real, admitted: bool,
                          answers: seq<Outcome<PT.TransactionId>>, answer: A.Answer): seq<Action> {
    var m := ReservedEvent(order, total);
    PayingActions(Pay(w, m), w, CommandFor(m), admitted, answers) + [Reply(w, answer != A.Refused)]
  }

  /** These messages can be delivered in addition. */
  ghost predicate Adds(s: State, s': State, sent: seq<Message>) {
    forall m :: m in s'.messages <==> m in s.messages || m in sent
  }

  /** The state after the execution, given the payment system's. */
  lemma HandlerIs(s: State, limit: nat, w: nat, order: OrderId, total: real, admitted: bool,
                  answers: seq<Outcome<PT.TransactionId>>, answer: A.Answer)
    requires ReservedEvent(order, total) in s.messages && w !in s.payments.workers
    ensures var m := ReservedEvent(order, total);
            var paid := P.Follow(s.payments, limit, PE.Execution(w, CommandFor(m), admitted, answers));
            var s' := Follow(s, limit, HandlerActions(w, order, total, admitted, answers, answer));
            && s'.orders == s.orders && s'.stock == s.stock && s'.payments.db == paid.db
            && s'.payments.charges == paid.charges
            && Adds(s, s', if w in paid.workers && paid.workers[w].Answering? then
                             Leaves(Verdict(paid.workers[w]), answer) else [])
  {
    var m := ReservedEvent(order, total);
    var pay := PayingActions(Pay(w, m), w, CommandFor(m), admitted, answers);
    PayingIs(s, limit, Pay(w, m), w, CommandFor(m), admitted, answers);
    FollowJoins(s, limit, pay, [Reply(w, answer != A.Refused)]);
    FollowOne(Follow(s, limit, pay), limit, Reply(w, answer != A.Refused));
  }

  /**
   `onInventoryReserved` is a run of the saga: the tables it leaves and the message it stores are those of an
   uninterrupted execution and its reply, whatever the gateway, the breaker and the broker answer.
   */
  lemma InventoryReservedIsSteps(s: State, limit: nat, w: nat, order: OrderId, total: real, admitted: bool,
                                 script: seq<Outcome<PT.TransactionId>>, answer: A.Answer)
    requires ReservedEvent(order, total) in s.messages && w !in s.payments.workers && |script| >= limit
    ensures var calls := if admitted then CallsMade(script, limit) else 0;
            var success := calls > 0 && script[calls - 1].Success?;
            var s' := Follow(s, limit, HandlerActions(w, order, total, admitted, script[..calls], answer));
            var db := s.payments.db;
            match PT.FindByKey(db.payments, SagaKey(order))
            case Some(id) =>
              && s'.payments.db == db
              && Adds(s, s', Leaves(if db.payments[id].status == PT.Completed then PaidEvent(order)
                                    else NotPaidEvent(order), answer))
            case None =>
              if Cents(total) <= 0 || PT.Clashes(db.payments, order, SagaKey(order)) then
                s'.payments.db == db && s'.messages == s.messages
              else
                && s'.payments.db ==
                   PH.Settled(db, order, SagaKey(order), Cents(total),
                              if success then Some(script[calls - 1].value) else None)
                && Adds(s, s', Leaves(if success then PaidEvent(order) else NotPaidEvent(order), answer))
  {
    var calls := if admitted then CallsMade(script, limit) else 0;
    var c := CommandFor(ReservedEvent(order, total));
    HandlerIs(s, limit, w, order, total, admitted, script[..calls], answer);
    if PE.Inserts(s.payments.db, c) {
      PE.ExecutionSettles(s.payments, limit, w, c, admitted, script);
    } else {
      PE.ExecutionFinds(s.payments, limit, w, c, admitted, script[..calls]);
    }
  }

  // ----- the saga with each message handled once -----

  function PublishAll(s: F.State, messages: seq<Message>): F.State {
    if messages == [] then s else F.Publish(PublishAll(s, messages[..|messages| - 1]), messages[|messages| - 1])
  }

  /** With confirmed publishes, `onOrderCreated` and `onOrderCancelled` are the steps that handle each message once. */
  lemma StockHandlersAreSteps(s: F.State, order: OrderId, items: seq<Line>, total: real, expiresAt: int)
    ensures var reserved := RunActs(s.stock, ReserveActs(order, items, expiresAt)).Ok?;
            F.HandleStock(s, CreatedEvent(order, items, total), expiresAt) ==
            PublishAll(s.(stock := Transact(s.stock, ReserveActs(order, items, expiresAt))),
                       ReserveMessages(reserved, order, total, A.Confirmed, A.Confirmed))
    ensures F.HandleStock(s, CancelledEvent(order), expiresAt) ==
            PublishAll(s.(stock := Transact(s.stock, ReleaseActs(s.stock, OfOrder(order)))), [ReleasedEvent(order)])
  {
    var reserved := RunActs(s.stock, ReserveActs(order, items, expiresAt)).Ok?;
    var m := if reserved then ReservedEvent(order, total) else NotReservedEvent(order);
    assert ReserveMessages(reserved, order, total, A.Confirmed, A.Confirmed) == [m];
    assert [m][..0] == [] && [ReleasedEvent(order)][..0] == [];
    var t := s.(stock := Transact(s.stock, ReleaseActs(s.stock, OfOrder(order))));
    assert PublishAll(t, []) == t;
    assert F.Publish(t, ReleasedEvent(order)) == t;
    var r := s.(stock := Transact(s.stock, ReserveActs(order, items, expiresAt)));
    assert PublishAll(r, []) == r;
  }

  /** And so is `onInventoryReserved`, whose payment is then a success or not. */
  lemma PaymentHandlerIsStep(s: F.State, order: OrderId, total: real, success: bool)
    ensures var s' := F.HandlePayment(s, ReservedEvent(order, total), success);
            s'.(charged := s.charged) == PublishAll(s, [if success then PaidEvent(order) else NotPaidEvent(order)])
  {
    var m := if success then PaidEvent(order) else NotPaidEvent(order);
    assert [m][..0] == [] && PublishAll(s, []) == s;
  }
}
