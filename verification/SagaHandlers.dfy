/** `Publisher`, and the event handlers of the inventory and payment services that publish through it. */
module SagaHandlers {
  import opened Results
  import opened InventoryTables
  import opened OrderTables
  import opened SagaMessages
  import opened InventoryRepositories
  import opened Saga
  import opened Totals
  import O = OutboxTables
  import PT = PaymentTables
  import PR = PaymentRepositories
  import PH = PaymentHandlers
  import opened Retry
  import CB = CircuitBreakers
  import BM = BreakerMoves

  /** What one publish leaves at the broker; a lost confirm throws although the message is stored. */
  function Leaves(m: Message, answer: O.Answer): seq<Message> {
    if answer == O.Refused then [] else [m]
  }

  class Publisher {
    var stored: seq<Message>

    constructor ()
      ensures stored == []
    {
      stored := [];
    }

    method Publish(m: Message, answer: O.Answer) returns (thrown: bool)
      modifies this
      ensures thrown <==> answer != O.Confirmed
      ensures stored == old(stored) + Leaves(m, answer)
    {
      if answer != O.Refused {
        stored := stored + [m];
      }
      return answer != O.Confirmed;
    }
  }

  /**
   The messages `onOrderCreated` leaves at the broker: inventory.reserved after a commit, and
   inventory.failed from the catch block.
   */
  function ReserveMessages(reserved: bool, order: OrderId, total: real, first: O.Answer,
                           second: O.Answer): seq<Message> {
    if !reserved then Leaves(NotReservedEvent(order), second)
    else if first == O.Confirmed then [ReservedEvent(order, total)]
    else Leaves(ReservedEvent(order, total), first) + Leaves(NotReservedEvent(order), second)
  }

  class InventoryEventHandlers {
    const repository: InventoryRepository
    const publisher: Publisher

    constructor (repository: InventoryRepository, publisher: Publisher)
      ensures this.repository == repository && this.publisher == publisher
    {
      this.repository, this.publisher := repository, publisher;
    }

    /**
     The publishes of `onOrderCreated`: `first` answers the one in the try block, `second` the one in the
     catch block.
     */
    method Announce(reserved: bool, order: OrderId, total: real, first: O.Answer,
                    second: O.Answer) returns (thrown: bool)
      modifies publisher
      ensures publisher.stored == old(publisher.stored) + ReserveMessages(reserved, order, total, first, second)
      ensures thrown <==> second != O.Confirmed && !(reserved && first == O.Confirmed)
    {
      if reserved {
        thrown := publisher.Publish(ReservedEvent(order, total), first);
        if !thrown {
          return;
        }
      }
      thrown := publisher.Publish(NotReservedEvent(order), second);
    }

    method OnOrderCreated(order: OrderId, items: seq<Line>, total: real, expiresAt: int, first: O.Answer,
                          second: O.Answer) returns (thrown: bool)
      modifies repository, publisher
      ensures repository.Contents() == Transact(old(repository.Contents()), ReserveActs(order, items, expiresAt))
      ensures var reserved := RunActs(old(repository.Contents()), ReserveActs(order, items, expiresAt)).Ok?;
              && publisher.stored == old(publisher.stored) + ReserveMessages(reserved, order, total, first, second)
              && (thrown <==> second != O.Confirmed && !(reserved && first == O.Confirmed))
    {
      var result := repository.Reserve(order, items, expiresAt);
      thrown := Announce(result.Ok?, order, total, first, second);
    }

    /**
     A release that throws, or a lost publish, throws; nothing is published for an order without ACTIVE
     reservations.
     */
    method OnOrderCancelled(order: OrderId, answer: O.Answer) returns (thrown: bool)
      modifies repository, publisher
      ensures var before := old(repository.Contents());
              var released := RunActs(before, ReleaseActs(before, OfOrder(order))).Ok?;
              var some := SelectIds(before.rows, OfOrder(order)) != [];
              && repository.Contents() == Transact(before, ReleaseActs(before, OfOrder(order)))
              && publisher.stored == old(publisher.stored)
                  + (if released && some then Leaves(ReleasedEvent(order), answer) else [])
              && (thrown <==> !released || (some && answer != O.Confirmed))
    {
      var result := repository.Release(order);
      thrown := AnnounceRelease(order, result, answer);
    }

    method AnnounceRelease(order: OrderId, result: Result<nat, Error>, answer: O.Answer) returns (thrown: bool)
      modifies publisher
      ensures publisher.stored == old(publisher.stored)
              + (if result.Ok? && result.value > 0 then Leaves(ReleasedEvent(order), answer) else [])
      ensures thrown <==> result.Err? || (result.value > 0 && answer != O.Confirmed)
    {
      if result.Err? {
        return true;
      }
      thrown := false;
      if result.value > 0 {
        thrown := publisher.Publish(ReleasedEvent(order), answer);
      }
    }
  }

  /** Whether the catch block's message is stored. */
  predicate FallsBack(reserved: bool, first: O.Answer, second: O.Answer) {
    second != O.Refused && !(reserved && first == O.Confirmed)
  }

  lemma SentMessages(reserved: bool, order: OrderId, total: real, first: O.Answer, second: O.Answer, m: Message)
    ensures m in ReserveMessages(reserved, order, total, first, second) <==>
            || (m == ReservedEvent(order, total) && reserved && first != O.Refused)
            || (m == NotReservedEvent(order) && FallsBack(reserved, first, second))
  {
  }

  lemma ReservingSends(s: Saga.State, order: OrderId, items: seq<Line>, total: real, expiresAt: int, stored: bool,
                       fallback: bool, m: Message)
    ensures var acts := ReserveActs(order, items, expiresAt);
            var s' := Reserving(s, order, items, total, expiresAt, stored, fallback);
            && s'.stock == Transact(s.stock, acts)
            && (m in s'.messages <==>
                  || m in s.messages
                  || (m == ReservedEvent(order, total) && RunActs(s.stock, acts).Ok? && stored)
                  || (m == NotReservedEvent(order) && fallback))
  {
  }

  /** The handler is a step of the saga: the same tables, and the same messages added to those that can be delivered. */
  lemma OrderCreatedIsStep(s: Saga.State, limit: nat, order: OrderId, items: seq<Line>, total: real, expiresAt: int,
                           first: O.Answer, second: O.Answer)
    requires CreatedEvent(order, items, total) in s.messages
    ensures var acts := ReserveActs(order, items, expiresAt);
            var reserved := RunActs(s.stock, acts).Ok?;
            var s' := Saga.Step(s, limit,
                  ReserveStock(CreatedEvent(order, items, total), expiresAt, first != O.Refused,
                  FallsBack(reserved, first, second)));
            && s'.stock == Transact(s.stock, acts)
            && forall m: Message :: m in s'.messages <==>
                m in s.messages || m in ReserveMessages(reserved, order, total, first, second)
  {
    var reserved := RunActs(s.stock, ReserveActs(order, items, expiresAt)).Ok?;
    var fallback := FallsBack(reserved, first, second);
    ReservingSends(s, order, items, total, expiresAt, first != O.Refused, fallback, NotReservedEvent(order));
    forall m: Message
      ensures m in Reserving(s, order, items, total, expiresAt, first != O.Refused, fallback).messages <==>
              m in s.messages || m in ReserveMessages(reserved, order, total, first, second)
    {
      SentMessages(reserved, order, total, first, second, m);
      ReservingSends(s, order, items, total, expiresAt, first != O.Refused, fallback, m);
    }
  }

  /** `onOrderCancelled` is a step of the saga: the same tables; nothing in the saga reacts to what it publishes. */
  lemma OrderCancelledIsStep(s: Saga.State, limit: nat, order: OrderId)
    requires CancelledEvent(order) in s.messages
    ensures var s' := Saga.Step(s, limit, ReleaseStock(CancelledEvent(order)));
            s'.stock == Transact(s.stock, ReleaseActs(s.stock, OfOrder(order))) && s'.messages == s.messages
  {
  }

  /**
   `PaymentEventHandlers.onInventoryReserved`: one execution under the order's saga key. It answers from the
   payment that has the key, or else from the last answer of the gateway: payment.completed on a success,
   payment.failed otherwise. An execution that throws writes and publishes nothing.
   */
  method OnInventoryReserved(repository: PR.PaymentRepository, breaker: CB.CircuitBreaker, publisher: Publisher,
                             maxAttempts: int, base: nat,
                             order: OrderId, total: real, world: PH.World, answer: O.Answer)
    returns (thrown: bool)
    requires |world.script| >= maxAttempts && |world.draws| >= maxAttempts
    requires forall i :: 0 <= i < |world.draws| ==> 0.0 <= world.draws[i] < 1.0
    modifies repository, breaker, publisher
    ensures var db := old(repository.Contents());
            match PT.FindByKey(db.payments, SagaKey(order))
            case Some(id) =>
              && repository.Contents() == db && breaker.State() == old(breaker.State())
              && (thrown <==> answer != O.Confirmed)
              && publisher.stored == old(publisher.stored)
                  + Leaves(if db.payments[id].status == PT.Completed then PaidEvent(order) else NotPaidEvent(order),
                           answer)
            case None =>
              if Cents(total) <= 0 || PT.Clashes(db.payments, order, SagaKey(order)) then
                && thrown && publisher.stored == old(publisher.stored)
                && repository.Contents() == db && breaker.State() == old(breaker.State())
              else
                var charges :=
                  if BM.Admits(old(breaker.State()), world.startedAt) then CallsMade(world.script, maxAttempts) else 0;
                var success := charges > 0 && world.script[charges - 1].Success?;
                && (thrown <==> answer != O.Confirmed)
                && publisher.stored == old(publisher.stored)
                    + Leaves(if success then PaidEvent(order) else NotPaidEvent(order), answer)
                && repository.Contents() ==
                   PH.Settled(db, order, SagaKey(order), Cents(total),
                              if success then Some(world.script[charges - 1].value) else None)
                && breaker.State() == PH.BreakerAfter(old(breaker.State()), breaker.options, world, charges)
  {
    var result := PH.ProcessPayment(repository, breaker, maxAttempts, base, order, SagaKey(order), Cents(total), world);
    if result.Err? {
      return true;
    }
    var m := if result.value.success then PaidEvent(order) else NotPaidEvent(order);
    thrown := publisher.Publish(m, answer);
  }
}
