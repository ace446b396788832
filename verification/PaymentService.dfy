/** The `Payment` aggregate root: each transition records an event and bumps the version. */
module PaymentAggregate {
  import opened Results
  import opened InventoryTables
  import opened PaymentTables

  class Payment {
    const id: PaymentId
    const order: OrderId
    const key: Key
    const amount: int
    var status: PaymentStatus
    var transaction: Option<TransactionId>
    var version: int
    var pending: seq<PaymentEvent>

    constructor (id: PaymentId, row: PaymentRow)
      ensures Value() == Entity(id, row, [])
    {
      this.id, order, key, amount := id, row.order, row.key, row.amount;
      status, transaction, version, pending := row.status, row.transaction, row.version, [];
    }

    function Value(): Entity
      reads this
    {
      Entity(id, PaymentRow(order, key, amount, status, transaction, version), pending)
    }

    method Transition(newStatus: PaymentStatus) returns (ok: bool)
      modifies this
      ensures ok <==> CanTransition(old(status), newStatus)
      ensures if ok then
                && status == newStatus && version == old(version) + 1 && transaction == old(transaction)
                && pending == old(pending) + [PaymentEvent(id, old(status), newStatus)]
              else status == old(status)
      ensures if ok then TransitionTo(old(Value()), newStatus) == Ok(Value()) else Value() == old(Value())
    {
      if !CanTransition(status, newStatus) {
        return false;
      }
      pending := pending + [PaymentEvent(id, status, newStatus)];
      status := newStatus;
      version := version + 1;
      return true;
    }

    /** The transaction id is set even when the transition is refused. */
    method Complete(transactionId: TransactionId) returns (ok: bool)
      modifies this
      ensures ok <==> CanTransition(old(status), Completed)
      ensures transaction == Some(transactionId)
      ensures if ok then PaymentTables.MarkCompleted(old(Value()), transactionId) == Ok(Value())
              else status == old(status) && version == old(version) && pending == old(pending)
    {
      transaction := Some(transactionId);
      ok := Transition(Completed);
    }

    method PullEvents() returns (events: seq<PaymentEvent>)
      modifies this`pending
      ensures events == old(pending) && pending == []
    {
      events := pending;
      pending := [];
    }
  }
}

/** `KnexPaymentRepository` and `KnexRefundRepository`. */
module PaymentRepositories {
  import opened Results
  import opened InventoryTables
  import opened PaymentTables
  import opened PaymentAggregate

  class PaymentRepository {
    var payments: seq<PaymentRow>
    var events: seq<PaymentEvent>
    var refunds: seq<RefundRow>

    constructor ()
      ensures Contents() == PaymentDb([], [], [])
    {
      payments, events, refunds := [], [], [];
    }

    function Contents(): PaymentDb
      reads this
    {
      PaymentDb(payments, events, refunds)
    }

    method Save(order: OrderId, key: Key, amount: int) returns (r: Result<Payment, PaymentError>)
      modifies this
      ensures match SavePayment(old(Contents()), order, key, amount)
              case Ok(db) => r.Ok? && Contents() == db && fresh(r.value) && r.value.Value() == Load(db, |old(payments)|)
              case Err(e) => r == Err(e) && Contents() == old(Contents())
    {
      if Clashes(payments, order, key) {
        return Err(DuplicatePayment);
      }
      var row := PaymentRow(order, key, amount, Pending, None, 1);
      payments := payments + [row];
      var payment := new Payment(|payments| - 1, row);
      return Ok(payment);
    }

    /** Pulls the aggregate's events before it compares versions, so a refused update has drained them. */
    method Update(payment: Payment) returns (error: Option<PaymentError>)
      modifies this, payment
      ensures match UpdatePayment(old(Contents()), old(payment.Value()))
              case Ok(db) => error.None? && Contents() == db
              case Err(e) => error == Some(e) && Contents() == old(Contents())
      ensures payment.Value() == old(payment.Value()).(pending := [])
    {
      var pulled := payment.PullEvents();
      var expectedVersion := payment.version - |pulled|;
      if payment.id >= |payments| || payments[payment.id].version != expectedVersion {
        return Some(VersionConflict);
      }
      payments := payments[payment.id := payments[payment.id].(status := payment.status,
            transaction := payment.transaction, version := payment.version)];
      events := events + pulled;
      return None;
    }

    method InsertRefund(refund: RefundRow) returns (error: Option<PaymentError>)
      modifies this
      ensures match SaveRefund(old(Contents()), refund)
              case Ok(db) => error.None? && Contents() == db
              case Err(e) => error == Some(e) && Contents() == old(Contents())
    {
      if RefundKeyUsed(refunds, refund.key) {
        return Some(DuplicateRefund);
      }
      refunds := refunds + [refund];
      return None;
    }
  }
}

/** `ProcessPaymentHandler`, `ProcessWebhookHandler` and `RefundHandler`, run without interference. */
module PaymentHandlers {
  import opened Results
  import opened InventoryTables
  import opened PaymentTables
  import opened PaymentAggregate
  import opened PaymentRepositories
  import opened BreakerMoves
  import opened CircuitBreakers
  import opened Retry

  /** The clock and the answers a run meets: `script[i]` is the gateway's answer to the i-th charge. */
  datatype World = World(startedAt: int, finishedAt: int, script: seq<Outcome<TransactionId>>, draws: seq<real>)

  datatype Answer = Answer(payment: PaymentId, success: bool, charges: nat)

  /** The three rows one uninterrupted execution leaves: the payment and its two events. */
  function Settled(db: PaymentDb, order: OrderId, key: Key, amount: int, paid: Option<TransactionId>): PaymentDb {
    var id := |db.payments|;
    var status := if paid.Some? then Completed else Failed;
    db.(payments := db.payments + [PaymentRow(order, key, amount, status, paid, 3)],
        events := db.events + [PaymentEvent(id, Pending, Processing), PaymentEvent(id, Processing, status)])
  }

  /** The breaker after a call it admitted, whose last gateway answer was `last`. */
  function Reported(b: Breaker, o: Options, last: Option<Outcome<TransactionId>>, at: int): Breaker {
    match last
    case Some(Success(_)) => OnSuccess(OnStart(b))
    case Some(Transient) => OnFailure(OnStart(b), o, true, at)
    case _ => OnStart(b)
  }

  /** The guarded gateway call: the breaker around the retry loop. */
  method ChargeThroughBreaker(breaker: CircuitBreaker, maxAttempts: int, base: nat, world: World)
    returns (last: Option<Outcome<TransactionId>>, charges: nat)
    requires |world.script| >= maxAttempts && |world.draws| >= maxAttempts
    requires forall i :: 0 <= i < |world.draws| ==> 0.0 <= world.draws[i] < 1.0
    modifies breaker
    ensures !Admits(old(breaker.State()), world.startedAt) ==>
              last.None? && charges == 0 && breaker.State() == old(breaker.State())
    ensures Admits(old(breaker.State()), world.startedAt) ==>
              && charges == CallsMade(world.script, maxAttempts)
              && last == (if charges == 0 then None else Some(world.script[charges - 1]))
              && breaker.State() == Reported(old(breaker.State()), breaker.options, last, world.finishedAt)
              && (match last
                  case Some(Success(_)) => breaker.mode == Closed && breaker.failureCount == 0
                  case Some(Transient) => breaker.failureCount == old(breaker.failureCount) + 1
                  case _ =>
                    && breaker.failureCount == old(breaker.failureCount)
                    && breaker.mode == if old(breaker.mode) == Closed then Closed else HalfOpen)
  {
    var admitted := breaker.Start(world.startedAt);
    if !admitted {
      return None, 0;
    }
    var slept;
    last, charges, slept := Retry.Retry(world.script, maxAttempts, base, 30_000, true, world.draws);
    match last
    case Some(Success(_)) => breaker.Succeed();
    case Some(Transient) => breaker.Fail(true, world.finishedAt);
    case _ => breaker.Fail(false, world.finishedAt);
  }

  /** What the breaker is after an execution that made `charges` charges, if it got as far as the breaker. */
  function BreakerAfter(b: Breaker, o: Options, world: World, charges: nat): Breaker {
    if !Admits(b, world.startedAt) || charges > |world.script| then b
    else Reported(b, o, if charges == 0 then None else Some(world.script[charges - 1]), world.finishedAt)
  }

  method ProcessPayment(repository: PaymentRepository, breaker: CircuitBreaker, maxAttempts: int, base: nat,
                        order: OrderId, key: Key, amount: int, world: World)
    returns (r: Result<Answer, PaymentError>)
    requires |world.script| >= maxAttempts && |world.draws| >= maxAttempts
    requires forall i :: 0 <= i < |world.draws| ==> 0.0 <= world.draws[i] < 1.0
    modifies repository, breaker
    ensures var db := old(repository.Contents());
            match FindByKey(db.payments, key)
            case Some(id) =>
              && r == Ok(Answer(id, db.payments[id].status == Completed, 0))
              && repository.Contents() == db && breaker.State() == old(breaker.State())
            case None =>
              if amount <= 0 || Clashes(db.payments, order, key) then
                && r == Err(if amount <= 0 then InvalidAmount else DuplicatePayment)
                && repository.Contents() == db && breaker.State() == old(breaker.State())
              else
                && r.Ok? && r.value.payment == |db.payments|
                && r.value.charges ==
                    (if Admits(old(breaker.State()), world.startedAt) then CallsMade(world.script, maxAttempts) else 0)
                && (r.value.success <==> r.value.charges > 0 && world.script[r.value.charges - 1].Success?)
                && breaker.State() == BreakerAfter(old(breaker.State()), breaker.options, world, r.value.charges)
                && repository.Contents() ==
                   Settled(db, order, key, amount,
                           if r.value.success then Some(world.script[r.value.charges - 1].value) else None)
                && |repository.payments| == |db.payments| + 1 && repository.payments[..|db.payments|] == db.payments
                && repository.payments[|db.payments|] ==
                   PaymentRow(order, key, amount, if r.value.success then Completed else Failed,
                              if r.value.success then Some(world.script[r.value.charges - 1].value) else None, 3)
  {
    var existing := FindByKey(repository.payments, key);
    if existing.Some? {
      return Ok(Answer(existing.value, repository.payments[existing.value].status == Completed, 0));
    }
    if amount <= 0 {
      return Err(InvalidAmount);
    }
    var saved := repository.Save(order, key, amount);
    if saved.Err? {
      return Err(saved.error);
    }
    var payment := saved.value;
    var id := payment.id;
    var ok := payment.Transition(Processing);
    var error := repository.Update(payment);
    var last, charges := ChargeThroughBreaker(breaker, maxAttempts, base, world);
    var success := Settle(repository, id, last);
    return Ok(Answer(id, success, charges));
  }

  /** The last write of an execution: the payment it loads is PROCESSING. */
  method Settle(repository: PaymentRepository, id: PaymentId,
                last: Option<Outcome<TransactionId>>) returns (success: bool)
    requires id < |repository.payments| && repository.payments[id].status == Processing
    modifies repository
    ensures success <==> last.Some? && last.value.Success?
    ensures var db := old(repository.Contents());
            var status := if success then Completed else Failed;
            var row := db.payments[id];
            repository.Contents() ==
            db.(payments := db.payments[id := row.(status := status, version := row.version + 1,
                                                   transaction := if success then Some(last.value.value)
                                                       else row.transaction)],
                events := db.events + [PaymentEvent(id, Processing, status)])
  {
    var payment := new Payment(id, repository.payments[id]);
    var ok;
    success := last.Some? && last.value.Success?;
    if success {
      ok := payment.Complete(last.value.value);
    } else {
      ok := payment.Transition(Failed);
    }
    var error := repository.Update(payment);
  }

  /** A gateway callback. */
  datatype Notice = Succeeded(transaction: TransactionId) | Rejected | Unknown

  method ProcessWebhook(repository: PaymentRepository, id: PaymentId, notice: Notice) returns (applied: bool)
    modifies repository
    ensures applied <==>
              && !notice.Unknown? && id < |old(repository.payments)|
              && old(repository.payments)[id].status == Processing
    ensures !applied ==> repository.Contents() == old(repository.Contents())
    ensures applied ==>
              var db := old(repository.Contents());
              var status := if notice.Succeeded? then Completed else Failed;
              var row := db.payments[id];
              repository.Contents() ==
              db.(payments := db.payments[id := row.(status := status, version := row.version + 1,
                                                     transaction := if notice.Succeeded? then Some(notice.transaction)
                                                         else row.transaction)],
                  events := db.events + [PaymentEvent(id, Processing, status)])
  {
    if id >= |repository.payments| {
      return false;
    }
    var payment := new Payment(id, repository.payments[id]);
    if notice.Unknown? || payment.status != Processing {
      return false;
    }
    var ok;
    match notice {
      case Succeeded(transaction) => ok := payment.Complete(transaction);
      case Rejected => ok := payment.Transition(Failed);
      case Unknown =>
    }
    var error := repository.Update(payment);
    return true;
  }

  /**
   Refunds a completed payment; `script` holds the gateway's answers to its refund requests, of which
   `calls` are made.
   */
  method RefundPayment(repository: PaymentRepository, id: PaymentId, key: Key, maxAttempts: int, base: nat,
                       world: World)
    returns (error: Option<PaymentError>, calls: nat)
    requires |world.script| >= maxAttempts && |world.draws| >= maxAttempts
    requires forall i :: 0 <= i < |world.draws| ==> 0.0 <= world.draws[i] < 1.0
    modifies repository
    ensures var db := old(repository.Contents());
            if exists i :: 0 <= i < |db.refunds| && db.refunds[i].key == key then
              error.None? && calls == 0 && repository.Contents() == db
            else if id >= |db.payments| || db.payments[id].status != Completed then
              && error == Some(if id >= |db.payments| then NotFound else NotCompleted)
              && calls == 0 && repository.Contents() == db
            else
              && calls == CallsMade(world.script, maxAttempts)
              && (if calls > 0 && world.script[calls - 1].Success? then
                    && error.None?
                    && repository.payments ==
                        db.payments[id := db.payments[id].(status := Refunded, version := db.payments[id].version + 2)]
                    && repository.events ==
                        db.events + [PaymentEvent(id, Completed, RefundPending),
                          PaymentEvent(id, RefundPending, Refunded)]
                    && repository.refunds == db.refunds + [RefundRow(id, db.payments[id].amount, key)]
                  else error == Some(GatewayFailure) && repository.Contents() == db)
  {
    calls := 0;
    if RefundKeyUsed(repository.refunds, key) {
      return None, 0;
    }
    if id >= |repository.payments| {
      return Some(NotFound), 0;
    }
    var payment := new Payment(id, repository.payments[id]);
    if payment.status != Completed {
      return Some(NotCompleted), 0;
    }
    var last, slept;
    last, calls, slept := Retry.Retry(world.script, maxAttempts, base, 30_000, true, world.draws);
    if last.None? || !last.value.Success? {
      return Some(GatewayFailure), calls;
    }
    var ok := payment.Transition(RefundPending);
    ok := payment.Transition(Refunded);
    error := repository.Update(payment);
    error := repository.InsertRefund(RefundRow(id, payment.amount, key));
  }
}
