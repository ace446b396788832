/** The payment state machine, the payment service's tables, and the repository's writes. */
module PaymentTables {
  import opened Results
  import opened InventoryTables

  datatype PaymentStatus = Pending | Processing | Completed | Failed | RefundPending | Refunded

  function Transitions(from: PaymentStatus): set<PaymentStatus> {
    match from
    case Pending => {Processing, Failed}
    case Processing => {Completed, Failed}
    case Completed => {RefundPending}
    case RefundPending => {Refunded, Completed}
    case Failed => {}
    case Refunded => {}
  }

  predicate CanTransition(from: PaymentStatus, to: PaymentStatus) {
    to in Transitions(from)
  }

  type PaymentId = nat // the row's position: rows are never deleted
  type Key = nat
  type TransactionId = nat

  /** A row of `payments`; `amount` is in cents, as the column stores it. */
  datatype PaymentRow = PaymentRow(order: OrderId, key: Key, amount: int, status: PaymentStatus,
        transaction: Option<TransactionId>, version: int)

  datatype PaymentEvent = PaymentEvent(payment: PaymentId, from: PaymentStatus, to: PaymentStatus)

  datatype RefundRow = RefundRow(payment: PaymentId, amount: int, key: Key)

  datatype PaymentDb = PaymentDb(payments: seq<PaymentRow>, events: seq<PaymentEvent>, refunds: seq<RefundRow>)

  datatype PaymentError =
    | InvalidAmount
    | DuplicatePayment
    | DuplicateRefund
    | VersionConflict
    | IllegalTransition
    | NotCompleted
    | NotFound
    | GatewayFailure

  /** The aggregate in memory: its fields, and the events recorded since they were last pulled. */
  datatype Entity = Entity(id: PaymentId, row: PaymentRow, pending: seq<PaymentEvent>)

  // ----- the aggregate's transitions, on values -----

  function TransitionTo(e: Entity, to: PaymentStatus): Result<Entity, PaymentError> {
    if !CanTransition(e.row.status, to) then Err(IllegalTransition)
    else Ok(Entity(e.id, e.row.(status := to, version := e.row.version + 1),
          e.pending + [PaymentEvent(e.id, e.row.status, to)]))
  }

  function MarkCompleted(e: Entity, transaction: TransactionId): Result<Entity, PaymentError> {
    TransitionTo(e.(row := e.row.(transaction := Some(transaction))), Completed)
  }

  /** The two transitions a confirmed refund makes before its single write. */
  function MarkRefunded(e: Entity): Result<Entity, PaymentError> {
    match TransitionTo(e, RefundPending)
    case Err(error) => Err(error)
    case Ok(e') => TransitionTo(e', Refunded)
  }

  // ----- the repositories -----

  function Load(db: PaymentDb, id: PaymentId): Entity
    requires id < |db.payments|
  {
    Entity(id, db.payments[id], [])
  }

  predicate Clashes(payments: seq<PaymentRow>, order: OrderId, key: Key) {
    exists i :: 0 <= i < |payments| && (payments[i].order == order || payments[i].key == key)
  }

  /** `findByIdempotencyKey`. */
  function FindByKey(payments: seq<PaymentRow>, key: Key): (r: Option<PaymentId>)
    ensures r.Some? ==> r.value < |payments| && payments[r.value].key == key
    ensures r.None? ==> forall i :: 0 <= i < |payments| ==> payments[i].key != key
  {
    if payments == [] then None
    else if payments[|payments| - 1].key == key then Some(|payments| - 1)
    else FindByKey(payments[..|payments| - 1], key)
  }

  /** `save` of a new payment: unique constraints on the order and on the key. */
  function SavePayment(db: PaymentDb, order: OrderId, key: Key, amount: int): Result<PaymentDb, PaymentError> {
    if Clashes(db.payments, order, key) then Err(DuplicatePayment)
    else Ok(db.(payments := db.payments + [PaymentRow(order, key, amount, Pending, None, 1)]))
  }

  /** `update`: the expected version is the aggregate's version less its pending events. */
  function UpdatePayment(db: PaymentDb, e: Entity): Result<PaymentDb, PaymentError> {
    if e.id >= |db.payments| || db.payments[e.id].version != e.row.version - |e.pending| then Err(VersionConflict)
    else
      var row := db.payments[e.id].(status := e.row.status, transaction := e.row.transaction, version := e.row.version);
      Ok(db.(payments := db.payments[e.id := row], events := db.events + e.pending))
  }

  predicate RefundKeyUsed(refunds: seq<RefundRow>, key: Key) {
    exists i :: 0 <= i < |refunds| && refunds[i].key == key
  }

  function SaveRefund(db: PaymentDb, refund: RefundRow): Result<PaymentDb, PaymentError> {
    if RefundKeyUsed(db.refunds, refund.key) then Err(DuplicateRefund)
    else Ok(db.(refunds := db.refunds + [refund]))
  }

  // ----- the event log -----

  function LogOf(events: seq<PaymentEvent>, id: PaymentId): seq<PaymentEvent> {
    if events == [] then []
    else
      var last := events[|events| - 1];
      LogOf(events[..|events| - 1], id) + if last.payment == id then [last] else []
  }

  /** The status a log leads to from PENDING; none if it breaks off or takes a forbidden link. */
  function Replay(log: seq<PaymentEvent>): Option<PaymentStatus> {
    if log == [] then Some(Pending)
    else
      var last := log[|log| - 1];
      match Replay(log[..|log| - 1])
      case None => None
      case Some(status) => if status == last.from && CanTransition(last.from, last.to) then Some(last.to) else None
  }

  lemma {:induction false} LogAppend(a: seq<PaymentEvent>, b: seq<PaymentEvent>, id: PaymentId)
    ensures LogOf(a + b, id) == LogOf(a, id) + LogOf(b, id)
    decreases |b|
  {
    if b == [] {
      assert a + b == a;
    } else {
      var n := |b| - 1;
      assert (a + b)[..|a| + n] == a + b[..n];
      LogAppend(a, b[..n], id);
    }
  }

  predicate IsWalk(walk: seq<PaymentStatus>) {
    forall i :: 0 < i < |walk| ==> CanTransition(walk[i - 1], walk[i])
  }

  /** The status a life that goes well has at its `i`-th place: after COMPLETED, refunds are asked for and fail. */
  function Along(i: nat): PaymentStatus {
    if i == 0 then Pending else if i == 1 then Processing else if i % 2 == 0 then Completed else RefundPending
  }

  /** Where a life may end otherwise: FAILED instead of PROCESSING or of the first COMPLETED, later REFUNDED. */
  function Instead(i: nat): PaymentStatus {
    if i <= 2 then Failed else Refunded
  }

  /**
   The lives of a payment: PENDING, PROCESSING, COMPLETED, then any number of refund requests that fall back
   to COMPLETED. Only the last status may be FAILED, first or second after PENDING, or REFUNDED, which
   follows a refund request.
   */
  lemma {:induction false} WalksAreLives(walk: seq<PaymentStatus>)
    requires walk != [] && walk[0] == Pending
    ensures IsWalk(walk) <==>
            var n := |walk| - 1;
            && (forall i :: 0 <= i < n ==> walk[i] == Along(i))
            && (walk[n] == Along(n) || (n > 0 && (n <= 2 || n % 2 == 0) && walk[n] == Instead(n)))
    decreases |walk|
  {
    var n := |walk| - 1;
    if n > 0 {
      var front := walk[..n];
      WalksAreLives(front);
      assert IsWalk(walk) <==> IsWalk(front) && CanTransition(walk[n - 1], walk[n]);
      assert front[n - 1] == walk[n - 1];
      assert forall i :: 0 <= i < n ==> front[i] == walk[i];
    }
  }

  /** What an aggregate adds to the log continues it: the pending events of `e`, recorded since `from`. */
  predicate Continues(from: PaymentStatus, pending: seq<PaymentEvent>, id: PaymentId, to: PaymentStatus) {
    (pending == [] && from == to) ||
    (|pending| == 1 && pending[0] == PaymentEvent(id, from, to) && CanTransition(from, to)) ||
    (|pending| == 2 && pending[0].payment == id == pending[1].payment && pending[0].from == from
          && pending[0].to == pending[1].from
     && pending[1].to == to && CanTransition(from, pending[0].to) && CanTransition(pending[0].to, to))
  }

  lemma LogOfOne(e: PaymentEvent, id: PaymentId)
    ensures LogOf([e], id) == if e.payment == id then [e] else []
  {
    assert [e][..0] == [];
  }

  lemma ReplayOne(log: seq<PaymentEvent>, e: PaymentEvent, status: PaymentStatus)
    requires Replay(log) == Some(status) && e.from == status && CanTransition(e.from, e.to)
    ensures Replay(log + [e]) == Some(e.to)
  {
    assert (log + [e])[..|log|] == log;
  }

  lemma LogOfPending(pending: seq<PaymentEvent>, id: PaymentId)
    requires |pending| <= 2 && forall i :: 0 <= i < |pending| ==> pending[i].payment == id
    ensures LogOf(pending, id) == pending && forall other :: other != id ==> LogOf(pending, other) == []
  {
    forall other
      ensures LogOf(pending, other) == if other == id then pending else []
    {
      if |pending| == 1 {
        assert pending == [pending[0]];
        LogOfOne(pending[0], other);
      } else if |pending| == 2 {
        assert pending == [pending[0]] + [pending[1]];
        LogAppend([pending[0]], [pending[1]], other);
        LogOfOne(pending[0], other);
        LogOfOne(pending[1], other);
      }
    }
  }

  lemma ReplayContinues(log: seq<PaymentEvent>, from: PaymentStatus, pending: seq<PaymentEvent>, id: PaymentId,
                        to: PaymentStatus)
    requires Replay(log) == Some(from) && Continues(from, pending, id, to)
    ensures Replay(log + LogOf(pending, id)) == Some(to) && |LogOf(pending, id)| == |pending|
    ensures forall other :: other != id ==> LogOf(pending, other) == []
  {
    LogOfPending(pending, id);
    if |pending| == 1 {
      assert pending == [pending[0]];
      ReplayOne(log, pending[0], from);
    } else if |pending| == 2 {
      ReplayOne(log, pending[0], from);
      ReplayOne(log + [pending[0]], pending[1], pending[0].to);
      assert log + pending == log + [pending[0]] + [pending[1]];
    } else {
      assert log + pending == log;
    }
  }
}
