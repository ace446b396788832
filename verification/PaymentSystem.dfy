/**
 Any number of payment executions, webhooks and refunds interleaved. Every read, every gateway
 request and every write is a step of its own, and any of them may be the last (a crash).
 */
module PaymentSystem {
  import opened Results
  import opened InventoryTables
  import opened PaymentTables
  import opened Retry

  datatype Command = Command(order: OrderId, key: Key, amount: int)

  /** Where an execution stands; the entity is the aggregate as it last loaded or wrote it. */
  datatype Worker =
    | Inserting(command: Command)             // found no payment under its key
    | Inserted(entity: Entity)                // its own insert succeeded
    | Admitting(entity: Entity)               // PROCESSING, about to enter the breaker
    | Charging(entity: Entity, attempt: nat)  // in the retry loop
    | Charged(entity: Entity, transaction: TransactionId)
    | Rejected(entity: Entity)
    | Answering(order: OrderId, payment: PaymentId, success: bool)
    | Notified(entity: Entity)                // a webhook that loaded its payment
    | Refunding(entity: Entity, key: Key, attempt: nat)
    | RefundConfirmed(entity: Entity, key: Key)
    | RecordingRefund(refund: RefundRow)

  /** One charge request the gateway received. */
  datatype Charge = Charge(order: OrderId, succeeded: bool)

  /** `charges` and `confirmations` are the gateway's: charge requests, and payments it confirmed a refund of. */
  datatype State = State(db: PaymentDb, workers: map<nat, Worker>, charges: seq<Charge>, confirmations: seq<PaymentId>)

  datatype Action =
    | StartProcess(w: nat, command: Command)
    | Insert(w: nat)
    | Begin(w: nat)
    | EnterBreaker(w: nat, admitted: bool)
    | AskGateway(w: nat, answer: Outcome<TransactionId>)
    | Record(w: nat)
    | Answer(w: nat)
    | StartWebhook(w: nat, payment: PaymentId)
    | ApplyWebhook(w: nat, verdict: Option<TransactionId>)
    | StartRefund(w: nat, payment: PaymentId, key: Key)
    | AskRefund(w: nat, answer: Outcome<TransactionId>)
    | RecordRefund(w: nat)
    | InsertRefund(w: nat)
    | Crash(w: nat)

  function Set(s: State, w: nat, worker: Worker): State {
    s.(workers := s.workers[w := worker])
  }

  function Drop(s: State, w: nat): State {
    s.(workers := s.workers - {w})
  }

  /** Write an aggregate that made its transitions, unless a transition threw. */
  function Store(db: PaymentDb, moved: Result<Entity, PaymentError>): (r: Result<PaymentDb, PaymentError>)
    ensures r.Ok? ==> moved.Ok? && moved.value.id < |r.value.payments| == |db.payments|
  {
    match moved
    case Err(error) => Err(error)
    case Ok(e) => UpdatePayment(db, e)
  }

  /** Go on as `next` if the write succeeded; a conflict kills the execution. */
  function Proceed(s: State, w: nat, stored: Result<PaymentDb, PaymentError>, next: Option<Worker>): State {
    match stored
    case Err(_) => Drop(s, w)
    case Ok(db) => if next.Some? then Set(s.(db := db), w, next.value) else Drop(s.(db := db), w)
  }

  /** The aggregate `update` returns: its row as just written. */
  function Reloaded(stored: Result<PaymentDb, PaymentError>, e: Entity): Entity {
    if stored.Ok? && e.id < |stored.value.payments| then Load(stored.value, e.id) else e
  }

  function Step(s: State, limit: nat, a: Action): State {
    match a
    case StartProcess(w, command) =>
      if w in s.workers then s
      else (match FindByKey(s.db.payments, command.key)
            case Some(id) => Set(s, w, Answering(command.order, id, s.db.payments[id].status == Completed))
            case None => if command.amount <= 0 then s else Set(s, w, Inserting(command)))
    case Insert(w) =>
      if w !in s.workers || !s.workers[w].Inserting? then s
      else
        var c := s.workers[w].command;
        (match SavePayment(s.db, c.order, c.key, c.amount)
         case Err(_) => Drop(s, w)
         case Ok(db) => Set(s.(db := db), w, Inserted(Load(db, |s.db.payments|))))
    case Begin(w) =>
      if w !in s.workers || !s.workers[w].Inserted? then s
      else
        var e := s.workers[w].entity;
        var stored := Store(s.db, TransitionTo(e, Processing));
        Proceed(s, w, stored, Some(Admitting(Reloaded(stored, e))))
    case EnterBreaker(w, admitted) =>
      if w !in s.workers || !s.workers[w].Admitting? then s
      else if admitted && limit > 0 then Set(s, w, Charging(s.workers[w].entity, 1))
      else Set(s, w, Rejected(s.workers[w].entity))
    case AskGateway(w, answer) =>
      if w !in s.workers || !s.workers[w].Charging? then s
      else
        var e, n := s.workers[w].entity, s.workers[w].attempt;
        var s' := s.(charges := s.charges + [Charge(e.row.order, answer.Success?)]);
        (match answer
         case Success(transaction) => Set(s', w, Charged(e, transaction))
         case Transient => if n >= limit then Set(s', w, Rejected(e)) else Set(s', w, Charging(e, n + 1))
         case Permanent => Set(s', w, Rejected(e)))
    case Record(w) =>
      if w !in s.workers then s
      else (match s.workers[w]
            case Charged(e, transaction) => Proceed(s, w, Store(s.db, MarkCompleted(e, transaction)),
                  Some(Answering(e.row.order, e.id, true)))
            case Rejected(e) => Proceed(s, w, Store(s.db, TransitionTo(e, Failed)),
                  Some(Answering(e.row.order, e.id, false)))
            case _ => s)
    case Answer(w) =>
      if w !in s.workers || !s.workers[w].Answering? then s else Drop(s, w)
    case StartWebhook(w, id) =>
      if w in s.workers || id >= |s.db.payments| || s.db.payments[id].status != Processing then s
      else Set(s, w, Notified(Load(s.db, id)))
    case ApplyWebhook(w, verdict) =>
      if w !in s.workers || !s.workers[w].Notified? then s
      else
        var e := s.workers[w].entity;
        Proceed(s, w, Store(s.db, if verdict.Some? then MarkCompleted(e, verdict.value) else TransitionTo(e, Failed)),
              None)
    case StartRefund(w, id, key) =>
      if w in s.workers || RefundKeyUsed(s.db.refunds, key) || id >= |s.db.payments|
          || s.db.payments[id].status != Completed || limit == 0 then s
      else Set(s, w, Refunding(Load(s.db, id), key, 1))
    case AskRefund(w, answer) =>
      if w !in s.workers || !s.workers[w].Refunding? then s
      else
        var e, key, n := s.workers[w].entity, s.workers[w].key, s.workers[w].attempt;
        (match answer
         case Success(_) => Set(s.(confirmations := s.confirmations + [e.id]), w, RefundConfirmed(e, key))
         case Transient => if n >= limit then Drop(s, w) else Set(s, w, Refunding(e, key, n + 1))
         case Permanent => Drop(s, w))
    case RecordRefund(w) =>
      if w !in s.workers || !s.workers[w].RefundConfirmed? then s
      else
        var e := s.workers[w].entity;
        Proceed(s, w, Store(s.db, MarkRefunded(e)),
              Some(RecordingRefund(RefundRow(e.id, e.row.amount, s.workers[w].key))))
    case InsertRefund(w) =>
      if w !in s.workers || !s.workers[w].RecordingRefund? then s
      else (match SaveRefund(s.db, s.workers[w].refund)
            case Err(_) => Drop(s, w)
            case Ok(db) => Drop(s.(db := db), w))
    case Crash(w) => Drop(s, w)
  }

  const START := State(PaymentDb([], [], []), map[], [], [])

  function Run(limit: nat, actions: seq<Action>): State {
    if actions == [] then START else Step(Run(limit, actions[..|actions| - 1]), limit, actions[|actions| - 1])
  }

  /** `s` after more actions. */
  function Follow(s: State, limit: nat, actions: seq<Action>): State
    decreases |actions|
  {
    if actions == [] then s else Follow(Step(s, limit, actions[0]), limit, actions[1..])
  }

  lemma {:induction false} FollowJoins(s: State, limit: nat, a: seq<Action>, b: seq<Action>)
    ensures Follow(s, limit, a + b) == Follow(Follow(s, limit, a), limit, b)
    decreases |a|
  {
    if a == [] {
      assert a + b == b;
    } else {
      assert (a + b)[1..] == a[1..] + b;
      FollowJoins(Step(s, limit, a[0]), limit, a[1..], b);
    }
  }

  lemma FollowOne(s: State, limit: nat, a: Action)
    ensures Follow(s, limit, [a]) == Step(s, limit, a)
  {
    assert [a][1..] == [];
    assert Follow(Step(s, limit, a), limit, []) == Step(s, limit, a);
  }

  // ----- the log, and what a loaded aggregate still knows -----

  predicate RowOk(db: PaymentDb, id: PaymentId)
    requires id < |db.payments|
  {
    var row := db.payments[id];
    && Replay(LogOf(db.events, id)) == Some(row.status)
    && row.version == 1 + |LogOf(db.events, id)|
    && row.amount > 0
    && row.status != RefundPending
    && (row.status in {Completed, Refunded} ==> row.transaction.Some?)
  }

  ghost predicate DbOk(db: PaymentDb) {
    && (forall id :: 0 <= id < |db.payments| ==> RowOk(db, id))
    && (forall id :: id >= |db.payments| ==> LogOf(db.events, id) == [])
    && (forall i, j :: 0 <= i < j < |db.payments| ==>
          db.payments[i].order != db.payments[j].order && db.payments[i].key != db.payments[j].key)
  }

  /** A loaded aggregate is not ahead of its row, and matches it if it has its version. */
  predicate Fits(db: PaymentDb, e: Entity) {
    && e.id < |db.payments| && e.pending == []
    && e.row.version <= db.payments[e.id].version
    && (e.row.version == db.payments[e.id].version ==> e.row == db.payments[e.id])
    && e.row.order == db.payments[e.id].order && e.row.key == db.payments[e.id].key
        && e.row.amount == db.payments[e.id].amount
  }

  predicate WorkerOk(db: PaymentDb, worker: Worker) {
    match worker
    case Inserting(c) => c.amount > 0
    case Inserted(e) => Fits(db, e) && e.row.status == Pending
    case Admitting(e) => Fits(db, e) && e.row.status == Processing
    case Charging(e, _) => Fits(db, e) && e.row.status == Processing
    case Charged(e, _) => Fits(db, e) && e.row.status == Processing
    case Rejected(e) => Fits(db, e) && e.row.status == Processing
    case Answering(_, id, success) => id < |db.payments|
        && (success ==> db.payments[id].status in {Completed, Refunded})
    case Notified(e) => Fits(db, e) && e.row.status == Processing
    case Refunding(e, _, _) => Fits(db, e) && e.row.status == Completed && e.row.transaction.Some?
    case RefundConfirmed(e, _) => Fits(db, e) && e.row.status == Completed && e.row.transaction.Some?
    case RecordingRefund(r) =>
      && r.payment < |db.payments| && db.payments[r.payment].status == Refunded
      && r.amount == db.payments[r.payment].amount
  }

  predicate WorkersOk(s: State) {
    forall w :: w in s.workers ==> WorkerOk(s.db, s.workers[w])
  }

  // ----- who may charge -----

  /** The payment whose inserting execution this is, while it may still charge. */
  predicate Owns(worker: Worker) {
    worker.Inserted? || worker.Admitting? || worker.Charging? || worker.Charged? || worker.Rejected?
  }

  function Calls(charges: seq<Charge>, order: OrderId): nat {
    if charges == [] then 0 else Calls(charges[..|charges| - 1], order) + if charges[|charges| - 1].order == order
        then 1 else 0
  }

  function Successes(charges: seq<Charge>, order: OrderId): nat {
    if charges == [] then 0
    else Successes(charges[..|charges| - 1], order) + if charges[|charges| - 1] == Charge(order, true) then 1 else 0
  }

  lemma CallsAppend(charges: seq<Charge>, c: Charge, order: OrderId)
    ensures Calls(charges + [c], order) == Calls(charges, order) + if c.order == order then 1 else 0
    ensures Successes(charges + [c], order) == Successes(charges, order) + if c == Charge(order, true) then 1 else 0
  {
    assert (charges + [c])[..|charges|] == charges;
  }

  predicate Budget(charges: seq<Charge>, limit: nat, worker: Worker)
    requires Owns(worker)
  {
    var calls, successes := Calls(charges, worker.entity.row.order), Successes(charges, worker.entity.row.order);
    match worker
    case Inserted(_) => calls == 0 && successes == 0
    case Admitting(_) => calls == 0 && successes == 0
    case Charging(_, attempt) => 1 <= attempt <= limit && calls == attempt - 1 && successes == 0
    case _ => true
  }

  ghost predicate ChargesOk(s: State, limit: nat) {
    && (forall order: OrderId :: Calls(s.charges, order) <= limit && Successes(s.charges, order) <= 1)
    && (forall order: OrderId :: (forall i :: 0 <= i < |s.db.payments| ==> s.db.payments[i].order != order) ==>
          Calls(s.charges, order) == 0 && Successes(s.charges, order) == 0)
    && (forall w :: w in s.workers && Owns(s.workers[w]) ==> Budget(s.charges, limit, s.workers[w]))
    && (forall v, w :: v in s.workers && w in s.workers && v != w && Owns(s.workers[v]) && Owns(s.workers[w]) ==>
          s.workers[v].entity.row.order != s.workers[w].entity.row.order)
  }

  // ----- refunds -----

  predicate HasRefund(refunds: seq<RefundRow>, id: PaymentId) {
    exists i :: 0 <= i < |refunds| && refunds[i].payment == id
  }

  predicate RefundsOk(s: State) {
    && (forall i :: 0 <= i < |s.db.refunds| ==>
          var r := s.db.refunds[i];
          r.payment < |s.db.payments| && s.db.payments[r.payment].status == Refunded
              && r.amount == s.db.payments[r.payment].amount)
    && (forall i, j :: 0 <= i < j < |s.db.refunds| ==>
          s.db.refunds[i].payment != s.db.refunds[j].payment && s.db.refunds[i].key != s.db.refunds[j].key)
    && (forall w :: w in s.workers && s.workers[w].RecordingRefund? ==>
          !HasRefund(s.db.refunds, s.workers[w].refund.payment))
    && (forall v, w ::
          && v in s.workers && w in s.workers && v != w
          && s.workers[v].RecordingRefund? && s.workers[w].RecordingRefund?
          ==>
          s.workers[v].refund.payment != s.workers[w].refund.payment)
  }

  ghost predicate Inv(s: State, limit: nat) {
    DbOk(s.db) && WorkersOk(s) && ChargesOk(s, limit) && RefundsOk(s)
  }

  // ----- writes -----

  /** `m` is `e` after transitions that its pending events record, fit to be stored. */
  predicate Moves(e: Entity, m: Entity) {
    && m.id == e.id && m.pending != [] && m.row.version == e.row.version + |m.pending|
    && Continues(e.row.status, m.pending, e.id, m.row.status)
    && m.row.order == e.row.order && m.row.key == e.row.key && m.row.amount == e.row.amount
    && m.row.status != RefundPending
    && (m.row.status in {Completed, Refunded} ==> m.row.transaction.Some?)
  }

  lemma WriteKeepsDb(db: PaymentDb, e: Entity, m: Entity)
    requires DbOk(db) && Fits(db, e) && Moves(e, m) && UpdatePayment(db, m).Ok?
    ensures var db' := UpdatePayment(db, m).value;
            && e.row == db.payments[e.id]
            && db' == PaymentDb(db.payments[e.id := m.row], db.events + m.pending, db.refunds)
            && DbOk(db')
  {
    var db' := UpdatePayment(db, m).value;
    var log := LogOf(db.events, e.id);
    assert RowOk(db, e.id);
    ReplayContinues(log, e.row.status, m.pending, e.id, m.row.status);
    forall id: PaymentId
      ensures LogOf(db'.events, id) == LogOf(db.events, id) + LogOf(m.pending, id)
    {
      LogAppend(db.events, m.pending, id);
    }
    forall id | 0 <= id < |db'.payments|
      ensures RowOk(db', id)
    {
      assert RowOk(db, id);
      assert id != e.id ==> LogOf(db.events, id) + [] == LogOf(db.events, id);
    }
  }

  /** Rows only move forward: a payment that was COMPLETED is COMPLETED or REFUNDED, and REFUNDED is final. */
  lemma MovesForward(e: Entity, m: Entity)
    requires Moves(e, m)
    ensures e.row.status == Completed ==> m.row.status in {Completed, Refunded}
    ensures e.row.status != Refunded && e.row.status != Failed
  {
  }

  lemma WriteKeepsWorker(db: PaymentDb, e: Entity, m: Entity, worker: Worker)
    requires DbOk(db) && Fits(db, e) && Moves(e, m) && UpdatePayment(db, m).Ok? && WorkerOk(db, worker)
    ensures WorkerOk(UpdatePayment(db, m).value, worker)
  {
    WriteKeepsDb(db, e, m);
    MovesForward(e, m);
  }

  /** What a worker may turn into without new charges: it keeps its order and its budget, or gives up ownership. */
  predicate Succeeds(s: State, limit: nat, w: nat, next: Worker) {
    Owns(next) ==>
      && w in s.workers && Owns(s.workers[w]) && next.entity.row.order == s.workers[w].entity.row.order
      && Budget(s.charges, limit, next)
  }

  lemma SetKeepsCharges(s: State, limit: nat, w: nat, next: Worker)
    requires ChargesOk(s, limit) && Succeeds(s, limit, w, next)
    ensures ChargesOk(Set(s, w, next), limit)
  {
  }

  lemma SetKeepsInv(s: State, limit: nat, w: nat, next: Worker)
    requires Inv(s, limit) && WorkerOk(s.db, next) && Succeeds(s, limit, w, next) && !next.RecordingRefund?
    ensures Inv(Set(s, w, next), limit)
  {
    SetKeepsCharges(s, limit, w, next);
  }

  lemma DropKeepsInv(s: State, limit: nat, w: nat)
    requires Inv(s, limit)
    ensures Inv(Drop(s, w), limit)
  {
  }

  lemma WriteKeepsWorkers(s: State, e: Entity, m: Entity)
    requires DbOk(s.db) && WorkersOk(s) && Fits(s.db, e) && Moves(e, m) && UpdatePayment(s.db, m).Ok?
    ensures WorkersOk(s.(db := UpdatePayment(s.db, m).value))
  {
    forall w | w in s.workers
      ensures WorkerOk(UpdatePayment(s.db, m).value, s.workers[w])
    {
      WriteKeepsWorker(s.db, e, m, s.workers[w]);
    }
  }

  lemma WriteKeepsCharges(s: State, limit: nat, db: PaymentDb)
    requires ChargesOk(s, limit) && |db.payments| == |s.db.payments|
    requires forall i :: 0 <= i < |db.payments| ==> db.payments[i].order == s.db.payments[i].order
    ensures ChargesOk(s.(db := db), limit)
  {
    var s' := s.(db := db);
    forall order: OrderId | forall i :: 0 <= i < |db.payments| ==> db.payments[i].order != order
      ensures Calls(s.charges, order) == 0 && Successes(s.charges, order) == 0
    {
      assert forall i :: 0 <= i < |s.db.payments| ==> s.db.payments[i].order == db.payments[i].order;
    }
  }

  /** The database part of a successful write keeps the whole invariant. */
  lemma WriteKeepsInv(s: State, limit: nat, e: Entity, m: Entity)
    requires Inv(s, limit) && Fits(s.db, e) && Moves(e, m) && UpdatePayment(s.db, m).Ok?
    ensures Inv(s.(db := UpdatePayment(s.db, m).value), limit)
  {
    WriteKeepsDb(s.db, e, m);
    MovesForward(e, m);
    WriteKeepsWorkers(s, e, m);
    WriteKeepsCharges(s, limit, UpdatePayment(s.db, m).value);
  }

  lemma ProceedKeepsInv(s: State, limit: nat, w: nat, e: Entity, moved: Result<Entity, PaymentError>,
                        next: Option<Worker>)
    requires Inv(s, limit) && Fits(s.db, e)
    requires moved.Ok? ==> Moves(e, moved.value)
    requires Store(s.db, moved).Ok? && next.Some? ==>
               WorkerOk(Store(s.db, moved).value, next.value) && Succeeds(s, limit, w, next.value)
                   && !next.value.RecordingRefund?
    ensures Inv(Proceed(s, w, Store(s.db, moved), next), limit)
  {
    var stored := Store(s.db, moved);
    if stored.Ok? {
      WriteKeepsInv(s, limit, e, moved.value);
      var s' := s.(db := stored.value);
      if next.Some? {
        assert Succeeds(s', limit, w, next.value);
        SetKeepsInv(s', limit, w, next.value);
      } else {
        DropKeepsInv(s', limit, w);
      }
    } else {
      DropKeepsInv(s, limit, w);
    }
  }

  // ----- the steps -----

  lemma InsertKeepsInv(s: State, limit: nat, w: nat)
    requires Inv(s, limit)
    ensures Inv(Step(s, limit, Insert(w)), limit)
  {
    if w in s.workers && s.workers[w].Inserting? {
      var c := s.workers[w].command;
      assert WorkerOk(s.db, s.workers[w]);
      if Clashes(s.db.payments, c.order, c.key) {
        DropKeepsInv(s, limit, w);
      } else {
        InsertRow(s, limit, w, c);
      }
    }
  }

  lemma InsertRow(s: State, limit: nat, w: nat, c: Command)
    requires Inv(s, limit) && w in s.workers && s.workers[w] == Inserting(c) && c.amount > 0
    requires !Clashes(s.db.payments, c.order, c.key)
    ensures Inv(Step(s, limit, Insert(w)), limit)
  {
    var s' := Step(s, limit, Insert(w));
    var n := |s.db.payments|;
    assert s'.db.payments[n].order == c.order;
    forall id | 0 <= id < |s'.db.payments|
      ensures RowOk(s'.db, id)
    {
      if id < n {
        assert RowOk(s.db, id);
      }
    }
    assert forall i :: 0 <= i < n ==> s.db.payments[i].order != c.order;
    assert ChargesOk(s', limit) by {
      InsertKeepsCharges(s, limit, w, c);
    }
  }

  lemma InsertKeepsCharges(s: State, limit: nat, w: nat, c: Command)
    requires ChargesOk(s, limit) && WorkersOk(s) && w in s.workers && s.workers[w] == Inserting(c)
    requires !Clashes(s.db.payments, c.order, c.key)
    ensures ChargesOk(Step(s, limit, Insert(w)), limit)
  {
    var s' := Step(s, limit, Insert(w));
    assert forall i :: 0 <= i < |s.db.payments| ==> s.db.payments[i].order != c.order;
    forall order: OrderId | forall i :: 0 <= i < |s'.db.payments| ==> s'.db.payments[i].order != order
      ensures Calls(s.charges, order) == 0 && Successes(s.charges, order) == 0
    {
      assert forall i :: 0 <= i < |s.db.payments| ==> s.db.payments[i] == s'.db.payments[i];
    }
    forall v | v in s.workers && v != w && Owns(s.workers[v])
      ensures s.workers[v].entity.row.order != c.order
    {
      assert WorkerOk(s.db, s.workers[v]);
    }
  }

  /** What a charging worker becomes on the gateway's answer. */
  function AfterAnswer(worker: Worker, limit: nat, answer: Outcome<TransactionId>): Worker
    requires worker.Charging?
  {
    match answer
    case Success(transaction) => Charged(worker.entity, transaction)
    case Transient => if worker.attempt >= limit then Rejected(worker.entity)
        else Charging(worker.entity, worker.attempt + 1)
    case Permanent => Rejected(worker.entity)
  }

  lemma AskKeepsCharges(s: State, limit: nat, w: nat, answer: Outcome<TransactionId>)
    requires ChargesOk(s, limit) && w in s.workers && s.workers[w].Charging? && Fits(s.db, s.workers[w].entity)
    ensures var order := s.workers[w].entity.row.order;
            ChargesOk(Set(s.(charges := s.charges + [Charge(order, answer.Success?)]), w,
                  AfterAnswer(s.workers[w], limit, answer)), limit)
  {
    var e := s.workers[w].entity;
    var charges := s.charges + [Charge(e.row.order, answer.Success?)];
    assert Budget(s.charges, limit, s.workers[w]);
    forall order: OrderId
      ensures Calls(charges, order) == Calls(s.charges, order) + if e.row.order == order then 1 else 0
      ensures Successes(charges, order) == Successes(s.charges, order) + if e.row.order == order
              && answer.Success? then 1 else 0
    {
      CallsAppend(s.charges, Charge(e.row.order, answer.Success?), order);
    }
    assert s.db.payments[e.id].order == e.row.order;
  }

  /** The gateway's answer in one step: the request is logged, and the worker moves on. */
  lemma AskIs(s: State, limit: nat, w: nat, answer: Outcome<TransactionId>)
    requires w in s.workers && s.workers[w].Charging?
    ensures var charges := s.charges + [Charge(s.workers[w].entity.row.order, answer.Success?)];
            Step(s, limit, AskGateway(w, answer)) ==
                Set(s.(charges := charges), w, AfterAnswer(s.workers[w], limit, answer))
  {
  }

  lemma ChargesChanged(s: State, limit: nat, w: nat, next: Worker, charges: seq<Charge>)
    requires Inv(s, limit) && WorkerOk(s.db, next) && !next.RecordingRefund?
    requires ChargesOk(Set(s.(charges := charges), w, next), limit)
    ensures Inv(Set(s.(charges := charges), w, next), limit)
  {
  }

  lemma AskKeepsInv(s: State, limit: nat, w: nat, answer: Outcome<TransactionId>)
    requires Inv(s, limit)
    ensures Inv(Step(s, limit, AskGateway(w, answer)), limit)
  {
    if w in s.workers && s.workers[w].Charging? {
      var next := AfterAnswer(s.workers[w], limit, answer);
      var charges := s.charges + [Charge(s.workers[w].entity.row.order, answer.Success?)];
      assert WorkerOk(s.db, s.workers[w]);
      AskIs(s, limit, w, answer);
      AskKeepsCharges(s, limit, w, answer);
      ChargesChanged(s, limit, w, next, charges);
    }
  }

  lemma RecordKeepsInv(s: State, limit: nat, w: nat)
    requires Inv(s, limit)
    ensures Inv(Step(s, limit, Record(w)), limit)
  {
    if w in s.workers && (s.workers[w].Charged? || s.workers[w].Rejected?) {
      var e := s.workers[w].entity;
      assert WorkerOk(s.db, s.workers[w]);
      var moved := if s.workers[w].Charged? then MarkCompleted(e, s.workers[w].transaction)
          else TransitionTo(e, Failed);
      if Store(s.db, moved).Ok? {
        WriteKeepsDb(s.db, e, moved.value);
      }
      ProceedKeepsInv(s, limit, w, e, moved, Some(Answering(e.row.order, e.id, s.workers[w].Charged?)));
    }
  }

  lemma BeginKeepsInv(s: State, limit: nat, w: nat)
    requires Inv(s, limit)
    ensures Inv(Step(s, limit, Begin(w)), limit)
  {
    if w in s.workers && s.workers[w].Inserted? {
      var e := s.workers[w].entity;
      assert WorkerOk(s.db, s.workers[w]) && Budget(s.charges, limit, s.workers[w]);
      var moved := TransitionTo(e, Processing);
      var stored := Store(s.db, moved);
      if stored.Ok? {
        WriteKeepsDb(s.db, e, moved.value);
      }
      ProceedKeepsInv(s, limit, w, e, moved, Some(Admitting(Reloaded(stored, e))));
    }
  }

  lemma WebhookKeepsInv(s: State, limit: nat, w: nat, verdict: Option<TransactionId>)
    requires Inv(s, limit)
    ensures Inv(Step(s, limit, ApplyWebhook(w, verdict)), limit)
  {
    if w in s.workers && s.workers[w].Notified? {
      var e := s.workers[w].entity;
      assert WorkerOk(s.db, s.workers[w]);
      ProceedKeepsInv(s, limit, w, e, if verdict.Some? then MarkCompleted(e, verdict.value)
            else TransitionTo(e, Failed), None);
    }
  }

  lemma RecordingKeepsRefunds(s: State, w: nat, refund: RefundRow)
    requires WorkersOk(s) && RefundsOk(s) && !HasRefund(s.db.refunds, refund.payment)
    requires forall v :: v in s.workers && s.workers[v].RecordingRefund? ==>
             s.workers[v].refund.payment != refund.payment
    ensures RefundsOk(Set(s, w, RecordingRefund(refund)))
  {
  }

  /** The write of a confirmed refund finds the payment COMPLETED, so without a refund row. */
  lemma CompletedHasNoRefund(s: State, id: PaymentId)
    requires WorkersOk(s) && RefundsOk(s) && id < |s.db.payments| && s.db.payments[id].status == Completed
    ensures !HasRefund(s.db.refunds, id)
    ensures forall v :: v in s.workers && s.workers[v].RecordingRefund? ==> s.workers[v].refund.payment != id
  {
    forall v | v in s.workers && s.workers[v].RecordingRefund?
      ensures s.workers[v].refund.payment != id
    {
      assert WorkerOk(s.db, s.workers[v]);
    }
  }

  lemma RefundKeepsInv(s: State, limit: nat, w: nat)
    requires Inv(s, limit)
    ensures Inv(Step(s, limit, RecordRefund(w)), limit)
  {
    if w in s.workers && s.workers[w].RefundConfirmed? {
      var e, key := s.workers[w].entity, s.workers[w].key;
      assert WorkerOk(s.db, s.workers[w]);
      var moved := MarkRefunded(e);
      if Store(s.db, moved).Ok? {
        RefundStored(s, limit, w, e, key);
      } else {
        DropKeepsInv(s, limit, w);
      }
    }
  }

  lemma RefundStored(s: State, limit: nat, w: nat, e: Entity, key: Key)
    requires Inv(s, limit) && Fits(s.db, e) && e.row.status == Completed && e.row.transaction.Some?
             && Store(s.db, MarkRefunded(e)).Ok?
    ensures Inv(Set(s.(db := Store(s.db, MarkRefunded(e)).value), w,
              RecordingRefund(RefundRow(e.id, e.row.amount, key))), limit)
  {
    var m := MarkRefunded(e).value;
    assert Moves(e, m);
    WriteKeepsDb(s.db, e, m);
    CompletedHasNoRefund(s, e.id);
    WriteKeepsInv(s, limit, e, m);
    var s' := s.(db := UpdatePayment(s.db, m).value);
    var refund := RefundRow(e.id, e.row.amount, key);
    SetKeepsCharges(s', limit, w, RecordingRefund(refund));
    RecordingKeepsRefunds(s', w, refund);
    assert WorkerOk(s'.db, RecordingRefund(refund));
  }

  lemma RefundRowKeepsRefunds(s: State, w: nat)
    requires WorkersOk(s) && RefundsOk(s) && w in s.workers && s.workers[w].RecordingRefund?
    requires !RefundKeyUsed(s.db.refunds, s.workers[w].refund.key)
    ensures RefundsOk(Drop(s.(db := s.db.(refunds := s.db.refunds + [s.workers[w].refund])), w))
  {
    var r := s.workers[w].refund;
    assert WorkerOk(s.db, s.workers[w]);
    var s' := Drop(s.(db := s.db.(refunds := s.db.refunds + [r])), w);
    forall v | v in s'.workers && s'.workers[v].RecordingRefund?
      ensures !HasRefund(s'.db.refunds, s'.workers[v].refund.payment)
    {
      assert !HasRefund(s.db.refunds, s.workers[v].refund.payment);
    }
  }

  /** Refund rows play no part in the other invariants. */
  lemma RefundRowKeepsRest(s: State, limit: nat, refunds: seq<RefundRow>)
    requires DbOk(s.db) && WorkersOk(s) && ChargesOk(s, limit)
    ensures var s' := s.(db := s.db.(refunds := refunds)); DbOk(s'.db) && WorkersOk(s') && ChargesOk(s', limit)
  {
    var s' := s.(db := s.db.(refunds := refunds));
    forall id | 0 <= id < |s'.db.payments|
      ensures RowOk(s'.db, id)
    {
      assert RowOk(s.db, id);
    }
    forall v | v in s'.workers
      ensures WorkerOk(s'.db, s'.workers[v])
    {
      assert WorkerOk(s.db, s.workers[v]);
    }
    WriteKeepsCharges(s, limit, s'.db);
  }

  lemma InsertRefundKeepsInv(s: State, limit: nat, w: nat)
    requires Inv(s, limit)
    ensures Inv(Step(s, limit, InsertRefund(w)), limit)
  {
    if w in s.workers && s.workers[w].RecordingRefund? {
      var refunds := s.db.refunds + [s.workers[w].refund];
      DropKeepsInv(s, limit, w);
      if !RefundKeyUsed(s.db.refunds, s.workers[w].refund.key) {
        RefundRowKeepsRefunds(s, w);
        RefundRowKeepsRest(Drop(s, w), limit, refunds);
      }
    }
  }

  lemma StepKeepsInv(s: State, limit: nat, a: Action)
    requires Inv(s, limit)
    ensures Inv(Step(s, limit, a), limit)
  {
    match a
    case StartProcess(w, command) =>
      StartKeepsInv(s, limit, w, command);
    case Insert(w) => InsertKeepsInv(s, limit, w);
    case Begin(w) => BeginKeepsInv(s, limit, w);
    case EnterBreaker(w, admitted) =>
      if w in s.workers && s.workers[w].Admitting? {
        assert WorkerOk(s.db, s.workers[w]) && Budget(s.charges, limit, s.workers[w]);
        var e := s.workers[w].entity;
        SetKeepsInv(s, limit, w, if admitted && limit > 0 then Charging(e, 1) else Rejected(e));
      }
    case AskGateway(w, answer) => AskKeepsInv(s, limit, w, answer);
    case Record(w) => RecordKeepsInv(s, limit, w);
    case Answer(w) => DropKeepsInv(s, limit, w);
    case StartWebhook(w, id) => StartWebhookKeepsInv(s, limit, w, id);
    case ApplyWebhook(w, verdict) => WebhookKeepsInv(s, limit, w, verdict);
    case StartRefund(w, id, key) => StartRefundKeepsInv(s, limit, w, id, key);
    case AskRefund(w, answer) => AskRefundKeepsInv(s, limit, w, answer);
    case RecordRefund(w) => RefundKeepsInv(s, limit, w);
    case InsertRefund(w) => InsertRefundKeepsInv(s, limit, w);
    case Crash(w) => DropKeepsInv(s, limit, w);
  }

  lemma StartKeepsInv(s: State, limit: nat, w: nat, command: Command)
    requires Inv(s, limit)
    ensures Inv(Step(s, limit, StartProcess(w, command)), limit)
  {
    if w !in s.workers {
      match FindByKey(s.db.payments, command.key)
      case Some(id) => SetKeepsInv(s, limit, w, Answering(command.order, id, s.db.payments[id].status == Completed));
      case None =>
        if command.amount > 0 {
          SetKeepsInv(s, limit, w, Inserting(command));
        }
    }
  }

  lemma StartWebhookKeepsInv(s: State, limit: nat, w: nat, id: PaymentId)
    requires Inv(s, limit)
    ensures Inv(Step(s, limit, StartWebhook(w, id)), limit)
  {
    if w !in s.workers && id < |s.db.payments| && s.db.payments[id].status == Processing {
      SetKeepsInv(s, limit, w, Notified(Load(s.db, id)));
    }
  }

  lemma StartRefundKeepsInv(s: State, limit: nat, w: nat, id: PaymentId, key: Key)
    requires Inv(s, limit)
    ensures Inv(Step(s, limit, StartRefund(w, id, key)), limit)
  {
    if w !in s.workers && id < |s.db.payments| && s.db.payments[id].status == Completed {
      assert RowOk(s.db, id);
      SetKeepsInv(s, limit, w, Refunding(Load(s.db, id), key, 1));
    }
  }

  lemma ConfirmationsKeepInv(s: State, limit: nat, confirmations: seq<PaymentId>)
    requires Inv(s, limit)
    ensures Inv(s.(confirmations := confirmations), limit)
  {
  }

  /** What a refunding worker becomes on the gateway's answer; a worker that gives up is dropped. */
  function AfterRefundAnswer(worker: Worker, limit: nat, answer: Outcome<TransactionId>): Option<Worker>
    requires worker.Refunding?
  {
    match answer
    case Success(_) => Some(RefundConfirmed(worker.entity, worker.key))
    case Transient => if worker.attempt >= limit then None
        else Some(Refunding(worker.entity, worker.key, worker.attempt + 1))
    case Permanent => None
  }

  lemma AskRefundIs(s: State, limit: nat, w: nat, answer: Outcome<TransactionId>)
    requires w in s.workers && s.workers[w].Refunding?
    ensures var next := AfterRefundAnswer(s.workers[w], limit, answer);
            var confirmations := if answer.Success? then s.confirmations + [s.workers[w].entity.id]
                else s.confirmations;
            Step(s, limit, AskRefund(w, answer)) ==
                (if next.Some? then Set(s, w, next.value) else Drop(s, w)).(confirmations := confirmations)
  {
  }

  lemma AskRefundKeepsInv(s: State, limit: nat, w: nat, answer: Outcome<TransactionId>)
    requires Inv(s, limit)
    ensures Inv(Step(s, limit, AskRefund(w, answer)), limit)
  {
    if w in s.workers && s.workers[w].Refunding? {
      assert WorkerOk(s.db, s.workers[w]);
      var next := AfterRefundAnswer(s.workers[w], limit, answer);
      AskRefundIs(s, limit, w, answer);
      if next.Some? {
        SetKeepsInv(s, limit, w, next.value);
        ConfirmationsKeepInv(Set(s, w, next.value), limit, Step(s, limit, AskRefund(w, answer)).confirmations);
      } else {
        DropKeepsInv(s, limit, w);
        ConfirmationsKeepInv(Drop(s, w), limit, Step(s, limit, AskRefund(w, answer)).confirmations);
      }
    }
  }

  lemma {:induction false} RunKeepsInv(limit: nat, actions: seq<Action>)
    ensures Inv(Run(limit, actions), limit)
    decreases |actions|
  {
    if actions != [] {
      RunKeepsInv(limit, actions[..|actions| - 1]);
      StepKeepsInv(Run(limit, actions[..|actions| - 1]), limit, actions[|actions| - 1]);
    }
  }
}
