/**
 The handlers of the payment service refine the interleaved system: `ProcessPayment` leaves what one
 execution leaves whose steps nobody interrupts, and tells the breaker what a call of that outcome tells it.
 */
module PaymentExecutions {
  import opened Results
  import opened InventoryTables
  import opened PaymentTables
  import opened PaymentHandlers
  import opened Retry
  import opened BreakerMoves
  import P = PaymentSystem
  import R = BreakerRuns

  /** The requests a retry loop sends the gateway. */
  function Asks(w: nat, answers: seq<Outcome<TransactionId>>): seq<P.Action> {
    seq(|answers|, i requires 0 <= i < |answers| => P.AskGateway(w, answers[i]))
  }

  /** One execution from its lookup to its last write, with no step of any other in between. */
  function Execution(w: nat, c: P.Command, admitted: bool, answers: seq<Outcome<TransactionId>>): seq<P.Action> {
    Opening(w, c, admitted) + Asks(w, answers) + [P.Record(w)]
  }

  /** The charge requests the gateway received. */
  function ChargesFor(order: OrderId, answers: seq<Outcome<TransactionId>>): seq<P.Charge> {
    seq(|answers|, i requires 0 <= i < |answers| => P.Charge(order, answers[i].Success?))
  }

  /** The inserted payment once it is PROCESSING. */
  function Processed(id: PaymentId, c: P.Command): Entity {
    Entity(id, PaymentRow(c.order, c.key, c.amount, Processing, None, 2), [])
  }

  /** The tables when the new payment is PROCESSING. */
  function Opened(db: PaymentDb, c: P.Command): PaymentDb {
    var id := |db.payments|;
    db.(payments := db.payments + [Processed(id, c).row], events := db.events + [PaymentEvent(id, Pending, Processing)])
  }

  /** The command inserts a payment: no payment has its key or its order, and there is something to pay. */
  predicate Inserts(db: PaymentDb, c: P.Command) {
    FindByKey(db.payments, c.key).None? && c.amount > 0 && !Clashes(db.payments, c.order, c.key)
  }

  lemma FollowFour(s: P.State, limit: nat, a: P.Action, b: P.Action, c: P.Action, d: P.Action)
    ensures P.Follow(s, limit, [a, b, c, d]) ==
            P.Step(P.Step(P.Step(P.Step(s, limit, a), limit, b), limit, c), limit, d)
  {
    P.FollowJoins(s, limit, [a], [b, c, d]);
    P.FollowJoins(P.Step(s, limit, a), limit, [b], [c, d]);
    P.FollowJoins(P.Step(P.Step(s, limit, a), limit, b), limit, [c], [d]);
    assert [a] + [b, c, d] == [a, b, c, d] && [b] + [c, d] == [b, c, d] && [c] + [d] == [c, d];
    P.FollowOne(s, limit, a);
    P.FollowOne(P.Step(s, limit, a), limit, b);
    P.FollowOne(P.Step(P.Step(s, limit, a), limit, b), limit, c);
    P.FollowOne(P.Step(P.Step(P.Step(s, limit, a), limit, b), limit, c), limit, d);
  }

  lemma InsertIs(s: P.State, limit: nat, w: nat, c: P.Command)
    requires w !in s.workers && Inserts(s.db, c)
    ensures var s' := P.Step(P.Step(P.Step(s, limit, P.StartProcess(w, c)), limit, P.Insert(w)), limit, P.Begin(w));
            s' == s.(db := Opened(s.db, c), workers := s.workers[w := P.Admitting(Processed(|s.db.payments|, c))])
  {
    var id := |s.db.payments|;
    var s1 := P.Step(s, limit, P.StartProcess(w, c));
    assert s1 == s.(workers := s.workers[w := P.Inserting(c)]);
    var s2 := P.Step(s1, limit, P.Insert(w));
    var row := PaymentRow(c.order, c.key, c.amount, Pending, None, 1);
    assert s2.db == s.db.(payments := s.db.payments + [row]);
    assert s2 == s.(db := s2.db, workers := s.workers[w := P.Inserted(Entity(id, row, []))]);
    var s3 := P.Step(s2, limit, P.Begin(w));
    assert (s.db.payments + [row])[id := Processed(id, c).row] == s.db.payments + [Processed(id, c).row];
    assert s3.db == Opened(s.db, c);
  }

  /** How the retry loop leaves the execution. */
  function Ended(e: Entity, answer: Outcome<TransactionId>): P.Worker {
    match answer
    case Success(transaction) => P.Charged(e, transaction)
    case _ => P.Rejected(e)
  }

  lemma {:induction false} AsksEnd(s: P.State, limit: nat, w: nat, e: Entity, n: nat,
                                   script: seq<Outcome<TransactionId>>)
    requires w in s.workers && s.workers[w] == P.Charging(e, n) && 1 <= n <= limit && |script| >= limit - n + 1
    ensures var calls := CallsMade(script, limit - n + 1);
            P.Follow(s, limit, Asks(w, script[..calls])) ==
            s.(workers := s.workers[w := Ended(e, script[calls - 1])],
               charges := s.charges + ChargesFor(e.row.order, script[..calls]))
    decreases limit - n
  {
    var calls := CallsMade(script, limit - n + 1);
    var asks := Asks(w, script[..calls]);
    var s1 := P.Step(s, limit, asks[0]);
    assert asks[1..] == Asks(w, script[1..][..calls - 1]);
    assert script[..calls][..1] + script[1..][..calls - 1] == script[..calls];
    assert ChargesFor(e.row.order, script[..calls]) ==
        [P.Charge(e.row.order, script[0].Success?)] + ChargesFor(e.row.order, script[1..][..calls - 1]);
    if calls > 1 {
      assert s1.workers == s.workers[w := P.Charging(e, n + 1)];
      AsksEnd(s1, limit, w, e, n + 1, script[1..]);
    } else {
      assert asks == [asks[0]] && P.Follow(s, limit, asks) == s1 by {
        P.FollowOne(s, limit, asks[0]);
      }
    }
  }

  lemma RecordIs(s: P.State, limit: nat, w: nat, db: PaymentDb, c: P.Command, answer: Option<Outcome<TransactionId>>)
    requires s.db == Opened(db, c) && w in s.workers
    requires var e := Processed(|db.payments|, c);
             s.workers[w] == if answer.Some? then Ended(e, answer.value) else P.Rejected(e)
    ensures var success := answer.Some? && answer.value.Success?;
            P.Step(s, limit, P.Record(w)) ==
            s.(db := Settled(db, c.order, c.key, c.amount, if success then Some(answer.value.value) else None),
               workers := s.workers[w := P.Answering(c.order, |db.payments|, success)])
  {
    var success := answer.Some? && answer.value.Success?;
    var id := |db.payments|;
    var settled := Settled(db, c.order, c.key, c.amount, if success then Some(answer.value.value) else None);
    assert s.db.payments[id := settled.payments[id]] == settled.payments;
    var last := PaymentEvent(id, Processing, settled.payments[id].status);
    assert s.db.events + [last] == settled.events;
    assert [] + [last] == [last];
  }

  function Opening(w: nat, c: P.Command, admitted: bool): seq<P.Action> {
    [P.StartProcess(w, c), P.Insert(w), P.Begin(w), P.EnterBreaker(w, admitted)]
  }

  lemma OpeningIs(s: P.State, limit: nat, w: nat, c: P.Command, admitted: bool)
    requires w !in s.workers && Inserts(s.db, c)
    ensures var e := Processed(|s.db.payments|, c);
            P.Follow(s, limit, Opening(w, c, admitted)) ==
            s.(db := Opened(s.db, c),
               workers := s.workers[w := if admitted && limit > 0 then P.Charging(e, 1) else P.Rejected(e)])
  {
    FollowFour(s, limit, P.StartProcess(w, c), P.Insert(w), P.Begin(w), P.EnterBreaker(w, admitted));
    InsertIs(s, limit, w, c);
  }

  /** The last answer of the retry loop, if it made a call. */
  function Last(script: seq<Outcome<TransactionId>>, calls: nat): Option<Outcome<TransactionId>>
    requires calls <= |script|
  {
    if calls > 0 then Some(script[calls - 1]) else None
  }

  lemma LoopIs(s: P.State, limit: nat, w: nat, e: Entity, admitted: bool, script: seq<Outcome<TransactionId>>)
    requires w in s.workers && |script| >= limit
    requires s.workers[w] == if admitted && limit > 0 then P.Charging(e, 1) else P.Rejected(e)
    ensures var calls := if admitted then CallsMade(script, limit) else 0;
            P.Follow(s, limit, Asks(w, script[..calls])) ==
            s.(workers := s.workers[w := if calls > 0 then Ended(e, script[calls - 1]) else P.Rejected(e)],
               charges := s.charges + ChargesFor(e.row.order, script[..calls]))
  {
    if admitted && limit > 0 {
      AsksEnd(s, limit, w, e, 1, script);
    } else {
      assert Asks(w, script[..0]) == [] && s.charges + ChargesFor(e.row.order, script[..0]) == s.charges;
      assert s.workers[w := P.Rejected(e)] == s.workers;
    }
  }

  lemma FollowThree(s: P.State, limit: nat, a: seq<P.Action>, b: seq<P.Action>, c: P.Action)
    ensures P.Follow(s, limit, a + b + [c]) == P.Step(P.Follow(P.Follow(s, limit, a), limit, b), limit, c)
  {
    P.FollowJoins(s, limit, a, b);
    P.FollowJoins(s, limit, a + b, [c]);
    P.FollowOne(P.Follow(P.Follow(s, limit, a), limit, b), limit, c);
  }

  /**
   An uninterrupted execution that inserts its payment leaves the tables `ProcessPayment` leaves: a payment for
   the command's order, key and amount, settled by the last answer of the retry loop.
   */
  lemma ExecutionSettles(s: P.State, limit: nat, w: nat, c: P.Command, admitted: bool,
                         script: seq<Outcome<TransactionId>>)
    requires w !in s.workers && Inserts(s.db, c) && |script| >= limit
    ensures var calls := if admitted then CallsMade(script, limit) else 0;
            var success := calls > 0 && script[calls - 1].Success?;
            P.Follow(s, limit, Execution(w, c, admitted, script[..calls])) ==
            s.(db := Settled(s.db, c.order, c.key, c.amount, if success then Some(script[calls - 1].value) else None),
               workers := s.workers[w := P.Answering(c.order, |s.db.payments|, success)],
               charges := s.charges + ChargesFor(c.order, script[..calls]))
  {
    var calls := if admitted then CallsMade(script, limit) else 0;
    var e := Processed(|s.db.payments|, c);
    FollowThree(s, limit, Opening(w, c, admitted), Asks(w, script[..calls]), P.Record(w));
    OpeningIs(s, limit, w, c, admitted);
    var s1 := P.Follow(s, limit, Opening(w, c, admitted));
    LoopIs(s1, limit, w, e, admitted, script);
    var s2 := P.Follow(s1, limit, Asks(w, script[..calls]));
    RecordIs(s2, limit, w, s.db, c, Last(script, calls));
  }

  lemma {:induction false} NothingLeft(s: P.State, limit: nat, w: nat, actions: seq<P.Action>)
    requires w !in s.workers || s.workers[w].Answering?
    requires forall i :: 0 <= i < |actions| ==>
             actions[i] in {P.Insert(w), P.Begin(w), P.Record(w)} || (actions[i].EnterBreaker? && actions[i].w == w)
             || (actions[i].AskGateway? && actions[i].w == w)
    ensures P.Follow(s, limit, actions) == s
    decreases |actions|
  {
    if actions != [] {
      NothingLeft(s, limit, w, actions[1..]);
    }
  }

  /** One that finds a payment under its key answers from it, and one that throws is gone; both leave the tables. */
  lemma ExecutionFinds(s: P.State, limit: nat, w: nat, c: P.Command, admitted: bool,
                       answers: seq<Outcome<TransactionId>>)
    requires w !in s.workers && !Inserts(s.db, c)
    ensures P.Follow(s, limit, Execution(w, c, admitted, answers)) ==
            match FindByKey(s.db.payments, c.key)
            case Some(id) =>
              s.(workers := s.workers[w := P.Answering(c.order, id, s.db.payments[id].status == Completed)])
            case None => s
  {
    var all := Execution(w, c, admitted, answers);
    var s1 := P.Step(s, limit, P.StartProcess(w, c));
    if FindByKey(s.db.payments, c.key).Some? || c.amount <= 0 {
      NothingLeft(s1, limit, w, all[1..]);
    } else {
      var s2 := P.Step(s1, limit, P.Insert(w));
      assert s2.workers == s.workers;
      assert all[1] == P.Insert(w) && all[1..][1..] == all[2..];
      NothingLeft(s2, limit, w, all[2..]);
    }
  }

  // ----- the breaker -----

  /** What the last answer of the retry loop is to the breaker; only transient failures count. */
  function EndOf(last: Option<Outcome<TransactionId>>, at: int): R.Event {
    match last
    case Some(Success(_)) => R.Success(at)
    case Some(Transient) => R.Failure(true, at)
    case _ => R.Failure(false, at)
  }

  /** An execution is one call of the breaker: its arrival, and if that is admitted, its end. */
  lemma ExecutionIsOneCall(s: R.State, o: Options, world: World, charges: nat)
    requires s.clock <= world.startedAt <= world.finishedAt && charges <= |world.script|
    ensures var arrived := R.Step(s, o, R.Arrive(world.startedAt));
            var last := if charges == 0 then None else Some(world.script[charges - 1]);
            var ended := if Admits(s.breaker, world.startedAt) then R.Step(arrived, o, EndOf(last, world.finishedAt))
                         else arrived;
            ended.breaker == BreakerAfter(s.breaker, o, world, charges) && ended.inFlight == s.inFlight
  {
  }

  // ----- webhooks and refunds -----

  /** A webhook that nothing interrupts leaves what `ProcessWebhook` leaves. */
  lemma WebhookIsRun(s: P.State, limit: nat, w: nat, id: PaymentId, verdict: Option<TransactionId>)
    requires w !in s.workers
    ensures var s' := P.Step(P.Step(s, limit, P.StartWebhook(w, id)), limit, P.ApplyWebhook(w, verdict));
            && s'.workers == s.workers && s'.charges == s.charges
            && if id < |s.db.payments| && s.db.payments[id].status == Processing then
                 var row, status := s.db.payments[id], if verdict.Some? then Completed else Failed;
                 s'.db == s.db.(payments := s.db.payments[id := row.(status := status, version := row.version + 1,
                                  transaction := if verdict.Some? then verdict else row.transaction)],
                                events := s.db.events + [PaymentEvent(id, Processing, status)])
               else s'.db == s.db
  {
    var s1 := P.Step(s, limit, P.StartWebhook(w, id));
    if id < |s.db.payments| && s.db.payments[id].status == Processing {
      assert s1.workers - {w} == s.workers;
      var last := PaymentEvent(id, Processing, if verdict.Some? then Completed else Failed);
      assert [] + [last] == [last];
    }
  }

  /** The refund requests of a retry loop. */
  function RefundAsks(w: nat, answers: seq<Outcome<TransactionId>>): seq<P.Action> {
    seq(|answers|, i requires 0 <= i < |answers| => P.AskRefund(w, answers[i]))
  }

  lemma {:induction false} RefundAsksEnd(s: P.State, limit: nat, w: nat, e: Entity, key: Key, n: nat,
                                         script: seq<Outcome<TransactionId>>)
    requires w in s.workers && s.workers[w] == P.Refunding(e, key, n) && 1 <= n <= limit && |script| >= limit - n + 1
    ensures var calls := CallsMade(script, limit - n + 1);
            P.Follow(s, limit, RefundAsks(w, script[..calls])) ==
            if script[calls - 1].Success? then
              s.(workers := s.workers[w := P.RefundConfirmed(e, key)], confirmations := s.confirmations + [e.id])
            else s.(workers := s.workers - {w})
    decreases limit - n
  {
    var calls := CallsMade(script, limit - n + 1);
    var asks := RefundAsks(w, script[..calls]);
    var s1 := P.Step(s, limit, asks[0]);
    assert asks[1..] == RefundAsks(w, script[1..][..calls - 1]);
    if calls > 1 {
      assert s1.workers == s.workers[w := P.Refunding(e, key, n + 1)];
      RefundAsksEnd(s1, limit, w, e, key, n + 1, script[1..]);
      assert s1.workers - {w} == s.workers - {w};
    } else {
      assert asks == [asks[0]];
      P.FollowOne(s, limit, asks[0]);
    }
  }

  /** The two writes that follow a confirmed refund, on a payment that is as it was loaded. */
  lemma RefundWrites(s: P.State, limit: nat, w: nat, id: PaymentId, key: Key)
    requires id < |s.db.payments| && s.db.payments[id].status == Completed && !RefundKeyUsed(s.db.refunds, key)
    requires w in s.workers && s.workers[w] == P.RefundConfirmed(Load(s.db, id), key)
    ensures var s' := P.Step(P.Step(s, limit, P.RecordRefund(w)), limit, P.InsertRefund(w));
            var row := s.db.payments[id];
            && s'.workers == s.workers - {w} && s'.confirmations == s.confirmations
            && s'.db == PaymentDb(
                 s.db.payments[id := row.(status := Refunded, version := row.version + 2)],
                 s.db.events + [PaymentEvent(id, Completed, RefundPending), PaymentEvent(id, RefundPending, Refunded)],
                 s.db.refunds + [RefundRow(id, row.amount, key)])
  {
    var row := s.db.payments[id];
    var first, last := PaymentEvent(id, Completed, RefundPending), PaymentEvent(id, RefundPending, Refunded);
    var m := MarkRefunded(Load(s.db, id)).value;
    assert m.pending == [first, last];
    var s1 := P.Step(s, limit, P.RecordRefund(w));
    assert s1.db.events == s.db.events + [first, last] && s1.db.refunds == s.db.refunds;
    assert s1.workers == s.workers[w := P.RecordingRefund(RefundRow(id, row.amount, key))];
    assert s1.workers - {w} == s.workers - {w};
  }

  /** A refund that nothing interrupts leaves what `RefundPayment` leaves. */
  lemma RefundIsRun(s: P.State, limit: nat, w: nat, id: PaymentId, key: Key, script: seq<Outcome<TransactionId>>)
    requires w !in s.workers && |script| >= limit > 0
    requires !RefundKeyUsed(s.db.refunds, key) && id < |s.db.payments| && s.db.payments[id].status == Completed
    ensures var calls := CallsMade(script, limit);
            var asked := P.Follow(P.Step(s, limit, P.StartRefund(w, id, key)), limit, RefundAsks(w, script[..calls]));
            var s' := P.Step(P.Step(asked, limit, P.RecordRefund(w)), limit, P.InsertRefund(w));
            var row := s.db.payments[id];
            && s'.workers == s.workers
            && if script[calls - 1].Success? then
                 && s'.confirmations == s.confirmations + [id]
                 && s'.db == PaymentDb(
                      s.db.payments[id := row.(status := Refunded, version := row.version + 2)],
                      s.db.events
                        + [PaymentEvent(id, Completed, RefundPending), PaymentEvent(id, RefundPending, Refunded)],
                      s.db.refunds + [RefundRow(id, row.amount, key)])
               else s'.db == s.db && s'.confirmations == s.confirmations
  {
    var calls := CallsMade(script, limit);
    var s1 := P.Step(s, limit, P.StartRefund(w, id, key));
    RefundAsksEnd(s1, limit, w, Load(s.db, id), key, 1, script);
    var asked := P.Follow(s1, limit, RefundAsks(w, script[..calls]));
    assert s1.workers - {w} == s.workers;
    if script[calls - 1].Success? {
      RefundWrites(asked, limit, w, id, key);
      assert asked.workers - {w} == s.workers;
    }
  }

  /** Any other refund request asks the gateway nothing and leaves the tables. */
  lemma RefundRefused(s: P.State, limit: nat, w: nat, id: PaymentId, key: Key)
    requires w !in s.workers
    requires RefundKeyUsed(s.db.refunds, key) || id >= |s.db.payments| || s.db.payments[id].status != Completed
    ensures P.Step(s, limit, P.StartRefund(w, id, key)) == s
  {
  }
}
