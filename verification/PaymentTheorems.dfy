/** What holds of payments, charges and refunds in every run of the interleaved payment system. */
module PaymentTheorems {
  import opened Results
  import opened InventoryTables
  import opened PaymentTables
  import opened PaymentSystem
  import opened Retry

  /**
   No double charge: however many executions run for an order, concurrently or repeatedly, and
   wherever they crash, the gateway is asked at most `limit` times and says yes at most once.
   */
  lemma NoDoubleCharge(limit: nat, actions: seq<Action>, order: OrderId)
    ensures Calls(Run(limit, actions).charges, order) <= limit
    ensures Successes(Run(limit, actions).charges, order) <= 1
  {
    RunKeepsInv(limit, actions);
  }

  /**
   The links of a log that replays: it starts at PENDING, every link is allowed, and each starts where
   the last ended.
   */
  lemma {:induction false} ReplayIsChain(log: seq<PaymentEvent>)
    requires Replay(log).Some?
    ensures forall i :: 0 <= i < |log| ==> CanTransition(log[i].from, log[i].to)
    ensures forall i :: 0 < i < |log| ==> log[i].from == log[i - 1].to
    ensures log != [] ==> log[0].from == Pending && log[|log| - 1].to == Replay(log).value
    decreases |log|
  {
    if log != [] {
      ReplayIsChain(log[..|log| - 1]);
    }
  }

  /**
   Every payment's events chain from PENDING along allowed links to its stored status, and its version
   counts them.
   */
  lemma LogReplaysToRow(limit: nat, actions: seq<Action>, id: PaymentId)
    requires id < |Run(limit, actions).db.payments|
    ensures var db := Run(limit, actions).db;
            var log := LogOf(db.events, id);
            && Replay(log) == Some(db.payments[id].status)
            && db.payments[id].version == 1 + |log|
            && (forall i :: 0 <= i < |log| ==> CanTransition(log[i].from, log[i].to))
            && (forall i :: 0 < i < |log| ==> log[i].from == log[i - 1].to)
            && (log == [] ==> db.payments[id].status == Pending)
            && (log != [] ==> log[0].from == Pending && log[|log| - 1].to == db.payments[id].status)
  {
    RunKeepsInv(limit, actions);
    assert RowOk(Run(limit, actions).db, id);
    ReplayIsChain(LogOf(Run(limit, actions).db.events, id));
  }

  // ----- refunds -----

  function RefundTotal(refunds: seq<RefundRow>): int {
    if refunds == [] then 0 else RefundTotal(refunds[..|refunds| - 1]) + refunds[|refunds| - 1].amount
  }

  /** What the payments that reached COMPLETED were charged. */
  function ChargedTotal(payments: seq<PaymentRow>): int {
    if payments == [] then 0
    else
      var row := payments[|payments| - 1];
      ChargedTotal(payments[..|payments| - 1])
      + if row.status in {Completed, RefundPending, Refunded} then row.amount else 0
  }

  lemma {:induction false} ChargedTotalWithout(payments: seq<PaymentRow>, id: PaymentId)
    requires id < |payments| && payments[id].status in {Completed, Refunded}
    ensures ChargedTotal(payments[id := payments[id].(status := Failed)]) ==
            ChargedTotal(payments) - payments[id].amount
    decreases |payments|
  {
    var n := |payments| - 1;
    if id < n {
      assert payments[id := payments[id].(status := Failed)][..n] ==
          payments[..n][id := payments[id].(status := Failed)];
      ChargedTotalWithout(payments[..n], id);
    } else {
      assert payments[id := payments[id].(status := Failed)][..n] == payments[..n];
    }
  }

  lemma {:induction false} ChargedTotalPositive(payments: seq<PaymentRow>)
    requires forall i :: 0 <= i < |payments| ==> payments[i].amount > 0
    ensures ChargedTotal(payments) >= 0
    decreases |payments|
  {
    if payments != [] {
      ChargedTotalPositive(payments[..|payments| - 1]);
    }
  }

  /** The amounts of the listed payments. */
  function AmountOf(payments: seq<PaymentRow>, ids: seq<PaymentId>): int
    requires forall i :: 0 <= i < |ids| ==> ids[i] < |payments|
  {
    if ids == [] then 0 else AmountOf(payments, ids[..|ids| - 1]) + payments[ids[|ids| - 1]].amount
  }

  lemma {:induction false} SameAmounts(payments: seq<PaymentRow>, payments': seq<PaymentRow>, ids: seq<PaymentId>)
    requires forall i :: 0 <= i < |ids| ==>
             ids[i] < |payments| && ids[i] < |payments'| && payments'[ids[i]].amount == payments[ids[i]].amount
    ensures AmountOf(payments', ids) == AmountOf(payments, ids)
    decreases |ids|
  {
    if ids != [] {
      SameAmounts(payments, payments', ids[..|ids| - 1]);
    }
  }

  /** Distinct payments that were charged add up to no more than everything charged. */
  lemma {:induction false} DistinctWithinCharges(payments: seq<PaymentRow>, ids: seq<PaymentId>)
    requires forall i :: 0 <= i < |payments| ==> payments[i].amount > 0
    requires forall i :: 0 <= i < |ids| ==> ids[i] < |payments| && payments[ids[i]].status in {Completed, Refunded}
    requires forall i, j :: 0 <= i < j < |ids| ==> ids[i] != ids[j]
    ensures AmountOf(payments, ids) <= ChargedTotal(payments)
    decreases |ids|
  {
    if ids == [] {
      ChargedTotalPositive(payments);
    } else {
      var n := |ids| - 1;
      var id := ids[n];
      var payments' := payments[id := payments[id].(status := Failed)];
      ChargedTotalWithout(payments, id);
      assert forall i :: 0 <= i < n ==> payments'[ids[..n][i]] == payments[ids[i]];
      DistinctWithinCharges(payments', ids[..n]);
      SameAmounts(payments, payments', ids[..n]);
    }
  }

  function Payments(refunds: seq<RefundRow>): (ids: seq<PaymentId>)
    ensures |ids| == |refunds| && forall i :: 0 <= i < |ids| ==> ids[i] == refunds[i].payment
  {
    seq(|refunds|, i requires 0 <= i < |refunds| => refunds[i].payment)
  }

  lemma {:induction false} RefundTotalIs(payments: seq<PaymentRow>, refunds: seq<RefundRow>)
    requires forall i :: 0 <= i < |refunds| ==>
             refunds[i].payment < |payments| && refunds[i].amount == payments[refunds[i].payment].amount
    ensures RefundTotal(refunds) == AmountOf(payments, Payments(refunds))
    decreases |refunds|
  {
    if refunds != [] {
      var n := |refunds| - 1;
      RefundTotalIs(payments, refunds[..n]);
      assert Payments(refunds)[..n] == Payments(refunds[..n]);
    }
  }

  lemma RefundsWithinCharges(payments: seq<PaymentRow>, refunds: seq<RefundRow>)
    requires forall i :: 0 <= i < |payments| ==> payments[i].amount > 0
    requires forall i :: 0 <= i < |refunds| ==>
               && refunds[i].payment < |payments| && payments[refunds[i].payment].status == Refunded
               && refunds[i].amount == payments[refunds[i].payment].amount
    requires forall i, j :: 0 <= i < j < |refunds| ==> refunds[i].payment != refunds[j].payment
    ensures RefundTotal(refunds) <= ChargedTotal(payments)
  {
    RefundTotalIs(payments, refunds);
    DistinctWithinCharges(payments, Payments(refunds));
  }

  /**
   Refund accounting: a payment and a key have at most one refund row, for exactly the payment's amount, and recorded
   refunds never exceed completed charges. A COMPLETED payment has a gateway transaction id, and
   so does every aggregate about to be refunded.
   */
  lemma RefundAccounting(limit: nat, actions: seq<Action>)
    ensures var s := Run(limit, actions);
            && (forall i, j :: 0 <= i < j < |s.db.refunds| ==>
                  s.db.refunds[i].payment != s.db.refunds[j].payment && s.db.refunds[i].key != s.db.refunds[j].key)
            && (forall i :: 0 <= i < |s.db.refunds| ==>
                  && s.db.refunds[i].payment < |s.db.payments|
                  && s.db.payments[s.db.refunds[i].payment].status == Refunded
                  && s.db.refunds[i].amount == s.db.payments[s.db.refunds[i].payment].amount)
            && RefundTotal(s.db.refunds) <= ChargedTotal(s.db.payments)
            && (forall i :: 0 <= i < |s.db.payments| && s.db.payments[i].status == Completed ==>
                  s.db.payments[i].transaction.Some?)
            && (forall w :: w in s.workers && s.workers[w].Refunding? ==> s.workers[w].entity.row.transaction.Some?)
  {
    RunKeepsInv(limit, actions);
    var s := Run(limit, actions);
    forall i | 0 <= i < |s.db.payments|
      ensures s.db.payments[i].amount > 0
      ensures s.db.payments[i].status == Completed ==> s.db.payments[i].transaction.Some?
    {
      assert RowOk(s.db, i);
    }
    RefundsWithinCharges(s.db.payments, s.db.refunds);
    forall w | w in s.workers && s.workers[w].Refunding?
      ensures s.workers[w].entity.row.transaction.Some?
    {
      assert WorkerOk(s.db, s.workers[w]);
    }
  }

  /**
   The accounting is of recorded refunds only: two requests with different keys, each asking the
   gateway before it writes, can both be confirmed for the same payment.
   */
  lemma GatewayMayConfirmTwice(s: State, limit: nat, id: PaymentId, v: nat, w: nat, key: Key, key': Key,
                               refund: TransactionId, refund': TransactionId)
    requires id < |s.db.payments| && s.db.payments[id].status == Completed && limit > 0
    requires v != w && v !in s.workers && w !in s.workers && !RefundKeyUsed(s.db.refunds, key)
             && !RefundKeyUsed(s.db.refunds, key')
    ensures var s1 := Step(Step(s, limit, StartRefund(v, id, key)), limit, StartRefund(w, id, key'));
            var s2 := Step(Step(s1, limit, AskRefund(v, Success(refund))), limit, AskRefund(w, Success(refund')));
            && s2.workers == s.workers[v := RefundConfirmed(Load(s.db, id), key)][w := RefundConfirmed(Load(s.db, id),
                  key')]
            && s2.db == s.db && s2.confirmations == s.confirmations + [id, id]
  {
    var s1 := Step(Step(s, limit, StartRefund(v, id, key)), limit, StartRefund(w, id, key'));
    assert s1.workers == s.workers[v := Refunding(Load(s.db, id), key, 1)][w := Refunding(Load(s.db, id), key', 1)];
    var s2 := Step(s1, limit, AskRefund(v, Success(refund)));
    assert s2.workers == s.workers[v := RefundConfirmed(Load(s.db, id), key)][w := Refunding(Load(s.db, id), key', 1)];
  }

  /** But once one of them has written, the other's write is refused and leaves the tables alone. */
  lemma SecondRefundIsRefused(limit: nat, actions: seq<Action>, v: nat, w: nat)
    requires var s := Run(limit, actions);
             && v != w && v in s.workers && w in s.workers && s.workers[v].RefundConfirmed?
                 && s.workers[w].RefundConfirmed?
             && s.workers[v].entity.id == s.workers[w].entity.id
    ensures var s := Run(limit, actions);
            var s' := Step(s, limit, RecordRefund(v));
            s'.db != s.db ==> Step(s', limit, RecordRefund(w)).db == s'.db
  {
    RunKeepsInv(limit, actions);
    var s := Run(limit, actions);
    var e := s.workers[v].entity;
    assert WorkerOk(s.db, s.workers[v]) && WorkerOk(s.db, s.workers[w]);
    var s' := Step(s, limit, RecordRefund(v));
    if s'.db != s.db {
      WriteKeepsDb(s.db, e, MarkRefunded(e).value);
      assert s'.workers[w] == s.workers[w];
    }
  }
}
