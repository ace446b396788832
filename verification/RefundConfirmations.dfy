/**
 How often the gateway confirms a refund of one payment. Each request asks the gateway before it
 writes, so nothing in the code stops a second confirmation; what does is how requests are run.
 */
module RefundConfirmations {
  import opened Results
  import opened InventoryTables
  import opened PaymentTables
  import opened PaymentSystem
  import opened PaymentTheorems
  import opened Retry

  /** A refund request between its start and its write. */
  predicate Busy(worker: Worker, id: PaymentId) {
    (worker.Refunding? || worker.RefundConfirmed?) && worker.entity.id == id
  }

  predicate RefundRuns(s: State, id: PaymentId) {
    exists w :: w in s.workers && Busy(s.workers[w], id)
  }

  function Confirmed(s: State, id: PaymentId): nat {
    multiset(s.confirmations)[id]
  }

  /** A `StartRefund` that is not answered from the tables. */
  predicate Starts(s: State, limit: nat, w: nat, id: PaymentId, key: Key) {
    && w !in s.workers && !RefundKeyUsed(s.db.refunds, key) && limit > 0
    && id < |s.db.payments| && s.db.payments[id].status == Completed
  }

  /** No refund of `id` starts beside another, and none is lost after the gateway confirmed it. */
  predicate Careful(s: State, limit: nat, a: Action, id: PaymentId) {
    match a
    case StartRefund(w, payment, key) => payment == id && Starts(s, limit, w, id, key) ==> !RefundRuns(s, id)
    case Crash(w) => !(w in s.workers && s.workers[w].RefundConfirmed? && s.workers[w].entity.id == id)
    case _ => true
  }

  predicate CarefulRun(limit: nat, actions: seq<Action>, id: PaymentId)
    decreases |actions|
  {
    actions != [] ==>
      && CarefulRun(limit, actions[..|actions| - 1], id)
      && Careful(Run(limit, actions[..|actions| - 1]), limit, actions[|actions| - 1], id)
  }

  // ----- the invariant of careful runs -----

  predicate IsCompleted(db: PaymentDb, id: PaymentId) {
    id < |db.payments| && db.payments[id].status == Completed
  }

  predicate IsRefunded(db: PaymentDb, id: PaymentId) {
    id < |db.payments| && db.payments[id].status == Refunded
  }

  predicate OneBusy(workers: map<nat, Worker>, id: PaymentId) {
    forall v, w :: v in workers && w in workers && Busy(workers[v], id) && Busy(workers[w], id) ==> v == w
  }

  /**
   Refunds run on a COMPLETED payment only, as it is stored, and are confirmed exactly if the gateway
   confirmed once.
   */
  predicate BusyOk(db: PaymentDb, workers: map<nat, Worker>, id: PaymentId, n: nat) {
    forall w :: w in workers && Busy(workers[w], id) ==>
      && IsCompleted(db, id) && workers[w].entity == Load(db, id)
      && n == if workers[w].RefundConfirmed? then 1 else 0
  }

  predicate Single(s: State, id: PaymentId) {
    && OneBusy(s.workers, id)
    && BusyOk(s.db, s.workers, id, Confirmed(s, id))
    && Confirmed(s, id) <= 1
    && (Confirmed(s, id) == 1 ==> IsRefunded(s.db, id) || RefundRuns(s, id))
  }

  /** A step that leaves this payment's row and its refunds alone. */
  predicate Apart(s: State, s': State, id: PaymentId) {
    && s'.confirmations == s.confirmations
    && (IsCompleted(s.db, id) || IsRefunded(s.db, id) ==>
          id < |s'.db.payments| && s'.db.payments[id] == s.db.payments[id])
    && (forall w :: w in s.workers && Busy(s.workers[w], id) ==> w in s'.workers && s'.workers[w] == s.workers[w])
    && (forall w :: w in s'.workers && Busy(s'.workers[w], id) ==> w in s.workers && s'.workers[w] == s.workers[w])
  }

  lemma ApartKeepsSingle(s: State, s': State, id: PaymentId)
    requires Single(s, id) && Apart(s, s', id)
    ensures Single(s', id)
  {
    if Confirmed(s, id) == 1 && RefundRuns(s, id) {
      var w :| w in s.workers && Busy(s.workers[w], id);
      assert w in s'.workers && Busy(s'.workers[w], id);
    }
  }

  /** A write that passes the version guard moves a row on from the status its aggregate was loaded with. */
  lemma WriteApart(s: State, w: nat, e: Entity, moved: Result<Entity, PaymentError>, next: Option<Worker>,
                   id: PaymentId)
    requires DbOk(s.db) && Fits(s.db, e) && e.row.status !in {Completed, Refunded}
             && (moved.Ok? ==> Moves(e, moved.value))
    requires w in s.workers && !Busy(s.workers[w], id) && (next.Some? ==> !Busy(next.value, id))
    ensures Apart(s, Proceed(s, w, Store(s.db, moved), next), id)
  {
    if Store(s.db, moved).Ok? {
      WriteKeepsDb(s.db, e, moved.value);
    }
  }

  /** The steps that have nothing to do with refunds before their row is written. */
  predicate Elsewhere(a: Action) {
    !a.StartRefund? && !a.AskRefund? && !a.RecordRefund? && !a.Crash?
  }

  lemma BeginApart(s: State, limit: nat, w: nat, id: PaymentId)
    requires Inv(s, limit)
    ensures Apart(s, Step(s, limit, Begin(w)), id)
  {
    if w in s.workers && s.workers[w].Inserted? {
      var e := s.workers[w].entity;
      assert WorkerOk(s.db, s.workers[w]);
      var moved := TransitionTo(e, Processing);
      WriteApart(s, w, e, moved, Some(Admitting(Reloaded(Store(s.db, moved), e))), id);
    }
  }

  lemma RecordApart(s: State, limit: nat, w: nat, id: PaymentId)
    requires Inv(s, limit)
    ensures Apart(s, Step(s, limit, Record(w)), id)
  {
    if w in s.workers && (s.workers[w].Charged? || s.workers[w].Rejected?) {
      var e := s.workers[w].entity;
      assert WorkerOk(s.db, s.workers[w]);
      var moved := if s.workers[w].Charged? then MarkCompleted(e, s.workers[w].transaction)
          else TransitionTo(e, Failed);
      WriteApart(s, w, e, moved, Some(Answering(e.row.order, e.id, s.workers[w].Charged?)), id);
    }
  }

  lemma WebhookApart(s: State, limit: nat, w: nat, verdict: Option<TransactionId>, id: PaymentId)
    requires Inv(s, limit)
    ensures Apart(s, Step(s, limit, ApplyWebhook(w, verdict)), id)
  {
    if w in s.workers && s.workers[w].Notified? {
      var e := s.workers[w].entity;
      assert WorkerOk(s.db, s.workers[w]);
      WriteApart(s, w, e, if verdict.Some? then MarkCompleted(e, verdict.value) else TransitionTo(e, Failed), None, id);
    }
  }

  lemma QuietApart(s: State, limit: nat, a: Action, id: PaymentId)
    requires Elsewhere(a) && !a.Begin? && !a.Record? && !a.ApplyWebhook?
    ensures Apart(s, Step(s, limit, a), id)
  {
  }

  lemma ElsewhereApart(s: State, limit: nat, a: Action, id: PaymentId)
    requires Inv(s, limit) && Elsewhere(a)
    ensures Apart(s, Step(s, limit, a), id)
  {
    match a
    case Begin(w) => BeginApart(s, limit, w, id);
    case Record(w) => RecordApart(s, limit, w, id);
    case ApplyWebhook(w, verdict) => WebhookApart(s, limit, w, verdict, id);
    case _ => QuietApart(s, limit, a, id);
  }

  lemma StartKeepsSingle(s: State, limit: nat, w: nat, payment: PaymentId, key: Key, id: PaymentId)
    requires Single(s, id) && Careful(s, limit, StartRefund(w, payment, key), id)
    ensures Single(Step(s, limit, StartRefund(w, payment, key)), id)
  {
    var s' := Step(s, limit, StartRefund(w, payment, key));
    if Starts(s, limit, w, payment, key) {
      if payment != id {
        assert Apart(s, s', id);
        ApartKeepsSingle(s, s', id);
      }
    }
  }

  /** The answer to the one running refund of `id`. */
  lemma AskKeepsSingle(s: State, limit: nat, w: nat, answer: Outcome<TransactionId>, id: PaymentId)
    requires Single(s, id)
    ensures Single(Step(s, limit, AskRefund(w, answer)), id)
  {
    if w in s.workers && s.workers[w].Refunding? {
      var s', e := Step(s, limit, AskRefund(w, answer)), s.workers[w].entity;
      if e.id != id {
        assert Confirmed(s', id) == Confirmed(s, id);
        OtherKeepsSingle(s, s', w, id);
      } else {
        assert Busy(s.workers[w], id) && Confirmed(s, id) == 0;
        if answer.Success? {
          assert Busy(s'.workers[w], id);
        }
      }
    }
  }

  /** A step of a worker that refunds another payment. */
  lemma OtherKeepsSingle(s: State, s': State, w: nat, id: PaymentId)
    requires Single(s, id) && s'.db == s.db && Confirmed(s', id) == Confirmed(s, id)
    requires w in s.workers && !Busy(s.workers[w], id) && (w in s'.workers ==> !Busy(s'.workers[w], id))
    requires forall v :: v != w ==>
               (v in s.workers <==> v in s'.workers) && (v in s.workers ==> s'.workers[v] == s.workers[v])
    ensures Single(s', id)
  {
    if Confirmed(s, id) == 1 && RefundRuns(s, id) {
      var v :| v in s.workers && Busy(s.workers[v], id);
      assert v in s'.workers && Busy(s'.workers[v], id);
    }
  }

  /** The write of a confirmed refund that runs alone succeeds. */
  lemma WriteLands(s: State, limit: nat, w: nat, id: PaymentId)
    requires Inv(s, limit) && Single(s, id) && w in s.workers && s.workers[w].RefundConfirmed?
             && s.workers[w].entity.id == id
    ensures var s' := Step(s, limit, RecordRefund(w));
            && IsRefunded(s'.db, id) && s'.confirmations == s.confirmations
            && s'.workers.Keys == s.workers.Keys && s'.workers[w].RecordingRefund?
            && forall v :: v in s.workers && v != w ==> s'.workers[v] == s.workers[v]
  {
    var e := s.workers[w].entity;
    assert Busy(s.workers[w], id) && e == Load(s.db, id) && WorkerOk(s.db, s.workers[w]);
    var m := MarkRefunded(e).value;
    assert UpdatePayment(s.db, m).Ok?;
    WriteKeepsDb(s.db, e, m);
  }

  lemma RecordKeepsSingle(s: State, limit: nat, w: nat, id: PaymentId)
    requires Inv(s, limit) && Single(s, id)
    ensures Single(Step(s, limit, RecordRefund(w)), id)
  {
    if w in s.workers && s.workers[w].RefundConfirmed? {
      var s', e := Step(s, limit, RecordRefund(w)), s.workers[w].entity;
      if e.id == id {
        WriteLands(s, limit, w, id);
        assert Busy(s.workers[w], id);
      } else {
        RecordOther(s, limit, w, id);
        ApartKeepsSingle(s, s', id);
      }
    }
  }

  lemma RecordOther(s: State, limit: nat, w: nat, id: PaymentId)
    requires Inv(s, limit) && w in s.workers && s.workers[w].RefundConfirmed? && s.workers[w].entity.id != id
    ensures Apart(s, Step(s, limit, RecordRefund(w)), id)
  {
    var e := s.workers[w].entity;
    assert WorkerOk(s.db, s.workers[w]);
    var moved := MarkRefunded(e);
    if Store(s.db, moved).Ok? {
      assert Moves(e, moved.value);
      WriteKeepsDb(s.db, e, moved.value);
    }
  }

  lemma CrashKeepsSingle(s: State, limit: nat, w: nat, id: PaymentId)
    requires Single(s, id) && Careful(s, limit, Crash(w), id)
    ensures Single(Step(s, limit, Crash(w)), id)
  {
    var s' := Step(s, limit, Crash(w));
    if w in s.workers && Busy(s.workers[w], id) {
      assert Confirmed(s, id) == 0;
    } else {
      ApartKeepsSingle(s, s', id);
    }
  }

  lemma StepKeepsSingle(s: State, limit: nat, a: Action, id: PaymentId)
    requires Inv(s, limit) && Single(s, id) && Careful(s, limit, a, id)
    ensures Single(Step(s, limit, a), id)
  {
    match a
    case StartRefund(w, payment, key) => StartKeepsSingle(s, limit, w, payment, key, id);
    case AskRefund(w, answer) => AskKeepsSingle(s, limit, w, answer, id);
    case RecordRefund(w) => RecordKeepsSingle(s, limit, w, id);
    case Crash(w) => CrashKeepsSingle(s, limit, w, id);
    case _ =>
      ElsewhereApart(s, limit, a, id);
      ApartKeepsSingle(s, Step(s, limit, a), id);
  }

  lemma {:induction false} CarefulKeepsSingle(limit: nat, actions: seq<Action>, id: PaymentId)
    requires CarefulRun(limit, actions, id)
    ensures Single(Run(limit, actions), id)
    decreases |actions|
  {
    if actions != [] {
      var front := actions[..|actions| - 1];
      CarefulKeepsSingle(limit, front, id);
      RunKeepsInv(limit, front);
      StepKeepsSingle(Run(limit, front), limit, actions[|actions| - 1], id);
    }
  }

  // ----- main results -----

  /** In a careful run the gateway confirms at most one refund of the payment, and a confirmed one gets written. */
  lemma ConfirmedOnce(limit: nat, actions: seq<Action>, id: PaymentId)
    requires CarefulRun(limit, actions, id)
    ensures var s := Run(limit, actions);
            Confirmed(s, id) <= 1 && (Confirmed(s, id) == 1 ==> IsRefunded(s.db, id) || RefundRuns(s, id))
  {
    CarefulKeepsSingle(limit, actions, id);
  }

  lemma Appears(log: seq<PaymentId>, i: nat, j: nat)
    requires i < j < |log| && log[i] == log[j]
    ensures multiset(log)[log[i]] >= 2
  {
    var a, b := log[..j], log[j..];
    assert log == a + b && log[i] == a[i] && log[i] == b[0];
    assert a[i] in multiset(a) && b[0] in multiset(b);
  }

  /** If every payment's refunds run carefully, the gateway returns no more than was charged. */
  lemma ReturnsWithinCharges(limit: nat, actions: seq<Action>)
    requires forall id: PaymentId :: CarefulRun(limit, actions, id)
    ensures var s := Run(limit, actions);
            && (forall i :: 0 <= i < |s.confirmations| ==> s.confirmations[i] < |s.db.payments|)
            && AmountOf(s.db.payments, s.confirmations) <= ChargedTotal(s.db.payments)
  {
    RunKeepsInv(limit, actions);
    var s := Run(limit, actions);
    forall i | 0 <= i < |s.confirmations|
      ensures IsCompleted(s.db, s.confirmations[i]) || IsRefunded(s.db, s.confirmations[i])
    {
      assert s.confirmations[i] in multiset(s.confirmations);
      CarefulKeepsSingle(limit, actions, s.confirmations[i]);
    }
    forall i, j | 0 <= i < j < |s.confirmations|
      ensures s.confirmations[i] != s.confirmations[j]
    {
      ConfirmedOnce(limit, actions, s.confirmations[i]);
      if s.confirmations[i] == s.confirmations[j] {
        Appears(s.confirmations, i, j);
      }
    }
    forall i | 0 <= i < |s.db.payments|
      ensures s.db.payments[i].amount > 0
    {
      assert RowOk(s.db, i);
    }
    DistinctWithinCharges(s.db.payments, s.confirmations);
  }

  /** The state after more actions. */
  function Follow(s: State, limit: nat, more: seq<Action>): State
    decreases |more|
  {
    if more == [] then s else Follow(Step(s, limit, more[0]), limit, more[1..])
  }

  predicate CarefulFrom(s: State, limit: nat, more: seq<Action>, id: PaymentId)
    decreases |more|
  {
    more != [] ==> Careful(s, limit, more[0], id) && CarefulFrom(Step(s, limit, more[0]), limit, more[1..], id)
  }

  /** However the run goes on carefully from here, the payment's refund is confirmed at most once. */
  ghost predicate Safe(s: State, limit: nat, id: PaymentId) {
    forall more :: CarefulFrom(s, limit, more, id) ==> Confirmed(Follow(s, limit, more), id) <= 1
  }

  lemma {:induction false} CarefulStaysSingle(s: State, limit: nat, more: seq<Action>, id: PaymentId)
    requires Inv(s, limit) && Single(s, id) && CarefulFrom(s, limit, more, id)
    ensures Single(Follow(s, limit, more), id)
    decreases |more|
  {
    if more != [] {
      StepKeepsInv(s, limit, more[0]);
      StepKeepsSingle(s, limit, more[0], id);
      CarefulStaysSingle(Step(s, limit, more[0]), limit, more[1..], id);
    }
  }

  lemma SingleIsSafe(s: State, limit: nat, id: PaymentId)
    requires Inv(s, limit) && Single(s, id)
    ensures Safe(s, limit, id)
  {
    forall more | CarefulFrom(s, limit, more, id)
      ensures Confirmed(Follow(s, limit, more), id) <= 1
    {
      CarefulStaysSingle(s, limit, more, id);
    }
  }

  lemma StepBack(s: State, limit: nat, a: Action, id: PaymentId)
    requires Careful(s, limit, a, id) && !Safe(Step(s, limit, a), limit, id)
    ensures !Safe(s, limit, id)
  {
    var s' := Step(s, limit, a);
    var more :| CarefulFrom(s', limit, more, id) && Confirmed(Follow(s', limit, more), id) > 1;
    var all := [a] + more;
    assert all[0] == a && all[1..] == more;
    assert CarefulFrom(s, limit, all, id) && Follow(s, limit, all) == Follow(s', limit, more);
  }

  lemma TwiceIsUnsafe(s: State, limit: nat, id: PaymentId)
    requires Confirmed(s, id) > 1
    ensures !Safe(s, limit, id)
  {
    assert CarefulFrom(s, limit, [], id) && Follow(s, limit, []) == s;
  }

  /** The gateway confirms what a running refund asks for. */
  lemma Confirms(s: State, limit: nat, w: nat, id: PaymentId)
    requires w in s.workers && s.workers[w].Refunding? && s.workers[w].entity.id == id
    ensures var s' := Step(s, limit, AskRefund(w, Success(0)));
            && Confirmed(s', id) == Confirmed(s, id) + 1
            && s'.workers.Keys == s.workers.Keys && forall v :: v in s.workers && v != w ==>
                s'.workers[v] == s.workers[v]
  {
  }

  /** A refund may be confirmed whenever it runs. */
  lemma SecondConfirmation(s: State, limit: nat, w: nat, id: PaymentId)
    requires Confirmed(s, id) == 1 && w in s.workers && s.workers[w].Refunding? && s.workers[w].entity.id == id
    ensures !Safe(s, limit, id)
  {
    Confirms(s, limit, w, id);
    TwiceIsUnsafe(Step(s, limit, AskRefund(w, Success(0))), limit, id);
    StepBack(s, limit, AskRefund(w, Success(0)), id);
  }

  lemma TwoRunning(s: State, limit: nat, v: nat, w: nat, id: PaymentId)
    requires v != w && v in s.workers && w in s.workers && s.workers[v].Refunding? && s.workers[w].Refunding?
    requires s.workers[v].entity.id == id == s.workers[w].entity.id && Confirmed(s, id) == 0
    ensures !Safe(s, limit, id)
  {
    Confirms(s, limit, v, id);
    SecondConfirmation(Step(s, limit, AskRefund(v, Success(0))), limit, w, id);
    StepBack(s, limit, AskRefund(v, Success(0)), id);
  }

  lemma FreshKey(refunds: seq<RefundRow>) returns (key: Key)
    ensures forall i :: 0 <= i < |refunds| ==> refunds[i].key < key
  {
    key := 0;
    if refunds != [] {
      var n := |refunds| - 1;
      var k := FreshKey(refunds[..n]);
      key := k + refunds[n].key + 1;
      forall i | 0 <= i < |refunds|
        ensures refunds[i].key < key
      {
        if i < n {
          assert refunds[i] == refunds[..n][i];
        }
      }
    }
  }

  /** What starting a refund of `id` leaves. */
  lemma StartIs(s: State, limit: nat, w: nat, id: PaymentId, key: Key)
    requires Starts(s, limit, w, id, key)
    ensures Step(s, limit, StartRefund(w, id, key)) == Set(s, w, Refunding(Load(s.db, id), key, 1))
  {
  }

  /** A refund that starts beside another: both can be confirmed. */
  lemma BesideIsUnsafe(s: State, limit: nat, w: nat, id: PaymentId, key: Key)
    requires Single(s, id) && Starts(s, limit, w, id, key) && RefundRuns(s, id)
    ensures !Safe(Step(s, limit, StartRefund(w, id, key)), limit, id)
  {
    var v :| v in s.workers && Busy(s.workers[v], id);
    StartIs(s, limit, w, id, key);
    var s' := Set(s, w, Refunding(Load(s.db, id), key, 1));
    if s.workers[v].RefundConfirmed? {
      SecondConfirmation(s', limit, w, id);
    } else {
      TwoRunning(s', limit, v, w, id);
    }
  }

  /** A confirmed refund that is lost before its write: another starts, and is confirmed too. */
  lemma LossIsUnsafe(s: State, limit: nat, w: nat, id: PaymentId)
    requires limit > 0 && Single(s, id) && w in s.workers && s.workers[w].RefundConfirmed?
             && s.workers[w].entity.id == id
    ensures !Safe(Step(s, limit, Crash(w)), limit, id)
  {
    assert Busy(s.workers[w], id);
    var s' := Drop(s, w);
    var key := FreshKey(s.db.refunds);
    assert Starts(s', limit, w, id, key) && !RefundRuns(s', id);
    StartIs(s', limit, w, id, key);
    SecondConfirmation(Set(s', w, Refunding(Load(s.db, id), key, 1)), limit, w, id);
    StepBack(s', limit, StartRefund(w, id, key), id);
  }

  /**
   Exactly these steps matter: after a careful run, the next step leaves every careful continuation
   with at most one confirmed refund of the payment if and only if it does not start a refund beside
   another and does not lose a confirmed one.
   */
  lemma CarefulExactly(limit: nat, actions: seq<Action>, a: Action, id: PaymentId)
    requires limit > 0 && CarefulRun(limit, actions, id)
    ensures var s := Run(limit, actions); Safe(Step(s, limit, a), limit, id) <==> Careful(s, limit, a, id)
  {
    RunKeepsInv(limit, actions);
    CarefulKeepsSingle(limit, actions, id);
    NextIsSafeExactly(Run(limit, actions), limit, a, id);
  }

  lemma NextIsSafeExactly(s: State, limit: nat, a: Action, id: PaymentId)
    requires limit > 0 && Inv(s, limit) && Single(s, id)
    ensures Safe(Step(s, limit, a), limit, id) <==> Careful(s, limit, a, id)
  {
    if Careful(s, limit, a, id) {
      StepKeepsInv(s, limit, a);
      StepKeepsSingle(s, limit, a, id);
      SingleIsSafe(Step(s, limit, a), limit, id);
    } else if a.StartRefund? {
      BesideIsUnsafe(s, limit, a.w, id, a.key);
    } else {
      LossIsUnsafe(s, limit, a.w, id);
    }
  }
}
