/**
 When transactions that lock rows one by one can wait for each other. Whoever first locks every SKU
 after all smaller ones it locks never does: the one that waits for the largest SKU waits for nobody.
 Every reserve is of that kind, and a work measure then bounds every schedule. A release is of that
 kind or not, depending on the order its rows come in; if it is not, some reserve can deadlock with it.
 */
module ReserveDeadlock {
  import opened Results
  import opened InventoryTables
  import opened StockLedger
  import opened InventoryTransactions

  /** The `j`-th act is the first on its SKU, so it has to lock the row. */
  predicate LocksAt(t: Tables, acts: seq<Act>, j: nat)
    requires j < |acts|
  {
    forall k :: 0 <= k < j ==> SkuOf(t, acts[k]) != SkuOf(t, acts[j])
  }

  /** Rows are locked in SKU order. */
  predicate LocksInOrder(t: Tables, acts: seq<Act>) {
    forall i, j :: 0 <= i < j < |acts| && LocksAt(t, acts, j) ==> SkuOf(t, acts[i]) <= SkuOf(t, acts[j])
  }

  predicate AllInOrder(s: State) {
    forall k :: 0 <= k < |s.txns| && s.txns[k].phase == Open ==> LocksInOrder(s.tables, s.txns[k].acts)
  }

  predicate CanMove(s: State, k: nat) {
    MayLock(s, k) || MayExec(s, k) || MayCommit(s, k)
  }

  /** The step transaction `k` takes next. */
  function Move(s: State, k: nat): Action {
    if MayCommit(s, k) then Commit(k) else if MayExec(s, k) then Exec(k) else Lock(k)
  }

  predicate Finished(s: State) {
    forall k :: 0 <= k < |s.txns| ==> s.txns[k].phase != Open
  }

  /** The part of the invariant that the argument needs. */
  predicate Covered(s: State) {
    forall k :: 0 <= k < |s.txns| && s.txns[k].phase == Open ==> LocksCover(s.tables, s.txns[k])
  }

  /** The locks a transaction in order holds are at most the SKU it has yet to lock. */
  lemma HeldBelowNext(s: State, k: nat, sku: Sku)
    requires Covered(s) && AllInOrder(s) && HasNext(s, k) && IsOpen(s, k)
    requires sku in s.txns[k].locks && NextSku(s, k) !in s.txns[k].locks
    ensures sku <= NextSku(s, k)
  {
    var acts, done := s.txns[k].acts, s.txns[k].done;
    assert LocksCover(s.tables, s.txns[k]);
    var i :| 0 <= i <= done && i < |acts| && SkuOf(s.tables, acts[i]) == sku;
    assert LocksAt(s.tables, acts, done);
  }

  lemma Stuck(s: State, k: nat)
    requires Covered(s) && IsOpen(s, k) && !CanMove(s, k)
    ensures HasNext(s, k) && HeldByOther(s, k, NextSku(s, k)) && NextSku(s, k) !in s.txns[k].locks
  {
    assert LocksCover(s.tables, s.txns[k]);
  }

  /** A waiting transaction waits for one that can move or that itself wants a larger SKU. */
  lemma BlockerWantsMore(s: State, k: nat) returns (j: nat)
    requires Covered(s) && AllInOrder(s) && IsOpen(s, k) && !CanMove(s, k)
    ensures IsOpen(s, j) && (CanMove(s, j) || (HasNext(s, j) && HasNext(s, k) && NextSku(s, k) < NextSku(s, j)))
  {
    Stuck(s, k);
    var sku := NextSku(s, k);
    j :| 0 <= j < |s.txns| && j != k && s.txns[j].phase == Open && sku in s.txns[j].locks;
    if !CanMove(s, j) {
      Stuck(s, j);
      HeldBelowNext(s, j, sku);
    }
  }

  function MaxNext(s: State, n: nat): (m: nat)
    requires n <= |s.txns|
    ensures forall k :: 0 <= k < n && HasNext(s, k) ==> NextSku(s, k) <= m
  {
    if n == 0 then 0
    else
      var m := MaxNext(s, n - 1);
      if HasNext(s, n - 1) && NextSku(s, n - 1) > m then NextSku(s, n - 1) else m
  }

  lemma {:induction false} FollowBlockers(s: State, k: nat) returns (j: nat)
    requires Covered(s) && AllInOrder(s) && IsOpen(s, k)
    ensures IsOpen(s, j) && CanMove(s, j)
    decreases if HasNext(s, k) then MaxNext(s, |s.txns|) - NextSku(s, k) else 0
  {
    j := k;
    if !CanMove(s, k) {
      j := BlockerWantsMore(s, k);
      if !CanMove(s, j) {
        j := FollowBlockers(s, j);
      }
    }
  }

  lemma SomeCanMove(s: State)
    requires Covered(s) && AllInOrder(s) && !Finished(s)
    ensures exists k :: IsOpen(s, k) && CanMove(s, k)
  {
    var k :| 0 <= k < |s.txns| && s.txns[k].phase == Open;
    var j := FollowBlockers(s, k);
  }

  /** In every reachable state whose open transactions lock in SKU order, some unfinished one can move. */
  lemma NoDeadlock(t: Tables, actions: seq<Action>)
    requires AllInOrder(Run(Start(t), actions))
    ensures var s := Run(Start(t), actions);
            Finished(s) || exists k :: IsOpen(s, k) && CanMove(s, k)
  {
    RunKeepsInv(t, actions);
    var s := Run(Start(t), actions);
    if !Finished(s) {
      assert Covered(s);
      SomeCanMove(s);
    }
  }

  lemma ReserveInOrder(t: Tables, order: OrderId, items: seq<Line>, expiresAt: int)
    ensures LocksInOrder(t, ReserveActs(order, items, expiresAt))
  {
  }

  lemma ReservesInOrder(s: State)
    requires AsRequested(s.txns) && forall k :: 0 <= k < |s.txns| ==> s.txns[k].request.Reserving?
    ensures AllInOrder(s)
  {
    forall k | 0 <= k < |s.txns|
      ensures LocksInOrder(s.tables, s.txns[k].acts)
    {
      ReserveInOrder(s.tables, s.txns[k].request.order, s.txns[k].request.items, s.txns[k].request.expiresAt);
    }
  }

  /** Reserves alone never deadlock, repeated SKUs included. */
  lemma ReservesNeverDeadlock(t: Tables, actions: seq<Action>)
    requires forall i :: 0 <= i < |actions| && actions[i].Begin? ==> actions[i].request.Reserving?
    ensures var s := Run(Start(t), actions);
            Finished(s) || exists k :: IsOpen(s, k) && CanMove(s, k)
  {
    OnlyReserves(t, actions);
    ActsAreRequested(t, actions);
    ReservesInOrder(Run(Start(t), actions));
    NoDeadlock(t, actions);
  }

  // ----- every schedule is finite -----

  /** The lock, exec and commit steps a transaction still has before it. */
  function TxnWork(t: Tables, txn: Txn): nat {
    var acts := txn.acts;
    if txn.phase != Open || txn.done > |acts| then 0
    else 2 * (|acts| - txn.done) + 1 - (if txn.done < |acts| && SkuOf(t, acts[txn.done]) in txn.locks then 1 else 0)
  }

  function Work(t: Tables, txns: seq<Txn>): nat {
    if txns == [] then 0 else Work(t, txns[..|txns| - 1]) + TxnWork(t, txns[|txns| - 1])
  }

  lemma {:induction false} WorkSet(t: Tables, txns: seq<Txn>, k: nat, txn: Txn)
    requires k < |txns|
    ensures Work(t, txns[k := txn]) == Work(t, txns) - TxnWork(t, txns[k]) + TxnWork(t, txn)
    decreases |txns|
  {
    var n := |txns| - 1;
    if k < n {
      assert txns[k := txn][..n] == txns[..n][k := txn];
      WorkSet(t, txns[..n], k, txn);
    } else {
      assert txns[k := txn][..n] == txns[..n];
    }
  }

  lemma {:induction false} SameWork(t: Tables, t': Tables, txns: seq<Txn>)
    requires forall k, i :: 0 <= k < |txns| && txns[k].phase == Open && 0 <= i < |txns[k].acts| ==>
               SkuOf(t, txns[k].acts[i]) == SkuOf(t', txns[k].acts[i])
    ensures Work(t, txns) == Work(t', txns)
    decreases |txns|
  {
    if txns != [] {
      SameWork(t, t', txns[..|txns| - 1]);
    }
  }

  lemma SameSkus(t: Tables, t': Tables, txn: Txn, i: nat)
    requires InRange(t, txn.acts) && i < |txn.acts|
    requires |t.rows| <= |t'.rows| && forall j :: 0 <= j < |t.rows| ==> t'.rows[j].sku == t.rows[j].sku
    ensures SkuOf(t, txn.acts[i]) == SkuOf(t', txn.acts[i])
  {
  }

  lemma CommitLeavesWork(s: State, k: nat)
    requires Inv(s) && MayCommit(s, k)
    ensures var s' := Step(s, Commit(k)); Work(s'.tables, s'.txns) == Work(s.tables, s'.txns)
  {
    var s' := Step(s, Commit(k));
    assert forall j :: 0 <= j < |s.txns| && s.txns[j].phase == Open ==> InRange(s.tables, s.txns[j].acts);
    forall j, i | 0 <= j < |s'.txns| && s'.txns[j].phase == Open && 0 <= i < |s'.txns[j].acts|
      ensures SkuOf(s.tables, s'.txns[j].acts[i]) == SkuOf(s'.tables, s'.txns[j].acts[i])
    {
      assert s.txns[j].phase == Open;
      SameSkus(s.tables, s'.tables, s.txns[j], i);
    }
    SameWork(s.tables, s'.tables, s'.txns);
  }

  lemma TxnWorkDrops(t: Tables, txn: Txn, txn': Txn)
    requires LocksCover(t, txn) && txn.phase == Open && txn'.acts == txn.acts
    requires
      || txn'.phase != Open
      || (var acts := txn.acts;
          && txn.done < |acts|
          && (|| (txn'.done == txn.done && SkuOf(t, acts[txn.done]) !in txn.locks
                && SkuOf(t, acts[txn.done]) in txn'.locks)
              || (txn'.done == txn.done + 1 && SkuOf(t, acts[txn.done]) in txn.locks)))
    ensures TxnWork(t, txn') < TxnWork(t, txn)
  {
  }

  /** Every move, and every abort, leaves strictly less work. */
  lemma MoveLeavesLess(s: State, a: Action)
    requires Inv(s) && Enabled(s, a) && !a.Begin?
    ensures Work(Step(s, a).tables, Step(s, a).txns) < Work(s.tables, s.txns)
  {
    var s', k := Step(s, a), a.k;
    assert LocksCover(s.tables, s.txns[k]);
    TxnWorkDrops(s.tables, s.txns[k], s'.txns[k]);
    WorkSet(s.tables, s.txns, k, s'.txns[k]);
    if a.Commit? {
      CommitLeavesWork(s, k);
    }
  }

  /** All actions in `actions` are enabled when their turn comes, and none begins a transaction. */
  predicate Effective(s: State, actions: seq<Action>)
    decreases |actions|
  {
    actions != [] ==>
      && Effective(s, actions[..|actions| - 1])
      && Enabled(Run(s, actions[..|actions| - 1]), actions[|actions| - 1])
      && !actions[|actions| - 1].Begin?
  }

  lemma {:induction false} SchedulesAreBounded(s: State, actions: seq<Action>)
    requires Inv(s) && Effective(s, actions)
    ensures Inv(Run(s, actions))
    ensures |actions| + Work(Run(s, actions).tables, Run(s, actions).txns) <= Work(s.tables, s.txns)
    decreases |actions|
  {
    if actions != [] {
      var front := actions[..|actions| - 1];
      SchedulesAreBounded(s, front);
      StepKeepsInv(Run(s, front), actions[|actions| - 1]);
      MoveLeavesLess(Run(s, front), actions[|actions| - 1]);
    }
  }

  lemma EffectiveMore(s: State, actions: seq<Action>, a: Action)
    requires Effective(s, actions) && Enabled(Run(s, actions), a) && !a.Begin?
    ensures Effective(s, actions + [a]) && Run(s, actions + [a]) == Step(Run(s, actions), a)
  {
    assert (actions + [a])[..|actions|] == actions;
  }

  /** Nothing but the begin of another transaction can break the order. */
  lemma StaysInOrder(s: State, a: Action)
    requires Inv(s) && AllInOrder(s) && !a.Begin?
    ensures AllInOrder(Step(s, a))
  {
    var s' := Step(s, a);
    forall k | 0 <= k < |s'.txns| && s'.txns[k].phase == Open
      ensures LocksInOrder(s'.tables, s'.txns[k].acts)
    {
      KeepsSkus(s, a, k);
      SameOrder(s.tables, s'.tables, s.txns[k].acts);
    }
  }

  lemma KeepsSkus(s: State, a: Action, k: nat)
    requires Inv(s) && !a.Begin? && k < |s.txns| && Step(s, a).txns[k].phase == Open
    ensures s.txns[k].phase == Open && Step(s, a).txns[k].acts == s.txns[k].acts
    ensures forall i :: 0 <= i < |s.txns[k].acts| ==>
            SkuOf(Step(s, a).tables, s.txns[k].acts[i]) == SkuOf(s.tables, s.txns[k].acts[i])
  {
    assert TxnInv(s.tables, s.txns[k]);
    forall i | 0 <= i < |s.txns[k].acts|
      ensures SkuOf(Step(s, a).tables, s.txns[k].acts[i]) == SkuOf(s.tables, s.txns[k].acts[i])
    {
      SameSkus(s.tables, Step(s, a).tables, s.txns[k], i);
    }
  }

  lemma SameOrder(t: Tables, t': Tables, acts: seq<Act>)
    requires LocksInOrder(t, acts) && forall i :: 0 <= i < |acts| ==> SkuOf(t', acts[i]) == SkuOf(t, acts[i])
    ensures LocksInOrder(t', acts)
  {
    forall i, j | 0 <= i < j < |acts| && LocksAt(t', acts, j)
      ensures SkuOf(t', acts[i]) <= SkuOf(t', acts[j])
    {
      assert LocksAt(t, acts, j);
    }
  }

  /** Any schedule of transactions that lock in SKU order, extended by moves, ends with all of them finished. */
  lemma {:induction false} AllFinish(s: State, sofar: seq<Action>) returns (actions: seq<Action>)
    requires Inv(s) && Effective(s, sofar) && AllInOrder(Run(s, sofar))
    ensures Effective(s, actions) && Finished(Run(s, actions)) && |actions| <= Work(s.tables, s.txns)
    ensures sofar <= actions
    decreases Work(Run(s, sofar).tables, Run(s, sofar).txns)
  {
    SchedulesAreBounded(s, sofar);
    var now := Run(s, sofar);
    if Finished(now) {
      return sofar;
    }
    var k :| 0 <= k < |now.txns| && now.txns[k].phase == Open;
    var a := NextMove(now, k);
    EffectiveMore(s, sofar, a);
    MoveLeavesLess(now, a);
    StaysInOrder(now, a);
    actions := AllFinish(s, sofar + [a]);
  }

  lemma NextMove(s: State, k: nat) returns (a: Action)
    requires Covered(s) && AllInOrder(s) && IsOpen(s, k)
    ensures Enabled(s, a) && !a.Begin?
  {
    var j := FollowBlockers(s, k);
    a := Move(s, j);
  }

  // ----- a release out of order -----

  lemma RunMore(s: State, actions: seq<Action>, a: Action)
    ensures Run(s, actions + [a]) == Step(Run(s, actions), a)
  {
    assert (actions + [a])[..|actions|] == actions;
  }

  /** All acts are give-backs that succeed when run on `t`. */
  predicate Releases(t: Tables, acts: seq<Act>) {
    (forall i :: 0 <= i < |acts| ==> acts[i].Give?) && RunActs(t, acts).Ok?
  }

  /** Of two transactions, a release that has done less than its first `n` acts, while the other holds none of these. */
  ghost predicate Advancing(t: Tables, s: State, k: nat, n: nat) {
    && Inv(s) && s.tables == t && |s.txns| == 2 && k < 2 && IsOpen(s, k)
    && s.txns[k].done <= n <= |s.txns[k].acts| && Releases(t, s.txns[k].acts)
    && (forall i :: 0 <= i < n ==> SkuOf(t, s.txns[k].acts[i]) !in s.txns[1 - k].locks)
    && forall sku :: sku in s.txns[k].locks ==> Before(t, s.txns[k].acts, n, sku)
  }

  /** One of the first `n` acts is on this SKU. */
  predicate Before(t: Tables, acts: seq<Act>, n: nat, sku: Sku)
    requires n <= |acts|
  {
    exists i :: 0 <= i < n && SkuOf(t, acts[i]) == sku
  }

  lemma ExecSucceeds(s: State, k: nat)
    requires Inv(s) && MayExec(s, k) && Releases(s.tables, s.txns[k].acts)
    ensures ExecBuffered(s.tables, s.txns[k].buffer, s.txns[k].acts[s.txns[k].done]).Ok?
  {
    if ExecBuffered(s.tables, s.txns[k].buffer, s.txns[k].acts[s.txns[k].done]).Err? {
      FailureIsSerial(s, k);
    }
  }

  lemma NextIsFree(t: Tables, s: State, k: nat, n: nat)
    requires Advancing(t, s, k, n) && s.txns[k].done < n
    ensures HasNext(s, k) && !HeldByOther(s, k, NextSku(s, k)) && Before(t, s.txns[k].acts, n, NextSku(s, k))
    ensures LocksCover(t, s.txns[k])
  {
    assert TxnInv(t, s.txns[k]);
  }

  lemma LockAdvances(t: Tables, s: State, k: nat, n: nat)
    requires Advancing(t, s, k, n) && s.txns[k].done < n && !MayExec(s, k)
    ensures Advancing(t, Step(s, Lock(k)), k, n)
    ensures Step(s, Lock(k)) ==
            SetTxn(s, k, s.txns[k].(locks := s.txns[k].locks + {SkuOf(t, s.txns[k].acts[s.txns[k].done])}))
  {
    NextIsFree(t, s, k, n);
    StepKeepsInv(s, Lock(k));
  }

  lemma ExecAdvances(t: Tables, s: State, k: nat, n: nat)
    requires Advancing(t, s, k, n) && s.txns[k].done < n && MayExec(s, k)
    ensures Advancing(t, Step(s, Exec(k)), k, n)
    ensures var b := Step(s, Exec(k)).txns[k].buffer;
            Step(s, Exec(k)) == SetTxn(s, k, s.txns[k].(done := s.txns[k].done + 1, buffer := b))
  {
    ExecSucceeds(s, k);
    StepKeepsInv(s, Exec(k));
  }

  /** One step of the release: it locks the row it needs, or uses it. */
  lemma AdvanceOne(t: Tables, s: State, k: nat, n: nat) returns (a: Action)
    requires Advancing(t, s, k, n) && s.txns[k].done < n
    ensures a.Lock? || a.Exec?
    ensures var s' := Step(s, a);
            && Advancing(t, s', k, n) && s'.txns[1 - k] == s.txns[1 - k] && s'.txns[k].acts == s.txns[k].acts
            && s'.txns[k].request == s.txns[k].request
            && TxnWork(t, s'.txns[k]) < TxnWork(t, s.txns[k])
  {
    NextIsFree(t, s, k, n);
    if MayExec(s, k) {
      a := Exec(k);
      ExecAdvances(t, s, k, n);
    } else {
      a := Lock(k);
      LockAdvances(t, s, k, n);
    }
    TxnWorkDrops(t, s.txns[k], Step(s, a).txns[k]);
  }

  lemma {:induction false} Advance(t: Tables, s0: State, sofar: seq<Action>, k: nat, n: nat)
    returns (actions: seq<Action>)
    requires Advancing(t, Run(s0, sofar), k, n)
    ensures var s, s' := Run(s0, sofar), Run(s0, actions);
            && Advancing(t, s', k, n) && s'.txns[k].done == n && s'.txns[1 - k] == s.txns[1 - k]
                && s'.txns[k].acts == s.txns[k].acts
            && s'.txns[k].request == s.txns[k].request
    decreases TxnWork(t, Run(s0, sofar).txns[k])
  {
    var s := Run(s0, sofar);
    if s.txns[k].done == n {
      return sofar;
    }
    var a := AdvanceOne(t, s, k, n);
    RunMore(s0, sofar, a);
    actions := Advance(t, s0, sofar + [a], k, n);
  }

  /** An order that takes one unit each of two SKUs. */
  function Pair(low: Sku, high: Sku): seq<Line> {
    [Line(low, 1), Line(high, 1)]
  }

  lemma PairActs(order: OrderId, low: Sku, high: Sku, expiresAt: int)
    requires low < high
    ensures ActsFor(Reserving(order, Pair(low, high), expiresAt)) ==
            [Take(order, Line(low, 1), expiresAt), Take(order, Line(high, 1), expiresAt)]
  {
    var lines := Pair(low, high);
    assert lines[..1] == [Line(low, 1)] && lines[..1][..0] == [];
    assert SortLines(lines[..1]) == [Line(low, 1)];
    assert SortLines(lines) == lines;
  }

  lemma RunFour(s: State, a: Action, b: Action, c: Action, d: Action)
    ensures Run(s, [a, b, c, d]) == Step(Step(Step(Step(s, a), b), c), d)
  {
    assert [] + [a] == [a] && [a] + [b] == [a, b] && [a, b] + [c] == [a, b, c] && [a, b, c] + [d] == [a, b, c, d];
    RunMore(s, [], a);
    RunMore(s, [a], b);
    RunMore(s, [a, b], c);
    RunMore(s, [a, b, c], d);
  }

  /** A reserve that begins beside an idle release locks and takes its first line. */
  lemma FirstLineTaken(t: Tables, s: State, order: OrderId, low: Sku, acts: seq<Act>)
    requires s.tables == t && |s.txns| == 2 && s.txns[0].locks == {}
    requires s.txns[1].acts == acts && s.txns[1].phase == Open && s.txns[1].done == 0
    requires s.txns[1].locks == {} && s.txns[1].buffer == EMPTY
    requires acts != [] && acts[0] == Take(order, Line(low, 1), 0)
    requires low in t.stock && t.stock[low].available >= 1 && !Taken(t.rows, order, low)
    ensures var s' := Step(Step(s, Lock(1)), Exec(1));
            && s'.tables == t && |s'.txns| == 2 && s'.txns[0] == s.txns[0]
            && s'.txns[1].request == s.txns[1].request && s'.txns[1].acts == acts
            && s'.txns[1].phase == Open && s'.txns[1].locks == {low} && s'.txns[1].done == 1
  {
    assert !HeldByOther(s, 1, low);
    var s1 := Step(s, Lock(1));
    assert s1.txns[1].locks == {low};
    assert ExecBuffered(t, EMPTY, acts[0]).Ok?;
  }

  /** The release has begun; the reserve holds the row of the smaller SKU and wants the other. */
  lemma ReserveHolds(t: Tables, release: Request, order: OrderId, low: Sku, high: Sku) returns (actions: seq<Action>)
    requires release.Releasing? && MayBegin(Start(t), release) && low < high
    requires low in t.stock && t.stock[low].available >= 1 && !Taken(t.rows, order, low)
    ensures var s := Run(Start(t), actions);
            && Inv(s) && s.tables == t && |s.txns| == 2
            && s.txns[0] == Txn(release, ActsFor(release), 0, {}, EMPTY, Open)
            && s.txns[1].request.Reserving? && s.txns[1].phase == Open && s.txns[1].locks == {low}
                && s.txns[1].done == 1
            && s.txns[1].acts == [Take(order, Line(low, 1), 0), Take(order, Line(high, 1), 0)]
  {
    var reserve := Reserving(order, Pair(low, high), 0);
    PairActs(order, low, high, 0);
    actions := [Begin(release), Begin(reserve), Lock(1), Exec(1)];
    RunFour(Start(t), Begin(release), Begin(reserve), Lock(1), Exec(1));
    FirstLineTaken(t, Step(Step(Start(t), Begin(release)), Begin(reserve)), order, low, ActsFor(reserve));
    RunKeepsInv(t, actions);
  }

  /** Both are open and neither can take its next step. */
  predicate Deadlocked(s: State) {
    |s.txns| == 2 && IsOpen(s, 0) && IsOpen(s, 1) && !CanMove(s, 0) && !CanMove(s, 1)
  }

  predicate DeadlockOf(s: State, release: Request) {
    Deadlocked(s) && s.txns[0].request == release && s.txns[1].request.Reserving?
  }

  /**
   A release that locks a larger SKU before a smaller one can deadlock with a reserve of the two,
   as soon as the smaller one is in stock.
   */
  lemma ReleaseCanDeadlock(t: Tables, initial: map<Sku, nat>, release: Request, order: OrderId, i: nat, j: nat)
    returns (actions: seq<Action>)
    requires Ledger(t, initial) && release.Releasing? && MayBegin(Start(t), release)
    requires var acts := ActsFor(release);
             i < j < |acts| && LocksAt(t, acts, j) && SkuOf(t, acts[i]) > SkuOf(t, acts[j])
    requires var low := SkuOf(t, ActsFor(release)[j]);
             low in t.stock ==> t.stock[low].available >= 1 && !Taken(t.rows, order, low)
    ensures DeadlockOf(Run(Start(t), actions), release)
  {
    var acts := ActsFor(release);
    var low, high := SkuOf(t, acts[j]), SkuOf(t, acts[i]);
    assert t.rows[release.ids[i]].sku in t.stock && t.rows[release.ids[j]].sku in t.stock;
    var front := ReserveHolds(t, release, order, low, high);
    ReleaseIsSound(t, initial, release, Run(Start(t), front));
    actions := Advance(t, Start(t), front, 0, j);
    BothWait(t, Run(Start(t), actions), order, i, j);
    ActsAreRequested(t, actions);
  }

  lemma ReleaseIsSound(t: Tables, initial: map<Sku, nat>, release: Request, s: State)
    requires Ledger(t, initial) && release.Releasing? && s.tables == t && Inv(s) && IsOpen(s, 0)
             && s.txns[0].acts == ActsFor(release)
    ensures Releases(t, ActsFor(release))
  {
    assert TxnInv(t, s.txns[0]);
    ActsKeepLedger(t, ActsFor(release), initial);
  }

  lemma BothWait(t: Tables, s: State, order: OrderId, i: nat, j: nat)
    requires Advancing(t, s, 0, j) && s.txns[0].done == j && i < j < |s.txns[0].acts|
    requires LocksAt(t, s.txns[0].acts, j)
    requires var low, high := SkuOf(t, s.txns[0].acts[j]), SkuOf(t, s.txns[0].acts[i]);
             && low in t.stock && high in t.stock && low != high
             && s.txns[1].phase == Open && s.txns[1].locks == {low} && s.txns[1].done == 1
             && s.txns[1].acts == [Take(order, Line(low, 1), 0), Take(order, Line(high, 1), 0)]
    ensures Deadlocked(s)
  {
    var low, high := SkuOf(t, s.txns[0].acts[j]), SkuOf(t, s.txns[0].acts[i]);
    assert TxnInv(t, s.txns[0]) && LocksCover(t, s.txns[0]);
    assert high in s.txns[0].locks;
    assert low !in s.txns[0].locks;
    assert HeldByOther(s, 0, low) && HeldByOther(s, 1, high);
  }

  /** Some schedule makes the release and one reserve wait for each other for ever. */
  ghost predicate CanDeadlock(t: Tables, release: Request) {
    exists actions :: DeadlockOf(Run(Start(t), actions), release)
  }

  lemma NothingCommitted(t: Tables, actions: seq<Action>)
    requires forall k :: 0 <= k < |Run(Start(t), actions).txns| ==> Run(Start(t), actions).txns[k].phase == Open
    ensures Run(Start(t), actions).tables == t
  {
    RunKeepsInv(t, actions);
    SerialEquivalence(t, actions);
    var s := Run(Start(t), actions);
    assert forall i :: 0 <= i < |s.committed| ==> s.committed[i] in s.committed;
  }

  lemma InOrderCanMove(s: State)
    requires Covered(s) && |s.txns| == 2
    requires LocksInOrder(s.tables, s.txns[0].acts) && LocksInOrder(s.tables, s.txns[1].acts)
    ensures !Deadlocked(s)
  {
    if Deadlocked(s) {
      SomeCanMove(s);
    }
  }

  lemma InOrderIsSafe(t: Tables, release: Request, actions: seq<Action>)
    requires LocksInOrder(t, ActsFor(release)) && Deadlocked(Run(Start(t), actions))
    ensures !DeadlockOf(Run(Start(t), actions), release)
  {
    RunKeepsInv(t, actions);
    NothingCommitted(t, actions);
    ActsAreRequested(t, actions);
    NoSuchDeadlock(t, Run(Start(t), actions), release);
  }

  lemma NoSuchDeadlock(t: Tables, s: State, release: Request)
    requires Inv(s) && s.tables == t && AsRequested(s.txns) && LocksInOrder(t, ActsFor(release))
    ensures !DeadlockOf(s, release)
  {
    if DeadlockOf(s, release) {
      var reserve := s.txns[1].request;
      ReserveInOrder(t, reserve.order, reserve.items, reserve.expiresAt);
      assert Covered(s);
      InOrderCanMove(s);
    }
  }

  /**
   With every SKU in stock, a release can deadlock with a reserve if and only if the rows it selected
   make it lock some larger SKU before a smaller one.
   */
  lemma DeadlocksExactly(t: Tables, initial: map<Sku, nat>, release: Request, order: OrderId)
    requires Ledger(t, initial) && release.Releasing? && MayBegin(Start(t), release)
    requires forall sku :: sku in t.stock ==> t.stock[sku].available >= 1 && !Taken(t.rows, order, sku)
    ensures CanDeadlock(t, release) <==> !LocksInOrder(t, ActsFor(release))
  {
    var acts := ActsFor(release);
    if LocksInOrder(t, acts) {
      forall actions
        ensures !DeadlockOf(Run(Start(t), actions), release)
      {
        if Deadlocked(Run(Start(t), actions)) {
          InOrderIsSafe(t, release, actions);
        }
      }
    } else {
      var i, j :| 0 <= i < j < |acts| && LocksAt(t, acts, j) && SkuOf(t, acts[i]) > SkuOf(t, acts[j]);
      var actions := ReleaseCanDeadlock(t, initial, release, order, i, j);
    }
  }

  /** It happens: two reservations of one order, selected in the order SKU 2, SKU 1. */
  lemma CrossingReleaseDeadlocks()
    ensures var t := Tables(map[1 := Stock(4, 1, 2), 2 := Stock(4, 1, 2)],
                            [Reservation(7, 1, 1, Active, 0), Reservation(7, 2, 1, Active, 0)]);
            CanDeadlock(t, Releasing(OfOrder(7), [1, 0]))
  {
    var rows := [Reservation(7, 1, 1, Active, 0), Reservation(7, 2, 1, Active, 0)];
    var t := Tables(map[1 := Stock(4, 1, 2), 2 := Stock(4, 1, 2)], rows);
    var release := Releasing(OfOrder(7), [1, 0]);
    assert rows[..1] == [rows[0]] && rows[..1][..0] == [];
    assert ActiveQty(rows[..1], 1) == 1 && ActiveQty(rows[..1], 2) == 0;
    assert ActiveQty(rows, 1) == 1 && ActiveQty(rows, 2) == 1;
    assert Ledger(t, map[1 := 5, 2 := 5]);
    assert release.ids[0] == 1 && release.ids[1] == 0;
    assert LocksAt(t, ActsFor(release), 1);
    var actions := ReleaseCanDeadlock(t, map[1 := 5, 2 := 5], release, 8, 0, 1);
  }
}
