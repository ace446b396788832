/** Exactly when two releases or sweeps wait for each other: giving stock back never looks at how much there is. */
module ReleaseDeadlock {
  import opened Results
  import opened InventoryTables
  import opened StockLedger
  import opened InventoryTransactions
  import opened ReserveDeadlock

  /**
   The first `i` rows of one release and the first `j` of the other are of different SKUs, and each one's
   next row is of an SKU among these of the other.
   */
  predicate CrossesAt(t: Tables, p: seq<Act>, q: seq<Act>, i: nat, j: nat)
    requires i < |p| && j < |q|
  {
    && (forall a, b :: 0 <= a < i && 0 <= b < j ==> SkuOf(t, p[a]) != SkuOf(t, q[b]))
    && Before(t, q, j, SkuOf(t, p[i])) && Before(t, p, i, SkuOf(t, q[j]))
  }

  predicate Crossing(t: Tables, p: seq<Act>, q: seq<Act>) {
    exists i, j :: 0 <= i < |p| && 0 <= j < |q| && CrossesAt(t, p, q, i, j)
  }

  predicate DeadlockOfBoth(s: State, release: Request, other: Request) {
    Deadlocked(s) && s.txns[0].request == release && s.txns[1].request == other
  }

  /** Some schedule makes the two releases wait for each other for ever. */
  ghost predicate CanDeadlockBoth(t: Tables, release: Request, other: Request) {
    exists actions :: DeadlockOfBoth(Run(Start(t), actions), release, other)
  }

  /** Two transactions of which neither has locked a row. */
  predicate BothBegun(s: State, release: Request, other: Request) {
    && |s.txns| == 2
    && s.txns[0] == Txn(release, ActsFor(release), 0, {}, EMPTY, Open)
    && s.txns[1] == Txn(other, ActsFor(other), 0, {}, EMPTY, Open)
  }

  lemma BothBegin(t: Tables, release: Request, other: Request)
    requires release.Releasing? && other.Releasing? && MayBegin(Start(t), release) && MayBegin(Start(t), other)
    requires forall id :: id in release.ids ==> id !in other.ids
    ensures var s := Run(Start(t), [Begin(release), Begin(other)]);
            Inv(s) && s.tables == t && BothBegun(s, release, other)
  {
    var s1 := Step(Start(t), Begin(release));
    RunMore(Start(t), [], Begin(release));
    RunMore(Start(t), [Begin(release)], Begin(other));
    assert [] + [Begin(release)] == [Begin(release)];
    assert [Begin(release)] + [Begin(other)] == [Begin(release), Begin(other)];
    forall i | 0 <= i < |other.ids|
      ensures !RowLocked(s1, other.ids[i])
    {
      GivesOfIds(release.ids, GivenStatus(release.sel), other.ids[i]);
    }
    assert MayBegin(s1, other);
    RunKeepsInv(t, [Begin(release), Begin(other)]);
  }

  /** A release that the first `n` rows of which the other does not hold can get through these. */
  lemma ReadyToAdvance(t: Tables, initial: map<Sku, nat>, s: State, k: nat, n: nat)
    requires Ledger(t, initial) && Inv(s) && s.tables == t && |s.txns| == 2 && k < 2 && IsOpen(s, k)
    requires s.txns[k].request.Releasing? && s.txns[k].acts == ActsFor(s.txns[k].request)
    requires s.txns[k].done == 0 && s.txns[k].locks == {} && n <= |s.txns[k].acts|
    requires forall i :: 0 <= i < n ==> SkuOf(t, s.txns[k].acts[i]) !in s.txns[1 - k].locks
    ensures Advancing(t, s, k, n)
  {
    assert TxnInv(t, s.txns[k]);
    ActsKeepLedger(t, s.txns[k].acts, initial);
  }

  /** The first release is through its first `i` rows, the other has only begun. */
  ghost predicate FirstIsThrough(t: Tables, s: State, release: Request, other: Request, i: nat) {
    && Advancing(t, s, 0, i) && s.txns[0].done == i
    && s.txns[0].request == release && s.txns[0].acts == ActsFor(release)
    && s.txns[1] == Txn(other, ActsFor(other), 0, {}, EMPTY, Open)
  }

  lemma FirstGetsThrough(t: Tables, initial: map<Sku, nat>, release: Request, other: Request, i: nat)
    returns (actions: seq<Action>)
    requires Ledger(t, initial) && release.Releasing? && other.Releasing?
    requires MayBegin(Start(t), release) && MayBegin(Start(t), other)
    requires forall id :: id in release.ids ==> id !in other.ids
    requires i < |ActsFor(release)|
    ensures FirstIsThrough(t, Run(Start(t), actions), release, other, i)
  {
    var begun := [Begin(release), Begin(other)];
    BothBegin(t, release, other);
    BegunIsReady(t, initial, Run(Start(t), begun), release, other, i);
    actions := Advance(t, Start(t), begun, 0, i);
    StillThrough(t, Run(Start(t), begun), Run(Start(t), actions), release, other, i);
  }

  lemma StillThrough(t: Tables, s: State, s': State, release: Request, other: Request, i: nat)
    requires BothBegun(s, release, other) && Advancing(t, s', 0, i) && s'.txns[0].done == i
    requires s'.txns[1] == s.txns[1] && s'.txns[0].acts == s.txns[0].acts && s'.txns[0].request == s.txns[0].request
    ensures FirstIsThrough(t, s', release, other, i)
  {
  }

  lemma BegunIsReady(t: Tables, initial: map<Sku, nat>, s: State, release: Request, other: Request, i: nat)
    requires Ledger(t, initial) && release.Releasing? && BothBegun(s, release, other) && Inv(s) && s.tables == t
    requires i < |ActsFor(release)|
    ensures Advancing(t, s, 0, i)
  {
    ReadyToAdvance(t, initial, s, 0, i);
  }

  lemma SecondIsReady(t: Tables, initial: map<Sku, nat>, s: State, release: Request, other: Request, i: nat, j: nat)
    requires Ledger(t, initial) && FirstIsThrough(t, s, release, other, i) && other.Releasing?
    requires i < |ActsFor(release)| && j < |ActsFor(other)|
    requires CrossesAt(t, ActsFor(release), ActsFor(other), i, j)
    ensures Advancing(t, s, 1, j)
  {
    forall b | 0 <= b < j
      ensures SkuOf(t, s.txns[1].acts[b]) !in s.txns[0].locks
    {
      assert !Before(t, s.txns[0].acts, i, SkuOf(t, s.txns[1].acts[b]));
    }
    ReadyToAdvance(t, initial, s, 1, j);
  }

  lemma SecondWaitsToo(t: Tables, initial: map<Sku, nat>, s: State, release: Request, other: Request, i: nat, j: nat)
    requires Ledger(t, initial) && Inv(s) && s.tables == t && |s.txns| == 2 && IsOpen(s, 0) && IsOpen(s, 1)
    requires s.txns[0].request == release && s.txns[0].acts == ActsFor(release) && release.Releasing?
    requires s.txns[1].request == other && s.txns[1].acts == ActsFor(other) && other.Releasing?
    requires s.txns[0].done == i < |ActsFor(release)| && s.txns[1].done == j < |ActsFor(other)|
    requires CrossesAt(t, ActsFor(release), ActsFor(other), i, j)
    ensures DeadlockOfBoth(s, release, other)
  {
    ReleaseIsStocked(t, initial, s);
    EachWaits(t, s, i, j);
  }

  /** Two releases that cross deadlock, whatever is in stock. */
  lemma CrossingDeadlocks(t: Tables, initial: map<Sku, nat>, release: Request, other: Request, i: nat, j: nat)
    returns (actions: seq<Action>)
    requires Ledger(t, initial) && release.Releasing? && other.Releasing?
    requires MayBegin(Start(t), release) && MayBegin(Start(t), other)
    requires forall id :: id in release.ids ==> id !in other.ids
    requires i < |ActsFor(release)| && j < |ActsFor(other)|
    requires CrossesAt(t, ActsFor(release), ActsFor(other), i, j)
    ensures DeadlockOfBoth(Run(Start(t), actions), release, other)
  {
    var front := FirstGetsThrough(t, initial, release, other, i);
    SecondIsReady(t, initial, Run(Start(t), front), release, other, i, j);
    actions := Advance(t, Start(t), front, 1, j);
    SecondWaitsToo(t, initial, Run(Start(t), actions), release, other, i, j);
  }

  /** Both give back rows of SKUs that are there. */
  predicate StockedReleases(t: Tables, s: State) {
    && |s.txns| == 2
    && forall k, a :: 0 <= k < 2 && 0 <= a < |s.txns[k].acts| ==> SkuOf(t, s.txns[k].acts[a]) in t.stock
  }

  lemma ReleaseIsStocked(t: Tables, initial: map<Sku, nat>, s: State)
    requires Ledger(t, initial) && Inv(s) && s.tables == t && |s.txns| == 2 && IsOpen(s, 0) && IsOpen(s, 1)
    requires forall k :: 0 <= k < 2 ==> s.txns[k].request.Releasing? && s.txns[k].acts == ActsFor(s.txns[k].request)
    ensures StockedReleases(t, s)
  {
    forall k, a | 0 <= k < 2 && 0 <= a < |s.txns[k].acts|
      ensures SkuOf(t, s.txns[k].acts[a]) in t.stock
    {
      assert TxnInv(t, s.txns[k]) && s.txns[k].acts[a].Give?;
    }
  }

  lemma EachWaits(t: Tables, s: State, i: nat, j: nat)
    requires Inv(s) && s.tables == t && StockedReleases(t, s) && IsOpen(s, 0) && IsOpen(s, 1)
    requires s.txns[0].done == i < |s.txns[0].acts| && s.txns[1].done == j < |s.txns[1].acts|
    requires CrossesAt(t, s.txns[0].acts, s.txns[1].acts, i, j)
    ensures Deadlocked(s)
  {
    assert TxnInv(t, s.txns[0]) && TxnInv(t, s.txns[1]) && Apart(s, 0, 1);
    assert NextSku(s, 0) in s.txns[1].locks && NextSku(s, 1) in s.txns[0].locks;
    assert HeldByOther(s, 0, NextSku(s, 0)) && HeldByOther(s, 1, NextSku(s, 1));
  }

  /** Whoever waits for each other got there by crossing. */
  lemma DeadlockCrosses(t: Tables, s: State)
    requires Inv(s) && s.tables == t && StockedReleases(t, s) && Deadlocked(s)
    ensures Crossing(t, s.txns[0].acts, s.txns[1].acts)
  {
    assert Covered(s) && TxnInv(t, s.txns[0]) && TxnInv(t, s.txns[1]) && Apart(s, 0, 1);
    Stuck(s, 0);
    Stuck(s, 1);
    HeldIsBefore(t, s, 1, NextSku(s, 0));
    HeldIsBefore(t, s, 0, NextSku(s, 1));
    assert CrossesAt(t, s.txns[0].acts, s.txns[1].acts, s.txns[0].done, s.txns[1].done);
  }

  lemma HeldIsBefore(t: Tables, s: State, k: nat, sku: Sku)
    requires Covered(s) && s.tables == t && HasNext(s, k)
    requires sku in s.txns[k].locks && NextSku(s, k) !in s.txns[k].locks
    ensures Before(t, s.txns[k].acts, s.txns[k].done, sku)
  {
    assert LocksCover(t, s.txns[k]);
    var i :| 0 <= i <= s.txns[k].done && i < |s.txns[k].acts| && SkuOf(t, s.txns[k].acts[i]) == sku;
    assert i != s.txns[k].done;
  }

  lemma DeadlockOfBothCrosses(t: Tables, initial: map<Sku, nat>, release: Request, other: Request,
                              actions: seq<Action>)
    requires Ledger(t, initial) && release.Releasing? && other.Releasing?
    requires DeadlockOfBoth(Run(Start(t), actions), release, other)
    ensures Crossing(t, ActsFor(release), ActsFor(other))
  {
    RunKeepsInv(t, actions);
    NothingCommitted(t, actions);
    ActsAreRequested(t, actions);
    ReleaseIsStocked(t, initial, Run(Start(t), actions));
    DeadlockCrosses(t, Run(Start(t), actions));
  }

  /**
   Two releases or sweeps of different rows can deadlock if and only if they cross, whatever is in stock: each
   gets through some first rows without the other, and then needs the lock on an SKU the other has passed.
   */
  lemma ReleasesDeadlockExactly(t: Tables, initial: map<Sku, nat>, release: Request, other: Request)
    requires Ledger(t, initial) && release.Releasing? && other.Releasing?
    requires MayBegin(Start(t), release) && MayBegin(Start(t), other)
    requires forall id :: id in release.ids ==> id !in other.ids
    ensures CanDeadlockBoth(t, release, other) <==> Crossing(t, ActsFor(release), ActsFor(other))
  {
    var p, q := ActsFor(release), ActsFor(other);
    if i, j :| 0 <= i < |p| && 0 <= j < |q| && CrossesAt(t, p, q, i, j) {
      var actions := CrossingDeadlocks(t, initial, release, other, i, j);
    } else {
      forall actions
        ensures !DeadlockOfBoth(Run(Start(t), actions), release, other)
      {
        if DeadlockOfBoth(Run(Start(t), actions), release, other) {
          DeadlockOfBothCrosses(t, initial, release, other, actions);
        }
      }
    }
  }

  /** Two sold-out SKUs, each reserved by orders 7 and 8. */
  const SOLD_OUT := Tables(map[1 := Stock(0, 2, 3), 2 := Stock(0, 2, 3)],
                           [Reservation(7, 1, 1, Active, 0), Reservation(7, 2, 1, Active, 0),
                            Reservation(8, 1, 1, Active, 0), Reservation(8, 2, 1, Active, 0)])

  lemma SoldOutUnits(sku: Sku)
    ensures ActiveQty(SOLD_OUT.rows, sku) == if sku == 1 || sku == 2 then 2 else 0
  {
    var rows := SOLD_OUT.rows;
    assert rows[..0] == [] && ActiveQty(rows[..0], sku) == 0;
    assert rows[..1] == rows[..0] + [rows[0]] && rows[..2] == rows[..1] + [rows[1]];
    assert rows[..3] == rows[..2] + [rows[2]] && rows == rows[..3] + [rows[3]];
    ActiveQtyAppend(rows[..0], rows[0], sku);
    ActiveQtyAppend(rows[..1], rows[1], sku);
    ActiveQtyAppend(rows[..2], rows[2], sku);
    ActiveQtyAppend(rows[..3], rows[3], sku);
  }

  lemma SoldOutLedger()
    ensures Ledger(SOLD_OUT, map[1 := 2, 2 := 2])
  {
    SoldOutUnits(1);
    SoldOutUnits(2);
  }

  lemma SoldOutMayBegin(release: Request, other: Request)
    requires release == Releasing(OfOrder(7), [1, 0]) && other == Releasing(OfOrder(8), [2, 3])
    ensures MayBegin(Start(SOLD_OUT), release) && MayBegin(Start(SOLD_OUT), other)
    ensures forall id :: id in release.ids ==> id !in other.ids
  {
  }

  /** It happens with nothing in stock, to two orders whose rows come in opposite SKU orders. */
  lemma SoldOutReleasesDeadlock()
    ensures CanDeadlockBoth(SOLD_OUT, Releasing(OfOrder(7), [1, 0]), Releasing(OfOrder(8), [2, 3]))
  {
    var release, other := Releasing(OfOrder(7), [1, 0]), Releasing(OfOrder(8), [2, 3]);
    SoldOutLedger();
    SoldOutMayBegin(release, other);
    SoldOutCross(ActsFor(release), ActsFor(other));
    ReleasesDeadlockExactly(SOLD_OUT, map[1 := 2, 2 := 2], release, other);
  }

  lemma SoldOutCross(p: seq<Act>, q: seq<Act>)
    requires p == Gives([1, 0], Released) && q == Gives([2, 3], Released)
    ensures CrossesAt(SOLD_OUT, p, q, 1, 1)
  {
    assert p[0] == Give(1, Released) && p[1] == Give(0, Released);
    assert q[0] == Give(2, Released) && q[1] == Give(3, Released);
    var rows := SOLD_OUT.rows;
    assert |rows| == 4 && rows[0].sku == 1 && rows[1].sku == 2 && rows[2].sku == 1 && rows[3].sku == 2;
    assert SkuOf(SOLD_OUT, p[0]) == 2 && SkuOf(SOLD_OUT, q[0]) == 1;
  }
}
