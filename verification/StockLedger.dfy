/**
 The stock ledger: `reserved_qty` is always the sum of a SKU's ACTIVE reservations, and no
 unit is created or lost. Also: when exactly a reservation succeeds, and what it does.
 */
module StockLedger {
  import opened Results
  import opened InventoryTables

  // ----- sums over rows and lines -----

  function Held(row: Reservation, sku: Sku): int {
    if row.sku == sku && row.status == Active then row.quantity else 0
  }

  function ActiveQty(rows: seq<Reservation>, sku: Sku): int {
    if rows == [] then 0 else ActiveQty(rows[..|rows| - 1], sku) + Held(rows[|rows| - 1], sku)
  }

  lemma ActiveQtyAppend(rows: seq<Reservation>, row: Reservation, sku: Sku)
    ensures ActiveQty(rows + [row], sku) == ActiveQty(rows, sku) + Held(row, sku)
  {
    assert (rows + [row])[..|rows|] == rows;
  }

  lemma {:induction false} ActiveQtySet(rows: seq<Reservation>, i: nat, row: Reservation, sku: Sku)
    requires i < |rows|
    ensures ActiveQty(rows[i := row], sku) == ActiveQty(rows, sku) - Held(rows[i], sku) + Held(row, sku)
    decreases |rows|
  {
    var n := |rows| - 1;
    if i < n {
      assert rows[i := row][..n] == rows[..n][i := row];
      ActiveQtySet(rows[..n], i, row, sku);
    } else {
      assert rows[i := row][..n] == rows[..n];
    }
  }

  predicate PositiveQuantities(rows: seq<Reservation>) {
    forall i :: 0 <= i < |rows| ==> rows[i].quantity > 0
  }

  lemma {:induction false} ActiveQtyCovers(rows: seq<Reservation>, i: nat, sku: Sku)
    requires PositiveQuantities(rows) && i < |rows|
    ensures ActiveQty(rows, sku) >= Held(rows[i], sku) >= 0
    decreases |rows|
  {
    var n := |rows| - 1;
    if i < n {
      ActiveQtyCovers(rows[..n], i, sku);
    } else if n > 0 {
      ActiveQtyCovers(rows[..n], 0, sku);
    }
  }

  lemma {:induction false} NothingActive(rows: seq<Reservation>, sku: Sku)
    requires forall i :: 0 <= i < |rows| ==> rows[i].status != Active
    ensures ActiveQty(rows, sku) == 0
    decreases |rows|
  {
    if rows != [] {
      NothingActive(rows[..|rows| - 1], sku);
    }
  }

  function LineCount(lines: seq<Line>, sku: Sku): nat {
    if lines == [] then 0
    else LineCount(lines[..|lines| - 1], sku) + if lines[|lines| - 1].sku == sku then 1 else 0
  }

  function LineQty(lines: seq<Line>, sku: Sku): int {
    if lines == [] then 0
    else LineQty(lines[..|lines| - 1], sku) + if lines[|lines| - 1].sku == sku then lines[|lines| - 1].quantity else 0
  }

  lemma {:induction false} InsertKeepsTotals(sorted: seq<Line>, line: Line, sku: Sku)
    requires SortedBySku(sorted)
    ensures LineCount(InsertLine(sorted, line), sku) == LineCount(sorted + [line], sku)
    ensures LineQty(InsertLine(sorted, line), sku) == LineQty(sorted + [line], sku)
    decreases |sorted|
  {
    assert (sorted + [line])[..|sorted|] == sorted;
    if sorted != [] && sorted[|sorted| - 1].sku > line.sku {
      var n := |sorted| - 1;
      var rest := InsertLine(sorted[..n], line);
      InsertKeepsTotals(sorted[..n], line, sku);
      assert (sorted[..n] + [line])[..n] == sorted[..n];
      assert (rest + [sorted[n]])[..|rest|] == rest;
    }
  }

  lemma {:induction false} SortKeepsTotals(items: seq<Line>, sku: Sku)
    ensures LineCount(SortLines(items), sku) == LineCount(items, sku)
    ensures LineQty(SortLines(items), sku) == LineQty(items, sku)
    decreases |items|
  {
    if items != [] {
      var n := |items| - 1;
      SortKeepsTotals(items[..n], sku);
      InsertKeepsTotals(SortLines(items[..n]), items[n], sku);
      var sorted := SortLines(items[..n]);
      assert (sorted + [items[n]])[..|sorted|] == sorted;
    }
  }

  lemma {:induction false} CountedLine(lines: seq<Line>, sku: Sku)
    ensures LineCount(lines, sku) > 0 <==> exists i :: 0 <= i < |lines| && lines[i].sku == sku
    decreases |lines|
  {
    if lines != [] {
      var n := |lines| - 1;
      CountedLine(lines[..n], sku);
      if lines[n].sku != sku && LineCount(lines, sku) > 0 {
        var i :| 0 <= i < n && lines[..n][i].sku == sku;
        assert lines[i].sku == sku;
      }
      if i :| 0 <= i < n && lines[i].sku == sku {
        assert lines[..n][i].sku == sku;
      }
    }
  }

  // ----- the ledger and one act -----

  ghost predicate Ledger(t: Tables, initial: map<Sku, nat>) {
    && t.stock.Keys == initial.Keys
    && PositiveQuantities(t.rows)
    && (forall i :: 0 <= i < |t.rows| ==> t.rows[i].sku in t.stock)
    && (forall i, j :: 0 <= i < j < |t.rows| ==> t.rows[i].order != t.rows[j].order || t.rows[i].sku != t.rows[j].sku)
    && forall sku :: sku in t.stock ==>
         && t.stock[sku].reserved == ActiveQty(t.rows, sku)
         && t.stock[sku].available + t.stock[sku].reserved == initial[sku]
  }

  lemma TakeKeepsLedger(t: Tables, order: OrderId, line: Line, expiresAt: int, initial: map<Sku, nat>)
    requires Ledger(t, initial) && ExecTake(t, order, line, expiresAt).Ok?
    ensures Ledger(ExecTake(t, order, line, expiresAt).value, initial)
  {
    var t' := ExecTake(t, order, line, expiresAt).value;
    forall sku | sku in t'.stock
      ensures t'.stock[sku].reserved == ActiveQty(t'.rows, sku)
      ensures t'.stock[sku].available + t'.stock[sku].reserved == initial[sku]
    {
      ActiveQtyAppend(t.rows, t'.rows[|t.rows|], sku);
    }
  }

  /** Giving back a row that is still ACTIVE never throws. */
  lemma GiveKeepsLedger(t: Tables, id: nat, status: ReservationStatus, initial: map<Sku, nat>)
    requires Ledger(t, initial) && id < |t.rows| && t.rows[id].status == Active && status != Active
    ensures ExecGive(t, id, status).Ok? && Ledger(ExecGive(t, id, status).value, initial)
  {
    var row := t.rows[id];
    ActiveQtyCovers(t.rows, id, row.sku);
    var t' := ExecGive(t, id, status).value;
    forall sku | sku in t'.stock
      ensures t'.stock[sku].reserved == ActiveQty(t'.rows, sku)
      ensures t'.stock[sku].available + t'.stock[sku].reserved == initial[sku]
    {
      ActiveQtySet(t.rows, id, row.(status := status), sku);
    }
  }

  // ----- whole transactions -----

  predicate Gives?(acts: seq<Act>, id: nat) {
    exists k :: 0 <= k < |acts| && acts[k].Give? && acts[k].id == id
  }

  /** Every row a transaction gives back is ACTIVE when it starts, and given back once. */
  predicate Sound(t: Tables, acts: seq<Act>) {
    && (forall k :: 0 <= k < |acts| && acts[k].Give? ==>
          acts[k].id < |t.rows| && t.rows[acts[k].id].status == Active && acts[k].status != Active)
    && forall j, k :: 0 <= j < k < |acts| && acts[j].Give? && acts[k].Give? ==> acts[j].id != acts[k].id
  }

  /** A transaction rewrites the status of the rows it gives back, appends rows, and touches no other row. */
  lemma {:induction false} RowsAfter(t: Tables, acts: seq<Act>)
    requires RunActs(t, acts).Ok?
    ensures var t' := RunActs(t, acts).value;
            && t'.stock.Keys == t.stock.Keys
            && |t.rows| <= |t'.rows|
            && forall i :: 0 <= i < |t.rows| ==>
                 && t'.rows[i].(status := t.rows[i].status) == t.rows[i]
                 && (!Gives?(acts, i) ==> t'.rows[i] == t.rows[i])
    decreases |acts|
  {
    if acts != [] {
      var n := |acts| - 1;
      RowsAfter(t, acts[..n]);
      assert forall i :: Gives?(acts[..n], i) ==> Gives?(acts, i);
    }
  }

  lemma {:induction false} ActsKeepLedger(t: Tables, acts: seq<Act>, initial: map<Sku, nat>)
    requires Ledger(t, initial) && Sound(t, acts)
    ensures RunActs(t, acts).Ok? ==> Ledger(RunActs(t, acts).value, initial)
    ensures (forall k :: 0 <= k < |acts| ==> acts[k].Give?) ==> RunActs(t, acts).Ok?
    decreases |acts|
  {
    if acts != [] {
      var n := |acts| - 1;
      ActsKeepLedger(t, acts[..n], initial);
      if RunActs(t, acts[..n]).Ok? {
        var t' := RunActs(t, acts[..n]).value;
        RowsAfter(t, acts[..n]);
        match acts[n]
        case Take(order, line, expiresAt) =>
          if ExecTake(t', order, line, expiresAt).Ok? {
            TakeKeepsLedger(t', order, line, expiresAt, initial);
          }
        case Give(id, status) =>
          assert !Gives?(acts[..n], id);
          GiveKeepsLedger(t', id, status, initial);
      }
    }
  }

  // ----- every run of the repository -----

  datatype Op =
    | Reserve(order: OrderId, items: seq<Line>, expiresAt: int)
    | GiveBack(sel: Selector)

  function ActsOf(t: Tables, op: Op): seq<Act> {
    match op
    case Reserve(order, items, expiresAt) => ReserveActs(order, items, expiresAt)
    case GiveBack(sel) => ReleaseActs(t, sel)
  }

  function RunOps(t: Tables, ops: seq<Op>): Tables {
    if ops == [] then t
    else
      var t' := RunOps(t, ops[..|ops| - 1]);
      Transact(t', ActsOf(t', ops[|ops| - 1]))
  }

  /** The reservation ids the operations gave back, in order. */
  function Returned(t: Tables, ops: seq<Op>): seq<nat> {
    if ops == [] then []
    else
      var n := |ops| - 1;
      Returned(t, ops[..n]) +
      match ops[n] case Reserve(_, _, _) => [] case GiveBack(sel) => SelectIds(RunOps(t, ops[..n]).rows, sel)
  }

  lemma OpIsSound(t: Tables, op: Op)
    ensures Sound(t, ActsOf(t, op))
    ensures op.GiveBack? ==> forall i :: Gives?(ActsOf(t, op), i) <==> i in SelectIds(t.rows, op.sel)
  {
    if op.GiveBack? {
      var ids, acts := SelectIds(t.rows, op.sel), ActsOf(t, op);
      forall i | i in ids
        ensures Gives?(acts, i)
      {
        var k :| 0 <= k < |ids| && ids[k] == i;
        assert acts[k].Give? && acts[k].id == i;
      }
    }
  }

  lemma {:induction false} EveryRunKeepsLedger(t: Tables, ops: seq<Op>, initial: map<Sku, nat>)
    requires Ledger(t, initial)
    ensures Ledger(RunOps(t, ops), initial)
    decreases |ops|
  {
    if ops != [] {
      EveryRunKeepsLedger(t, ops[..|ops| - 1], initial);
      var t' := RunOps(t, ops[..|ops| - 1]);
      OpIsSound(t', ops[|ops| - 1]);
      ActsKeepLedger(t', ActsOf(t', ops[|ops| - 1]), initial);
    }
  }

  /** `release` and `releaseExpired` never throw, and mark exactly the rows they selected. */
  lemma GivingBackNeverThrows(t: Tables, sel: Selector, initial: map<Sku, nat>)
    requires Ledger(t, initial)
    ensures RunActs(t, ReleaseActs(t, sel)).Ok?
    ensures var t' := RunActs(t, ReleaseActs(t, sel)).value;
            && |t'.rows| == |t.rows|
            && forall i :: 0 <= i < |t.rows| ==>
                 t'.rows[i] == if Matches(t.rows[i], sel) then t.rows[i].(status := GivenStatus(sel)) else t.rows[i]
  {
    OpIsSound(t, GiveBack(sel));
    ActsKeepLedger(t, ReleaseActs(t, sel), initial);
    GivenRows(t, SelectIds(t.rows, sel), GivenStatus(sel));
  }

  lemma {:induction false} GivenRows(t: Tables, ids: seq<nat>, status: ReservationStatus)
    requires forall k :: 0 <= k < |ids| ==> ids[k] < |t.rows|
    requires RunActs(t, Gives(ids, status)).Ok?
    ensures var t' := RunActs(t, Gives(ids, status)).value;
            && |t'.rows| == |t.rows|
            && forall i :: 0 <= i < |t.rows| ==>
                 t'.rows[i] == if i in ids then t.rows[i].(status := status) else t.rows[i]
    decreases |ids|
  {
    if ids != [] {
      var n := |ids| - 1;
      assert Gives(ids, status)[..n] == Gives(ids[..n], status);
      GivenRows(t, ids[..n], status);
      assert ids == ids[..n] + [ids[n]];
    }
  }

  /** The units of a SKU in the rows with these ids. */
  function QtyOf(rows: seq<Reservation>, ids: set<nat>, sku: Sku): int {
    if rows == [] then 0
    else
      var n := |rows| - 1;
      QtyOf(rows[..n], ids, sku) + if n in ids && rows[n].sku == sku then rows[n].quantity else 0
  }

  /** Exactly the rows `ids` of `rows` have become `status`. */
  predicate Marked(rows: seq<Reservation>, rows': seq<Reservation>, ids: set<nat>, status: ReservationStatus) {
    && |rows'| == |rows|
    && forall i :: 0 <= i < |rows| ==> rows'[i] == if i in ids then rows[i].(status := status) else rows[i]
  }

  lemma {:induction false} ActiveQtyMarked(rows: seq<Reservation>, rows': seq<Reservation>, ids: set<nat>,
                                           status: ReservationStatus, sku: Sku)
    requires Marked(rows, rows', ids, status) && status != Active
    requires forall i :: i in ids ==> i < |rows| ==> rows[i].status == Active
    ensures ActiveQty(rows', sku) == ActiveQty(rows, sku) - QtyOf(rows, ids, sku)
    decreases |rows|
  {
    if rows != [] {
      var n := |rows| - 1;
      ActiveQtyMarked(rows[..n], rows'[..n], ids, status, sku);
    }
  }

  /** The units of the rows `ids`, and no others, are available again. */
  predicate UnitsReturned(t: Tables, t': Tables, ids: set<nat>) {
    && t'.stock.Keys == t.stock.Keys
    && forall sku :: sku in t.stock ==>
         && t'.stock[sku].available == t.stock[sku].available + QtyOf(t.rows, ids, sku)
         && t'.stock[sku].reserved == t.stock[sku].reserved - QtyOf(t.rows, ids, sku)
  }

  lemma MarkedReturnsUnits(t: Tables, t': Tables, ids: set<nat>, status: ReservationStatus, initial: map<Sku, nat>)
    requires Ledger(t, initial) && Ledger(t', initial) && Marked(t.rows, t'.rows, ids, status) && status != Active
    requires forall i :: i in ids ==> i < |t.rows| && t.rows[i].status == Active
    ensures UnitsReturned(t, t', ids)
  {
    forall sku | sku in t.stock
      ensures ActiveQty(t'.rows, sku) == ActiveQty(t.rows, sku) - QtyOf(t.rows, ids, sku)
    {
      ActiveQtyMarked(t.rows, t'.rows, ids, status, sku);
    }
  }

  /** A sweep marks as EXPIRED exactly the ACTIVE rows whose time is over, and returns exactly their units. */
  lemma SweepExactly(t: Tables, now: int, initial: map<Sku, nat>)
    requires Ledger(t, initial)
    ensures var t' := Transact(t, ReleaseActs(t, ExpiredBefore(now)));
            var due := set i | 0 <= i < |t.rows| && t.rows[i].status == Active && t.rows[i].expiresAt < now;
            Marked(t.rows, t'.rows, due, ReservationStatus.Expired) && UnitsReturned(t, t', due)
  {
    var t' := Transact(t, ReleaseActs(t, ExpiredBefore(now)));
    var due := set i | 0 <= i < |t.rows| && t.rows[i].status == Active && t.rows[i].expiresAt < now;
    GivingBackNeverThrows(t, ExpiredBefore(now), initial);
    OpIsSound(t, GiveBack(ExpiredBefore(now)));
    ActsKeepLedger(t, ReleaseActs(t, ExpiredBefore(now)), initial);
    MarkedReturnsUnits(t, t', due, ReservationStatus.Expired, initial);
  }

  /** A release marks as RELEASED exactly the ACTIVE rows of the order, and returns exactly their units. */
  lemma ReleaseExactly(t: Tables, order: OrderId, initial: map<Sku, nat>)
    requires Ledger(t, initial)
    ensures var t' := Transact(t, ReleaseActs(t, OfOrder(order)));
            var held := set i | 0 <= i < |t.rows| && t.rows[i].status == Active && t.rows[i].order == order;
            Marked(t.rows, t'.rows, held, Released) && UnitsReturned(t, t', held)
  {
    var t' := Transact(t, ReleaseActs(t, OfOrder(order)));
    var held := set i | 0 <= i < |t.rows| && t.rows[i].status == Active && t.rows[i].order == order;
    GivingBackNeverThrows(t, OfOrder(order), initial);
    OpIsSound(t, GiveBack(OfOrder(order)));
    ActsKeepLedger(t, ReleaseActs(t, OfOrder(order)), initial);
    MarkedReturnsUnits(t, t', held, Released, initial);
  }

  predicate AllReturned(rows: seq<Reservation>, ids: seq<nat>) {
    forall k :: 0 <= k < |ids| ==> ids[k] < |rows| && rows[ids[k]].status != Active
  }

  predicate Distinct(ids: seq<nat>) {
    forall j, k :: 0 <= j < k < |ids| ==> ids[j] != ids[k]
  }

  lemma StaysReturned(t: Tables, op: Op, ids: seq<nat>, initial: map<Sku, nat>)
    requires Ledger(t, initial) && AllReturned(t.rows, ids)
    ensures AllReturned(Transact(t, ActsOf(t, op)).rows, ids)
    ensures op.GiveBack? ==> AllReturned(Transact(t, ActsOf(t, op)).rows, SelectIds(t.rows, op.sel))
  {
    match op
    case Reserve(_, _, _) =>
      if RunActs(t, ActsOf(t, op)).Ok? {
        RowsAfter(t, ActsOf(t, op));
        assert forall i :: !Gives?(ActsOf(t, op), i);
      }
    case GiveBack(sel) =>
      GivingBackNeverThrows(t, sel, initial);
  }

  lemma FreshlySelected(rows: seq<Reservation>, before: seq<nat>, sel: Selector)
    requires AllReturned(rows, before) && Distinct(before)
    ensures Distinct(before + SelectIds(rows, sel))
  {
  }

  /** No reservation is returned twice in any run, and what was returned stays returned. */
  lemma {:induction false} ReturnedOnce(t: Tables, ops: seq<Op>, initial: map<Sku, nat>)
    requires Ledger(t, initial)
    ensures Distinct(Returned(t, ops))
    ensures AllReturned(RunOps(t, ops).rows, Returned(t, ops))
    decreases |ops|
  {
    if ops != [] {
      var n := |ops| - 1;
      ReturnedOnce(t, ops[..n], initial);
      EveryRunKeepsLedger(t, ops[..n], initial);
      var t' := RunOps(t, ops[..n]);
      StaysReturned(t', ops[n], Returned(t, ops[..n]), initial);
      if ops[n].GiveBack? {
        FreshlySelected(t'.rows, Returned(t, ops[..n]), ops[n].sel);
      }
    }
  }

  lemma NothingReserved(t: Tables, initial: map<Sku, nat>, sku: Sku)
    requires Ledger(t, initial) && sku in initial && forall i :: 0 <= i < |t.rows| ==> t.rows[i].status != Active
    ensures sku in t.stock && t.stock[sku].available == initial[sku] && t.stock[sku].reserved == 0
  {
    NothingActive(t.rows, sku);
  }

  /** A sweep after the last expiry makes every unit available again. */
  lemma SweepRestoresAllStock(t: Tables, now: int, initial: map<Sku, nat>)
    requires Ledger(t, initial)
    requires forall i :: 0 <= i < |t.rows| && t.rows[i].status == Active ==> t.rows[i].expiresAt < now
    ensures forall sku :: sku in initial ==>
              var s := Transact(t, ReleaseActs(t, ExpiredBefore(now))).stock;
              sku in s && s[sku].available == initial[sku] && s[sku].reserved == 0
  {
    GivingBackNeverThrows(t, ExpiredBefore(now), initial);
    OpIsSound(t, GiveBack(ExpiredBefore(now)));
    ActsKeepLedger(t, ReleaseActs(t, ExpiredBefore(now)), initial);
    var t' := Transact(t, ReleaseActs(t, ExpiredBefore(now)));
    forall sku | sku in initial
      ensures sku in t'.stock && t'.stock[sku].available == initial[sku] && t'.stock[sku].reserved == 0
    {
      NothingReserved(t', initial, sku);
    }
  }

  // ----- when a reservation succeeds, and what it does -----

  function NewRows(order: OrderId, lines: seq<Line>, expiresAt: int): (rows: seq<Reservation>)
    ensures |rows| == |lines|
    ensures forall i :: 0 <= i < |rows| ==>
            rows[i] == Reservation(order, lines[i].sku, lines[i].quantity, Active, expiresAt)
  {
    seq(|lines|, i requires 0 <= i < |lines| => Reservation(order, lines[i].sku, lines[i].quantity, Active, expiresAt))
  }

  /** Every line can be served: known SKU, positive quantity within stock, named once, not yet reserved by the order. */
  predicate Servable(t: Tables, order: OrderId, lines: seq<Line>) {
    forall l :: l in lines ==>
      && l.sku in t.stock
      && 0 < l.quantity <= t.stock[l.sku].available
      && LineCount(lines, l.sku) == 1
      && !Taken(t.rows, order, l.sku)
  }

  lemma TakenAfter(rows: seq<Reservation>, order: OrderId, lines: seq<Line>, expiresAt: int, sku: Sku)
    ensures Taken(rows + NewRows(order, lines, expiresAt), order, sku) <==>
            Taken(rows, order, sku) || LineCount(lines, sku) > 0
  {
    CountedLine(lines, sku);
    var all := rows + NewRows(order, lines, expiresAt);
    if i :| 0 <= i < |rows| && rows[i].order == order && rows[i].sku == sku {
      assert all[i].order == order && all[i].sku == sku;
    }
    if i :| 0 <= i < |lines| && lines[i].sku == sku {
      assert all[|rows| + i].order == order && all[|rows| + i].sku == sku;
    }
  }

  lemma {:induction false} TakesEffect(t: Tables, order: OrderId, lines: seq<Line>, expiresAt: int)
    requires RunActs(t, Takes(order, lines, expiresAt)).Ok?
    ensures var t' := RunActs(t, Takes(order, lines, expiresAt)).value;
            && t'.rows == t.rows + NewRows(order, lines, expiresAt)
            && t'.stock.Keys == t.stock.Keys
            && forall sku :: sku in t.stock ==>
                 && t'.stock[sku].available == t.stock[sku].available - LineQty(lines, sku)
                 && t'.stock[sku].reserved == t.stock[sku].reserved + LineQty(lines, sku)
    decreases |lines|
  {
    if lines != [] {
      var n := |lines| - 1;
      assert Takes(order, lines, expiresAt)[..n] == Takes(order, lines[..n], expiresAt);
      TakesEffect(t, order, lines[..n], expiresAt);
      assert NewRows(order, lines, expiresAt) ==
          NewRows(order, lines[..n], expiresAt) + [NewRows(order, lines, expiresAt)[n]];
    }
  }

  lemma {:induction false} UncountedHasNoQty(lines: seq<Line>, sku: Sku)
    requires LineCount(lines, sku) == 0
    ensures LineQty(lines, sku) == 0
    decreases |lines|
  {
    if lines != [] {
      UncountedHasNoQty(lines[..|lines| - 1], sku);
    }
  }

  lemma {:induction false} PrefixCount(lines: seq<Line>, k: nat, sku: Sku)
    requires k <= |lines|
    ensures LineCount(lines[..k], sku) <= LineCount(lines, sku)
    decreases |lines|
  {
    if k < |lines| {
      assert lines[..|lines| - 1][..k] == lines[..k];
      PrefixCount(lines[..|lines| - 1], k, sku);
    } else {
      assert lines[..k] == lines;
    }
  }

  lemma CountedSelf(lines: seq<Line>, l: Line)
    requires l in lines
    ensures LineCount(lines, l.sku) >= 1
  {
    CountedLine(lines, l.sku);
    var i :| 0 <= i < |lines| && lines[i] == l;
    assert lines[i].sku == l.sku;
  }

  /** The last line is served after the others exactly when it could be served first and none of them names its SKU. */
  lemma LastTake(t: Tables, order: OrderId, front: seq<Line>, last: Line, expiresAt: int)
    requires RunActs(t, Takes(order, front, expiresAt)).Ok?
    ensures ExecTake(RunActs(t, Takes(order, front, expiresAt)).value, order, last, expiresAt).Ok? <==>
            && last.sku in t.stock
            && 0 < last.quantity <= t.stock[last.sku].available
            && LineCount(front, last.sku) == 0
            && !Taken(t.rows, order, last.sku)
  {
    TakesEffect(t, order, front, expiresAt);
    TakenAfter(t.rows, order, front, expiresAt, last.sku);
    if LineCount(front, last.sku) == 0 {
      UncountedHasNoQty(front, last.sku);
    }
  }

  lemma ServableFront(t: Tables, order: OrderId, front: seq<Line>, last: Line)
    ensures Servable(t, order, front + [last]) <==>
            && Servable(t, order, front)
            && last.sku in t.stock
            && 0 < last.quantity <= t.stock[last.sku].available
            && LineCount(front, last.sku) == 0
            && !Taken(t.rows, order, last.sku)
  {
    var lines := front + [last];
    assert lines[..|front|] == front;
    forall l | l in front
      ensures LineCount(front, l.sku) >= 1
    {
      CountedSelf(front, l);
    }
    assert last in lines && forall l :: l in front ==> l in lines;
  }

  lemma {:induction false} TakesSucceed(t: Tables, order: OrderId, lines: seq<Line>, expiresAt: int)
    ensures RunActs(t, Takes(order, lines, expiresAt)).Ok? <==> Servable(t, order, lines)
    decreases |lines|
  {
    if lines != [] {
      var n := |lines| - 1;
      assert lines == lines[..n] + [lines[n]];
      assert Takes(order, lines, expiresAt)[..n] == Takes(order, lines[..n], expiresAt);
      TakesSucceed(t, order, lines[..n], expiresAt);
      ServableFront(t, order, lines[..n], lines[n]);
      if RunActs(t, Takes(order, lines[..n], expiresAt)).Ok? {
        LastTake(t, order, lines[..n], lines[n], expiresAt);
      }
    }
  }

  lemma ServableSorted(t: Tables, order: OrderId, items: seq<Line>)
    ensures Servable(t, order, SortLines(items)) <==> Servable(t, order, items)
  {
    forall l: Line
      ensures LineCount(SortLines(items), l.sku) == LineCount(items, l.sku)
      ensures l in SortLines(items) <==> l in items
    {
      SortKeepsTotals(items, l.sku);
      assert l in SortLines(items) <==> l in multiset(SortLines(items));
      assert l in items <==> l in multiset(items);
    }
  }

  /** All or nothing: `reserve` succeeds exactly when every line can be served, whatever the order of the lines. */
  lemma ReserveAllOrNothing(t: Tables, order: OrderId, items: seq<Line>, expiresAt: int)
    ensures RunActs(t, ReserveActs(order, items, expiresAt)).Ok? <==> Servable(t, order, items)
    ensures var t' := Transact(t, ReserveActs(order, items, expiresAt));
            if Servable(t, order, items) then
              && t'.rows == t.rows + NewRows(order, SortLines(items), expiresAt)
              && t'.stock.Keys == t.stock.Keys
              && forall sku :: sku in t.stock ==>
                   && t'.stock[sku].available == t.stock[sku].available - LineQty(items, sku)
                   && t'.stock[sku].reserved == t.stock[sku].reserved + LineQty(items, sku)
            else t' == t
  {
    TakesSucceed(t, order, SortLines(items), expiresAt);
    ServableSorted(t, order, items);
    if Servable(t, order, items) {
      TakesEffect(t, order, SortLines(items), expiresAt);
      forall sku: Sku
        ensures LineQty(SortLines(items), sku) == LineQty(items, sku)
      {
        SortKeepsTotals(items, sku);
      }
    }
  }

  /** What a line meets after the lines before it: nothing wrong, or the first thing that is. */
  function Obstacle(t: Tables, order: OrderId, before: seq<Line>, line: Line): Option<Error> {
    if line.sku !in t.stock then Some(UnknownSku)
    else if line.quantity <= 0 then Some(BadQuantity)
    else if line.quantity > t.stock[line.sku].available - LineQty(before, line.sku) then Some(InsufficientStock)
    else if Taken(t.rows, order, line.sku) || exists l :: l in before && l.sku == line.sku
      then Some(DuplicateReservation)
    else None
  }

  lemma TakeMeets(t: Tables, order: OrderId, before: seq<Line>, line: Line, expiresAt: int)
    requires RunActs(t, Takes(order, before, expiresAt)).Ok?
    ensures var r := ExecTake(RunActs(t, Takes(order, before, expiresAt)).value, order, line, expiresAt);
            Obstacle(t, order, before, line) == if r.Ok? then None else Some(r.error)
  {
    TakesEffect(t, order, before, expiresAt);
    TakenAfter(t.rows, order, before, expiresAt, line.sku);
    CountedLine(before, line.sku);
    if l :| l in before && l.sku == line.sku {
      CountedSelf(before, l);
    }
  }

  lemma {:induction false} UnobstructedPrefix(t: Tables, order: OrderId, lines: seq<Line>, expiresAt: int, k: nat)
    requires k <= |lines| && forall i :: 0 <= i < k ==> Obstacle(t, order, lines[..i], lines[i]).None?
    ensures RunActs(t, Takes(order, lines, expiresAt)[..k]).Ok?
    decreases k
  {
    if k > 0 {
      var acts := Takes(order, lines, expiresAt);
      UnobstructedPrefix(t, order, lines, expiresAt, k - 1);
      assert acts[..k - 1] == Takes(order, lines[..k - 1], expiresAt);
      RunOneMore(t, acts, k - 1);
      TakeMeets(t, order, lines[..k - 1], lines[k - 1], expiresAt);
    }
  }

  lemma TakesThrow(t: Tables, order: OrderId, lines: seq<Line>, expiresAt: int, k: nat)
    requires k < |lines| && Obstacle(t, order, lines[..k], lines[k]).Some?
    requires forall i :: 0 <= i < k ==> Obstacle(t, order, lines[..i], lines[i]).None?
    ensures RunActs(t, Takes(order, lines, expiresAt)) == Err(Obstacle(t, order, lines[..k], lines[k]).value)
  {
    var acts := Takes(order, lines, expiresAt);
    UnobstructedPrefix(t, order, lines, expiresAt, k);
    assert acts[..k] == Takes(order, lines[..k], expiresAt);
    RunOneMore(t, acts, k);
    TakeMeets(t, order, lines[..k], lines[k], expiresAt);
    PrefixFails(t, acts, k + 1);
  }

  /** A reservation that fails throws what the first obstructed line, in SKU order, meets. */
  lemma ReserveThrows(t: Tables, order: OrderId, items: seq<Line>, expiresAt: int, k: nat)
    requires var lines := SortLines(items);
             && k < |lines| && Obstacle(t, order, lines[..k], lines[k]).Some?
             && forall i :: 0 <= i < k ==> Obstacle(t, order, lines[..i], lines[i]).None?
    ensures var lines := SortLines(items);
            RunActs(t, ReserveActs(order, items, expiresAt)) == Err(Obstacle(t, order, lines[..k], lines[k]).value)
  {
    TakesThrow(t, order, SortLines(items), expiresAt, k);
  }
}
