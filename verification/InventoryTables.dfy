/**
 The inventory service's two tables and the meaning of its transactions.

 A transaction is a list of `Act`s run in order on the tables: `Take` is one pass of the
 loop in `reserve`, `Give` is one call of `releaseReservation`. An `Err` stands for a throw,
 which rolls the whole transaction back.
 */
module InventoryTables {
  import opened Results

  /** A SKU, named by its rank in the collation order that `localeCompare` sorts by. */
  type Sku = nat

  type OrderId = nat

  datatype Line = Line(sku: Sku, quantity: int)

  /** A row of `inventory`; check constraints keep both counters non-negative. */
  datatype Stock = Stock(available: nat, reserved: nat, version: int)

  datatype ReservationStatus = Active | Released | Expired

  /** A row of `reservations`. Rows are never deleted, so a row's id is its position. */
  datatype Reservation = Reservation(order: OrderId, sku: Sku, quantity: int, status: ReservationStatus, expiresAt: int)

  datatype Tables = Tables(stock: map<Sku, Stock>, rows: seq<Reservation>)

  datatype Error = UnknownSku | BadQuantity | InsufficientStock | ExceedsReserved | DuplicateReservation

  datatype Act =
    | Take(order: OrderId, line: Line, expiresAt: int)
    | Give(id: nat, status: ReservationStatus)

  /** Which reservations a releasing transaction selects. */
  datatype Selector = OfOrder(order: OrderId) | ExpiredBefore(now: int)

  // ----- the Inventory entity's two moves, on values -----

  function StockReserve(s: Stock, quantity: int): Result<Stock, Error> {
    if quantity <= 0 then Err(BadQuantity)
    else if quantity > s.available then Err(InsufficientStock)
    else Ok(Stock(s.available - quantity, s.reserved + quantity, s.version + 1))
  }

  function StockRelease(s: Stock, quantity: int): Result<Stock, Error> {
    if quantity <= 0 then Err(BadQuantity)
    else if quantity > s.reserved then Err(ExceedsReserved)
    else Ok(Stock(s.available + quantity, s.reserved - quantity, s.version + 1))
  }

  // ----- transactions -----

  /** The unique constraint on (order_id, sku). */
  predicate Taken(rows: seq<Reservation>, order: OrderId, sku: Sku) {
    exists i :: 0 <= i < |rows| && rows[i].order == order && rows[i].sku == sku
  }

  function ExecTake(t: Tables, order: OrderId, line: Line, expiresAt: int): Result<Tables, Error> {
    if line.sku !in t.stock then Err(UnknownSku)
    else match StockReserve(t.stock[line.sku], line.quantity)
      case Err(e) => Err(e)
      case Ok(s) =>
        if Taken(t.rows, order, line.sku) then Err(DuplicateReservation)
        else Ok(Tables(t.stock[line.sku := s],
              t.rows + [Reservation(order, line.sku, line.quantity, Active, expiresAt)]))
  }

  function ExecGive(t: Tables, id: nat, status: ReservationStatus): Result<Tables, Error> {
    if id >= |t.rows| then Ok(t)
    else
      var row := t.rows[id];
      var rows' := t.rows[id := row.(status := status)];
      if row.sku !in t.stock then Ok(Tables(t.stock, rows'))
      else match StockRelease(t.stock[row.sku], row.quantity)
        case Err(e) => Err(e)
        case Ok(s) => Ok(Tables(t.stock[row.sku := s], rows'))
  }

  function ExecAct(t: Tables, a: Act): Result<Tables, Error> {
    match a
    case Take(order, line, expiresAt) => ExecTake(t, order, line, expiresAt)
    case Give(id, status) => ExecGive(t, id, status)
  }

  function RunActs(t: Tables, acts: seq<Act>): Result<Tables, Error> {
    if acts == [] then Ok(t)
    else match RunActs(t, acts[..|acts| - 1])
      case Err(e) => Err(e)
      case Ok(t') => ExecAct(t', acts[|acts| - 1])
  }

  /** Commit, or leave nothing. */
  function Transact(t: Tables, acts: seq<Act>): Tables {
    match RunActs(t, acts)
    case Ok(t') => t'
    case Err(_) => t
  }

  lemma {:induction false} PrefixFails(t: Tables, acts: seq<Act>, k: nat)
    requires k <= |acts| && RunActs(t, acts[..k]).Err?
    ensures RunActs(t, acts) == RunActs(t, acts[..k])
    decreases |acts|
  {
    if k < |acts| {
      assert acts[..|acts| - 1][..k] == acts[..k];
      PrefixFails(t, acts[..|acts| - 1], k);
    } else {
      assert acts[..k] == acts;
    }
  }

  lemma RunOneMore(t: Tables, acts: seq<Act>, k: nat)
    requires k < |acts|
    ensures RunActs(t, acts[..k + 1]) ==
            match RunActs(t, acts[..k]) case Err(e) => Err(e) case Ok(t') => ExecAct(t', acts[k])
  {
    assert acts[..k + 1][..k] == acts[..k];
  }

  // ----- what each repository operation runs -----

  predicate SortedBySku(lines: seq<Line>) {
    forall i, j :: 0 <= i < j < |lines| ==> lines[i].sku <= lines[j].sku
  }

  function InsertLine(sorted: seq<Line>, line: Line): (r: seq<Line>)
    requires SortedBySku(sorted)
    ensures SortedBySku(r)
    ensures |r| == |sorted| + 1
    ensures forall i :: 0 <= i < |r| ==> r[i] == line || r[i] in sorted
    ensures multiset(r) == multiset(sorted) + multiset{line}
  {
    if sorted == [] then [line]
    else
      var n := |sorted| - 1;
      if sorted[n].sku <= line.sku then sorted + [line]
      else
        assert sorted == sorted[..n] + [sorted[n]];
        InsertLine(sorted[..n], line) + [sorted[n]]
  }

  /** The stable sort `[...items].sort(...)` by SKU. */
  function SortLines(items: seq<Line>): (r: seq<Line>)
    ensures SortedBySku(r)
    ensures |r| == |items|
    ensures multiset(r) == multiset(items)
  {
    if items == [] then []
    else
      var n := |items| - 1;
      assert items == items[..n] + [items[n]];
      InsertLine(SortLines(items[..n]), items[n])
  }

  function Takes(order: OrderId, lines: seq<Line>, expiresAt: int): (acts: seq<Act>)
    ensures |acts| == |lines|
    ensures forall i :: 0 <= i < |acts| ==> acts[i] == Take(order, lines[i], expiresAt)
  {
    seq(|lines|, i requires 0 <= i < |lines| => Take(order, lines[i], expiresAt))
  }

  predicate Matches(row: Reservation, sel: Selector) {
    row.status == Active &&
    match sel
    case OfOrder(order) => row.order == order
    case ExpiredBefore(now) => row.expiresAt < now
  }

  /** The ids `SELECT ... FOR UPDATE` returns for the selector, in table order. */
  function SelectIds(rows: seq<Reservation>, sel: Selector): (ids: seq<nat>)
    ensures forall k :: 0 <= k < |ids| ==> ids[k] < |rows| && Matches(rows[ids[k]], sel)
    ensures forall j, k :: 0 <= j < k < |ids| ==> ids[j] < ids[k]
    ensures forall i :: 0 <= i < |rows| && Matches(rows[i], sel) ==> i in ids
  {
    if rows == [] then []
    else
      var n := |rows| - 1;
      var before := SelectIds(rows[..n], sel);
      if Matches(rows[n], sel) then before + [n] else before
  }

  /** The status a release or an expiry sweep writes. */
  function GivenStatus(sel: Selector): ReservationStatus {
    if sel.OfOrder? then Released else Expired
  }

  function Gives(ids: seq<nat>, status: ReservationStatus): (acts: seq<Act>)
    ensures |acts| == |ids|
    ensures forall i :: 0 <= i < |acts| ==> acts[i] == Give(ids[i], status)
  {
    seq(|ids|, i requires 0 <= i < |ids| => Give(ids[i], status))
  }

  function ReserveActs(order: OrderId, items: seq<Line>, expiresAt: int): seq<Act> {
    Takes(order, SortLines(items), expiresAt)
  }

  function ReleaseActs(t: Tables, sel: Selector): seq<Act> {
    Gives(SelectIds(t.rows, sel), GivenStatus(sel))
  }
}
