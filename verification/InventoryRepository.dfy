/** The `Inventory` aggregate for one SKU: two counters that its methods move units between. */
module InventoryEntity {
  import opened Results
  import opened InventoryTables

  class Inventory {
    const sku: Sku
    var available: nat
    var reserved: nat
    var version: int

    function Row(): Stock
      reads this
    {
      Stock(available, reserved, version)
    }

    constructor (sku: Sku, row: Stock)
      ensures this.sku == sku && Row() == row
    {
      this.sku := sku;
      available, reserved, version := row.available, row.reserved, row.version;
    }

    method Reserve(quantity: int) returns (error: Option<Error>)
      modifies this
      ensures error ==
              if quantity <= 0 then Some(BadQuantity) else if quantity > old(available) then Some(InsufficientStock)
              else None
      ensures error.None? ==> available == old(available) - quantity && version == old(version) + 1
      ensures error.None? ==> StockReserve(old(Row()), quantity) == Ok(Row())
      ensures error.Some? ==> StockReserve(old(Row()), quantity) == Err(error.value) && Row() == old(Row())
      ensures available + reserved == old(available + reserved)
    {
      if quantity <= 0 {
        return Some(BadQuantity);
      }
      if quantity > available {
        return Some(InsufficientStock);
      }
      available := available - quantity;
      reserved := reserved + quantity;
      version := version + 1;
      return None;
    }

    method Release(quantity: int) returns (error: Option<Error>)
      modifies this
      ensures error ==
              if quantity <= 0 then Some(BadQuantity) else if quantity > old(reserved) then Some(ExceedsReserved)
              else None
      ensures error.None? ==> reserved == old(reserved) - quantity && version == old(version) + 1
      ensures error.None? ==> StockRelease(old(Row()), quantity) == Ok(Row())
      ensures error.Some? ==> StockRelease(old(Row()), quantity) == Err(error.value) && Row() == old(Row())
      ensures available + reserved == old(available + reserved)
    {
      if quantity <= 0 {
        return Some(BadQuantity);
      }
      if quantity > reserved {
        return Some(ExceedsReserved);
      }
      available := available + quantity;
      reserved := reserved - quantity;
      version := version + 1;
      return None;
    }
  }
}

/** `KnexInventoryRepository`: the loops of its three transactions, each with its rollback. */
module InventoryRepositories {
  import opened Results
  import opened InventoryTables
  import opened InventoryEntity

  datatype ReservationResult = ReservationResult(sku: Sku, quantity: int, reservationId: nat)

  class InventoryRepository {
    var stock: map<Sku, Stock>
    var rows: seq<Reservation>

    constructor (stock: map<Sku, Stock>)
      ensures Contents() == Tables(stock, [])
    {
      this.stock, rows := stock, [];
    }

    function Contents(): Tables
      reads this
    {
      Tables(stock, rows)
    }

    /** One pass of the loop in `reserve`. */
    method ReserveLine(order: OrderId, item: Line, expiresAt: int) returns (error: Option<Error>)
      modifies this
      ensures error.None? ==> ExecTake(old(Contents()), order, item, expiresAt) == Ok(Contents())
      ensures error.Some? ==> ExecTake(old(Contents()), order, item, expiresAt) == Err(error.value)
      ensures error.None? ==> rows == old(rows) + [Reservation(order, item.sku, item.quantity, Active, expiresAt)]
    {
      if item.sku !in stock {
        return Some(UnknownSku);
      }
      var inventory := new Inventory(item.sku, stock[item.sku]);
      error := inventory.Reserve(item.quantity);
      if error.Some? {
        return;
      }
      stock := stock[item.sku := inventory.Row()];
      if Taken(rows, order, item.sku) {
        return Some(DuplicateReservation);
      }
      rows := rows + [Reservation(order, item.sku, item.quantity, Active, expiresAt)];
    }

    /** The transaction body of `reserve`: every line, or none. */
    method ReserveOrdered(order: OrderId, ordered: seq<Line>,
                          expiresAt: int) returns (r: Result<seq<ReservationResult>, Error>)
      modifies this
      ensures Contents() == Transact(old(Contents()), Takes(order, ordered, expiresAt))
      ensures r.Ok? <==> RunActs(old(Contents()), Takes(order, ordered, expiresAt)).Ok?
      ensures r.Err? ==> RunActs(old(Contents()), Takes(order, ordered, expiresAt)) == Err(r.error)
      ensures r.Ok? ==> |rows| == |old(rows)| + |ordered| && |r.value| == |ordered|
      ensures r.Ok? ==> forall i :: 0 <= i < |ordered| ==>
                var id := |old(rows)| + i;
                && rows[id] == Reservation(order, ordered[i].sku, ordered[i].quantity, Active, expiresAt)
                && r.value[i] == ReservationResult(ordered[i].sku, ordered[i].quantity, id)
    {
      ghost var acts := Takes(order, ordered, expiresAt);
      var stockBefore, rowsBefore := stock, rows;
      var results := [];
      for i := 0 to |ordered|
        invariant RunActs(old(Contents()), acts[..i]) == Ok(Contents())
        invariant |rows| == |rowsBefore| + i && |results| == i
        invariant forall j :: 0 <= j < i ==>
                    var id := |rowsBefore| + j;
                    && rows[id] == Reservation(order, ordered[j].sku, ordered[j].quantity, Active, expiresAt)
                    && results[j] == ReservationResult(ordered[j].sku, ordered[j].quantity, id)
      {
        RunOneMore(old(Contents()), acts, i);
        var item := ordered[i];
        var error := ReserveLine(order, item, expiresAt);
        if error.Some? {
          PrefixFails(old(Contents()), acts, i + 1);
          stock, rows := stockBefore, rowsBefore;
          return Err(error.value);
        }
        results := results + [ReservationResult(item.sku, item.quantity, |rows| - 1)];
      }
      assert acts[..|ordered|] == acts;
      return Ok(results);
    }

    method Reserve(order: OrderId, items: seq<Line>, expiresAt: int) returns (r: Result<seq<ReservationResult>, Error>)
      modifies this
      ensures Contents() == Transact(old(Contents()), ReserveActs(order, items, expiresAt))
      ensures r.Ok? <==> RunActs(old(Contents()), ReserveActs(order, items, expiresAt)).Ok?
      ensures r.Err? ==> RunActs(old(Contents()), ReserveActs(order, items, expiresAt)) == Err(r.error)
      ensures r.Ok? ==> |rows| == |old(rows)| + |items| && |r.value| == |items|
      ensures r.Ok? ==> forall i :: 0 <= i < |items| ==>
                var id := |old(rows)| + i;
                var line := SortLines(items)[i];
                && rows[id] == Reservation(order, line.sku, line.quantity, Active, expiresAt)
                && r.value[i] == ReservationResult(line.sku, line.quantity, id)
    {
      r := ReserveOrdered(order, SortLines(items), expiresAt);
    }

    /** `releaseReservation`: give one reservation's units back and mark its row. */
    method GiveBack(id: nat, status: ReservationStatus) returns (error: Option<Error>)
      requires id < |rows|
      modifies this
      ensures error.None? ==> ExecGive(old(Contents()), id, status) == Ok(Contents())
      ensures error.Some? ==> ExecGive(old(Contents()), id, status) == Err(error.value)
      ensures |rows| == |old(rows)|
    {
      var row := rows[id];
      if row.sku in stock {
        var inventory := new Inventory(row.sku, stock[row.sku]);
        error := inventory.Release(row.quantity);
        if error.Some? {
          return;
        }
        stock := stock[row.sku := inventory.Row()];
      }
      rows := rows[id := row.(status := status)];
      return None;
    }

    /** The body that `release` and `releaseExpired` share: give back every selected row, or none. */
    method GiveBackSelected(sel: Selector) returns (r: Result<seq<nat>, Error>)
      modifies this
      ensures Contents() == Transact(old(Contents()), ReleaseActs(old(Contents()), sel))
      ensures r.Ok? ==> r.value == SelectIds(old(rows), sel)
      ensures r.Err? <==> RunActs(old(Contents()), ReleaseActs(old(Contents()), sel)).Err?
    {
      var ids := SelectIds(rows, sel);
      ghost var acts := ReleaseActs(Contents(), sel);
      var stockBefore, rowsBefore := stock, rows;
      for i := 0 to |ids|
        invariant RunActs(old(Contents()), acts[..i]) == Ok(Contents())
        invariant |rows| == |rowsBefore|
      {
        RunOneMore(old(Contents()), acts, i);
        var error := GiveBack(ids[i], GivenStatus(sel));
        if error.Some? {
          PrefixFails(old(Contents()), acts, i + 1);
          stock, rows := stockBefore, rowsBefore;
          return Err(error.value);
        }
      }
      assert acts[..|ids|] == acts;
      return Ok(ids);
    }

    method Release(order: OrderId) returns (r: Result<nat, Error>)
      modifies this
      ensures Contents() == Transact(old(Contents()), ReleaseActs(old(Contents()), OfOrder(order)))
      ensures r.Ok? ==> r.value == |SelectIds(old(rows), OfOrder(order))|
      ensures r.Err? <==> RunActs(old(Contents()), ReleaseActs(old(Contents()), OfOrder(order))).Err?
    {
      var given := GiveBackSelected(OfOrder(order));
      match given
      case Ok(ids) => return Ok(|ids|);
      case Err(e) => return Err(e);
    }

    method ReleaseExpired(now: int) returns (r: Result<seq<nat>, Error>)
      modifies this
      ensures Contents() == Transact(old(Contents()), ReleaseActs(old(Contents()), ExpiredBefore(now)))
      ensures r.Ok? ==> forall i: nat :: i in r.value <==>
                i < |old(rows)| && old(rows)[i].status == Active && old(rows)[i].expiresAt < now
      ensures r.Ok? ==> forall i, j :: 0 <= i < j < |r.value| ==> r.value[i] < r.value[j]
      ensures r.Err? <==> RunActs(old(Contents()), ReleaseActs(old(Contents()), ExpiredBefore(now))).Err?
    {
      r := GiveBackSelected(ExpiredBefore(now));
    }
  }
}
