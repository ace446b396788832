/**
 Order totals in exact decimals: computed from the prices a client sent, rounded half up to cents
 when stored or charged, and computed again from the stored prices on every reload.
 */
module Totals {
  import opened InventoryTables

  /** An ordered item; `price` is in currency units, any decimal. */
  datatype Item = Item(sku: Sku, price: real, quantity: int)

  /** `toFixed(2)` in cents: to the nearest, halves away from zero. */
  function Cents(amount: real): int {
    if amount >= 0.0 then (amount * 100.0 + 0.5).Floor else -((-amount * 100.0 + 0.5).Floor)
  }

  /** The amount read back from a decimal column with two places. */
  function Stored(amount: real): real {
    Cents(amount) as real / 100.0
  }

  function LineTotal(item: Item): real {
    item.price * item.quantity as real
  }

  /** `totalAmount` of the aggregate. */
  function Total(items: seq<Item>): real {
    if items == [] then 0.0 else Total(items[..|items| - 1]) + LineTotal(items[|items| - 1])
  }

  function Units(items: seq<Item>): int {
    if items == [] then 0 else Units(items[..|items| - 1]) + items[|items| - 1].quantity
  }

  /** The items `toDomain` builds from the stored rows. */
  function Reload(items: seq<Item>): (r: seq<Item>)
    ensures |r| == |items|
    ensures forall i :: 0 <= i < |items| ==> r[i] == items[i].(price := Stored(items[i].price))
  {
    seq(|items|, i requires 0 <= i < |items| => items[i].(price := Stored(items[i].price)))
  }

  /** What `order.created` leads the payment service to charge, in cents. */
  function Charged(items: seq<Item>): int {
    Cents(Total(items))
  }

  /** What recomputing from the stored prices gives, in cents: the total `update` writes and a client is shown. */
  function Shown(items: seq<Item>): int {
    Cents(Total(Reload(items)))
  }

  /** What the constructor of `OrderItem` demands of every item. */
  predicate Sellable(items: seq<Item>) {
    forall i :: 0 <= i < |items| ==> items[i].price > 0.0 && items[i].quantity > 0
  }

  /** The check constraint on stored unit prices. */
  predicate Storable(items: seq<Item>) {
    forall i :: 0 <= i < |items| ==> Cents(items[i].price) > 0
  }

  /** What the inventory service is told of the items. */
  function LinesOf(items: seq<Item>): (lines: seq<Line>)
    ensures |lines| == |items|
    ensures forall i :: 0 <= i < |items| ==> lines[i] == Line(items[i].sku, items[i].quantity)
  {
    seq(|items|, i requires 0 <= i < |items| => Line(items[i].sku, items[i].quantity))
  }

  predicate WholeCents(amount: real) {
    amount == (amount * 100.0).Floor as real / 100.0
  }

  // ----- what a total is -----

  /** The total of an order is the sum over its lines, however the list is put together. */
  lemma {:induction false} TotalIsSum(a: seq<Item>, b: seq<Item>, item: Item)
    ensures Total([]) == 0.0
    ensures Total([item]) == item.price * item.quantity as real
    ensures Total(a + b) == Total(a) + Total(b)
    decreases |b|
  {
    assert [item][..0] == [];
    if b == [] {
      assert a + b == a;
    } else {
      var n := |b| - 1;
      assert (a + b)[..|a| + n] == a + b[..n];
      TotalIsSum(a, b[..n], item);
    }
  }

  lemma {:induction false} UnitsIsSum(a: seq<Item>, b: seq<Item>, item: Item)
    ensures Units([]) == 0 && Units([item]) == item.quantity && Units(a + b) == Units(a) + Units(b)
    decreases |b|
  {
    assert [item][..0] == [];
    if b == [] {
      assert a + b == a;
    } else {
      var n := |b| - 1;
      assert (a + b)[..|a| + n] == a + b[..n];
      UnitsIsSum(a, b[..n], item);
    }
  }

  /** What is charged is the whole number of cents nearest to the total, halves up. */
  lemma ChargedIsNearest(items: seq<Item>)
    requires Sellable(items)
    ensures -0.5 < Charged(items) as real - 100.0 * Total(items) <= 0.5
  {
    ReloadedTotal(items);
  }

  // ----- rounding one amount -----

  lemma RoundingError(amount: real)
    requires amount >= 0.0
    ensures -0.005 < Stored(amount) - amount <= 0.005 && Stored(amount) >= 0.0
  {
  }

  lemma StoredWhole(cents: int)
    ensures Cents(cents as real / 100.0) == cents && Stored(cents as real / 100.0) == cents as real / 100.0
  {
    var amount := cents as real / 100.0;
    assert amount * 100.0 == cents as real;
  }

  /** An amount survives storage if and only if it is in whole cents. */
  lemma StoredExactly(amount: real)
    ensures Stored(amount) == amount <==> WholeCents(amount)
  {
    if WholeCents(amount) {
      StoredWhole((amount * 100.0).Floor);
    }
    if Stored(amount) == amount {
      assert amount * 100.0 == Cents(amount) as real;
    }
  }

  // ----- the total after a reload -----

  /** `after` is off from `before` by at most half a cent per unit, strictly less downwards. */
  predicate Within(before: real, after: real, units: int) {
    && -(units as real) <= 200.0 * (after - before) <= units as real
    && (units > 0 ==> -(units as real) < 200.0 * (after - before))
  }

  lemma WithinAdds(before: real, after: real, units: nat, before': real, after': real, units': int)
    requires Within(before, after, units) && Within(before', after', units') && units >= 0 && units' >= 0
    ensures Within(before + before', after + after', units + units')
  {
    assert (units + units') as real == units as real + units' as real;
  }

  lemma Scaled(e: real, q: real)
    requires -1.0 < e <= 1.0 && q >= 0.0
    ensures -q <= e * q <= q && (q > 0.0 ==> -q < e * q)
  {
  }

  lemma ProductNonNegative(p: real, q: real)
    requires p >= 0.0 && q >= 0.0
    ensures p * q >= 0.0
  {
  }

  lemma LineWithin(item: Item)
    requires item.price > 0.0 && item.quantity > 0
    ensures Within(LineTotal(item), LineTotal(item.(price := Stored(item.price))), item.quantity)
    ensures LineTotal(item) >= 0.0
  {
    RoundingError(item.price);
    ProductWithin(item.price, Stored(item.price), item.quantity);
    ProductNonNegative(item.price, item.quantity as real);
  }

  lemma ProductWithin(price: real, stored: real, quantity: int)
    requires -0.005 < stored - price <= 0.005 && quantity >= 0
    ensures Within(price * quantity as real, stored * quantity as real, quantity)
  {
    var q, e := quantity as real, 200.0 * (stored - price);
    Scaled(e, q);
    Distributes(stored, price, q);
    assert quantity > 0 ==> q > 0.0;
  }

  lemma Distributes(a: real, b: real, q: real)
    ensures 200.0 * (a * q - b * q) == 200.0 * (a - b) * q
  {
  }

  /** The recomputed total is off by at most half a cent per unit ordered. */
  lemma {:induction false} ReloadedTotal(items: seq<Item>)
    requires Sellable(items)
    ensures Within(Total(items), Total(Reload(items)), Units(items)) && Total(items) >= 0.0 && Units(items) >= 0
    decreases |items|
  {
    if items != [] {
      var n := |items| - 1;
      ReloadedTotal(items[..n]);
      assert Reload(items)[..n] == Reload(items[..n]);
      LineWithin(items[n]);
      WithinAdds(Total(items[..n]), Total(Reload(items[..n])), Units(items[..n]),
                 LineTotal(items[n]), LineTotal(Reload(items)[n]), items[n].quantity);
    }
  }

  /** Reloading twice is reloading once. */
  lemma ReloadSettles(items: seq<Item>)
    ensures Reload(Reload(items)) == Reload(items)
  {
    forall i | 0 <= i < |items|
      ensures Reload(Reload(items))[i] == Reload(items)[i]
    {
      StoredWhole(Cents(items[i].price));
    }
  }

  lemma SumCents(total: real, front: int, line: real, cents: int)
    requires total == front as real / 100.0 && line == cents as real / 100.0
    ensures total + line == (front + cents) as real / 100.0
  {
  }

  /** A reloaded order's prices are whole cents, so its total is. */
  lemma {:induction false} ReloadedIsWhole(items: seq<Item>) returns (cents: int)
    ensures Total(Reload(items)) == cents as real / 100.0
    decreases |items|
  {
    cents := 0;
    if items != [] {
      var n := |items| - 1;
      var front := ReloadedIsWhole(items[..n]);
      assert Reload(items)[..n] == Reload(items[..n]);
      var last := Cents(items[n].price) * items[n].quantity;
      LineCents(Cents(items[n].price), items[n].quantity);
      SumCents(Total(Reload(items[..n])), front, LineTotal(Reload(items)[n]), last);
      cents := front + last;
    }
  }

  lemma LineCents(cents: int, quantity: int)
    ensures (cents as real / 100.0) * quantity as real == (cents * quantity) as real / 100.0
  {
  }

  /**
   The total the client is shown after a reload differs from the amount charged by at most half the
   units ordered, in whole cents.
   */
  lemma ChargedVersusShown(items: seq<Item>)
    requires Sellable(items)
    ensures -(Units(items) / 2) <= Shown(items) - Charged(items) <= Units(items) / 2
    ensures Total(Reload(items)) == Shown(items) as real / 100.0
  {
    var cents := ReloadedIsWhole(items);
    StoredWhole(cents);
    ReloadedTotal(items);
    RoundingError(Total(items));
    NearestCents(cents, Charged(items), Units(items), Total(items));
  }

  lemma NearestCents(shown: int, charged: int, units: nat, total: real)
    requires -0.005 < charged as real / 100.0 - total <= 0.005
    requires Within(total, shown as real / 100.0, units) && units >= 0
    ensures -(units / 2) <= shown - charged <= units / 2
  {
    assert 2 * (shown - charged) < units + 1;
    assert 2 * (charged - shown) < units + 1;
  }

  /** One line of one item. */
  function OneLine(price: real, quantity: int): seq<Item> {
    [Item(0, price, quantity)]
  }

  lemma OneLineTotal(price: real, quantity: int)
    ensures Total(OneLine(price, quantity)) == price * quantity as real
    ensures Reload(OneLine(price, quantity)) == OneLine(Stored(price), quantity)
  {
    var items := OneLine(price, quantity);
    assert items[..0] == [];
    assert Total(items) == Total([]) + LineTotal(items[0]);
  }

  lemma OneLineTotals(price: real, quantity: int)
    ensures Charged(OneLine(price, quantity)) == Cents(price * quantity as real)
    ensures Shown(OneLine(price, quantity)) == Cents(price) * quantity
  {
    OneLineTotal(price, quantity);
    OneLineTotal(Stored(price), quantity);
    StoredTimes(Cents(price), quantity);
  }

  lemma StoredTimes(cents: int, quantity: int)
    ensures Cents((cents as real / 100.0) * quantity as real) == cents * quantity
  {
    LineCents(cents, quantity);
    StoredWhole(cents * quantity);
  }

  /**
   The bound is attained for every number of units: at a price of 1.005 each unit pair costs a cent
   more on reload.
   */
  lemma BoundIsAttained(quantity: nat)
    ensures Shown(OneLine(1.005, quantity)) - Charged(OneLine(1.005, quantity)) == quantity / 2
  {
    OneLineTotals(1.005, quantity);
    assert Cents(1.005) == 101;
    HalfUpOf(quantity);
  }

  lemma HalfUpOf(quantity: nat)
    ensures Cents(1.005 * quantity as real) == 101 * quantity - quantity / 2
  {
    var k := quantity / 2;
    if quantity % 2 == 0 {
      assert 1.005 * quantity as real * 100.0 == (201 * k) as real;
    } else {
      assert 1.005 * quantity as real * 100.0 + 0.5 == (201 * k + 101) as real;
    }
  }

  lemma WholeReload(items: seq<Item>)
    requires forall i :: 0 <= i < |items| ==> WholeCents(items[i].price)
    ensures Reload(items) == items
  {
    forall i | 0 <= i < |items|
      ensures Reload(items)[i] == items[i]
    {
      StoredExactly(items[i].price);
    }
  }

  /** For prices in whole cents the original, stored, recomputed and charged amounts are all equal. */
  lemma WholeCentsAreExact(items: seq<Item>)
    requires Sellable(items) && forall i :: 0 <= i < |items| ==> WholeCents(items[i].price)
    ensures Reload(items) == items
    ensures Stored(Total(items)) == Total(items) == Total(Reload(items)) == Charged(items) as real / 100.0
    ensures Shown(items) == Charged(items)
  {
    var cents := ReloadedIsWhole(items);
    WholeReload(items);
    StoredWhole(cents);
  }

  // ----- when nothing drifts -----

  /** Some multiple of a positive amount is more than a given one. */
  lemma Archimedes(step: real, amount: real) returns (n: nat)
    requires step > 0.0 && amount >= 0.0
    ensures n > 0 && n as real * step > amount
  {
    n := (amount / step).Floor + 1;
    assert n as real > amount / step;
    ScaledUp(n as real, amount / step, step);
    assert amount / step * step == amount;
  }

  lemma ScaledUp(a: real, b: real, step: real)
    requires a > b && step > 0.0
    ensures a * step > b * step
  {
  }

  predicate Apart(a: real, b: real) {
    a - b > 0.005 || b - a > 0.005
  }

  lemma NotNearest(cents: int, amount: real)
    requires amount >= 0.0 && Apart(amount, cents as real / 100.0)
    ensures Cents(amount) != cents
  {
    RoundingError(amount);
  }

  lemma TimesDifference(a: real, b: real, q: real)
    ensures (a - b) * q == a * q - b * q
  {
  }

  /** Two amounts that grow by different steps are more than half a cent apart at some quantity. */
  lemma GrowApart(a: real, step: real, b: real, step': real) returns (quantity: nat)
    requires step' > step
    ensures quantity > 0 && Apart(b + step' * quantity as real, a + step * quantity as real)
  {
    quantity := Archimedes(step' - step, 0.005 + if b >= a then b - a else a - b);
    TimesDifference(step', step, quantity as real);
  }

  lemma DriftGrows(a: real, step: real, b: real, step': real) returns (quantity: nat)
    requires step != step'
    ensures quantity > 0 && Apart(b + step' * quantity as real, a + step * quantity as real)
  {
    if step' > step {
      quantity := GrowApart(a, step, b, step');
    } else {
      quantity := GrowApart(b, step', a, step);
    }
  }

  /** The same items ordered in another quantity of item `k`. */
  function Requantified(items: seq<Item>, k: nat, quantity: int): seq<Item>
    requires k < |items|
  {
    items[k := items[k].(quantity := quantity)]
  }

  lemma {:induction false} TotalRequantified(items: seq<Item>, k: nat, quantity: int)
    requires k < |items|
    ensures Total(Requantified(items, k, quantity)) == Total(items) - LineTotal(items[k])
        + LineTotal(items[k].(quantity := quantity))
    decreases |items|
  {
    var n := |items| - 1;
    var other := Requantified(items, k, quantity);
    if k < n {
      assert other[..n] == Requantified(items[..n], k, quantity);
      TotalRequantified(items[..n], k, quantity);
    } else {
      assert other[..n] == items[..n];
    }
  }

  /** The total is a fixed part and the price times the quantity of item `k`. */
  lemma TotalIsLinear(items: seq<Item>, k: nat) returns (rest: real)
    requires k < |items|
    ensures forall quantity: int ::
              Total(Requantified(items, k, quantity)) == rest + items[k].price * quantity as real
  {
    rest := Total(items) - LineTotal(items[k]);
    forall quantity: int
      ensures Total(Requantified(items, k, quantity)) == rest + items[k].price * quantity as real
    {
      TotalRequantified(items, k, quantity);
    }
  }

  lemma ReloadRequantified(items: seq<Item>, k: nat, quantity: int)
    requires k < |items|
    ensures Reload(Requantified(items, k, quantity)) == Requantified(Reload(items), k, quantity)
  {
  }

  /** The items of an order, in any quantities. */
  predicate SamePrices(items: seq<Item>, other: seq<Item>) {
    && |other| == |items|
    && forall i :: 0 <= i < |items| ==>
        other[i].sku == items[i].sku && other[i].price == items[i].price && other[i].quantity > 0
  }

  /** Two lists that price item `k` differently are more than half a cent apart at some quantity of it. */
  lemma TotalsApart(items: seq<Item>, other: seq<Item>, k: nat) returns (quantity: nat)
    requires k < |items| == |other| && items[k].price != other[k].price
    ensures quantity > 0
    ensures Apart(Total(Requantified(other, k, quantity)), Total(Requantified(items, k, quantity)))
  {
    var rest := TotalIsLinear(items, k);
    var rest' := TotalIsLinear(other, k);
    quantity := DriftGrows(rest, items[k].price, rest', other[k].price);
  }

  /** One price that is not in whole cents makes the shown and the charged amounts differ at some quantity of it. */
  lemma Drifts(items: seq<Item>, k: nat) returns (quantity: nat)
    requires Sellable(items) && k < |items| && !WholeCents(items[k].price)
    ensures SamePrices(items, Requantified(items, k, quantity))
    ensures Shown(Requantified(items, k, quantity)) != Charged(Requantified(items, k, quantity))
  {
    StoredExactly(items[k].price);
    quantity := TotalsApart(items, Reload(items), k);
    ReloadRequantified(items, k, quantity);
    DriftShows(Requantified(items, k, quantity));
  }

  lemma DriftShows(items: seq<Item>)
    requires Sellable(items) && Apart(Total(Reload(items)), Total(items))
    ensures Shown(items) != Charged(items)
  {
    ChargedVersusShown(items);
    ReloadedTotal(items);
    NotNearest(Shown(items), Total(items));
  }

  /**
   The shown and the charged amount of these items agree in all quantities if and only if every price is in
   whole cents.
   */
  lemma AgreesExactlyForWholeCents(items: seq<Item>)
    requires Sellable(items)
    ensures (forall i :: 0 <= i < |items| ==> WholeCents(items[i].price)) <==>
            forall other :: SamePrices(items, other) ==> Shown(other) == Charged(other)
  {
    if k: nat :| k < |items| && !WholeCents(items[k].price) {
      var quantity := Drifts(items, k);
    } else {
      forall other | SamePrices(items, other)
        ensures Shown(other) == Charged(other)
      {
        WholeCentsAreExact(other);
      }
    }
  }
}
