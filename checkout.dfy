/**
 * The sales endpoint (src/app/api/sales/route.js). POST records the sale in
 * the ledger first and then debits each item's quantity from the catalog
 * through the clamped stock update, one item after the other. There is no
 * stock check, no payment check and no rollback: an oversold product ends
 * at 0 and an item whose product is gone is skipped. GET lists the ledger
 * newest first.
 */
module Checkout {
  import opened Js
  import opened Records
  import opened Catalog
  import opened Ledger

  /** `data.items && Array.isArray(data.items) ? data.items : []` as far as the debit loop is concerned. */
  function ItemsToDebit(items: Option<seq<LineItem>>): seq<LineItem> {
    if items.Some? then items.value else []
  }

  /** The catalog after `updateStock(item.id, -item.quantity)` for each item, in order. */
  function DebitAll(ps: seq<Product>, items: seq<LineItem>): (r: seq<Product>)
    requires AllShaped(ps)
    ensures |r| == |ps| && AllShaped(r)
    ensures forall j :: 0 <= j < |ps| ==> r[j].id == ps[j].id
  {
    if items == [] then ps
    else
      var last := items[|items| - 1];
      UpdateStockIn(DebitAll(ps, items[..|items| - 1]), last.id, -(last.quantity as real))
  }

  /** Whether some item names product id k. */
  function Mentions(items: seq<LineItem>, k: int): (b: bool)
    ensures b <==> exists i :: 0 <= i < |items| && items[i].id == k
  {
    if items == [] then false
    else items[|items| - 1].id == k || Mentions(items[..|items| - 1], k)
  }

  /** The total quantity the items ask of product id k. */
  function QuantityFor(items: seq<LineItem>, k: int): int {
    if items == [] then 0
    else QuantityFor(items[..|items| - 1], k) + (if items[|items| - 1].id == k then items[|items| - 1].quantity else 0)
  }

  /** Products with the same ids in the same places are looked up at the same places. */
  lemma {:induction false} FindIndexSameIds(ps: seq<Product>, qs: seq<Product>, k: int)
    requires |ps| == |qs| && forall j :: 0 <= j < |ps| ==> ps[j].id == qs[j].id
    ensures FindIndex(ps, k) == FindIndex(qs, k)
  {
    if ps != [] {
      FindIndexSameIds(ps[1..], qs[1..], k);
    }
  }

  /** Debiting touches only stock fields. */
  lemma {:induction false} DebitOnlyStock(ps: seq<Product>, items: seq<LineItem>)
    requires AllShaped(ps)
    ensures forall j :: 0 <= j < |ps| ==> DebitAll(ps, items)[j].(stock := ps[j].stock) == ps[j]
  {
    if items != [] {
      var init := items[..|items| - 1];
      DebitOnlyStock(ps, init);
      var before := DebitAll(ps, init);
      var last := items[|items| - 1];
      var r := DebitAll(ps, items);
      forall j | 0 <= j < |ps| ensures r[j].(stock := ps[j].stock) == ps[j] {
        if j == FindIndex(before, last.id) {
          assert r[j] == ApplyDelta(before[j], -(last.quantity as real));
          assert r[j].(stock := before[j].stock) == before[j];
        } else {
          assert r[j] == before[j];
        }
      }
    }
  }

  /** A product that no item names keeps its record exactly; in particular an unknown item id changes nothing. */
  lemma {:induction false} DebitUntouched(ps: seq<Product>, items: seq<LineItem>, j: int)
    requires AllShaped(ps) && 0 <= j < |ps|
    requires forall i :: 0 <= i < |items| ==> FindIndex(ps, items[i].id) != j
    ensures DebitAll(ps, items)[j] == ps[j]
  {
    if items != [] {
      var init := items[..|items| - 1];
      var last := items[|items| - 1];
      DebitUntouched(ps, init, j);
      var before := DebitAll(ps, init);
      FindIndexSameIds(before, ps, last.id);
    }
  }

  /** Stock that is never negative stays so, whatever the quantities. */
  lemma {:induction false} DebitKeepsFloor(ps: seq<Product>, items: seq<LineItem>)
    requires AllShaped(ps) && NonNegativeStock(ps)
    ensures NonNegativeStock(DebitAll(ps, items))
  {
    if items != [] {
      var init := items[..|items| - 1];
      var last := items[|items| - 1];
      DebitKeepsFloor(ps, init);
      UpdateStockKeepsFloor(DebitAll(ps, init), last.id, -(last.quantity as real));
    }
  }

  /**
   * With non-negative quantities, the clamps compose: the first product with
   * id k ends at `max(0, stock - total quantity asked for k)`, so overselling
   * ends at 0 rather than failing.
   */
  lemma {:induction false} DebitTotal(ps: seq<Product>, items: seq<LineItem>, k: int)
    requires AllShaped(ps) && FindIndex(ps, k) >= 0
    requires forall i :: 0 <= i < |items| ==> items[i].quantity >= 0
    requires Mentions(items, k)
    ensures var j := FindIndex(ps, k);
      DebitAll(ps, items)[j].stock == Num(Max(0.0, StockValue(ps[j].stock) - QuantityFor(items, k) as real))
  {
    var j := FindIndex(ps, k);
    var init := items[..|items| - 1];
    var last := items[|items| - 1];
    DebitLast(ps, items, k);
    if last.id == k && !Mentions(init, k) {
      forall i | 0 <= i < |init| ensures FindIndex(ps, init[i].id) != j {
        assert init[i].id != k;
      }
      DebitUntouched(ps, init, j);
      QuantityForAbsent(init, k);
    } else {
      DebitTotal(ps, init, k);
    }
  }

  /** The last item's debit reaches the first product with id k exactly when the item names k. */
  lemma DebitLast(ps: seq<Product>, items: seq<LineItem>, k: int)
    requires AllShaped(ps) && FindIndex(ps, k) >= 0 && items != []
    ensures var j := FindIndex(ps, k);
      var before := DebitAll(ps, items[..|items| - 1]);
      var last := items[|items| - 1];
      DebitAll(ps, items)[j] ==
        if last.id == k then ApplyDelta(before[j], -(last.quantity as real)) else before[j]
  {
    var before := DebitAll(ps, items[..|items| - 1]);
    var last := items[|items| - 1];
    FindIndexSameIds(before, ps, k);
    FindIndexSameIds(before, ps, last.id);
  }

  lemma {:induction false} QuantityForAbsent(items: seq<LineItem>, k: int)
    requires !Mentions(items, k)
    ensures QuantityFor(items, k) == 0
  {
    if items != [] {
      QuantityForAbsent(items[..|items| - 1], k);
    }
  }

  /** The debit of a non-empty item list is the debit of all but the last item followed by the last one. */
  lemma DebitUnfold(ps: seq<Product>, items: seq<LineItem>)
    requires AllShaped(ps) && items != []
    ensures DebitAll(ps, items) ==
      UpdateStockIn(DebitAll(ps, items[..|items| - 1]), items[|items| - 1].id, -(items[|items| - 1].quantity as real))
  {
  }

  lemma PrefixLast(items: seq<LineItem>, i: int)
    requires 0 <= i < |items|
    ensures items[..i + 1][..i] == items[..i] && items[..i + 1][i] == items[i]
  {
    assert items[..i + 1][..i] == items[..i];
  }

  /** The debit loop of POST /api/sales: `updateStock(item.id, -item.quantity)` for each item, in order. */
  method DebitItems(catalog: ProductStore, items: seq<LineItem>)
    requires catalog.Valid()
    modifies catalog
    ensures catalog.Valid()
    ensures catalog.products == DebitAll(old(catalog.products), items)
  {
    var i := 0;
    while i < |items|
      invariant 0 <= i <= |items|
      invariant catalog.Valid()
      invariant catalog.products == DebitAll(old(catalog.products), items[..i])
    {
      PrefixLast(items, i);
      DebitUnfold(old(catalog.products), items[..i + 1]);
      var updated := catalog.UpdateStock(items[i].id, -(items[i].quantity as real));
      i := i + 1;
    }
    assert items[..|items|] == items;
  }

  /** POST /api/sales: record the sale, then debit each item's stock in order. */
  method PostSale(ledger: SalesLedger, catalog: ProductStore, data: SaleData, saleId: string, now: int)
    returns (sale: Sale)
    requires ledger.Valid() && catalog.Valid()
    modifies ledger, catalog
    ensures ledger.Valid() && catalog.Valid()
    ensures ledger.sales == old(ledger.sales) + [sale]
    ensures ledger.orderCounter == old(ledger.orderCounter) + 1 && sale.orderNumber == ledger.orderCounter
    ensures sale.id == saleId && sale.date == now && sale.status == Completed
    ensures sale.items == data.items && sale.payments == data.payments
    ensures sale.total == data.total && sale.totalPaid == data.totalPaid && sale.change == data.change
    ensures catalog.products == DebitAll(old(catalog.products), ItemsToDebit(data.items))
  {
    sale := ledger.Add(data, saleId, now);
    DebitItems(catalog, ItemsToDebit(data.items));
  }

  /** GET /api/sales: the ledger, sorted in place newest first. */
  method GetSales(ledger: SalesLedger) returns (all: seq<Sale>)
    requires ledger.Valid()
    modifies ledger
    ensures ledger.Valid()
    ensures all == NewestFirst(old(ledger.sales)) && ledger.sales == all
    ensures multiset(all) == multiset(old(ledger.sales))
    ensures forall i, j :: 0 <= i < j < |all| ==> all[i].date >= all[j].date
  {
    NewestFirstOrdered(ledger.sales);
    all := ledger.GetAll();
  }
}
