/**
 * The order ledger (SalesRepository): a process-wide list of sales and a
 * global order counter. Sales are appended with the next order number, a
 * status change rewrites one record, and listing sorts the list itself,
 * newest first.
 */
module Ledger {
  import opened Records
  import Js
  import Sorting

  /** `reduce((max, s) => Math.max(max, s.orderNumber || 0), 0)` */
  function MaxOrderNumber(sales: seq<Sale>): (m: nat)
    ensures forall i :: 0 <= i < |sales| ==> sales[i].orderNumber <= m
    ensures m == 0 || exists i :: 0 <= i < |sales| && sales[i].orderNumber == m
  {
    if sales == [] then 0
    else
      var m := MaxOrderNumber(sales[..|sales| - 1]);
      var n := sales[|sales| - 1].orderNumber;
      if n > m then n else m
  }

  /** The comparator `new Date(b.date) - new Date(a.date)` as an ascending key. */
  function NewestFirstKey(s: Sale): int { -s.date }

  /** The list order `getAll` leaves behind: a stable sort by date, newest first. */
  function NewestFirst(sales: seq<Sale>): seq<Sale> {
    Sorting.SortByKey(sales, NewestFirstKey)
  }

  /** The sorted list is a permutation of the stored one, in non-increasing date order. */
  lemma NewestFirstOrdered(sales: seq<Sale>)
    ensures multiset(NewestFirst(sales)) == multiset(sales)
    ensures forall i, j :: 0 <= i < j < |sales| ==> NewestFirst(sales)[i].date >= NewestFirst(sales)[j].date
  {
    Sorting.SortByKeySorted(sales, NewestFirstKey);
    var r := NewestFirst(sales);
    forall i, j | 0 <= i < j < |sales| ensures r[i].date >= r[j].date {
      assert NewestFirstKey(r[i]) <= NewestFirstKey(r[j]);
    }
  }

  function SaleId(s: Sale): string { s.id }

  /** `findIndex(s => s.id === id)` */
  function FindSale(sales: seq<Sale>, id: string): (i: int)
    ensures -1 <= i < |sales|
    ensures i >= 0 ==> sales[i].id == id && forall j :: 0 <= j < i ==> sales[j].id != id
    ensures i == -1 <==> forall j :: 0 <= j < |sales| ==> sales[j].id != id
  {
    Js.IndexOfKey(sales, SaleId, id)
  }

  /** The list after `updateStatus(id, status)`: only the first sale with the id changes, and only its status. */
  function WithStatus(sales: seq<Sale>, id: string, status: string): (r: seq<Sale>)
    ensures |r| == |sales|
    ensures forall i :: 0 <= i < |sales| ==> r[i].(status := sales[i].status) == sales[i]
    ensures forall i :: 0 <= i < |sales| && i != FindSale(sales, id) ==> r[i] == sales[i]
    ensures FindSale(sales, id) >= 0 ==> r[FindSale(sales, id)].status == status
  {
    var i := FindSale(sales, id);
    if i < 0 then sales else sales[i := sales[i].(status := status)]
  }

  /** No two numbered sales share an order number. */
  ghost predicate DistinctOrderNumbers(sales: seq<Sale>) {
    forall i, j :: 0 <= i < j < |sales| && sales[i].orderNumber != 0 ==> sales[i].orderNumber != sales[j].orderNumber
  }

  /** Appending a sale numbered above every stored number keeps the numbers distinct. */
  lemma AppendKeepsDistinct(sales: seq<Sale>, s: Sale)
    requires DistinctOrderNumbers(sales)
    requires forall i :: 0 <= i < |sales| ==> sales[i].orderNumber < s.orderNumber
    ensures DistinctOrderNumbers(sales + [s])
  {
  }

  /** A status change keeps every order number, so distinct numbers stay distinct. */
  lemma StatusKeepsDistinct(sales: seq<Sale>, id: string, status: string)
    requires DistinctOrderNumbers(sales)
    ensures DistinctOrderNumbers(WithStatus(sales, id, status))
  {
    var r := WithStatus(sales, id, status);
    forall i | 0 <= i < |sales| ensures r[i].orderNumber == sales[i].orderNumber {
      assert r[i].(status := sales[i].status) == sales[i];
    }
  }

  class SalesLedger {
    var sales: seq<Sale>
    var orderCounter: nat

    /** The counter is at least every stored order number, so the next one is new. */
    ghost predicate Valid()
      reads this
    {
      forall i :: 0 <= i < |sales| ==> sales[i].orderNumber <= orderCounter
    }

    /** Loading the module over a store that holds `existing`: the counter starts at their largest number. */
    constructor (existing: seq<Sale>)
      ensures Valid()
      ensures sales == existing && orderCounter == MaxOrderNumber(existing)
    {
      sales := existing;
      orderCounter := MaxOrderNumber(existing);
    }

    /** A later load of the module: a counter that is still 0 is seeded again from the store. */
    method Reload()
      requires Valid()
      modifies this
      ensures Valid() && sales == old(sales)
      ensures old(orderCounter) != 0 ==> orderCounter == old(orderCounter)
      ensures old(orderCounter) == 0 ==> orderCounter == MaxOrderNumber(sales)
    {
      if orderCounter == 0 {
        orderCounter := MaxOrderNumber(sales);
      }
    }

    /** Sorts the stored list itself, newest first, and returns it. */
    method GetAll() returns (all: seq<Sale>)
      requires Valid()
      modifies this
      ensures Valid()
      ensures sales == NewestFirst(old(sales)) && all == sales
      ensures orderCounter == old(orderCounter)
    {
      NewestFirstOrdered(sales);
      sales := NewestFirst(sales);
      all := sales;
      forall i | 0 <= i < |sales| ensures sales[i].orderNumber <= orderCounter {
        assert sales[i] in multiset(old(sales));
      }
    }

    /** `find(s => s.id === id)` */
    method GetById(id: string) returns (r: Option<Sale>)
      ensures r.None? <==> forall j :: 0 <= j < |sales| ==> sales[j].id != id
      ensures r.Some? ==> r.value.id == id && r.value in sales
      ensures r.Some? ==> r.value == sales[FindSale(sales, id)]
    {
      var i := FindSale(sales, id);
      r := if i < 0 then None else Some(sales[i]);
    }

    /**
     * Bumps the counter and appends the body as a COMPLETED sale carrying the
     * new number, the given id and the given timestamp.
     */
    method Add(data: SaleData, id: string, now: int) returns (sale: Sale)
      requires Valid()
      modifies this
      ensures Valid()
      ensures orderCounter == old(orderCounter) + 1 && sale.orderNumber == orderCounter
      ensures forall i :: 0 <= i < |old(sales)| ==> old(sales)[i].orderNumber < sale.orderNumber
      ensures sales == old(sales) + [sale]
      ensures sale.id == id && sale.date == now && sale.status == Completed
      ensures sale.items == data.items && sale.payments == data.payments
      ensures sale.total == data.total && sale.totalPaid == data.totalPaid && sale.change == data.change
      ensures DistinctOrderNumbers(old(sales)) ==> DistinctOrderNumbers(sales)
    {
      orderCounter := orderCounter + 1;
      sale := Sale(id, orderCounter, now, Completed, data.items, data.total, data.totalPaid, data.change, data.payments);
      if DistinctOrderNumbers(sales) {
        AppendKeepsDistinct(sales, sale);
      }
      sales := sales + [sale];
    }

    /** Rewrites the status of the first sale with the id; None when there is none. */
    method UpdateStatus(id: string, status: string) returns (r: Option<Sale>)
      requires Valid()
      modifies this
      ensures Valid()
      ensures sales == WithStatus(old(sales), id, status) && orderCounter == old(orderCounter)
      ensures r.None? <==> FindSale(old(sales), id) < 0
      ensures r.Some? ==> r.value == sales[FindSale(old(sales), id)]
    {
      var i := FindSale(sales, id);
      if i >= 0 {
        sales := sales[i := sales[i].(status := status)];
        r := Some(sales[i]);
      } else {
        r := None;
      }
    }
  }
}
