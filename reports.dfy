/**
 * The reports page: figures over the recorded sales, leaving voided sales
 * out. Revenue, order count and average ticket are folds; the daily trend,
 * the category totals and the payment-method totals are built by loops that
 * update a dictionary, which keeps its keys in insertion order.
 */
module Reports {
  import opened Records
  import Sorting
  import Js

  const Other: string := "Otros"
  const CashLabel: string := "Efectivo"
  const CardLabel: string := "Tarjetas"

  // ---------------------------------------------------------------------
  // Dictionaries with insertion-ordered keys

  /** A plain object used as a dictionary: its keys in insertion order and their values. */
  datatype Dict<V> = Dict(keys: seq<string>, values: map<string, V>)

  ghost predicate WellFormed<V>(d: Dict<V>) {
    (forall i, j :: 0 <= i < j < |d.keys| ==> d.keys[i] != d.keys[j]) &&
    (forall k :: k in d.values <==> k in d.keys)
  }

  /** `d[k] = v`: a new key goes to the end of the key order, an existing one keeps its place. */
  function Put<V>(d: Dict<V>, k: string, v: V): (r: Dict<V>)
    requires WellFormed(d)
    ensures WellFormed(r) && r.values == d.values[k := v]
    ensures k in d.values ==> r.keys == d.keys
    ensures k !in d.values ==> r.keys == d.keys + [k]
  {
    if k in d.values then Dict(d.keys, d.values[k := v]) else Dict(d.keys + [k], d.values[k := v])
  }

  /** `d[k] || 0` */
  function Lookup(d: Dict<real>, k: string): real {
    if k in d.values then d.values[k] else 0.0
  }

  /** `d[k] = (d[k] || 0) + x` */
  function AddTo(d: Dict<real>, k: string, x: real): (r: Dict<real>)
    requires WellFormed(d)
    ensures WellFormed(r)
  {
    Put(d, k, Lookup(d, k) + x)
  }

  /** The dictionary after adding each (key, amount) pair in turn. */
  function Accumulate(d: Dict<real>, pairs: seq<(string, real)>): (r: Dict<real>)
    requires WellFormed(d)
    ensures WellFormed(r)
  {
    if pairs == [] then d
    else
      var last := pairs[|pairs| - 1];
      AddTo(Accumulate(d, pairs[..|pairs| - 1]), last.0, last.1)
  }

  lemma AccumulateStep(d: Dict<real>, pairs: seq<(string, real)>, k: string, x: real)
    requires WellFormed(d)
    ensures Accumulate(d, pairs + [(k, x)]) == AddTo(Accumulate(d, pairs), k, x)
  {
    assert (pairs + [(k, x)])[..|pairs|] == pairs;
  }

  /** The amounts the pairs carry for key k, added up. */
  function SumFor(pairs: seq<(string, real)>, k: string): real {
    if pairs == [] then 0.0
    else
      var last := pairs[|pairs| - 1];
      SumFor(pairs[..|pairs| - 1], k) + (if last.0 == k then last.1 else 0.0)
  }

  /**
   * Accumulating adds to every key exactly the amounts the pairs carry for
   * it; the keys are the old ones, in their old order, followed by the new
   * keys the pairs mention.
   */
  lemma {:induction false} AccumulateSums(d: Dict<real>, pairs: seq<(string, real)>, k: string)
    requires WellFormed(d)
    ensures Lookup(Accumulate(d, pairs), k) == Lookup(d, k) + SumFor(pairs, k)
    ensures k in Accumulate(d, pairs).values <==> k in d.values || exists i :: 0 <= i < |pairs| && pairs[i].0 == k
    ensures d.keys <= Accumulate(d, pairs).keys
  {
    if pairs != [] {
      var init := pairs[..|pairs| - 1];
      AccumulateSums(d, init, k);
      if k in Accumulate(d, pairs).values && k !in d.values && pairs[|pairs| - 1].0 != k {
        var i :| 0 <= i < |init| && init[i].0 == k;
        assert pairs[i].0 == k;
      }
      if exists i :: 0 <= i < |pairs| && pairs[i].0 == k {
        var i :| 0 <= i < |pairs| && pairs[i].0 == k;
        if i < |init| {
          assert init[i].0 == k;
        }
      }
    }
  }

  /** `Object.keys(d).map(name => ({ name, value: d[name] }))` */
  function Entries<V>(d: Dict<V>): (r: seq<(string, V)>)
    requires WellFormed(d)
    ensures |r| == |d.keys|
    ensures forall i :: 0 <= i < |r| ==> r[i].0 == d.keys[i] && r[i].1 == d.values[d.keys[i]]
  {
    seq(|d.keys|, i requires 0 <= i < |d.keys| => (d.keys[i], d.values[d.keys[i]]))
  }

  // ---------------------------------------------------------------------
  // Key figures

  /** `sales.filter(s => s.status !== 'VOID')` */
  function NonVoid(sales: seq<Sale>): (r: seq<Sale>)
    ensures |r| <= |sales|
    ensures forall s :: s in r <==> s in sales && s.status != Voided
  {
    if sales == [] then []
    else (if sales[0].status == Voided then [] else [sales[0]]) + NonVoid(sales[1..])
  }

  /** Filtering distributes over concatenation: a later sale never reorders earlier ones. */
  lemma {:induction false} NonVoidAppend(a: seq<Sale>, b: seq<Sale>)
    ensures NonVoid(a + b) == NonVoid(a) + NonVoid(b)
  {
    if a == [] {
      assert a + b == b;
    } else {
      assert (a + b)[0] == a[0] && (a + b)[1..] == a[1..] + b;
      NonVoidAppend(a[1..], b);
    }
  }

  /** `reduce((sum, s) => sum + s.total, 0)` */
  function Revenue(sales: seq<Sale>): real {
    if sales == [] then 0.0 else Revenue(sales[..|sales| - 1]) + sales[|sales| - 1].total
  }

  lemma {:induction false} RevenueAppend(a: seq<Sale>, b: seq<Sale>)
    ensures Revenue(a + b) == Revenue(a) + Revenue(b)
  {
    if b == [] {
      assert a + b == a;
    } else {
      assert (a + b)[..|a + b| - 1] == a + b[..|b| - 1];
      RevenueAppend(a, b[..|b| - 1]);
    }
  }

  /** Recording a sale adds its total to the revenue; voiding one takes it out again. */
  lemma RevenueOfNewSale(sales: seq<Sale>, s: Sale)
    ensures s.status != Voided ==> Revenue(NonVoid(sales + [s])) == Revenue(NonVoid(sales)) + s.total
    ensures s.status == Voided ==> Revenue(NonVoid(sales + [s])) == Revenue(NonVoid(sales))
    ensures s.status != Voided ==> |NonVoid(sales + [s])| == |NonVoid(sales)| + 1
    ensures s.status == Voided ==> |NonVoid(sales + [s])| == |NonVoid(sales)|
  {
    NonVoidAppend(sales, [s]);
    assert NonVoid([s]) == (if s.status == Voided then [] else [s]) + NonVoid([]);
    RevenueAppend(NonVoid(sales), NonVoid([s]));
    assert Revenue([s]) == s.total by {
      assert [s][..0] == [];
    }
  }

  datatype Kpis = Kpis(total: real, orders: nat, avg: real)

  /** Revenue, order count and average ticket of the non-void sales. */
  function KpisOf(valid: seq<Sale>): (k: Kpis)
    ensures k.total == Revenue(valid) && k.orders == |valid|
    ensures |valid| > 0 ==> k.avg == Revenue(valid) / |valid| as real
    ensures k.orders == 0 ==> k.avg == 0.0
    ensures k.orders > 0 ==> k.avg * k.orders as real == k.total
  {
    var revenue := Revenue(valid);
    Kpis(revenue, |valid|, if |valid| > 0 then revenue / |valid| as real else 0.0)
  }

  /** Recording a completed sale adds one order and its total to the figures; a voided one changes neither. */
  lemma KpisOfNewSale(sales: seq<Sale>, s: Sale)
    ensures var before := KpisOf(NonVoid(sales));
      var after := KpisOf(NonVoid(sales + [s]));
      (s.status != Voided ==> after.total == before.total + s.total && after.orders == before.orders + 1) &&
      (s.status == Voided ==> after == before)
  {
    RevenueOfNewSale(sales, s);
    if s.status == Voided {
      assert NonVoid(sales + [s]) == NonVoid(sales) by {
        NonVoidAppend(sales, [s]);
        assert NonVoid([s]) == [] + NonVoid([]);
      }
    }
  }

  // ---------------------------------------------------------------------
  // Category totals

  /** `item.category || 'Otros'` */
  function CategoryName(item: LineItem): string {
    if item.category == "" then Other else item.category
  }

  /** The items of a sale whose items are present. */
  function ItemsOf(s: Sale): seq<LineItem> {
    if s.items.Some? then s.items.value else []
  }

  /** `sale.items.forEach` throws on a sale without items. */
  predicate ItemsPresent(sales: seq<Sale>) {
    forall i :: 0 <= i < |sales| ==> sales[i].items.Some?
  }

  /** Each item as the (category, amount) it adds. */
  function ItemPairs(items: seq<LineItem>): (r: seq<(string, real)>)
    ensures |r| == |items|
    ensures forall i :: 0 <= i < |items| ==> r[i] == (CategoryName(items[i]), Amount(items[i]))
  {
    if items == [] then []
    else ItemPairs(items[..|items| - 1]) + [(CategoryName(items[|items| - 1]), Amount(items[|items| - 1]))]
  }

  /** Every item of every sale, in order, as the (category, amount) it adds. */
  function CategoryPairs(sales: seq<Sale>): seq<(string, real)> {
    if sales == [] then [] else CategoryPairs(sales[..|sales| - 1]) + ItemPairs(ItemsOf(sales[|sales| - 1]))
  }

  function EmptyTotals(): (d: Dict<real>)
    ensures WellFormed(d)
  {
    Dict([], map[])
  }

  /** `catMap` after the loop over the non-void sales. */
  function CategoryTotals(valid: seq<Sale>): (d: Dict<real>)
    ensures WellFormed(d)
  {
    Accumulate(EmptyTotals(), CategoryPairs(valid))
  }

  /**
   * What a category's total means: the amounts of the items in that
   * category, over all sales; and a category is listed exactly when some
   * item falls in it.
   */
  lemma CategoryTotalsMeaning(valid: seq<Sale>, c: string)
    ensures Lookup(CategoryTotals(valid), c) == SumFor(CategoryPairs(valid), c)
    ensures c in CategoryTotals(valid).keys <==> exists i :: 0 <= i < |CategoryPairs(valid)| && CategoryPairs(valid)[i].0 == c
  {
    AccumulateSums(EmptyTotals(), CategoryPairs(valid), c);
  }

  /** An item without a category is counted under "Otros". */
  lemma MissingCategoryIsOther(item: LineItem)
    requires item.category == ""
    ensures ItemPairs([item]) == [(Other, Amount(item))]
  {
  }

  /** Accumulating two runs of pairs is accumulating the first and then the second. */
  lemma {:induction false} AccumulateAppend(d: Dict<real>, a: seq<(string, real)>, b: seq<(string, real)>)
    requires WellFormed(d)
    ensures Accumulate(d, a + b) == Accumulate(Accumulate(d, a), b)
  {
    if b == [] {
      assert a + b == a;
    } else {
      var b' := b[..|b| - 1];
      AccumulateAppend(d, a, b');
      assert (a + b)[..|a + b| - 1] == a + b';
      assert (a + b)[|a + b| - 1] == b[|b| - 1];
    }
  }

  lemma ItemPairsStep(items: seq<LineItem>, j: int)
    requires 0 <= j < |items|
    ensures ItemPairs(items[..j + 1]) == ItemPairs(items[..j]) + [(CategoryName(items[j]), Amount(items[j]))]
  {
    assert items[..j + 1][..j] == items[..j];
  }

  lemma CategoryPairsNext(valid: seq<Sale>, i: int)
    requires 0 <= i < |valid|
    ensures CategoryPairs(valid[..i + 1]) == CategoryPairs(valid[..i]) + ItemPairs(ItemsOf(valid[i]))
  {
    assert valid[..i + 1][..i] == valid[..i];
  }

  /** The inner loop of the category chart: `sale.items.forEach`, adding each item's amount under its category. */
  method CategoryItems(start: Dict<real>, items: seq<LineItem>) returns (d: Dict<real>)
    requires WellFormed(start)
    ensures d == Accumulate(start, ItemPairs(items))
  {
    d := start;
    var j := 0;
    while j < |items|
      invariant 0 <= j <= |items|
      invariant d == Accumulate(start, ItemPairs(items[..j]))
    {
      ItemPairsStep(items, j);
      AccumulateStep(start, ItemPairs(items[..j]), CategoryName(items[j]), Amount(items[j]));
      d := AddTo(d, CategoryName(items[j]), Amount(items[j]));
      j := j + 1;
    }
    assert items[..j] == items;
  }

  /** The loops of the category chart, over the non-void sales and their items. */
  method CategoryLoop(valid: seq<Sale>) returns (d: Dict<real>)
    requires ItemsPresent(valid)
    ensures d == CategoryTotals(valid)
  {
    d := EmptyTotals();
    var i := 0;
    while i < |valid|
      invariant 0 <= i <= |valid|
      invariant d == Accumulate(EmptyTotals(), CategoryPairs(valid[..i]))
    {
      var items := valid[i].items.value;
      CategoryPairsNext(valid, i);
      AccumulateAppend(EmptyTotals(), CategoryPairs(valid[..i]), ItemPairs(items));
      d := CategoryItems(d, items);
      i := i + 1;
    }
    assert valid[..i] == valid;
  }

  // ---------------------------------------------------------------------
  // Payment-method totals

  /** Labels of older records: 'cash' is cash, 'card' and 'Tarjeta' are card; any other label is kept. */
  function Normalize(kind: string): (m: string)
    ensures kind == "cash" ==> m == CashLabel
    ensures kind == "card" || kind == "Tarjeta" ==> m == CardLabel
    ensures kind != "cash" && kind != "card" && kind != "Tarjeta" ==> m == kind
  {
    var m := if kind == "cash" then CashLabel else kind;
    if m == "card" || m == "Tarjeta" then CardLabel else m
  }

  /** Normalising twice is normalising once. */
  lemma NormalizeIdempotent(kind: string)
    ensures Normalize(Normalize(kind)) == Normalize(kind)
  {
  }

  function PaymentPairsOf(ps: seq<PaymentEntry>): (r: seq<(string, real)>)
    ensures |r| == |ps|
    ensures forall i :: 0 <= i < |ps| ==> r[i] == (Normalize(ps[i].kind), ps[i].amount)
  {
    if ps == [] then []
    else PaymentPairsOf(ps[..|ps| - 1]) + [(Normalize(ps[|ps| - 1].kind), ps[|ps| - 1].amount)]
  }

  /** Every payment of every sale, in order, as the (normalised method, amount) it adds. */
  function PaymentPairs(sales: seq<Sale>): seq<(string, real)> {
    if sales == [] then [] else PaymentPairs(sales[..|sales| - 1]) + PaymentPairsOf(sales[|sales| - 1].payments)
  }

  /** `{ 'Efectivo': 0, 'Tarjetas': 0 }` */
  function PaymentStart(): (d: Dict<real>)
    ensures WellFormed(d)
  {
    Dict([CashLabel, CardLabel], map[CashLabel := 0.0, CardLabel := 0.0])
  }

  /** `payMap` after the loop over the non-void sales. */
  function PaymentTotals(valid: seq<Sale>): (d: Dict<real>)
    ensures WellFormed(d)
  {
    Accumulate(PaymentStart(), PaymentPairs(valid))
  }

  /** Each method's total is the sum of the payments normalised to it; cash and card always lead the key order. */
  lemma PaymentTotalsMeaning(valid: seq<Sale>, m: string)
    ensures Lookup(PaymentTotals(valid), m) == SumFor(PaymentPairs(valid), m)
    ensures |PaymentTotals(valid).keys| >= 2
    ensures PaymentTotals(valid).keys[0] == CashLabel && PaymentTotals(valid).keys[1] == CardLabel
  {
    AccumulateSums(PaymentStart(), PaymentPairs(valid), m);
  }

  lemma PaymentPairsStep(valid: seq<Sale>, i: int, j: int)
    requires 0 <= i < |valid| && 0 <= j < |valid[i].payments|
    ensures var ps := valid[i].payments;
      PaymentPairs(valid[..i]) + PaymentPairsOf(ps[..j + 1]) ==
      (PaymentPairs(valid[..i]) + PaymentPairsOf(ps[..j])) + [(Normalize(ps[j].kind), ps[j].amount)]
  {
    var ps := valid[i].payments;
    assert ps[..j + 1][..j] == ps[..j];
  }

  lemma PaymentPairsNext(valid: seq<Sale>, i: int)
    requires 0 <= i < |valid|
    ensures var ps := valid[i].payments;
      PaymentPairs(valid[..i]) + PaymentPairsOf(ps[..|ps|]) == PaymentPairs(valid[..i + 1])
  {
    var ps := valid[i].payments;
    assert ps[..|ps|] == ps;
    assert valid[..i + 1][..i] == valid[..i];
  }

  /** The loops of the payment chart, over the non-void sales and their payments. */
  method PaymentLoop(valid: seq<Sale>) returns (d: Dict<real>)
    ensures d == PaymentTotals(valid)
  {
    d := PaymentStart();
    var i := 0;
    while i < |valid|
      invariant 0 <= i <= |valid|
      invariant d == Accumulate(PaymentStart(), PaymentPairs(valid[..i]))
    {
      var ps := valid[i].payments;
      assert PaymentPairs(valid[..i]) + PaymentPairsOf(ps[..0]) == PaymentPairs(valid[..i]);
      var j := 0;
      while j < |ps|
        invariant 0 <= j <= |ps|
        invariant d == Accumulate(PaymentStart(), PaymentPairs(valid[..i]) + PaymentPairsOf(ps[..j]))
      {
        var m := Normalize(ps[j].kind);
        PaymentPairsStep(valid, i, j);
        AccumulateStep(PaymentStart(), PaymentPairs(valid[..i]) + PaymentPairsOf(ps[..j]), m, ps[j].amount);
        d := AddTo(d, m, ps[j].amount);
        j := j + 1;
      }
      PaymentPairsNext(valid, i);
      i := i + 1;
    }
    assert valid[..i] == valid;
  }

  /** `Object.keys(payMap).filter(name => payMap[name] > 0).map(...)` over a run of keys. */
  function PositiveEntries(keys: seq<string>, values: map<string, real>): (r: seq<(string, real)>)
    requires forall k :: k in keys ==> k in values
    ensures |r| <= |keys|
  {
    if keys == [] then []
    else
      var k := keys[0];
      var head := if values[k] > 0.0 then [(k, values[k])] else [];
      head + PositiveEntries(keys[1..], values)
  }

  /** An entry is listed exactly when its key is in the run with a positive value, and it carries that value. */
  lemma {:induction false} PositiveEntriesMeaning(keys: seq<string>, values: map<string, real>)
    requires forall k :: k in keys ==> k in values
    ensures forall e :: e in PositiveEntries(keys, values) <==>
      e.0 in keys && e.0 in values && values[e.0] > 0.0 && e.1 == values[e.0]
  {
    if keys != [] {
      PositiveEntriesMeaning(keys[1..], values);
      assert keys == [keys[0]] + keys[1..];
    }
  }

  /** The entries of r name keys in the order those keys have in keys. */
  ghost predicate KeyOrdered(keys: seq<string>, r: seq<(string, real)>) {
    forall i, j :: 0 <= i < j < |r| ==> 0 <= Js.FirstAt(keys, r[i].0) < Js.FirstAt(keys, r[j].0)
  }

  /** Entries ordered over the keys after the first, none for the first key, stay ordered over all keys and sit past position 0. */
  lemma KeyOrderedShift(keys: seq<string>, rest: seq<(string, real)>)
    requires keys != []
    requires KeyOrdered(keys[1..], rest)
    requires forall k :: 0 <= k < |rest| ==> Js.FirstAt(keys[1..], rest[k].0) >= 0 && rest[k].0 != keys[0]
    ensures KeyOrdered(keys, rest)
    ensures forall k :: 0 <= k < |rest| ==> Js.FirstAt(keys, rest[k].0) >= 1
  {
    forall k | 0 <= k < |rest| ensures Js.FirstAt(keys, rest[k].0) == Js.FirstAt(keys[1..], rest[k].0) + 1 {
      Js.FirstAtTail(keys, rest[k].0);
    }
  }

  /** An entry for the first key put in front of entries past position 0 keeps the order. */
  lemma KeyOrderedFront(keys: seq<string>, e: (string, real), rest: seq<(string, real)>)
    requires keys != [] && e.0 == keys[0]
    requires KeyOrdered(keys, rest)
    requires forall k :: 0 <= k < |rest| ==> Js.FirstAt(keys, rest[k].0) >= 1
    ensures KeyOrdered(keys, [e] + rest)
  {
    var r := [e] + rest;
    assert Js.FirstAt(keys, keys[0]) == 0;
    forall i, j | 0 <= i < j < |r| ensures 0 <= Js.FirstAt(keys, r[i].0) < Js.FirstAt(keys, r[j].0) {
      assert r[j] == rest[j - 1];
      if i > 0 {
        assert r[i] == rest[i - 1];
      }
    }
  }

  /** With distinct keys, the listed entries follow the key order. */
  lemma {:induction false} PositiveEntriesOrder(keys: seq<string>, values: map<string, real>)
    requires forall k :: k in keys ==> k in values
    requires forall i, j :: 0 <= i < j < |keys| ==> keys[i] != keys[j]
    ensures KeyOrdered(keys, PositiveEntries(keys, values))
  {
    if keys != [] {
      var tail := keys[1..];
      var rest := PositiveEntries(tail, values);
      PositiveEntriesOrder(tail, values);
      PositiveEntriesMeaning(tail, values);
      forall k | 0 <= k < |rest| ensures Js.FirstAt(tail, rest[k].0) >= 0 && rest[k].0 != keys[0] {
        assert rest[k] in rest;
        var m :| 0 <= m < |tail| && tail[m] == rest[k].0;
        assert keys[m + 1] == rest[k].0;
      }
      KeyOrderedShift(keys, rest);
      if values[keys[0]] > 0.0 {
        KeyOrderedFront(keys, (keys[0], values[keys[0]]), rest);
      }
    }
  }

  /** The payment chart: the methods whose total is positive, in key order. */
  function PaymentStats(d: Dict<real>): (r: seq<(string, real)>)
    requires WellFormed(d)
    ensures forall e :: e in r <==> e.0 in d.keys && d.values[e.0] > 0.0 && e.1 == d.values[e.0]
    ensures forall k :: k in d.keys && d.values[k] > 0.0 ==> (k, d.values[k]) in r
    ensures KeyOrdered(d.keys, r)
  {
    PositiveEntriesMeaning(d.keys, d.values);
    PositiveEntriesOrder(d.keys, d.values);
    PositiveEntries(d.keys, d.values)
  }

  /** Filtering distributes over concatenation, so the listed methods keep the key order. */
  lemma {:induction false} PositiveEntriesAppend(a: seq<string>, b: seq<string>, values: map<string, real>)
    requires forall i :: 0 <= i < |a| ==> a[i] in values
    requires forall i :: 0 <= i < |b| ==> b[i] in values
    ensures PositiveEntries(a + b, values) == PositiveEntries(a, values) + PositiveEntries(b, values)
  {
    if a == [] {
      assert a + b == b;
    } else {
      var ab := a + b;
      assert ab[0] == a[0] && ab[1..] == a[1..] + b;
      assert forall k :: k in ab ==> k in values;
      assert forall k :: k in a ==> k in values;
      var head := if values[a[0]] > 0.0 then [(a[0], values[a[0]])] else [];
      assert PositiveEntries(ab, values) == head + PositiveEntries(a[1..] + b, values);
      assert PositiveEntries(a, values) == head + PositiveEntries(a[1..], values);
      PositiveEntriesAppend(a[1..], b, values);
    }
  }

  // ---------------------------------------------------------------------
  // Daily trend

  datatype TrendCell = TrendCell(raw: int, total: real)

  datatype TrendPoint = TrendPoint(date: string, raw: int, total: real)

  /** One step of the trend loop: the sale's day gets its date as sort key and its total added. */
  function TrendAdd(d: Dict<TrendCell>, s: Sale, dayKey: int -> string): (r: Dict<TrendCell>)
    requires WellFormed(d)
    ensures WellFormed(r)
  {
    var k := dayKey(s.date);
    var prev := if k in d.values then d.values[k].total else 0.0;
    Put(d, k, TrendCell(s.date, prev + s.total))
  }

  /** `trendMap` after the loop over the sales; dayKey is the day label of a timestamp. */
  function TrendMap(sales: seq<Sale>, dayKey: int -> string): (d: Dict<TrendCell>)
    ensures WellFormed(d)
  {
    if sales == [] then Dict([], map[])
    else TrendAdd(TrendMap(sales[..|sales| - 1], dayKey), sales[|sales| - 1], dayKey)
  }

  /** The day's total, over the sales on that day. */
  function DayTotal(sales: seq<Sale>, dayKey: int -> string, k: string): real {
    if sales == [] then 0.0
    else
      var s := sales[|sales| - 1];
      DayTotal(sales[..|sales| - 1], dayKey, k) + (if dayKey(s.date) == k then s.total else 0.0)
  }

  /** The date of the last sale on that day, in list order. */
  function LastDate(sales: seq<Sale>, dayKey: int -> string, k: string): int {
    if sales == [] then 0
    else
      var s := sales[|sales| - 1];
      if dayKey(s.date) == k then s.date else LastDate(sales[..|sales| - 1], dayKey, k)
  }

  /**
   * A day has a bucket exactly when some sale falls on it; the bucket holds
   * that day's total and, as its sort key, the date of the day's last sale
   * in list order.
   */
  lemma {:induction false} TrendMapMeaning(sales: seq<Sale>, dayKey: int -> string, k: string)
    ensures k in TrendMap(sales, dayKey).values <==> exists i :: 0 <= i < |sales| && dayKey(sales[i].date) == k
    ensures k in TrendMap(sales, dayKey).values ==>
      TrendMap(sales, dayKey).values[k] == TrendCell(LastDate(sales, dayKey, k), DayTotal(sales, dayKey, k))
  {
    if sales != [] {
      var init := sales[..|sales| - 1];
      TrendMapMeaning(init, dayKey, k);
      if k !in TrendMap(init, dayKey).values {
        assert DayTotal(init, dayKey, k) == 0.0 by {
          DayTotalAbsent(init, dayKey, k);
        }
      }
      if exists i :: 0 <= i < |sales| && dayKey(sales[i].date) == k {
        var i :| 0 <= i < |sales| && dayKey(sales[i].date) == k;
        if i < |init| {
          assert dayKey(init[i].date) == k;
        }
      }
    }
  }

  lemma {:induction false} DayTotalAbsent(sales: seq<Sale>, dayKey: int -> string, k: string)
    requires forall i :: 0 <= i < |sales| ==> dayKey(sales[i].date) != k
    ensures DayTotal(sales, dayKey, k) == 0.0
  {
    if sales != [] {
      DayTotalAbsent(sales[..|sales| - 1], dayKey, k);
    }
  }

  function TrendPoints(d: Dict<TrendCell>): (r: seq<TrendPoint>)
    requires WellFormed(d)
    ensures |r| == |d.keys|
    ensures forall i :: 0 <= i < |r| ==> r[i] == TrendPoint(d.keys[i], d.values[d.keys[i]].raw, d.values[d.keys[i]].total)
  {
    seq(|d.keys|, i requires 0 <= i < |d.keys| => TrendPoint(d.keys[i], d.values[d.keys[i]].raw, d.values[d.keys[i]].total))
  }

  function RawKey(p: TrendPoint): int { p.raw }

  /** `slice(-7)` */
  function LastSeven<T>(s: seq<T>): (r: seq<T>)
    ensures |r| == if |s| > 7 then 7 else |s|
    ensures r == s[|s| - |r|..]
    ensures |s| <= 7 ==> r == s
  {
    if |s| > 7 then s[|s| - 7..] else s
  }

  /** The trend chart: the day buckets sorted by their sort key, the last seven of them. */
  function SalesTrend(valid: seq<Sale>, dayKey: int -> string): seq<TrendPoint> {
    LastSeven(Sorting.SortByKey(TrendPoints(TrendMap(valid, dayKey)), RawKey))
  }

  /** The last seven of a sorted run are sorted. */
  lemma LastSevenSorted(s: seq<TrendPoint>)
    requires Sorting.SortedBy(s, RawKey)
    ensures var t := LastSeven(s); forall i, j :: 0 <= i < j < |t| ==> t[i].raw <= t[j].raw
  {
    var t := LastSeven(s);
    var off := |s| - |t|;
    forall i, j | 0 <= i < j < |t| ensures t[i].raw <= t[j].raw {
      assert t[i] == s[off + i] && t[j] == s[off + j];
      assert RawKey(s[off + i]) <= RawKey(s[off + j]);
    }
  }

  /**
   * When s is a sorted arrangement of the points of all, the last seven of s
   * come from all, and no point of all left out of them is later than one kept.
   */
  lemma LastSevenLatest(s: seq<TrendPoint>, all: seq<TrendPoint>)
    requires Sorting.SortedBy(s, RawKey)
    requires forall x :: x in s <==> x in all
    ensures var t := LastSeven(s);
      (forall p :: p in t ==> p in all) &&
      (forall p, q :: p in all && p !in t && q in t ==> p.raw <= q.raw)
  {
    var t := LastSeven(s);
    var off := |s| - |t|;
    assert forall k :: off <= k < |s| ==> s[k] == t[k - off];
    forall p, q | p in all && p !in t && q in t ensures p.raw <= q.raw {
      var i :| 0 <= i < |s| && s[i] == p;
      var j :| 0 <= j < |t| && t[j] == q;
      assert t[j] == s[off + j];
      assert RawKey(s[i]) <= RawKey(s[off + j]);
    }
  }

  /** Sorting a run of points and keeping the last seven keeps the latest seven, oldest first. */
  lemma LatestSeven(all: seq<TrendPoint>)
    ensures var sorted := Sorting.SortByKey(all, RawKey);
      var t := LastSeven(sorted);
      |t| == (if |all| > 7 then 7 else |all|) &&
      t == sorted[|sorted| - |t|..] &&
      (forall i, j :: 0 <= i < j < |t| ==> t[i].raw <= t[j].raw) &&
      (forall p :: p in t ==> p in all) &&
      (forall p, q :: p in all && p !in t && q in t ==> p.raw <= q.raw)
  {
    var sorted := Sorting.SortByKey(all, RawKey);
    Sorting.SortByKeySorted(all, RawKey);
    Sorting.SortByKeySameElements(all, RawKey);
    LastSevenSorted(sorted);
    LastSevenLatest(sorted, all);
  }

  /**
   * The trend shows the latest seven day buckets, or all of them when there
   * are at most seven, oldest first: it is the tail of the buckets sorted by
   * their sort key, and no bucket left out is later than one shown.
   */
  lemma SalesTrendShape(valid: seq<Sale>, dayKey: int -> string)
    ensures var all := TrendPoints(TrendMap(valid, dayKey));
      var sorted := Sorting.SortByKey(all, RawKey);
      var t := SalesTrend(valid, dayKey);
      |t| == (if |all| > 7 then 7 else |all|) &&
      t == sorted[|sorted| - |t|..] &&
      (forall i, j :: 0 <= i < j < |t| ==> t[i].raw <= t[j].raw) &&
      (forall p :: p in t ==> p in all) &&
      (forall p, q :: p in all && p !in t && q in t ==> p.raw <= q.raw)
  {
    var all := TrendPoints(TrendMap(valid, dayKey));
    LatestSeven(all);
    assert SalesTrend(valid, dayKey) == LastSeven(Sorting.SortByKey(all, RawKey));
  }

  lemma TrendMapStep(valid: seq<Sale>, dayKey: int -> string, i: int)
    requires 0 <= i < |valid|
    ensures TrendMap(valid[..i + 1], dayKey) == TrendAdd(TrendMap(valid[..i], dayKey), valid[i], dayKey)
  {
    assert valid[..i + 1][..i] == valid[..i];
  }

  /** The trend loop over the non-void sales. */
  method TrendLoop(valid: seq<Sale>, dayKey: int -> string) returns (d: Dict<TrendCell>)
    ensures d == TrendMap(valid, dayKey)
  {
    d := Dict([], map[]);
    var i := 0;
    while i < |valid|
      invariant 0 <= i <= |valid|
      invariant d == TrendMap(valid[..i], dayKey)
    {
      TrendMapStep(valid, dayKey, i);
      d := TrendAdd(d, valid[i], dayKey);
      i := i + 1;
    }
    assert valid[..i] == valid;
  }

  // ---------------------------------------------------------------------
  // The whole computation

  datatype Report = Report(
    kpis: Kpis,
    salesTrend: seq<TrendPoint>,
    categorySales: seq<(string, real)>,
    paymentStats: seq<(string, real)>)

  /**
   * The page's memoised computation. No sales gives zeros and empty series;
   * a non-void sale without items makes the page fail (None).
   */
  method ComputeReport(sales: seq<Sale>, dayKey: int -> string) returns (r: Option<Report>)
    ensures sales == [] ==> r == Some(Report(Kpis(0.0, 0, 0.0), [], [], []))
    ensures sales != [] && !ItemsPresent(NonVoid(sales)) ==> r.None?
    ensures sales != [] && ItemsPresent(NonVoid(sales)) ==>
      var valid := NonVoid(sales);
      r == Some(Report(KpisOf(valid), SalesTrend(valid, dayKey),
                       Entries(CategoryTotals(valid)), PaymentStats(PaymentTotals(valid))))
  {
    if |sales| == 0 {
      return Some(Report(Kpis(0.0, 0, 0.0), [], [], []));
    }
    var valid := NonVoid(sales);
    var kpis := KpisOf(valid);
    var trend := TrendLoop(valid, dayKey);
    var salesTrend := LastSeven(Sorting.SortByKey(TrendPoints(trend), RawKey));
    if !ItemsPresent(valid) {
      return None;
    }
    var categories := CategoryLoop(valid);
    var payments := PaymentLoop(valid);
    r := Some(Report(kpis, salesTrend, Entries(categories), PaymentStats(payments)));
  }
}
