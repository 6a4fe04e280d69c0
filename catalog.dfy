/**
 * The product catalog store (ProductRepository): a process-wide list of
 * product records that is appended to, filtered, and rewritten one record at
 * a time. Apart from the integer id, a record's fields hold whatever the
 * request body or the service layer put there, so they are JavaScript values.
 */
module Catalog {
  import opened Js
  import opened Records

  datatype Product = Product(id: int, name: JsValue, price: JsValue, category: JsValue, image: JsValue, stock: JsValue)

  /** The fields a partial update carries; None for a field the body leaves out. */
  datatype Patch = Patch(
    id: Option<int>,
    name: Option<JsValue>,
    price: Option<JsValue>,
    category: Option<JsValue>,
    image: Option<JsValue>,
    stock: Option<JsValue>)

  const NoChange: Patch := Patch(None, None, None, None, None, None)

  function Pick<T>(current: T, given: Option<T>): T {
    if given.Some? then given.value else current
  }

  /** `{ ...p, ...data }`: a field present in data replaces p's, every other field stays. */
  function Merge(p: Product, data: Patch): (r: Product)
    ensures data.id.None? ==> r.id == p.id
    ensures data.id.Some? ==> r.id == data.id.value
    ensures data.name.None? ==> r.name == p.name
    ensures data.name.Some? ==> r.name == data.name.value
    ensures data.price.None? ==> r.price == p.price
    ensures data.price.Some? ==> r.price == data.price.value
    ensures data.category.None? ==> r.category == p.category
    ensures data.category.Some? ==> r.category == data.category.value
    ensures data.image.None? ==> r.image == p.image
    ensures data.image.Some? ==> r.image == data.image.value
    ensures data.stock.None? ==> r.stock == p.stock
    ensures data.stock.Some? ==> r.stock == data.stock.value
    ensures data == NoChange ==> r == p
  {
    Product(Pick(p.id, data.id), Pick(p.name, data.name), Pick(p.price, data.price),
            Pick(p.category, data.category), Pick(p.image, data.image), Pick(p.stock, data.stock))
  }

  /** Merging the same patch twice changes nothing more. */
  lemma MergeIdempotent(p: Product, data: Patch)
    ensures Merge(Merge(p, data), data) == Merge(p, data)
  {
  }

  // ---------------------------------------------------------------------
  // Stock values

  /**
   * What every path into the store leaves in a stock field: a number, or a
   * falsy value (the service layer passes `0`, `""` and `NaN` through).
   */
  predicate StockShaped(v: JsValue) { v.Num? || !Truthy(v) }

  ghost predicate AllShaped(ps: seq<Product>) {
    forall i :: 0 <= i < |ps| ==> StockShaped(ps[i].stock)
  }

  /** `stock || 0` for a shaped stock value. */
  function StockValue(v: JsValue): (n: real)
    requires StockShaped(v)
    ensures Truthy(v) ==> v == Num(n)
    ensures !Truthy(v) ==> n == 0.0
  {
    if v.Num? then v.n else 0.0
  }

  /** The record `updateStock` writes: stock becomes `max(0, (stock || 0) + delta)`. */
  function ApplyDelta(p: Product, delta: real): (r: Product)
    requires StockShaped(p.stock)
    ensures r.stock.Num? && r.stock.n >= 0.0
    ensures StockValue(p.stock) + delta >= 0.0 ==> r.stock.n == StockValue(p.stock) + delta
    ensures StockValue(p.stock) + delta < 0.0 ==> r.stock.n == 0.0
    ensures r.(stock := p.stock) == p
  {
    p.(stock := Num(Max(0.0, StockValue(p.stock) + delta)))
  }

  ghost predicate NonNegativeStock(ps: seq<Product>) {
    forall i :: 0 <= i < |ps| ==> ps[i].stock.Num? ==> ps[i].stock.n >= 0.0
  }

  // ---------------------------------------------------------------------
  // Lookups and whole-store transformations

  function ProductId(p: Product): int { p.id }

  /** `findIndex(p => p.id === id)`: the first position holding id, or -1. */
  function FindIndex(ps: seq<Product>, id: int): (i: int)
    ensures -1 <= i < |ps|
    ensures i >= 0 ==> ps[i].id == id && forall j :: 0 <= j < i ==> ps[j].id != id
    ensures i == -1 <==> forall j :: 0 <= j < |ps| ==> ps[j].id != id
  {
    IndexOfKey(ps, ProductId, id)
  }

  /** The store after `updateStock(id, delta)`. */
  function UpdateStockIn(ps: seq<Product>, id: int, delta: real): (r: seq<Product>)
    requires AllShaped(ps)
    ensures |r| == |ps| && AllShaped(r)
    ensures forall j :: 0 <= j < |ps| && j != FindIndex(ps, id) ==> r[j] == ps[j]
    ensures FindIndex(ps, id) >= 0 ==> r[FindIndex(ps, id)] == ApplyDelta(ps[FindIndex(ps, id)], delta)
    ensures forall j :: 0 <= j < |ps| ==> r[j].id == ps[j].id
  {
    var i := FindIndex(ps, id);
    if i < 0 then ps else ps[i := ApplyDelta(ps[i], delta)]
  }

  /** Stock that is never negative stays so under any stock delta. */
  lemma UpdateStockKeepsFloor(ps: seq<Product>, id: int, delta: real)
    requires AllShaped(ps) && NonNegativeStock(ps)
    ensures NonNegativeStock(UpdateStockIn(ps, id, delta))
  {
    var r := UpdateStockIn(ps, id, delta);
    forall j | 0 <= j < |r| && r[j].stock.Num? ensures r[j].stock.n >= 0.0 {
      if j != FindIndex(ps, id) { assert r[j] == ps[j]; }
    }
  }

  /** `filter(p => p.id !== id)` */
  function WithoutId(ps: seq<Product>, id: int): (r: seq<Product>)
    ensures |r| <= |ps|
    ensures forall p :: p in r <==> p in ps && p.id != id
  {
    if ps == [] then []
    else (if ps[0].id == id then [] else [ps[0]]) + WithoutId(ps[1..], id)
  }

  /** Filtering distributes over concatenation, so the kept products stay in order. */
  lemma {:induction false} WithoutIdAppend(a: seq<Product>, b: seq<Product>, id: int)
    ensures WithoutId(a + b, id) == WithoutId(a, id) + WithoutId(b, id)
  {
    if a == [] {
      assert a + b == b;
    } else {
      assert (a + b)[0] == a[0] && (a + b)[1..] == a[1..] + b;
      WithoutIdAppend(a[1..], b, id);
    }
  }

  /** A store without the id is left as it is. */
  lemma {:induction false} WithoutIdAbsent(ps: seq<Product>, id: int)
    requires forall j :: 0 <= j < |ps| ==> ps[j].id != id
    ensures WithoutId(ps, id) == ps
  {
    if ps != [] {
      WithoutIdAbsent(ps[1..], id);
    }
  }

  /** Deleting twice is deleting once. */
  lemma DeleteIdempotent(ps: seq<Product>, id: int)
    ensures WithoutId(WithoutId(ps, id), id) == WithoutId(ps, id)
  {
    var r := WithoutId(ps, id);
    forall j | 0 <= j < |r| ensures r[j].id != id {
      assert r[j] in r;
    }
    WithoutIdAbsent(r, id);
  }

  /** The seed entry's image for p, when the seed has p's id. */
  function Patched(p: Product, seed: seq<Product>): Product {
    var k := FindIndex(seed, p.id);
    if k >= 0 then p.(image := seed[k].image) else p
  }

  /** The hot-patch on reload: each product takes the image of the seed entry with its id. */
  function HotPatch(ps: seq<Product>, seed: seq<Product>): (r: seq<Product>)
    ensures |r| == |ps|
    ensures forall i :: 0 <= i < |ps| ==> r[i].(image := ps[i].image) == ps[i]
    ensures forall i :: 0 <= i < |ps| && FindIndex(seed, ps[i].id) < 0 ==> r[i] == ps[i]
    ensures forall i :: 0 <= i < |ps| && FindIndex(seed, ps[i].id) >= 0 ==>
      r[i].image == seed[FindIndex(seed, ps[i].id)].image
  {
    seq(|ps|, i requires 0 <= i < |ps| => Patched(ps[i], seed))
  }

  // ---------------------------------------------------------------------
  // The store

  class ProductStore {
    var products: seq<Product>

    ghost predicate Valid()
      reads this
    {
      AllShaped(products)
    }

    /** First load of the module: the store starts as a copy of the seed list. */
    constructor (seed: seq<Product>)
      requires AllShaped(seed)
      ensures Valid() && products == seed
    {
      products := seed;
    }

    /** A later load of the module, when the store already exists: the image hot-patch. */
    method Reload(seed: seq<Product>)
      requires Valid()
      modifies this
      ensures Valid() && products == HotPatch(old(products), seed)
      ensures forall i :: 0 <= i < |products| ==> products[i].stock == old(products)[i].stock
    {
      products := HotPatch(products, seed);
    }

    method GetAll() returns (ps: seq<Product>)
      ensures ps == products
    {
      ps := products;
    }

    /** `find(p => p.id === id)` */
    method GetById(id: int) returns (r: Option<Product>)
      ensures r.None? <==> forall j :: 0 <= j < |products| ==> products[j].id != id
      ensures r.Some? ==> r.value.id == id && r.value in products
      ensures r.Some? ==> (exists i :: 0 <= i < |products| && products[i] == r.value &&
                                       forall j :: 0 <= j < i ==> products[j].id != id)
    {
      var i := FindIndex(products, id);
      if i < 0 {
        r := None;
      } else {
        r := Some(products[i]);
      }
    }

    /** Appends the record with the given id (the caller's clock reading). */
    method Add(product: Product, now: int) returns (p: Product)
      requires Valid() && StockShaped(product.stock)
      modifies this
      ensures Valid()
      ensures p == product.(id := now)
      ensures products == old(products) + [p]
    {
      p := product.(id := now);
      products := products + [p];
    }

    /** Drops every record with the id; always reports success. */
    method Delete(id: int) returns (ok: bool)
      requires Valid()
      modifies this
      ensures Valid() && ok
      ensures products == WithoutId(old(products), id)
    {
      products := WithoutId(products, id);
      ok := true;
    }

    /** Merges data over the first record with the id; None when there is none. */
    method Update(id: int, data: Patch) returns (r: Option<Product>)
      requires Valid()
      requires data.stock.Some? ==> StockShaped(data.stock.value)
      modifies this
      ensures Valid()
      ensures FindIndex(old(products), id) < 0 ==> r.None? && products == old(products)
      ensures FindIndex(old(products), id) >= 0 ==>
        var i := FindIndex(old(products), id);
        r == Some(Merge(old(products)[i], data)) && products == old(products)[i := r.value]
    {
      var i := FindIndex(products, id);
      if i >= 0 {
        products := products[i := Merge(products[i], data)];
        r := Some(products[i]);
      } else {
        r := None;
      }
    }

    /** Applies a clamped stock delta to the first record with the id; None when there is none. */
    method UpdateStock(id: int, delta: real) returns (r: Option<Product>)
      requires Valid()
      modifies this
      ensures Valid()
      ensures products == UpdateStockIn(old(products), id, delta)
      ensures r.None? <==> FindIndex(old(products), id) < 0
      ensures r.Some? ==> r.value == products[FindIndex(old(products), id)]
    {
      var i := FindIndex(products, id);
      if i >= 0 {
        products := products[i := ApplyDelta(products[i], delta)];
        r := Some(products[i]);
      } else {
        r := None;
      }
    }
  }
}
