/**
 * ProductService: validation and defaulting in front of the catalog store.
 * Request bodies come from the inventory form, whose fields are text, so the
 * service parses price and stock before they reach the store.
 */
module CatalogService {
  import opened Js
  import opened Records
  import opened Catalog

  const PlaceholderImage: string :=
    "https://images.unsplash.com/photo-1555507036-ab1f4038808a?auto=format&fit=crop&w=300&q=80"

  const RequiredMessage: string := "Name and price are required"

  /** The body of a product creation request; a field the body leaves out is Undefined. */
  datatype ProductInput = ProductInput(name: JsValue, price: JsValue, category: JsValue, image: JsValue, stock: JsValue)

  /** A thrown error is Err with its message. */
  datatype Result<T> = Ok(value: T) | Err(message: string)

  /** The validation of addProduct: name and price must both be truthy, so a price of 0 fails. */
  predicate Acceptable(data: ProductInput) {
    Truthy(data.name) && Truthy(data.price)
  }

  /**
   * The record addProduct hands to the store: price parsed as a float,
   * stock parsed as an integer (0 when that fails or gives 0), and the
   * placeholder image when none is given. The store replaces the id.
   */
  function Defaulted(data: ProductInput): (p: Product)
    ensures p.name == data.name && p.category == data.category
    ensures p.price == ParseFloat(data.price)
    ensures p.stock.Num? && p.stock.n == p.stock.n.Floor as real
    ensures Truthy(ParseInt(data.stock)) ==> p.stock == ParseInt(data.stock)
    ensures !Truthy(ParseInt(data.stock)) ==> p.stock == Num(0.0)
    ensures Truthy(data.image) ==> p.image == data.image
    ensures !Truthy(data.image) ==> p.image == Str(PlaceholderImage)
  {
    Product(0, data.name, ParseFloat(data.price), data.category,
            Or(data.image, Str(PlaceholderImage)), Or(ParseInt(data.stock), Num(0.0)))
  }

  /** A field value is converted only when present and truthy. */
  function CoerceIfTruthy(v: Option<JsValue>, convert: JsValue -> JsValue): Option<JsValue> {
    if v.Some? && Truthy(v.value) then Some(convert(v.value)) else v
  }

  /**
   * The changes updateProduct hands to the store: price and stock are parsed
   * only when truthy; a falsy value (`0`, `""`) is passed through as it is
   * and still merged.
   */
  function Coerced(data: Patch): (d: Patch)
    ensures d.(price := data.price, stock := data.stock) == data
    ensures data.price.Some? && Truthy(data.price.value) ==> d.price == Some(ParseFloat(data.price.value))
    ensures data.stock.Some? && Truthy(data.stock.value) ==> d.stock == Some(ParseInt(data.stock.value))
    ensures data.price.None? || !Truthy(data.price.value) ==> d.price == data.price
    ensures data.stock.None? || !Truthy(data.stock.value) ==> d.stock == data.stock
    ensures d.stock.Some? ==> StockShaped(d.stock.value)
  {
    data.(price := CoerceIfTruthy(data.price, ParseFloat), stock := CoerceIfTruthy(data.stock, ParseInt))
  }

  method GetProducts(store: ProductStore) returns (ps: seq<Product>)
    ensures ps == store.products
  {
    ps := store.GetAll();
  }

  /** Validates, fills in defaults and appends; the store is untouched on a rejected body. */
  method AddProduct(store: ProductStore, data: ProductInput, now: int) returns (r: Result<Product>)
    requires store.Valid()
    modifies store
    ensures store.Valid()
    ensures !Acceptable(data) ==> r == Err(RequiredMessage) && store.products == old(store.products)
    ensures Acceptable(data) ==>
      r == Ok(Defaulted(data).(id := now)) && store.products == old(store.products) + [r.value]
  {
    if !Truthy(data.name) || !Truthy(data.price) {
      return Err(RequiredMessage);
    }
    var p := store.Add(Defaulted(data), now);
    r := Ok(p);
  }

  /** Always reports success. */
  method DeleteProduct(store: ProductStore, id: int) returns (ok: bool)
    requires store.Valid()
    modifies store
    ensures store.Valid() && ok
    ensures store.products == WithoutId(old(store.products), id)
  {
    ok := store.Delete(id);
  }

  /** Coerces and merges; None when no product has the id, and then nothing changes. */
  method UpdateProduct(store: ProductStore, id: int, data: Patch) returns (r: Option<Product>)
    requires store.Valid()
    modifies store
    ensures store.Valid()
    ensures FindIndex(old(store.products), id) < 0 ==> r.None? && store.products == old(store.products)
    ensures FindIndex(old(store.products), id) >= 0 ==>
      var i := FindIndex(old(store.products), id);
      r == Some(Merge(old(store.products)[i], Coerced(data))) && store.products == old(store.products)[i := r.value]
  {
    r := store.Update(id, Coerced(data));
  }
}
