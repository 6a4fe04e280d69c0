/**
 * The point-of-sale terminal (POSTerminal): the cart of the current sale,
 * the product grid filter, the category list and the number shown for the
 * next order. Each cart handler replaces the cart with a new list computed
 * from the old one, so the transitions are functions and the terminal only
 * holds the current cart.
 */
module Cart {
  import opened Js
  import opened Records
  import Ledger

  /** A product as the terminal receives it from the catalog; a missing category is "". */
  datatype ProductView = ProductView(id: int, name: string, price: real, category: string, stock: int)

  // ---------------------------------------------------------------------
  // Cart lines

  function LineId(l: LineItem): int { l.id }

  /** `cart.find(item => item.id === id)` as a position: the first line with the id, or -1. */
  function FindLine(cart: seq<LineItem>, id: int): (i: int)
    ensures -1 <= i < |cart|
    ensures i >= 0 ==> cart[i].id == id && forall j :: 0 <= j < i ==> cart[j].id != id
    ensures i == -1 <==> forall j :: 0 <= j < |cart| ==> cart[j].id != id
  {
    IndexOfKey(cart, LineId, id)
  }

  /** `existing ? existing.quantity : 0` */
  function QuantityOf(cart: seq<LineItem>, id: int): int {
    var k := FindLine(cart, id);
    if k >= 0 then cart[k].quantity else 0
  }

  /** At most one line per product id. */
  ghost predicate UniqueIds(cart: seq<LineItem>) {
    forall i, j :: 0 <= i < j < |cart| ==> cart[i].id != cart[j].id
  }

  /** The shape every handler maintains: one line per id, each with at least one unit. */
  ghost predicate CartShaped(cart: seq<LineItem>) {
    UniqueIds(cart) && forall i :: 0 <= i < |cart| ==> cart[i].quantity >= 1
  }

  /**
   * A cart whose lines also stay within their copied stock. Adding checks the
   * product's live stock rather than the copy, so this holds only as long as
   * no product is offered with more stock than its line carries.
   */
  ghost predicate CartValid(cart: seq<LineItem>) {
    UniqueIds(cart) && forall i :: 0 <= i < |cart| ==> 1 <= cart[i].quantity <= cart[i].stock
  }

  /** With one line per id, the line with the id is the one FindLine finds. */
  lemma UniqueFind(cart: seq<LineItem>, i: int)
    requires UniqueIds(cart) && 0 <= i < |cart|
    ensures FindLine(cart, cart[i].id) == i
  {
  }

  /** `{ ...product, quantity: 1 }`: the line copies the product, its stock included, with one unit. */
  function NewLine(p: ProductView): (l: LineItem)
    ensures l.id == p.id && l.name == p.name && l.price == p.price && l.category == p.category
    ensures l.stock == p.stock && l.quantity == 1
  {
    LineItem(p.id, p.name, p.price, p.category, p.stock, 1)
  }

  /** Every line with the id gets one more unit; the others stay. */
  function Incremented(cart: seq<LineItem>, id: int): (r: seq<LineItem>)
    ensures |r| == |cart|
  {
    seq(|cart|, i requires 0 <= i < |cart| =>
      if cart[i].id == id then cart[i].(quantity := cart[i].quantity + 1) else cart[i])
  }

  /**
   * `addToCart(product)`: refused (cart unchanged) when the quantity already
   * in the cart plus one would exceed the product's stock; otherwise the
   * existing line gains a unit, or a new line with quantity 1 is appended.
   */
  function AddToCart(cart: seq<LineItem>, product: ProductView): (r: seq<LineItem>)
    ensures |r| == |cart| || |r| == |cart| + 1
    ensures forall i :: 0 <= i < |cart| && cart[i].id != product.id ==> r[i] == cart[i]
    ensures !AddAccepted(cart, product) ==> r == cart
    ensures AddAccepted(cart, product) && FindLine(cart, product.id) < 0 ==> r == cart + [NewLine(product)]
    ensures AddAccepted(cart, product) && FindLine(cart, product.id) >= 0 ==> r == Incremented(cart, product.id)
  {
    if QuantityOf(cart, product.id) + 1 > product.stock then cart
    else if FindLine(cart, product.id) >= 0 then Incremented(cart, product.id)
    else cart + [NewLine(product)]
  }

  /** Whether addToCart accepts the product. */
  predicate AddAccepted(cart: seq<LineItem>, product: ProductView) {
    QuantityOf(cart, product.id) + 1 <= product.stock
  }

  /** Adding changes the product's quantity by exactly one unit when accepted and not at all otherwise. */
  lemma AddToCartQuantity(cart: seq<LineItem>, product: ProductView)
    requires UniqueIds(cart)
    ensures var r := AddToCart(cart, product);
      UniqueIds(r) &&
      (AddAccepted(cart, product) ==> QuantityOf(r, product.id) == QuantityOf(cart, product.id) + 1) &&
      (!AddAccepted(cart, product) ==> r == cart)
  {
    var r := AddToCart(cart, product);
    var k := FindLine(cart, product.id);
    if AddAccepted(cart, product) {
      if k >= 0 {
        forall i, j | 0 <= i < j < |r| ensures r[i].id != r[j].id {
          assert r[i].id == cart[i].id && r[j].id == cart[j].id;
        }
        UniqueFind(r, k);
      } else {
        assert r == cart + [NewLine(product)];
        UniqueFind(r, |cart|);
      }
    }
  }

  /** An accepted add never takes the product's quantity above the stock it was offered with. */
  lemma AddToCartCeiling(cart: seq<LineItem>, product: ProductView)
    requires UniqueIds(cart) && AddAccepted(cart, product)
    ensures QuantityOf(AddToCart(cart, product), product.id) <= product.stock
  {
    AddToCartQuantity(cart, product);
  }

  /**
   * Adding keeps the cart valid as long as a line already in the cart does
   * not carry a smaller stock copy than the product offered now.
   */
  lemma AddToCartKeepsValid(cart: seq<LineItem>, product: ProductView)
    requires CartValid(cart)
    requires FindLine(cart, product.id) >= 0 ==> product.stock <= cart[FindLine(cart, product.id)].stock
    ensures CartValid(AddToCart(cart, product))
  {
    AddToCartQuantity(cart, product);
    var r := AddToCart(cart, product);
    var k := FindLine(cart, product.id);
    if AddAccepted(cart, product) && k >= 0 {
      forall i | 0 <= i < |r| ensures 1 <= r[i].quantity <= r[i].stock {
        if cart[i].id == product.id {
          UniqueFind(cart, i);
        }
      }
    }
  }

  /** Adding keeps one line per id and at least one unit per line, whatever stock the product is offered with. */
  lemma AddToCartKeepsShape(cart: seq<LineItem>, product: ProductView)
    requires CartShaped(cart)
    ensures CartShaped(AddToCart(cart, product))
  {
    AddToCartQuantity(cart, product);
    var r := AddToCart(cart, product);
    if AddAccepted(cart, product) && FindLine(cart, product.id) >= 0 {
      forall i | 0 <= i < |r| ensures r[i].quantity >= 1 {
        assert r[i] == Incremented(cart, product.id)[i];
      }
    }
  }

  /** `prev.filter(item => item.id !== productId)` */
  function RemoveFromCart(cart: seq<LineItem>, id: int): (r: seq<LineItem>)
    ensures |r| <= |cart|
    ensures forall l :: l in r <==> l in cart && l.id != id
  {
    if cart == [] then []
    else (if cart[0].id == id then [] else [cart[0]]) + RemoveFromCart(cart[1..], id)
  }

  /** Removing distributes over concatenation, so the remaining lines keep their order. */
  lemma {:induction false} RemoveAppend(a: seq<LineItem>, b: seq<LineItem>, id: int)
    ensures RemoveFromCart(a + b, id) == RemoveFromCart(a, id) + RemoveFromCart(b, id)
  {
    if a == [] {
      assert a + b == b;
    } else {
      assert (a + b)[0] == a[0] && (a + b)[1..] == a[1..] + b;
      RemoveAppend(a[1..], b, id);
    }
  }

  /** Removing keeps one line per id. */
  lemma {:induction false} RemoveKeepsUnique(cart: seq<LineItem>, id: int)
    requires UniqueIds(cart)
    ensures UniqueIds(RemoveFromCart(cart, id))
  {
    if cart != [] && cart[0].id != id {
      var rest := RemoveFromCart(cart[1..], id);
      RemoveKeepsUnique(cart[1..], id);
      forall j | 0 <= j < |rest| ensures rest[j].id != cart[0].id {
        assert rest[j] in cart[1..];
      }
      assert RemoveFromCart(cart, id) == [cart[0]] + rest;
    } else if cart != [] {
      RemoveKeepsUnique(cart[1..], id);
    }
  }

  /** Removing keeps the cart valid, and the removed id is gone. */
  lemma RemoveKeepsValid(cart: seq<LineItem>, id: int)
    requires CartValid(cart)
    ensures CartValid(RemoveFromCart(cart, id)) && FindLine(RemoveFromCart(cart, id), id) == -1
  {
    var r := RemoveFromCart(cart, id);
    RemoveKeepsUnique(cart, id);
    forall j | 0 <= j < |r| ensures r[j].id != id && 1 <= r[j].quantity <= r[j].stock {
      assert r[j] in cart;
    }
  }

  /** Removing keeps one line per id and at least one unit per line. */
  lemma RemoveKeepsShape(cart: seq<LineItem>, id: int)
    requires CartShaped(cart)
    ensures CartShaped(RemoveFromCart(cart, id))
  {
    var r := RemoveFromCart(cart, id);
    RemoveKeepsUnique(cart, id);
    forall j | 0 <= j < |r| ensures r[j].quantity >= 1 {
      assert r[j] in cart;
    }
  }

  /**
   * `updateQuantity(productId, delta)`: a positive delta that would take the
   * first matching line beyond its own stock copy is refused; otherwise every
   * matching line moves by delta, but not below 1.
   */
  function UpdateQuantity(cart: seq<LineItem>, id: int, delta: int): (r: seq<LineItem>)
    ensures |r| == |cart|
    ensures forall i :: 0 <= i < |cart| ==> r[i].(quantity := cart[i].quantity) == cart[i]
    ensures forall i :: 0 <= i < |cart| && cart[i].id != id ==> r[i] == cart[i]
  {
    var k := FindLine(cart, id);
    if delta > 0 && k >= 0 && cart[k].quantity + delta > cart[k].stock then cart
    else
      seq(|cart|, i requires 0 <= i < |cart| =>
        if cart[i].id == id then cart[i].(quantity := if cart[i].quantity + delta >= 1 then cart[i].quantity + delta else 1)
        else cart[i])
  }

  /** A refused change leaves the cart as it is; an accepted one moves the line by delta, floored at 1. */
  lemma UpdateQuantityEffect(cart: seq<LineItem>, id: int, delta: int)
    requires UniqueIds(cart) && FindLine(cart, id) >= 0
    ensures var q := QuantityOf(cart, id);
      var r := UpdateQuantity(cart, id, delta);
      (delta > 0 && q + delta > cart[FindLine(cart, id)].stock ==> r == cart) &&
      (delta <= 0 || q + delta <= cart[FindLine(cart, id)].stock ==>
        QuantityOf(r, id) == (if q + delta >= 1 then q + delta else 1))
  {
    var r := UpdateQuantity(cart, id, delta);
    var k := FindLine(cart, id);
    forall i | 0 <= i < |r| ensures r[i].id == cart[i].id {
      assert r[i].(quantity := cart[i].quantity) == cart[i];
    }
    UniqueFind(r, k);
  }

  /** Every quantity change keeps the cart valid: the floor of 1 and each line's stock ceiling hold. */
  lemma UpdateQuantityKeepsValid(cart: seq<LineItem>, id: int, delta: int)
    requires CartValid(cart)
    ensures CartValid(UpdateQuantity(cart, id, delta))
  {
    var r := UpdateQuantity(cart, id, delta);
    var k := FindLine(cart, id);
    forall i | 0 <= i < |r| ensures r[i].id == cart[i].id && r[i].stock == cart[i].stock {
      assert r[i].(quantity := cart[i].quantity) == cart[i];
    }
    forall i | 0 <= i < |r| ensures 1 <= r[i].quantity <= r[i].stock {
      if cart[i].id == id {
        UniqueFind(cart, i);
      }
    }
  }

  /** Every quantity change keeps one line per id, and the floor of 1 keeps every line at one unit or more. */
  lemma UpdateQuantityKeepsShape(cart: seq<LineItem>, id: int, delta: int)
    requires CartShaped(cart)
    ensures CartShaped(UpdateQuantity(cart, id, delta))
  {
    var r := UpdateQuantity(cart, id, delta);
    forall i | 0 <= i < |r| ensures r[i].id == cart[i].id && r[i].quantity >= 1 {
      assert r[i].(quantity := cart[i].quantity) == cart[i];
    }
  }

  /**
   * The ceiling updateQuantity checks is the stock copied into the line when
   * it was first added, not the catalog's current stock: a line added while
   * 5 units were in stock can still be raised to 2 after the stock has fallen
   * to 1, although adding the product again is refused.
   */
  lemma StaleStockCeiling()
    ensures var cart := [LineItem(1, "Pan", 2.0, "Panadería", 5, 1)];
      var now := ProductView(1, "Pan", 2.0, "Panadería", 1);
      AddToCart(cart, now) == cart &&
      QuantityOf(UpdateQuantity(cart, 1, 1), 1) == 2 && 2 > now.stock
  {
    var cart := [LineItem(1, "Pan", 2.0, "Panadería", 5, 1)];
    assert FindLine(cart, 1) == 0;
    var r := UpdateQuantity(cart, 1, 1);
    assert r[0].quantity == 2;
    assert FindLine(r, 1) == 0;
  }

  // ---------------------------------------------------------------------
  // The cart total

  /** `cart.reduce((sum, item) => sum + item.price * item.quantity, 0)` */
  function Total(cart: seq<LineItem>): real {
    if cart == [] then 0.0 else Total(cart[..|cart| - 1]) + Amount(cart[|cart| - 1])
  }

  /** The total of a cart with one more line is the old total plus that line's amount. */
  lemma TotalAppend(cart: seq<LineItem>, l: LineItem)
    ensures Total(cart + [l]) == Total(cart) + Amount(l)
  {
    assert (cart + [l])[..|cart|] == cart;
  }

  /** Replacing one line changes the total by the difference of the two amounts. */
  lemma {:induction false} TotalReplace(cart: seq<LineItem>, k: int, l: LineItem)
    requires 0 <= k < |cart|
    ensures Total(cart[k := l]) == Total(cart) - Amount(cart[k]) + Amount(l)
  {
    var n := |cart| - 1;
    var c := cart[k := l];
    if k == n {
      assert c[..n] == cart[..n];
    } else {
      assert c[..n] == cart[..n][k := l];
      TotalReplace(cart[..n], k, l);
    }
  }

  /** With non-negative prices and quantities the total is never negative. */
  lemma {:induction false} TotalNonNegative(cart: seq<LineItem>)
    requires forall i :: 0 <= i < |cart| ==> cart[i].price >= 0.0 && cart[i].quantity >= 0
    ensures Total(cart) >= 0.0
  {
    if cart != [] {
      TotalNonNegative(cart[..|cart| - 1]);
    }
  }

  /** With one line per id, incrementing the product's lines rewrites just its one line. */
  lemma IncrementedOne(cart: seq<LineItem>, id: int)
    requires UniqueIds(cart) && FindLine(cart, id) >= 0
    ensures var k := FindLine(cart, id);
      Incremented(cart, id) == cart[k := cart[k].(quantity := cart[k].quantity + 1)]
  {
    var k := FindLine(cart, id);
    var r := Incremented(cart, id);
    forall i | 0 <= i < |cart| ensures r[i] == cart[k := cart[k].(quantity := cart[k].quantity + 1)][i] {
      if i != k && cart[i].id == id {
        UniqueFind(cart, i);
      }
    }
  }

  /** One more unit adds one unit price to a line's amount. */
  lemma OneMoreUnit(l: LineItem)
    ensures Amount(l.(quantity := l.quantity + 1)) == Amount(l) + l.price
  {
    calc {
      Amount(l.(quantity := l.quantity + 1));
      l.price * (l.quantity as real + 1.0);
      l.price * l.quantity as real + l.price;
    }
  }

  /** Incrementing the one line with the id adds that line's unit price to the total. */
  lemma IncrementedTotal(cart: seq<LineItem>, id: int)
    requires UniqueIds(cart) && FindLine(cart, id) >= 0
    ensures Total(Incremented(cart, id)) == Total(cart) + cart[FindLine(cart, id)].price
  {
    var k := FindLine(cart, id);
    IncrementedOne(cart, id);
    TotalReplace(cart, k, cart[k].(quantity := cart[k].quantity + 1));
    OneMoreUnit(cart[k]);
  }

  /** An accepted add raises the total by one unit price: the line's when it exists, the product's otherwise. */
  lemma AddToCartTotal(cart: seq<LineItem>, product: ProductView)
    requires UniqueIds(cart) && AddAccepted(cart, product)
    ensures var k := FindLine(cart, product.id);
      Total(AddToCart(cart, product)) == Total(cart) + (if k >= 0 then cart[k].price else product.price)
  {
    var k := FindLine(cart, product.id);
    var r := AddToCart(cart, product);
    if k >= 0 {
      assert r == Incremented(cart, product.id);
      IncrementedTotal(cart, product.id);
    } else {
      assert r == cart + [NewLine(product)];
      TotalAppend(cart, NewLine(product));
      assert Amount(NewLine(product)) == product.price;
    }
  }

  // ---------------------------------------------------------------------
  // Order number, product filter, categories

  /** The number the next order will get: one above the largest recorded number (missing counts as 0). */
  function NextOrderNumber(sales: seq<Sale>): (n: nat)
    ensures n >= 1
    ensures forall i :: 0 <= i < |sales| ==> sales[i].orderNumber < n
    ensures n == 1 || exists i :: 0 <= i < |sales| && sales[i].orderNumber == n - 1
  {
    Ledger.MaxOrderNumber(sales) + 1
  }

  /** `String(nextOrderNumber).padStart(4, '0')` */
  function FormattedOrderNumber(sales: seq<Sale>): string {
    PadStart(NatToString(NextOrderNumber(sales)), 4, '0')
  }

  /** The displayed number has at least four digits and reads back as the next order number. */
  lemma FormattedOrderNumberReadsBack(sales: seq<Sale>)
    ensures |FormattedOrderNumber(sales)| >= 4
    ensures AllDigits(FormattedOrderNumber(sales))
    ensures ParseInt(Str(FormattedOrderNumber(sales))) == Num(NextOrderNumber(sales) as real)
  {
    var n := NextOrderNumber(sales);
    PaddedDigits(n, 4);
    ParseIntPaddedRoundTrip(n, 4);
  }

  /** The grid's filter: the chosen category (or "Todos") and a case-insensitive name search. */
  predicate Shown(p: ProductView, selected: string, query: string) {
    (selected == "Todos" || p.category == selected) && Includes(ToLower(p.name), ToLower(query))
  }

  /** `products.filter(...)`: the shown products, in catalog order. */
  function FilteredProducts(products: seq<ProductView>, selected: string, query: string): (r: seq<ProductView>)
    ensures |r| <= |products|
    ensures forall p :: p in r <==> p in products && Shown(p, selected, query)
  {
    if products == [] then []
    else
      var head := if Shown(products[0], selected, query) then [products[0]] else [];
      head + FilteredProducts(products[1..], selected, query)
  }

  /** With "Todos" and an empty search every product is shown, in order. */
  lemma {:induction false} FilterShowsAll(products: seq<ProductView>)
    ensures FilteredProducts(products, "Todos", "") == products
  {
    if products != [] {
      IncludesEmpty(ToLower(products[0].name));
      FilterShowsAll(products[1..]);
    }
  }

  ghost predicate NoDuplicates(s: seq<string>) {
    forall i, j :: 0 <= i < j < |s| ==> s[i] != s[j]
  }

  /** The iteration order of `new Set(s)`: each value once, at its first occurrence. */
  function Dedup(s: seq<string>): (r: seq<string>)
    ensures NoDuplicates(r)
    ensures forall x :: x in r <==> x in s
    ensures s != [] ==> r != [] && r[0] == s[0]
  {
    if s == [] then []
    else
      var d := Dedup(s[..|s| - 1]);
      var last := s[|s| - 1];
      if last in d then d
      else
        assert s[..|s| - 1] == [] ==> s[0] == last;
        d + [last]
  }

  /** Values already unique stay as they are. */
  lemma {:induction false} DedupOfUnique(s: seq<string>)
    requires NoDuplicates(s)
    ensures Dedup(s) == s
  {
    if s != [] {
      DedupOfUnique(s[..|s| - 1]);
    }
  }

  /** Appending never moves the first occurrence of a value already present. */
  lemma FirstAtAppend(s: seq<string>, last: string, x: string)
    requires x in s
    ensures FirstAt(s + [last], x) == FirstAt(s, x)
  {
    assert (s + [last])[FirstAt(s, x)] == x;
  }

  /** The values of r appear in s, in the order of their first occurrences there. */
  ghost predicate InFirstOrder(s: seq<string>, r: seq<string>) {
    forall i, j :: 0 <= i < j < |r| ==> 0 <= FirstAt(s, r[i]) < FirstAt(s, r[j])
  }

  lemma KeepFirstOrder(init: seq<string>, last: string, d: seq<string>)
    requires InFirstOrder(init, d) && forall x :: x in d ==> x in init
    ensures InFirstOrder(init + [last], d)
  {
    forall x | x in d ensures FirstAt(init + [last], x) == FirstAt(init, x) {
      FirstAtAppend(init, last, x);
    }
  }

  lemma ExtendFirstOrder(init: seq<string>, last: string, d: seq<string>)
    requires InFirstOrder(init + [last], d) && forall x :: x in d ==> x in init
    requires last !in init
    ensures InFirstOrder(init + [last], d + [last])
  {
    var s := init + [last];
    assert FirstAt(s, last) == |init| by {
      assert s[|init|] == last;
      assert forall j :: 0 <= j < |init| ==> s[j] == init[j];
    }
    forall i | 0 <= i < |d| ensures FirstAt(s, d[i]) < |init| {
      assert d[i] in init;
      FirstAtAppend(init, last, d[i]);
    }
  }

  /** `new Set` keeps each value at its first occurrence: the values come out in the order they first appear in s. */
  lemma {:induction false} DedupOrder(s: seq<string>)
    ensures InFirstOrder(s, Dedup(s))
  {
    if s != [] {
      var init := s[..|s| - 1];
      var last := s[|s| - 1];
      var d := Dedup(init);
      DedupOrder(init);
      assert init + [last] == s;
      KeepFirstOrder(init, last, d);
      if last !in d {
        ExtendFirstOrder(init, last, d);
      }
    }
  }

  /** Later values never disturb the order of the values already seen. */
  lemma {:induction false} DedupPrefix(a: seq<string>, b: seq<string>)
    ensures Dedup(a) <= Dedup(a + b)
  {
    if b != [] {
      var b' := b[..|b| - 1];
      DedupPrefix(a, b');
      assert (a + b)[..|a + b| - 1] == a + b';
    } else {
      assert a + b == a;
    }
  }

  /**
   * `Array.from(new Set(['Todos', ...defaultCategories, ...new Set(products.map(p => p.category))]))`:
   * "Todos", then the default categories, then the products' other categories
   * in the order they first appear.
   */
  function Categories(defaults: seq<string>, products: seq<ProductView>): (r: seq<string>)
    ensures NoDuplicates(r) && r != [] && r[0] == "Todos"
    ensures Dedup(["Todos"] + defaults) <= r
    ensures forall c :: c in r <==> c == "Todos" || c in defaults || exists p :: p in products && p.category == c
  {
    var productCategories := Dedup(seq(|products|, i requires 0 <= i < |products| => products[i].category));
    DedupPrefix(["Todos"] + defaults, productCategories);
    var r := Dedup(["Todos"] + defaults + productCategories);
    assert forall c :: (exists p :: p in products && p.category == c) ==> c in productCategories by {
      forall c, p | p in products && p.category == c ensures c in productCategories {
        var i :| 0 <= i < |products| && products[i] == p;
        assert seq(|products|, i requires 0 <= i < |products| => products[i].category)[i] == c;
      }
    }
    r
  }

  // ---------------------------------------------------------------------
  // The terminal's cart state

  class Terminal {
    var cart: seq<LineItem>

    ghost predicate Valid()
      reads this
    {
      CartShaped(cart)
    }

    constructor ()
      ensures Valid() && cart == []
    {
      cart := [];
    }

    /** The add button of a product card, with the catalog's current record for it. */
    method AddProduct(product: ProductView)
      requires Valid()
      modifies this
      ensures Valid() && cart == AddToCart(old(cart), product)
    {
      AddToCartKeepsShape(cart, product);
      cart := AddToCart(cart, product);
    }

    method RemoveLine(id: int)
      requires Valid()
      modifies this
      ensures Valid() && cart == RemoveFromCart(old(cart), id)
    {
      RemoveKeepsShape(cart, id);
      cart := RemoveFromCart(cart, id);
    }

    method ChangeQuantity(id: int, delta: int)
      requires Valid()
      modifies this
      ensures Valid() && cart == UpdateQuantity(old(cart), id, delta)
    {
      UpdateQuantityKeepsShape(cart, id, delta);
      cart := UpdateQuantity(cart, id, delta);
    }

    /**
     * `handlePayment`: with no payments, reading the first payment's method
     * throws before anything is sent, and the cart stays. Otherwise the body
     * sent to the sales endpoint carries the cart and its total together with
     * the modal's payments, and once the sale is saved the cart is emptied.
     */
    method CompletePayment(payments: seq<PaymentEntry>, totalPaid: real, change: real) returns (data: Option<SaleData>)
      requires Valid()
      modifies this
      ensures Valid()
      ensures payments == [] ==> data.None? && cart == old(cart)
      ensures payments != [] ==> data == Some(SaleData(Some(old(cart)), Total(old(cart)), totalPaid, change, payments))
      ensures payments != [] ==> cart == []
    {
      if payments == [] {
        return None;
      }
      data := Some(SaleData(Some(cart), Total(cart), totalPaid, change, payments));
      cart := [];
    }
  }
}
