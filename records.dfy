/**
 * Records shared by the terminal, the sales API and the report pages:
 * cart lines (which a sale stores as its item snapshots), payments and sales.
 */
module Records {

  datatype Option<T> = None | Some(value: T)

  /**
   * A cart line: the product's fields copied when it was first added to the
   * cart, plus a quantity. A committed sale keeps these lines as its items,
   * so later catalog edits do not reach it. An empty category stands for a
   * missing one.
   */
  datatype LineItem = LineItem(id: int, name: string, price: real, category: string, stock: int, quantity: int)

  /** One tender of a (possibly split) payment; `kind` is the `method` field, a display label. */
  datatype PaymentEntry = PaymentEntry(kind: string, amount: real)

  /**
   * The body of POST /api/sales as the terminal builds it. `items` is None
   * when the body carries no array under that name.
   */
  datatype SaleData = SaleData(
    items: Option<seq<LineItem>>,
    total: real,
    totalPaid: real,
    change: real,
    payments: seq<PaymentEntry>)

  /**
   * A recorded sale: the request body plus the fields the ledger assigns.
   * `orderNumber` 0 stands for a sale without one; `date` is a timestamp.
   */
  datatype Sale = Sale(
    id: string,
    orderNumber: nat,
    date: int,
    status: string,
    items: Option<seq<LineItem>>,
    total: real,
    totalPaid: real,
    change: real,
    payments: seq<PaymentEntry>)

  const Completed: string := "COMPLETED"
  const Voided: string := "VOID"

  function Max(a: real, b: real): real { if a >= b then a else b }

  /** What a line contributes to a total: `price * quantity`. */
  function Amount(l: LineItem): real { l.price * l.quantity as real }
}
