/**
 * The sales history page: the period filter over the ledger, the period's
 * total, and how each row labels its order number and payment method.
 * The clock readings the page takes (now, the start of today, the start of
 * the last seven days, the start of the month) are parameters.
 */
module SalesPage {
  import opened Js
  import opened Records
  import Reports
  import Payments

  /** The clock readings the filter compares against, as timestamps. */
  datatype Clock = Clock(now: int, startOfDay: int, startOfWeek: int, startOfMonth: int)

  /**
   * The custom date inputs: None for an empty input. A given end is the
   * timestamp of 23:59:59 on that day.
   */
  datatype CustomRange = CustomRange(start: Option<int>, end: Option<int>)

  /** Whether a sale dated `date` passes the period filter. */
  predicate Keep(date: int, period: string, clock: Clock, range: CustomRange) {
    if period == "today" then date >= clock.startOfDay
    else if period == "week" then date >= clock.startOfWeek
    else if period == "month" then date >= clock.startOfMonth
    else if period == "custom" then
      range.start.None? ||
      (var end := if range.end.Some? then range.end.value else clock.now;
       range.start.value <= date <= end)
    else true
  }

  /** `sales.filter(...)`: the sales of the period, in ledger order. */
  function FilteredSales(sales: seq<Sale>, period: string, clock: Clock, range: CustomRange): (r: seq<Sale>)
    ensures |r| <= |sales|
    ensures forall s :: s in r <==> s in sales && Keep(s.date, period, clock, range)
  {
    if sales == [] then []
    else
      var head := if Keep(sales[0].date, period, clock, range) then [sales[0]] else [];
      head + FilteredSales(sales[1..], period, clock, range)
  }

  /** A filter that keeps every date keeps the whole list, in order. */
  lemma {:induction false} FilterKeepsAll(sales: seq<Sale>, period: string, clock: Clock, range: CustomRange)
    requires forall i :: 0 <= i < |sales| ==> Keep(sales[i].date, period, clock, range)
    ensures FilteredSales(sales, period, clock, range) == sales
  {
    if sales != [] {
      FilterKeepsAll(sales[1..], period, clock, range);
    }
  }

  /** In custom mode without a start date, and for an unknown period, every sale is listed. */
  lemma NoStartKeepsAll(sales: seq<Sale>, period: string, clock: Clock, range: CustomRange)
    requires (period == "custom" && range.start.None?) ||
             (period != "today" && period != "week" && period != "month" && period != "custom")
    ensures FilteredSales(sales, period, clock, range) == sales
  {
    FilterKeepsAll(sales, period, clock, range);
  }

  /** In custom mode with a start date, a sale is listed exactly when it falls in the range, both ends included. */
  lemma CustomRangeInclusive(s: Sale, sales: seq<Sale>, clock: Clock, start: int, end: Option<int>)
    requires s in sales
    ensures var last := if end.Some? then end.value else clock.now;
      s in FilteredSales(sales, "custom", clock, CustomRange(Some(start), end)) <==> start <= s.date <= last
  {
  }

  /** The "Ventas Totales" card: the totals of the listed sales that are not void. */
  function TotalSales(filtered: seq<Sale>): real {
    Reports.Revenue(Reports.NonVoid(filtered))
  }

  /** Over the whole ledger, the page's total is the revenue on the reports page. */
  lemma TotalSalesMatchesReports(sales: seq<Sale>, clock: Clock)
    ensures TotalSales(FilteredSales(sales, "custom", clock, CustomRange(None, None))) ==
            Reports.KpisOf(Reports.NonVoid(sales)).total
  {
    NoStartKeepsAll(sales, "custom", clock, CustomRange(None, None));
  }

  /** Voided sales are listed but never counted in the total. */
  lemma VoidNotCounted(filtered: seq<Sale>, s: Sale)
    requires s.status == Voided
    ensures TotalSales(filtered + [s]) == TotalSales(filtered)
  {
    Reports.RevenueOfNewSale(filtered, s);
  }

  /** The order cell: `#` and the number padded to four digits, or the first eight characters of the id. */
  function OrderLabel(s: Sale): string {
    if s.orderNumber != 0 then "#" + PadStart(NatToString(s.orderNumber), 4, '0')
    else Prefix(s.id, 8)
  }

  /** A numbered sale's label is `#` and at least four digits that read back as its number; any other label is a prefix of the id. */
  lemma OrderLabelReadsBack(s: Sale)
    ensures s.orderNumber != 0 ==>
      var l := OrderLabel(s);
      |l| >= 5 && l[0] == '#' && AllDigits(l[1..]) && ParseInt(Str(l[1..])) == Num(s.orderNumber as real)
    ensures s.orderNumber == 0 ==> OrderLabel(s) == s.id[..|OrderLabel(s)|] && |OrderLabel(s)| <= 8
  {
    if s.orderNumber != 0 {
      var p := PadStart(NatToString(s.orderNumber), 4, '0');
      assert OrderLabel(s)[1..] == p;
      PaddedDigits(s.orderNumber, 4);
      ParseIntPaddedRoundTrip(s.orderNumber, 4);
    }
  }

  /**
   * The method cell as written: "Mixto (n)" for a split payment; otherwise
   * "Efectivo" only when the single payment's method is 'cash', and
   * "Tarjeta" for any other method. `payments[0]` of an empty list makes the
   * row fail (None).
   */
  function PaymentBadge(payments: seq<PaymentEntry>): (r: Option<string>)
    ensures |payments| == 0 <==> r.None?
    ensures |payments| > 1 ==> r == Some("Mixto (" + NatToString(|payments|) + ")")
    ensures |payments| == 1 ==> (r == Some("Efectivo") <==> payments[0].kind == "cash")
  {
    if |payments| > 1 then Some("Mixto (" + NatToString(|payments|) + ")")
    else if |payments| == 0 then None
    else if payments[0].kind == "cash" then Some("Efectivo")
    else Some("Tarjeta")
  }

  /**
   * The terminal records cash as "Efectivo", not 'cash', so a sale paid in
   * one cash payment at the terminal is shown as paid by card.
   */
  lemma CashBadgeShowsCard()
    ensures PaymentBadge([PaymentEntry(Payments.Cash, 10.0)]) == Some("Tarjeta")
  {
  }

  /** The method cell with the labels the terminal writes: a single payment is cash when it normalises to "Efectivo". */
  function PaymentBadgeNormalized(payments: seq<PaymentEntry>): (r: Option<string>)
    ensures |payments| == 0 <==> r.None?
    ensures |payments| > 1 ==> r == PaymentBadge(payments)
    ensures |payments| == 1 ==>
      (r == Some("Efectivo") <==> Reports.Normalize(payments[0].kind) == Reports.CashLabel)
  {
    if |payments| > 1 then PaymentBadge(payments)
    else if |payments| == 0 then None
    else if Reports.Normalize(payments[0].kind) == Reports.CashLabel then Some("Efectivo")
    else Some("Tarjeta")
  }

  /** Both the terminal's cash label and the older 'cash' show as cash; the terminal's card label and the older ones show as card. */
  lemma NormalizedBadgeAgreesWithTerminal(amount: real)
    ensures PaymentBadgeNormalized([PaymentEntry(Payments.Cash, amount)]) == Some("Efectivo")
    ensures PaymentBadgeNormalized([PaymentEntry("cash", amount)]) == Some("Efectivo")
    ensures PaymentBadgeNormalized([PaymentEntry(Payments.Card, amount)]) == Some("Tarjeta")
    ensures PaymentBadgeNormalized([PaymentEntry("card", amount)]) == Some("Tarjeta")
    ensures PaymentBadgeNormalized([PaymentEntry("Tarjeta", amount)]) == Some("Tarjeta")
  {
  }
}
