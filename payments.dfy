/**
 * The payment dialog (PaymentModal): split payments against a sale total.
 * Cash may overpay and produces change; a card payment may not exceed what
 * is still owed by more than the tolerance. The sale can be confirmed once
 * what is owed is within the tolerance.
 */
module Payments {
  import opened Js
  import opened Records

  /** The rounding tolerance the dialog allows, one cent. */
  const Tolerance: real := 0.01

  const Cash: string := "Efectivo"
  const Card: string := "Tarjetas"

  /** `payments.reduce((sum, p) => sum + p.amount, 0)` */
  function TotalPaid(ps: seq<PaymentEntry>): real {
    if ps == [] then 0.0 else TotalPaid(ps[..|ps| - 1]) + ps[|ps| - 1].amount
  }

  /** The sum of a concatenation is the sum of the parts. */
  lemma {:induction false} TotalPaidAppend(a: seq<PaymentEntry>, b: seq<PaymentEntry>)
    ensures TotalPaid(a + b) == TotalPaid(a) + TotalPaid(b)
  {
    if b == [] {
      assert a + b == a;
    } else {
      assert (a + b)[..|a + b| - 1] == a + b[..|b| - 1];
      TotalPaidAppend(a, b[..|b| - 1]);
    }
  }

  /** `Math.max(0, total - totalPaid)` */
  function Remaining(total: real, paid: real): real {
    Max(0.0, total - paid)
  }

  /** `Math.max(0, totalPaid - total)` */
  function Change(total: real, paid: real): real {
    Max(0.0, paid - total)
  }

  /** Both are never negative, at most one is positive, and together they account for the difference. */
  lemma RemainingAndChange(total: real, paid: real)
    ensures Remaining(total, paid) >= 0.0 && Change(total, paid) >= 0.0
    ensures Remaining(total, paid) == 0.0 || Change(total, paid) == 0.0
    ensures Remaining(total, paid) - Change(total, paid) == total - paid
  {
  }

  /** `remaining <= 0.01` */
  predicate IsComplete(total: real, paid: real) {
    Remaining(total, paid) <= Tolerance
  }

  /** The dialog is complete exactly when at most one cent is still owed. */
  lemma IsCompleteIff(total: real, paid: real)
    ensures IsComplete(total, paid) <==> paid >= total - Tolerance
  {
  }

  /**
   * `handleAddPayment` with the amount field's text: a text that does not
   * parse to a positive number is ignored, and so is a card amount above the
   * remaining balance plus the tolerance; otherwise the payment is appended.
   */
  function AddPayment(total: real, ps: seq<PaymentEntry>, kind: string, amountText: string): (r: seq<PaymentEntry>)
    ensures r == ps || (|r| == |ps| + 1 && r[..|ps|] == ps && r[|ps|].kind == kind && r[|ps|].amount > 0.0)
    ensures var a := ParseFloat(Str(amountText));
      r != ps <==> a.Num? && a.n > 0.0 && (kind != Card || a.n <= Remaining(total, TotalPaid(ps)) + Tolerance)
  {
    var a := ParseFloat(Str(amountText));
    if a.NaN? || a.n <= 0.0 then ps
    else if kind == Card && a.n > Remaining(total, TotalPaid(ps)) + Tolerance then ps
    else
      assert (ps + [PaymentEntry(kind, a.n)])[..|ps|] == ps;
      ps + [PaymentEntry(kind, a.n)]
  }

  /** An accepted payment adds exactly its parsed amount to what has been paid. */
  lemma AddPaymentPaid(total: real, ps: seq<PaymentEntry>, kind: string, amountText: string)
    ensures var r := AddPayment(total, ps, kind, amountText);
      r != ps ==> ParseFloat(Str(amountText)) == Num(r[|ps|].amount) &&
                  TotalPaid(r) == TotalPaid(ps) + r[|ps|].amount
  {
    var r := AddPayment(total, ps, kind, amountText);
    if r != ps {
      assert r == ps + [r[|ps|]];
      assert r[..|r| - 1] == ps;
    }
  }

  /** Amounts that do not read as a positive number never change the list. */
  lemma AddPaymentRejectsNonPositive(total: real, ps: seq<PaymentEntry>, kind: string, amountText: string)
    requires ParseFloat(Str(amountText)).NaN? || ParseFloat(Str(amountText)).n <= 0.0
    ensures AddPayment(total, ps, kind, amountText) == ps
  {
  }

  /** A card payment raises the change by at most the tolerance; in particular it cannot overpay a balance still owed. */
  lemma CardChangeBounded(total: real, ps: seq<PaymentEntry>, amountText: string)
    ensures var r := AddPayment(total, ps, Card, amountText);
      Change(total, TotalPaid(r)) <= Change(total, TotalPaid(ps)) + Tolerance
  {
    AddPaymentPaid(total, ps, Card, amountText);
  }

  /** Cash is not capped: any positive amount is accepted, whatever is owed. */
  lemma CashAlwaysAccepted(total: real, ps: seq<PaymentEntry>, amountText: string)
    requires ParseFloat(Str(amountText)).Num? && ParseFloat(Str(amountText)).n > 0.0
    ensures AddPayment(total, ps, Cash, amountText) == ps + [PaymentEntry(Cash, ParseFloat(Str(amountText)).n)]
  {
  }

  /**
   * `[...payments].splice(index, 1)`: a negative index counts from the end,
   * one below minus the length starts at 0, and an index past the end
   * removes nothing.
   */
  function RemovePayment(ps: seq<PaymentEntry>, index: int): (r: seq<PaymentEntry>)
    ensures 0 <= index < |ps| ==> r == ps[..index] + ps[index + 1..]
    ensures index >= |ps| ==> r == ps
    ensures index < 0 && |ps| + index >= 0 ==> r == ps[..|ps| + index] + ps[|ps| + index + 1..]
    ensures |ps| + index < 0 && ps != [] ==> r == ps[1..]
  {
    var start := if index >= 0 then index else if |ps| + index >= 0 then |ps| + index else 0;
    if start >= |ps| then ps else ps[..start] + ps[start + 1..]
  }

  /** Removing the i-th payment takes exactly its amount off what has been paid. */
  lemma RemovePaymentPaid(ps: seq<PaymentEntry>, i: int)
    requires 0 <= i < |ps|
    ensures TotalPaid(RemovePayment(ps, i)) == TotalPaid(ps) - ps[i].amount
  {
    var a, x, b := ps[..i], ps[i], ps[i + 1..];
    calc {
      TotalPaid(ps);
      { SplitAround(ps, i); }
      TotalPaid((a + [x]) + b);
      { SumOfThree(a, x, b); }
      TotalPaid(a + b) + x.amount;
      { assert RemovePayment(ps, i) == a + b; }
      TotalPaid(RemovePayment(ps, i)) + x.amount;
    }
  }

  /** Removing the i-th payment keeps every other payment. */
  lemma RemovePaymentKeepsOthers(ps: seq<PaymentEntry>, i: int)
    requires 0 <= i < |ps|
    ensures multiset(RemovePayment(ps, i)) + multiset{ps[i]} == multiset(ps)
  {
    var r := RemovePayment(ps, i);
    var a, x, b := ps[..i], ps[i], ps[i + 1..];
    assert ps == a + [x] + b;
    assert r == a + b;
  }

  lemma SplitAround<T>(s: seq<T>, i: int)
    requires 0 <= i < |s|
    ensures s == (s[..i] + [s[i]]) + s[i + 1..]
  {
  }

  lemma SumOfThree(a: seq<PaymentEntry>, x: PaymentEntry, b: seq<PaymentEntry>)
    ensures TotalPaid((a + [x]) + b) == TotalPaid(a + b) + x.amount
  {
    TotalPaidAppend(a + [x], b);
    TotalPaidAppend(a, b);
    assert (a + [x])[..|a|] == a;
  }

  /** Payments accepted by the dialog are all positive. */
  ghost predicate AllPositive(ps: seq<PaymentEntry>) {
    forall i :: 0 <= i < |ps| ==> ps[i].amount > 0.0
  }

  /** Adding a payment keeps every amount in the list positive. */
  lemma AddPaymentPositive(total: real, ps: seq<PaymentEntry>, kind: string, amountText: string)
    requires AllPositive(ps)
    ensures AllPositive(AddPayment(total, ps, kind, amountText))
  {
    KeepsPositive(ps, AddPayment(total, ps, kind, amountText));
  }

  lemma KeepsPositive(ps: seq<PaymentEntry>, r: seq<PaymentEntry>)
    requires AllPositive(ps)
    requires r == ps || (|r| == |ps| + 1 && r[..|ps|] == ps && r[|ps|].amount > 0.0)
    ensures AllPositive(r)
  {
    if r != ps {
      forall i | 0 <= i < |r| ensures r[i].amount > 0.0 {
        if i < |ps| {
          assert r[i] == r[..|ps|][i];
        }
      }
    }
  }

  /** The dialog's payment list for one sale. */
  class PaymentSession {
    var total: real
    var payments: seq<PaymentEntry>
    var kind: string

    ghost predicate Valid()
      reads this
    {
      AllPositive(payments)
    }

    /** Opening the dialog for a total: no payments, cash selected. */
    constructor Open(total: real)
      ensures Valid() && this.total == total && payments == [] && kind == Cash
    {
      this.total := total;
      payments := [];
      kind := Cash;
    }

    /** The dialog opening again, or its total changing while open: the payments are discarded. */
    method Reopen(newTotal: real)
      modifies this
      ensures Valid() && total == newTotal && payments == [] && kind == Cash
    {
      total := newTotal;
      payments := [];
      kind := Cash;
    }

    method SelectMethod(k: string)
      modifies this
      ensures kind == k && payments == old(payments) && total == old(total)
    {
      kind := k;
    }

    method Add(amountText: string)
      requires Valid()
      modifies this
      ensures Valid() && total == old(total) && kind == old(kind)
      ensures payments == AddPayment(total, old(payments), kind, amountText)
    {
      AddPaymentPositive(total, payments, kind, amountText);
      payments := AddPayment(total, payments, kind, amountText);
    }

    method Remove(index: int)
      requires Valid()
      modifies this
      ensures Valid() && total == old(total) && kind == old(kind)
      ensures payments == RemovePayment(old(payments), index)
    {
      var r := RemovePayment(payments, index);
      forall j | 0 <= j < |r| ensures r[j].amount > 0.0 {
        assert r[j] in payments;
      }
      payments := r;
    }

    /** The confirm button, enabled only when complete: the payments, what they add up to and the change. */
    method Confirm() returns (r: Option<(seq<PaymentEntry>, real, real)>)
      ensures r.None? <==> !IsComplete(total, TotalPaid(payments))
      ensures r.Some? ==> r.value == (payments, TotalPaid(payments), Change(total, TotalPaid(payments)))
    {
      var paid := TotalPaid(payments);
      if Remaining(total, paid) <= Tolerance {
        r := Some((payments, paid, Change(total, paid)));
      } else {
        r := None;
      }
    }
  }
}
