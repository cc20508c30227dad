/** services/invoice.service.js: issuing an invoice for a completed order,
    amending what was paid, deleting an invoice and recording a payment,
    each as one transaction that also moves the customer's balance by the
    change in what the customer still owes. */
module Invoices {
  import opened Wrappers
  import opened JsValues
  import opened SalesStore

  datatype InvoiceError =
    | OrderMissing
    | OrderNotCompleted
    | AlreadyInvoiced
    | PaidExceedsTotal
    | InvoiceNotFound
    | LinkedOrderNotFound
    | PaidAboveTotal
    | PaymentNotPositive
    | PaymentExceedsTotal
  {
    /** The `statusCode` the service attaches. The create and add-payment
        checks throw errors without one, which middlewares/error.middleware.js
        would answer with 500. */
    function Status(): nat {
      match this
      case InvoiceNotFound | LinkedOrderNotFound => 404
      case PaidAboveTotal => 400
      case OrderMissing | OrderNotCompleted | AlreadyInvoiced | PaidExceedsTotal
         | PaymentNotPositive | PaymentExceedsTotal => 500
    }
  }

  /** An invoice whose remaining amount is its total less what was paid. */
  predicate Settled(x: Invoice) {
    x.remainingAmount == x.totalAmount - x.paidAmount
  }

  /** Every customer's balance less outstanding is as it was. */
  predicate LedgerKept(customers: map<nat, Customer>, invoices: seq<Invoice>,
                       customers': map<nat, Customer>, invoices': seq<Invoice>)
  {
    && customers'.Keys == customers.Keys
    && forall c :: c in customers ==> (c in customers' &&
         Discrepancy(customers', invoices', c) == Discrepancy(customers, invoices, c))
  }

  /** Replacing an invoice and crediting its customer by `delta` moves that
      customer's balance less outstanding by `delta` less the change in
      what the invoice owes; other customers are untouched. */
  lemma {:induction false} ReplaceShiftsLedger(customers: map<nat, Customer>, invoices: seq<Invoice>, i: nat, y: Invoice,
                                               delta: real, c: nat)
    requires i < |invoices| && y.customerId == invoices[i].customerId
    requires invoices[i].customerId in customers && c in customers
    ensures Discrepancy(Credit(customers, y.customerId, delta), invoices[i := y], c)
      == Discrepancy(customers, invoices, c)
         + (if c == y.customerId then delta - (y.remainingAmount - invoices[i].remainingAmount) else 0.0)
  {
    OutstandingUpdate(invoices, i, y, c);
  }

  /** A new invoice together with a credit of its remaining amount keeps
      every customer's balance less outstanding. */
  lemma {:induction false} AppendKeepsLedger(customers: map<nat, Customer>, invoices: seq<Invoice>, x: Invoice, c: nat)
    requires x.customerId in customers && c in customers
    ensures Discrepancy(Credit(customers, x.customerId, x.remainingAmount), invoices + [x], c)
      == Discrepancy(customers, invoices, c)
  {
    OutstandingAppend(invoices, x, c);
  }

  /** Removing an invoice together with a debit of its remaining amount
      keeps every customer's balance less outstanding. */
  lemma {:induction false} RemoveKeepsLedger(customers: map<nat, Customer>, invoices: seq<Invoice>, i: nat)
    requires i < |invoices| && invoices[i].customerId in customers
    ensures LedgerKept(customers, invoices,
                       Credit(customers, invoices[i].customerId, -invoices[i].remainingAmount), invoices[..i] + invoices[i + 1..])
  {
    forall c | c in customers
      ensures Discrepancy(Credit(customers, invoices[i].customerId, -invoices[i].remainingAmount), invoices[..i] + invoices[i + 1..], c)
        == Discrepancy(customers, invoices, c)
    {
      OutstandingRemove(invoices, i, c);
    }
  }

  /** `Number(data.paid_amount) || 0`, with `None` for an absent or
      non-numeric amount. */
  function PaidOrZero(paid: Option<real>): real {
    if paid.None? then 0.0 else paid.value
  }

  /** The failure `createInvoice` meets first (lines 65-75). */
  function CreateFailure(orders: map<nat, Order>, invoices: seq<Invoice>, orderId: nat, paid: Option<real>)
    : (f: Option<InvoiceError>)
    ensures f == Some(OrderMissing) <==> orderId !in orders
    ensures f == Some(OrderNotCompleted) <==> orderId in orders && orders[orderId].status != COMPLETED
    ensures f == Some(AlreadyInvoiced) <==> orderId in orders && orders[orderId].status == COMPLETED && HasInvoice(invoices, orderId)
    ensures f.None? <==> (orderId in orders && orders[orderId].status == COMPLETED && !HasInvoice(invoices, orderId)
      && PaidOrZero(paid) <= orders[orderId].totalAmount)
    ensures f == Some(PaidExceedsTotal) <==> (orderId in orders && orders[orderId].status == COMPLETED
      && !HasInvoice(invoices, orderId) && PaidOrZero(paid) > orders[orderId].totalAmount)
    ensures f.Some? ==> f.value.Status() == 500
  {
    if orderId !in orders then Some(OrderMissing)
    else if orders[orderId].status != COMPLETED then Some(OrderNotCompleted)
    else if HasInvoice(invoices, orderId) then Some(AlreadyInvoiced)
    else if PaidOrZero(paid) > orders[orderId].totalAmount then Some(PaidExceedsTotal)
    else None
  }

  /** `createInvoice`: the invoice copies the order's total and customer,
      remaining is total less paid, and the customer's balance rises by the
      remaining amount when that is positive. */
  method CreateInvoice(db: SalesDb, orderId: nat, paid: Option<real>, notes: Option<string>, userId: nat)
    returns (r: Result<Invoice, InvoiceError>)
    requires db.Valid()
    modifies db
    ensures db.Valid()
    ensures var f := CreateFailure(old(db.orders), old(db.invoices), orderId, paid);
      && (f.Some? ==> r == Err(f.value) && unchanged(db))
      && (f.None? ==> r.Ok?)
    ensures r.Ok? ==>
      var o := old(db.orders)[orderId];
      var remaining := o.totalAmount - PaidOrZero(paid);
      && r.value == Invoice(old(db.nextInvoiceId), orderId, o.customerId, o.totalAmount, PaidOrZero(paid),
                            remaining, userId, OrNull(notes))
      && Settled(r.value) && 0.0 <= remaining
      && (PaidOrZero(paid) >= 0.0 ==> remaining <= o.totalAmount)
      && db.invoices == old(db.invoices) + [r.value]
      && db.customers == (if remaining > 0.0 then Credit(old(db.customers), o.customerId, remaining) else old(db.customers))
      && db.orders == old(db.orders) && db.orderItems == old(db.orderItems)
    ensures LedgerKept(old(db.customers), old(db.invoices), db.customers, db.invoices)
  {
    var f := CreateFailure(db.orders, db.invoices, orderId, paid);
    if f.Some? {
      return Err(f.value);
    }
    var order := db.orders[orderId];
    var total := order.totalAmount;
    var paidAmount := PaidOrZero(paid);
    var remaining := total - paidAmount;
    var x := Invoice(db.nextInvoiceId, orderId, order.customerId, total, paidAmount, remaining, userId, OrNull(notes));
    ghost var customers, invoices := db.customers, db.invoices;
    db.invoices := db.invoices + [x];
    db.nextInvoiceId := db.nextInvoiceId + 1;
    if remaining > 0.0 {
      db.CreditCustomer(order.customerId, remaining);
    }
    forall c | c in customers
      ensures Discrepancy(db.customers, db.invoices, c) == Discrepancy(customers, invoices, c)
    {
      AppendKeepsLedger(customers, invoices, x, c);
      if remaining <= 0.0 {
        assert Credit(customers, x.customerId, x.remainingAmount) == customers;
      }
    }
    r := Ok(x);
  }

  /** `getInvoiceById` (lines 49-59). */
  function GetInvoiceById(invoices: seq<Invoice>, invoiceId: nat): (r: Result<Invoice, InvoiceError>)
    ensures r.Ok? <==> FindInvoice(invoices, invoiceId).Some?
    ensures r.Ok? ==> r.value in invoices && r.value.id == invoiceId
    ensures r.Err? ==> r.error == InvoiceNotFound
  {
    match FindInvoice(invoices, invoiceId)
    case None => Err(InvoiceNotFound)
    case Some(i) => Ok(invoices[i])
  }

  /** The invoice after `updateInvoice` (lines 123-145): paid becomes the
      new amount or stays, remaining is the ORDER's total less paid, and
      the invoice's own total is not touched. */
  function Amended(x: Invoice, orderTotal: real, paid: Option<real>, notes: Option<string>): (y: Invoice)
    ensures y.id == x.id && y.customerId == x.customerId && y.orderId == x.orderId && y.totalAmount == x.totalAmount
    ensures y.paidAmount == (if paid.Some? then paid.value else x.paidAmount)
    ensures y.remainingAmount == orderTotal - y.paidAmount
  {
    var newPaid := if paid.Some? then paid.value else x.paidAmount;
    x.(paidAmount := newPaid, remainingAmount := orderTotal - newPaid,
       notes := if notes.Some? then notes else x.notes)
  }

  /** `updateInvoice`: 404 for a missing invoice or order, 400 when the new
      paid amount exceeds the order's total; otherwise the invoice is
      amended and its customer's balance moves by the change in remaining. */
  method UpdateInvoice(db: SalesDb, invoiceId: nat, paid: Option<real>, notes: Option<string>)
    returns (r: Result<Invoice, InvoiceError>)
    requires db.Valid()
    modifies db
    ensures db.Valid()
    ensures FindInvoice(old(db.invoices), invoiceId).None? ==> r == Err(InvoiceNotFound)
    ensures r.Err? ==> unchanged(db)
    ensures r.Ok? ==>
      var i := FindInvoice(old(db.invoices), invoiceId).value;
      var x := old(db.invoices)[i];
      var total := old(db.orders)[x.orderId].totalAmount;
      && r.value == Amended(x, total, paid, notes)
      && r.value.paidAmount <= total
      && db.invoices == old(db.invoices)[i := r.value]
      && db.customers == Credit(old(db.customers), x.customerId, r.value.remainingAmount - x.remainingAmount)
      && db.orders == old(db.orders) && db.orderItems == old(db.orderItems)
    ensures FindInvoice(old(db.invoices), invoiceId).Some? ==>
      var x := old(db.invoices)[FindInvoice(old(db.invoices), invoiceId).value];
      && (x.orderId !in old(db.orders) ==> r == Err(LinkedOrderNotFound))
      && (x.orderId in old(db.orders) ==>
            (r.Ok? <==> (if paid.Some? then paid.value else x.paidAmount) <= old(db.orders)[x.orderId].totalAmount))
      && (r.Err? && x.orderId in old(db.orders) ==> r == Err(PaidAboveTotal))
    ensures LedgerKept(old(db.customers), old(db.invoices), db.customers, db.invoices)
  {
    var found := GetInvoiceById(db.invoices, invoiceId);
    if found.Err? {
      return Err(found.error);
    }
    var i := FindInvoice(db.invoices, invoiceId).value;
    var x := db.invoices[i];
    if x.orderId !in db.orders {
      return Err(LinkedOrderNotFound);
    }
    var total := db.orders[x.orderId].totalAmount;
    var newPaid := if paid.Some? then paid.value else x.paidAmount;
    if newPaid > total {
      return Err(PaidAboveTotal);
    }
    var y := Amended(x, total, paid, notes);
    ReplaceInvoiceAt(db, i, y);
    r := Ok(y);
  }

  /** The transaction of `updateInvoice`: invoice `i` is replaced by `y` and
      its customer's balance moves by the change in the remaining amount
      (when there is one). */
  method ReplaceInvoiceAt(db: SalesDb, i: nat, y: Invoice)
    requires db.Valid() && i < |db.invoices|
    requires y.id == db.invoices[i].id && y.orderId == db.invoices[i].orderId && y.customerId == db.invoices[i].customerId
    modifies db
    ensures db.Valid()
    ensures var x := old(db.invoices)[i];
      && db.invoices == old(db.invoices)[i := y]
      && db.customers == Credit(old(db.customers), x.customerId, y.remainingAmount - x.remainingAmount)
      && db.orders == old(db.orders) && db.orderItems == old(db.orderItems)
    ensures LedgerKept(old(db.customers), old(db.invoices), db.customers, db.invoices)
  {
    var x := db.invoices[i];
    var delta := y.remainingAmount - x.remainingAmount;
    ghost var customers, invoices := db.customers, db.invoices;
    db.ReplaceInvoice(i, y);
    if delta != 0.0 {
      db.CreditCustomer(x.customerId, delta);
    } else {
      CreditZero(customers, x.customerId, delta);
    }
    forall c | c in customers
      ensures Discrepancy(db.customers, db.invoices, c) == Discrepancy(customers, invoices, c)
    {
      ReplaceShiftsLedger(customers, invoices, i, y, delta, c);
    }
  }

  /** An amended invoice stays settled exactly when the order's total is
      still the invoice's own total: `updateInvoice` reads the order but
      never copies its total into the invoice. */
  lemma AmendedSettledIff(x: Invoice, orderTotal: real, paid: Option<real>, notes: Option<string>)
    ensures Settled(Amended(x, orderTotal, paid, notes)) <==> orderTotal == x.totalAmount
  {
  }

  /** `deleteInvoice`: 404 for a missing invoice; otherwise the customer's
      balance drops by the invoice's remaining amount and the invoice goes. */
  method DeleteInvoice(db: SalesDb, invoiceId: nat) returns (r: Result<(), InvoiceError>)
    requires db.Valid()
    modifies db
    ensures db.Valid()
    ensures r.Err? <==> FindInvoice(old(db.invoices), invoiceId).None?
    ensures r.Err? ==> r == Err(InvoiceNotFound) && unchanged(db)
    ensures r.Ok? ==>
      var i := FindInvoice(old(db.invoices), invoiceId).value;
      var x := old(db.invoices)[i];
      && db.invoices == old(db.invoices)[..i] + old(db.invoices)[i + 1..]
      && db.customers == Credit(old(db.customers), x.customerId, -x.remainingAmount)
      && db.orders == old(db.orders) && db.orderItems == old(db.orderItems)
    ensures LedgerKept(old(db.customers), old(db.invoices), db.customers, db.invoices)
  {
    var found := GetInvoiceById(db.invoices, invoiceId);
    if found.Err? {
      return Err(found.error);
    }
    var i := FindInvoice(db.invoices, invoiceId).value;
    RemoveInvoiceAt(db, i);
    r := Ok(());
  }

  /** The transaction of `deleteInvoice`: the customer's balance drops by
      the invoice's remaining amount (when it is not zero) and invoice `i`
      is deleted. */
  method RemoveInvoiceAt(db: SalesDb, i: nat)
    requires db.Valid() && i < |db.invoices|
    modifies db
    ensures db.Valid()
    ensures var x := old(db.invoices)[i];
      && db.invoices == old(db.invoices)[..i] + old(db.invoices)[i + 1..]
      && db.customers == Credit(old(db.customers), x.customerId, -x.remainingAmount)
      && db.orders == old(db.orders) && db.orderItems == old(db.orderItems)
    ensures LedgerKept(old(db.customers), old(db.invoices), db.customers, db.invoices)
  {
    var x := db.invoices[i];
    RemoveKeepsLedger(db.customers, db.invoices, i);
    if x.remainingAmount != 0.0 {
      db.CreditCustomer(x.customerId, -x.remainingAmount);
    } else {
      CreditZero(db.customers, x.customerId, -x.remainingAmount);
    }
    db.RemoveInvoice(i);
  }

  /** The failure `addPayment` meets first (lines 197-207). */
  function PaymentFailure(invoices: seq<Invoice>, invoiceId: nat, amount: real): (f: Option<InvoiceError>)
    ensures f == Some(InvoiceNotFound) <==> FindInvoice(invoices, invoiceId).None?
    ensures f == Some(PaymentNotPositive) <==> FindInvoice(invoices, invoiceId).Some? && amount <= 0.0
    ensures f.None? <==> (FindInvoice(invoices, invoiceId).Some? && amount > 0.0
      && invoices[FindInvoice(invoices, invoiceId).value].paidAmount + amount
         <= invoices[FindInvoice(invoices, invoiceId).value].totalAmount)
    ensures f == Some(PaymentExceedsTotal) <==> (FindInvoice(invoices, invoiceId).Some? && amount > 0.0
      && invoices[FindInvoice(invoices, invoiceId).value].paidAmount + amount
         > invoices[FindInvoice(invoices, invoiceId).value].totalAmount)
    ensures f.Some? && f.value != InvoiceNotFound ==> f.value.Status() == 500
  {
    match FindInvoice(invoices, invoiceId)
    case None => Some(InvoiceNotFound)
    case Some(i) =>
      if amount <= 0.0 then Some(PaymentNotPositive)
      else if invoices[i].paidAmount + amount > invoices[i].totalAmount then Some(PaymentExceedsTotal)
      else None
  }

  /** `addPayment`: paid grows by the amount, remaining is recomputed from
      the invoice's own total, and the customer's balance drops by the
      amount. Balance less outstanding moves by how far the invoice was
      from settled beforehand, so it is kept exactly when it was settled. */
  method AddPayment(db: SalesDb, invoiceId: nat, amount: real) returns (r: Result<Invoice, InvoiceError>)
    requires db.Valid()
    modifies db
    ensures db.Valid()
    ensures var f := PaymentFailure(old(db.invoices), invoiceId, amount);
      && (f.Some? ==> r == Err(f.value) && unchanged(db))
      && (f.None? ==> r.Ok?)
    ensures r.Ok? ==>
      var i := FindInvoice(old(db.invoices), invoiceId).value;
      var x := old(db.invoices)[i];
      && r.value == x.(paidAmount := x.paidAmount + amount, remainingAmount := x.totalAmount - (x.paidAmount + amount))
      && Settled(r.value) && r.value.remainingAmount >= 0.0
      && db.invoices == old(db.invoices)[i := r.value]
      && db.customers == Credit(old(db.customers), x.customerId, -amount)
      && db.orders == old(db.orders) && db.orderItems == old(db.orderItems)
      && db.customers.Keys == old(db.customers).Keys
      && (forall c :: c in old(db.customers) ==>
            Discrepancy(db.customers, db.invoices, c) == Discrepancy(old(db.customers), old(db.invoices), c)
              + (if c == x.customerId then x.remainingAmount - (x.totalAmount - x.paidAmount) else 0.0))
    ensures r.Ok? && Settled(old(db.invoices)[FindInvoice(old(db.invoices), invoiceId).value]) ==>
      LedgerKept(old(db.customers), old(db.invoices), db.customers, db.invoices)
  {
    var found := GetInvoiceById(db.invoices, invoiceId);
    if found.Err? {
      return Err(found.error);
    }
    if amount <= 0.0 {
      return Err(PaymentNotPositive);
    }
    var i := FindInvoice(db.invoices, invoiceId).value;
    var x := db.invoices[i];
    var newPaid := x.paidAmount + amount;
    if newPaid > x.totalAmount {
      return Err(PaymentExceedsTotal);
    }
    var y := x.(paidAmount := newPaid, remainingAmount := x.totalAmount - newPaid);
    ghost var customers, invoices := db.customers, db.invoices;
    db.ReplaceInvoice(i, y);
    db.CreditCustomer(x.customerId, -amount);
    forall c | c in customers
      ensures Discrepancy(db.customers, db.invoices, c) == Discrepancy(customers, invoices, c)
        + (if c == x.customerId then x.remainingAmount - (x.totalAmount - x.paidAmount) else 0.0)
    {
      ReplaceShiftsLedger(customers, invoices, i, y, -amount, c);
    }
    r := Ok(y);
  }
}
