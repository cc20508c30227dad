/** The sales side of the relational store: customers with their running
    balance, orders with their items, and the invoices issued against
    orders. Also the ledger quantity the invoice service keeps balanced: a
    customer's balance against the sum of the amounts still owed on that
    customer's invoices. */
module SalesStore {
  import opened Wrappers

  const PENDING: string := "pending"
  const COMPLETED: string := "completed"

  datatype Customer = Customer(name: string, balance: real)

  datatype Order = Order(
    customerId: nat,
    salesUserId: nat,
    status: string,
    totalAmount: real,
    notes: Option<string>)

  datatype OrderItem = OrderItem(
    orderId: nat,
    typeItem: nat,
    rulerId: nat,
    batchId: nat,
    width: real,
    length: real,
    thickness: real,
    quantity: real,
    unitPrice: real,
    subtotal: real,
    notes: Option<string>)

  datatype Invoice = Invoice(
    id: nat,
    orderId: nat,
    customerId: nat,
    totalAmount: real,
    paidAmount: real,
    remainingAmount: real,
    issuedBy: nat,
    notes: Option<string>)

  /** What one invoice adds to customer `c`'s outstanding amount. */
  function Owed(x: Invoice, c: nat): real {
    if x.customerId == c then x.remainingAmount else 0.0
  }

  /** The sum of `remaining_amount` over customer `c`'s invoices. */
  function Outstanding(invoices: seq<Invoice>, c: nat): real {
    if invoices == [] then 0.0
    else Outstanding(invoices[..|invoices| - 1], c) + Owed(invoices[|invoices| - 1], c)
  }

  /** Balance minus outstanding: the quantity the ledger operations keep. */
  function Discrepancy(customers: map<nat, Customer>, invoices: seq<Invoice>, c: nat): real
    requires c in customers
  {
    customers[c].balance - Outstanding(invoices, c)
  }

  /** A new invoice adds its remaining amount to its own customer only. */
  lemma OutstandingAppend(invoices: seq<Invoice>, x: Invoice, c: nat)
    ensures Outstanding(invoices + [x], c) == Outstanding(invoices, c) + Owed(x, c)
  {
    assert (invoices + [x])[..|invoices|] == invoices;
  }

  /** Replacing one invoice changes the sum by the difference of the two. */
  lemma {:induction false} OutstandingUpdate(invoices: seq<Invoice>, i: nat, x: Invoice, c: nat)
    requires i < |invoices|
    ensures Outstanding(invoices[i := x], c) == Outstanding(invoices, c) - Owed(invoices[i], c) + Owed(x, c)
  {
    var n := |invoices| - 1;
    if i < n {
      OutstandingUpdate(invoices[..n], i, x, c);
      assert invoices[i := x][..n] == invoices[..n][i := x];
    } else {
      assert invoices[i := x][..n] == invoices[..n];
    }
  }

  /** Removing one invoice subtracts what it owed. */
  lemma {:induction false} OutstandingRemove(invoices: seq<Invoice>, i: nat, c: nat)
    requires i < |invoices|
    ensures Outstanding(invoices[..i] + invoices[i + 1..], c) == Outstanding(invoices, c) - Owed(invoices[i], c)
  {
    var n := |invoices| - 1;
    if i < n {
      OutstandingRemove(invoices[..n], i, c);
      assert invoices[..n][..i] == invoices[..i];
      assert invoices[..i] + invoices[i + 1..] == (invoices[..n][..i] + invoices[..n][i + 1..]) + [invoices[n]];
      OutstandingAppend(invoices[..n][..i] + invoices[..n][i + 1..], invoices[n], c);
    } else {
      assert invoices[..i] + invoices[i + 1..] == invoices[..n];
    }
  }

  /** The index of the invoice with id `id`, if there is one. */
  function FindInvoice(invoices: seq<Invoice>, id: nat): (r: Option<nat>)
    ensures r.Some? ==> r.value < |invoices| && invoices[r.value].id == id
    ensures r.None? ==> forall i :: 0 <= i < |invoices| ==> invoices[i].id != id
  {
    if invoices == [] then None
    else if invoices[|invoices| - 1].id == id then Some(|invoices| - 1)
    else FindInvoice(invoices[..|invoices| - 1], id)
  }

  /** Whether an invoice was issued against order `orderId`. */
  predicate HasInvoice(invoices: seq<Invoice>, orderId: nat) {
    exists i :: 0 <= i < |invoices| && invoices[i].orderId == orderId
  }

  /** The items of every order but `orderId`, in their stored order. */
  function ItemsNotOf(items: seq<OrderItem>, orderId: nat): (r: seq<OrderItem>)
    ensures forall x :: x in r <==> x in items && x.orderId != orderId
  {
    if items == [] then []
    else
      var rest := ItemsNotOf(items[..|items| - 1], orderId);
      var x := items[|items| - 1];
      assert items == items[..|items| - 1] + [x];
      if x.orderId == orderId then rest else rest + [x]
  }

  /** `customer.balance += delta` on one customer. */
  function Credit(customers: map<nat, Customer>, c: nat, delta: real): (m: map<nat, Customer>)
    requires c in customers
    ensures m.Keys == customers.Keys
    ensures m[c].balance == customers[c].balance + delta
    ensures forall d :: d in customers && d != c ==> m[d] == customers[d]
  {
    customers[c := customers[c].(balance := customers[c].balance + delta)]
  }

  /** A zero increment changes nothing. */
  lemma CreditZero(customers: map<nat, Customer>, c: nat, delta: real)
    requires c in customers && delta == 0.0
    ensures Credit(customers, c, delta) == customers
  {
    assert customers[c].(balance := customers[c].balance) == customers[c];
  }

  class SalesDb {
    var customers: map<nat, Customer>
    var orders: map<nat, Order>
    var orderItems: seq<OrderItem>
    var invoices: seq<Invoice>
    var nextOrderId: nat
    var nextInvoiceId: nat

    /** Keys are fresh and increasing and every reference resolves: an
        order's customer, an item's order, an invoice's order and customer. */
    ghost predicate Valid()
      reads this
    {
      && (forall id :: id in orders ==> id < nextOrderId && orders[id].customerId in customers)
      && (forall i :: 0 <= i < |orderItems| ==> orderItems[i].orderId in orders)
      && (forall i, j :: 0 <= i < j < |invoices| ==> invoices[i].id < invoices[j].id)
      && (forall i :: 0 <= i < |invoices| ==>
            invoices[i].id < nextInvoiceId && invoices[i].orderId in orders && invoices[i].customerId in customers)
    }

    constructor ()
      ensures Valid()
      ensures customers == map[] && orders == map[] && orderItems == [] && invoices == []
    {
      customers, orders, orderItems, invoices := map[], map[], [], [];
      nextOrderId, nextInvoiceId := 1, 1;
    }

    /** `invoice.update`: a record with the same keys replaces invoice `i`. */
    method ReplaceInvoice(i: nat, y: Invoice)
      requires Valid() && i < |invoices|
      requires y.id == invoices[i].id && y.orderId == invoices[i].orderId && y.customerId == invoices[i].customerId
      modifies this
      ensures Valid()
      ensures invoices == old(invoices)[i := y]
      ensures customers == old(customers) && orders == old(orders) && orderItems == old(orderItems)
      ensures nextOrderId == old(nextOrderId) && nextInvoiceId == old(nextInvoiceId)
    {
      invoices := invoices[i := y];
      forall k | 0 <= k < |invoices|
        ensures invoices[k].id < nextInvoiceId && invoices[k].orderId in orders && invoices[k].customerId in customers
      {
        assert k != i ==> invoices[k] == old(invoices)[k];
      }
    }

    /** `invoice.delete`: invoice `i` goes, the rest keep their order. */
    method RemoveInvoice(i: nat)
      requires Valid() && i < |invoices|
      modifies this
      ensures Valid()
      ensures invoices == old(invoices)[..i] + old(invoices)[i + 1..]
      ensures customers == old(customers) && orders == old(orders) && orderItems == old(orderItems)
      ensures nextOrderId == old(nextOrderId) && nextInvoiceId == old(nextInvoiceId)
    {
      var rest := invoices[..i] + invoices[i + 1..];
      forall a, b | 0 <= a < b < |rest|
        ensures rest[a].id < rest[b].id
      {
        var a', b' := if a < i then a else a + 1, if b < i then b else b + 1;
        assert rest[a] == invoices[a'] && rest[b] == invoices[b'];
      }
      forall a | 0 <= a < |rest|
        ensures rest[a].id < nextInvoiceId && rest[a].orderId in orders && rest[a].customerId in customers
      {
        var a' := if a < i then a else a + 1;
        assert rest[a] == invoices[a'];
      }
      invoices := rest;
    }

    /** `customer.update({ balance: { increment: delta } })`. */
    method CreditCustomer(c: nat, delta: real)
      requires Valid() && c in customers
      modifies this
      ensures Valid()
      ensures customers == Credit(old(customers), c, delta)
      ensures invoices == old(invoices) && orders == old(orders) && orderItems == old(orderItems)
      ensures nextOrderId == old(nextOrderId) && nextInvoiceId == old(nextInvoiceId)
    {
      customers := Credit(customers, c, delta);
    }
  }
}
