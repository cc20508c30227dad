/** services/order.service.js: the width → price-tier mapping, unit-price
    resolution, line subtotals and the order total, the fail-before-write
    check sequence of `createOrder`, item replacement in `updateOrder`, and
    the invoice guard of `deleteOrder`. */
module Orders {
  import opened Wrappers
  import opened JsValues
  import opened Money
  import opened Catalog
  import opened SalesStore

  datatype OrderError =
    | CustomerNotFound
    | NoItems
    | RulerNotFound(rulerId: nat)
    | BatchNotFound(batchId: nat)
    | PriceNotFound(rulerId: nat, tier: string)
    | OrderNotFound
    | HasInvoices
    | StoreRejected
  {
    /** The `statusCode` the service attaches; a store error carries none,
        and middlewares/error.middleware.js would answer it with 500. */
    function Status(): nat {
      match this
      case CustomerNotFound | RulerNotFound(_) | BatchNotFound(_) | OrderNotFound => 404
      case NoItems | PriceNotFound(_, _) | HasInvoices => 400
      case StoreRejected => 500
    }
  }

  // Price-tier keys of the price table.
  const IS_BY_METER_22: string := "isByMeter22"
  const IS_BY_METER_44: string := "isByMeter44"
  const IS_BY_METER_66: string := "isByMeter66"
  const IS_BY_BLANCK: string := "isByBlanck"

  /** One requested order line. `unitPrice` is `None` when it is absent or
      empty. */
  datatype OrderLine = OrderLine(
    typeItem: nat,
    rulerId: nat,
    batchId: nat,
    width: real,
    length: real,
    thickness: real,
    quantity: real,
    unitPrice: Option<real>,
    notes: Option<string>)

  /** The price tier a line's width selects (lines 114-117): the three
      standard widths have their own tier, every other width is priced by
      the blank. */
  function WidthTier(width: real): (tier: string)
    ensures tier == IS_BY_METER_22 <==> width == 22.0
    ensures tier == IS_BY_METER_44 <==> width == 44.0
    ensures tier == IS_BY_METER_66 <==> width == 66.0
    ensures tier == IS_BY_BLANCK <==> width != 22.0 && width != 44.0 && width != 66.0
  {
    if width == 22.0 then IS_BY_METER_22
    else if width == 44.0 then IS_BY_METER_44
    else if width == 66.0 then IS_BY_METER_66
    else IS_BY_BLANCK
  }

  /** `!item.unit_price || Number(item.unit_price) === 0`. */
  predicate NeedsPriceLookup(unitPrice: Option<real>) {
    unitPrice.None? || unitPrice.value == 0.0
  }

  /** The unit price a line is billed at (lines 120-135): a supplied
      non-zero price is kept; otherwise the price table is read for the
      line's ruler and width tier, and a missing row is an error. */
  function ResolveUnitPrice(catalog: Catalog, line: OrderLine): (r: Result<real, OrderError>)
    ensures !NeedsPriceLookup(line.unitPrice) ==> r == Ok(line.unitPrice.value)
    ensures NeedsPriceLookup(line.unitPrice) ==>
      var key := (line.rulerId, WidthTier(line.width));
      (key in catalog.pricePerMeter ==> r == Ok(catalog.pricePerMeter[key]))
      && (key !in catalog.pricePerMeter ==> r == Err(PriceNotFound(line.rulerId, WidthTier(line.width))))
  {
    if !NeedsPriceLookup(line.unitPrice) then Ok(line.unitPrice.value)
    else
      var key := (line.rulerId, WidthTier(line.width));
      if key in catalog.pricePerMeter then Ok(catalog.pricePerMeter[key])
      else Err(PriceNotFound(line.rulerId, WidthTier(line.width)))
  }

  /** `(unit_price * length).toFixed(2) * quantity` (line 137). */
  function LineSubtotal(unitPrice: real, length: real, quantity: real): real {
    Round2(unitPrice * length) * quantity
  }

  /** The subtotal is the quantity times a whole number of cents that lies
      within half a cent of price × length: the rounding happens per
      piece, before the quantity multiplies it. */
  lemma LineSubtotalRoundsPerPiece(unitPrice: real, length: real, quantity: real)
    ensures exists cents :: (IsCents(cents) && LineSubtotal(unitPrice, length, quantity) == cents * quantity
      && unitPrice * length - 0.005 <= cents <= unitPrice * length + 0.005)
  {
    var cents := Round2(unitPrice * length);
    assert IsCents(cents) && LineSubtotal(unitPrice, length, quantity) == cents * quantity;
  }

  /** Rounding per piece is not rounding the line: 0.333 per metre over one
      metre, three pieces, bills 0.99 where the rounded product is 1.00. */
  lemma RoundingBeforeQuantity()
    ensures LineSubtotal(0.333, 1.0, 3.0) == 0.99
    ensures Round2(0.333 * 1.0 * 3.0) == 1.0
  {
    assert Cents(0.333) == 33 by {
      assert HalfUpCents(0.333) == (33.8 as real).Floor;
    }
    assert Cents(0.999) == 100 by {
      assert HalfUpCents(0.999) == (100.4 as real).Floor;
    }
  }

  /** The first line whose ruler, then batch, is missing (lines 93-107). */
  function FirstMissingReference(catalog: Catalog, lines: seq<OrderLine>): (f: Option<OrderError>)
    ensures f.Some? ==> f.value.RulerNotFound? || f.value.BatchNotFound?
  {
    if lines == [] then None
    else if lines[0].rulerId !in catalog.rulers then Some(RulerNotFound(lines[0].rulerId))
    else if lines[0].batchId !in catalog.batches then Some(BatchNotFound(lines[0].batchId))
    else FirstMissingReference(catalog, lines[1..])
  }

  predicate ReferencesExist(catalog: Catalog, line: OrderLine) {
    line.rulerId in catalog.rulers && line.batchId in catalog.batches
  }

  /** No failure exactly when every line's ruler and batch exist; a failure
      names the first line that lacks one, its ruler checked before its
      batch. */
  lemma {:induction false} FirstMissingReferenceIsFirst(catalog: Catalog, lines: seq<OrderLine>)
    ensures FirstMissingReference(catalog, lines).None? <==>
      forall i :: 0 <= i < |lines| ==> ReferencesExist(catalog, lines[i])
    ensures FirstMissingReference(catalog, lines).Some? ==>
      exists i :: 0 <= i < |lines| && (forall k :: 0 <= k < i ==> ReferencesExist(catalog, lines[k]))
        && FirstMissingReference(catalog, lines) ==
           (if lines[i].rulerId !in catalog.rulers then Some(RulerNotFound(lines[i].rulerId))
            else Some(BatchNotFound(lines[i].batchId)))
        && !ReferencesExist(catalog, lines[i])
  {
    if lines != [] && ReferencesExist(catalog, lines[0]) {
      var rest := lines[1..];
      FirstMissingReferenceIsFirst(catalog, rest);
      if FirstMissingReference(catalog, rest).Some? {
        var j :| 0 <= j < |rest| && (forall k :: 0 <= k < j ==> ReferencesExist(catalog, rest[k]))
          && FirstMissingReference(catalog, rest) ==
             (if rest[j].rulerId !in catalog.rulers then Some(RulerNotFound(rest[j].rulerId))
              else Some(BatchNotFound(rest[j].batchId)))
          && !ReferencesExist(catalog, rest[j]);
        assert lines[j + 1] == rest[j];
        forall k | 0 <= k < j + 1
          ensures ReferencesExist(catalog, lines[k])
        {
          if k > 0 {
            assert lines[k] == rest[k - 1];
          }
        }
      } else {
        forall i | 0 <= i < |lines|
          ensures ReferencesExist(catalog, lines[i])
        {
          if i > 0 {
            assert lines[i] == rest[i - 1];
          }
        }
      }
    }
  }

  /** Every line's unit price, or the error of the first line without one. */
  function PriceAll(catalog: Catalog, lines: seq<OrderLine>): (r: Result<seq<real>, OrderError>)
    ensures r.Ok? ==> |r.value| == |lines|
    ensures r.Err? ==> r.error.PriceNotFound?
  {
    if lines == [] then Ok([])
    else match ResolveUnitPrice(catalog, lines[0])
      case Err(e) => Err(e)
      case Ok(p) =>
        match PriceAll(catalog, lines[1..])
        case Err(e) => Err(e)
        case Ok(ps) => Ok([p] + ps)
  }

  /** Prices succeed exactly when each line's does, and then line by line. */
  lemma {:induction false} PriceAllPointwise(catalog: Catalog, lines: seq<OrderLine>)
    ensures PriceAll(catalog, lines).Ok? <==> forall i :: 0 <= i < |lines| ==> ResolveUnitPrice(catalog, lines[i]).Ok?
    ensures PriceAll(catalog, lines).Ok? ==> forall i :: 0 <= i < |lines| ==>
      PriceAll(catalog, lines).value[i] == ResolveUnitPrice(catalog, lines[i]).value
  {
    if lines != [] {
      PriceAllPointwise(catalog, lines[1..]);
      forall i | 0 < i < |lines|
        ensures lines[i] == lines[1..][i - 1]
      {
      }
    }
  }

  /** `PriceAll` of the whole list, given the prices of a done prefix and
      the outcome for the rest. */
  function Prepend(prices: seq<real>, rest: Result<seq<real>, OrderError>): Result<seq<real>, OrderError> {
    match rest
    case Ok(ps) => Ok(prices + ps)
    case Err(e) => Err(e)
  }

  function Sum(xs: seq<real>): real {
    if xs == [] then 0.0 else Sum(xs[..|xs| - 1]) + xs[|xs| - 1]
  }

  /** The line subtotals, given one unit price per line. */
  function Subtotals(lines: seq<OrderLine>, prices: seq<real>): (s: seq<real>)
    requires |prices| == |lines|
    ensures |s| == |lines|
    ensures forall i :: 0 <= i < |lines| ==> s[i] == LineSubtotal(prices[i], lines[i].length, lines[i].quantity)
  {
    seq(|lines|, i requires 0 <= i < |lines| => LineSubtotal(prices[i], lines[i].length, lines[i].quantity))
  }

  lemma SubtotalsPrefix(lines: seq<OrderLine>, prices: seq<real>, n: nat)
    requires |prices| == |lines| && n <= |lines|
    ensures Subtotals(lines, prices)[..n] == Subtotals(lines[..n], prices[..n])
  {
  }

  /** The stored items of a new order: each input line with its resolved
      unit price and its subtotal. */
  function StoredItems(orderId: nat, lines: seq<OrderLine>, prices: seq<real>): (items: seq<OrderItem>)
    requires |prices| == |lines|
    ensures |items| == |lines|
    ensures forall i :: 0 <= i < |lines| ==> items[i] == OrderItem(orderId, lines[i].typeItem, lines[i].rulerId,
      lines[i].batchId, lines[i].width, lines[i].length, lines[i].thickness, lines[i].quantity, prices[i],
      LineSubtotal(prices[i], lines[i].length, lines[i].quantity), lines[i].notes)
  {
    seq(|lines|, i requires 0 <= i < |lines| => OrderItem(orderId, lines[i].typeItem, lines[i].rulerId,
      lines[i].batchId, lines[i].width, lines[i].length, lines[i].thickness, lines[i].quantity, prices[i],
      LineSubtotal(prices[i], lines[i].length, lines[i].quantity), lines[i].notes))
  }

  datatype NewOrder = NewOrder(
    customerId: nat,
    lines: seq<OrderLine>,
    status: Option<string>,
    notes: Option<string>)

  /** The failure `createOrder` meets first (lines 78-132): a missing
      customer, no lines, a missing ruler or batch, then a missing price. */
  function CreateOrderFailure(customers: map<nat, Customer>, catalog: Catalog, data: NewOrder): (f: Option<OrderError>)
    ensures f.None? <==> (data.customerId in customers && data.lines != []
      && FirstMissingReference(catalog, data.lines).None? && PriceAll(catalog, data.lines).Ok?)
    ensures f == Some(CustomerNotFound) <==> data.customerId !in customers
    ensures f == Some(NoItems) <==> data.customerId in customers && data.lines == []
    ensures data.customerId in customers && data.lines != [] && FirstMissingReference(catalog, data.lines).Some?
      ==> f == FirstMissingReference(catalog, data.lines) && f.value.Status() == 404
    ensures data.customerId in customers && data.lines != [] && FirstMissingReference(catalog, data.lines).None?
      && PriceAll(catalog, data.lines).Err?
      ==> f == Some(PriceAll(catalog, data.lines).error) && f.value.Status() == 400
  {
    if data.customerId !in customers then Some(CustomerNotFound)
    else if data.lines == [] then Some(NoItems)
    else if FirstMissingReference(catalog, data.lines).Some? then FirstMissingReference(catalog, data.lines)
    else if PriceAll(catalog, data.lines).Err? then Some(PriceAll(catalog, data.lines).error)
    else None
  }

  /** `createOrder`. Every check runs before anything is written; then one
      transaction stores the order, whose total is the sum of the line
      subtotals rounded to cents and whose status defaults to pending,
      together with one item per input line. */
  method CreateOrder(db: SalesDb, catalog: Catalog, data: NewOrder, userId: nat) returns (r: Result<nat, OrderError>)
    requires db.Valid()
    modifies db
    ensures db.Valid()
    ensures var f := CreateOrderFailure(old(db.customers), catalog, data);
      && (f.Some? ==> r == Err(f.value) && unchanged(db))
      && (f.None? ==> r == Ok(old(db.nextOrderId)))
    ensures r.Ok? ==>
      var prices := PriceAll(catalog, data.lines).value;
      && r.value !in old(db.orders)
      && db.orders == old(db.orders)[r.value := Order(data.customerId, userId, OrDefault(data.status, PENDING),
           Round2(Sum(Subtotals(data.lines, prices))), OrNull(data.notes))]
      && db.orderItems == old(db.orderItems) + StoredItems(r.value, data.lines, prices)
      && db.customers == old(db.customers) && db.invoices == old(db.invoices)
  {
    if data.customerId !in db.customers {
      return Err(CustomerNotFound);
    }
    var lines := data.lines;
    if |lines| == 0 {
      return Err(NoItems);
    }
    var missing := CheckReferences(catalog, lines);
    if missing.Some? {
      return Err(missing.value);
    }
    var priced := PriceLines(catalog, lines);
    if priced.Err? {
      return Err(priced.error);
    }
    var (prices, total) := priced.value;
    var id := db.nextOrderId;
    var order := Order(data.customerId, userId, OrDefault(data.status, PENDING), Round2(total), OrNull(data.notes));
    assert order.customerId in db.customers;
    db.orders := db.orders[id := order];
    db.orderItems := db.orderItems + StoredItems(id, lines, prices);
    assert forall k :: 0 <= k < |db.orderItems| ==> db.orderItems[k].orderId in db.orders;
    db.nextOrderId := id + 1;
    r := Ok(id);
  }

  /** The first loop of `createOrder` (lines 93-107): each line's ruler,
      then its batch, must exist. */
  method CheckReferences(catalog: Catalog, lines: seq<OrderLine>) returns (missing: Option<OrderError>)
    ensures missing == FirstMissingReference(catalog, lines)
  {
    var i := 0;
    assert lines[0..] == lines;
    while i < |lines|
      invariant 0 <= i <= |lines|
      invariant FirstMissingReference(catalog, lines) == FirstMissingReference(catalog, lines[i..])
    {
      assert lines[i..][1..] == lines[i + 1..];
      if lines[i].rulerId !in catalog.rulers {
        return Some(RulerNotFound(lines[i].rulerId));
      }
      if lines[i].batchId !in catalog.batches {
        return Some(BatchNotFound(lines[i].batchId));
      }
      i := i + 1;
    }
    missing := None;
  }

  /** The second loop of `createOrder` (lines 110-145): resolve each line's
      unit price, stopping at the first line without one, and accumulate
      the subtotals. */
  method PriceLines(catalog: Catalog, lines: seq<OrderLine>) returns (r: Result<(seq<real>, real), OrderError>)
    ensures PriceAll(catalog, lines).Err? ==> r == Err(PriceAll(catalog, lines).error)
    ensures PriceAll(catalog, lines).Ok? ==>
      r == Ok((PriceAll(catalog, lines).value, Sum(Subtotals(lines, PriceAll(catalog, lines).value))))
  {
    assert lines[0..] == lines;
    if PriceAll(catalog, lines).Ok? {
      assert [] + PriceAll(catalog, lines).value == PriceAll(catalog, lines).value;
    }
    var total := 0.0;
    var prices: seq<real> := [];
    var subtotals: seq<real> := [];
    var i := 0;
    while i < |lines|
      invariant 0 <= i <= |lines| && |prices| == i
      invariant PriceAll(catalog, lines) == Prepend(prices, PriceAll(catalog, lines[i..]))
      invariant subtotals == Subtotals(lines[..i], prices)
      invariant total == Sum(subtotals)
    {
      var line := lines[i];
      var resolved := ResolveUnitPrice(catalog, line);
      PriceAllStep(catalog, lines, i, prices);
      if resolved.Err? {
        return Err(resolved.error);
      }
      var price := resolved.value;
      var subtotal := LineSubtotal(price, line.length, line.quantity);
      total := total + subtotal;
      SubtotalsSnoc(lines, i, prices, price);
      assert Subtotals(lines[..i + 1], prices + [price]) == subtotals + [subtotal];
      assert (subtotals + [subtotal])[..|subtotals|] == subtotals;
      subtotals := subtotals + [subtotal];
      prices := prices + [price];
      i := i + 1;
    }
    assert lines[..i] == lines && lines[i..] == [] && prices + [] == prices;
    r := Ok((prices, total));
  }

  /** One step of `PriceLines`: the outcome for the rest of the lines
      after line `i` is resolved. */
  lemma PriceAllStep(catalog: Catalog, lines: seq<OrderLine>, i: nat, prices: seq<real>)
    requires i < |lines|
    requires PriceAll(catalog, lines) == Prepend(prices, PriceAll(catalog, lines[i..]))
    ensures ResolveUnitPrice(catalog, lines[i]).Err? ==>
      PriceAll(catalog, lines) == Err(ResolveUnitPrice(catalog, lines[i]).error)
    ensures ResolveUnitPrice(catalog, lines[i]).Ok? ==>
      PriceAll(catalog, lines) == Prepend(prices + [ResolveUnitPrice(catalog, lines[i]).value], PriceAll(catalog, lines[i + 1..]))
  {
    assert lines[i..][0] == lines[i] && lines[i..][1..] == lines[i + 1..];
    if ResolveUnitPrice(catalog, lines[i]).Ok? && PriceAll(catalog, lines[i + 1..]).Ok? {
      var p, ps := ResolveUnitPrice(catalog, lines[i]).value, PriceAll(catalog, lines[i + 1..]).value;
      assert (prices + [p]) + ps == prices + ([p] + ps);
    }
  }

  lemma SubtotalsSnoc(lines: seq<OrderLine>, i: nat, prices: seq<real>, price: real)
    requires i < |lines| && |prices| == i
    ensures Subtotals(lines[..i + 1], prices + [price])
      == Subtotals(lines[..i], prices) + [LineSubtotal(price, lines[i].length, lines[i].quantity)]
  {
    var a, b := Subtotals(lines[..i + 1], prices + [price]), Subtotals(lines[..i], prices) + [LineSubtotal(price, lines[i].length, lines[i].quantity)];
    forall k | 0 <= k < i + 1
      ensures a[k] == b[k]
    {
      if k < i {
        assert lines[..i + 1][k] == lines[..i][k];
      }
    }
  }

  /** The stored total of a new order is its items' subtotals summed and
      rounded to cents, and each item's subtotal recomputes from the item's
      own unit price, length and quantity. */
  lemma {:induction false} CreatedTotalMatchesItems(orderId: nat, lines: seq<OrderLine>, prices: seq<real>)
    requires |prices| == |lines|
    ensures var items := StoredItems(orderId, lines, prices);
      && (forall i :: 0 <= i < |items| ==> items[i].subtotal == LineSubtotal(items[i].unitPrice, items[i].length, items[i].quantity))
      && Sum(Subtotals(lines, prices)) == SumSubtotals(items)
  {
    if lines != [] {
      var n := |lines| - 1;
      CreatedTotalMatchesItems(orderId, lines[..n], prices[..n]);
      assert StoredItems(orderId, lines, prices)[..n] == StoredItems(orderId, lines[..n], prices[..n]);
      SubtotalsPrefix(lines, prices, n);
    }
  }

  /** The sum of the stored subtotals of a list of items. */
  function SumSubtotals(items: seq<OrderItem>): real {
    if items == [] then 0.0 else SumSubtotals(items[..|items| - 1]) + items[|items| - 1].subtotal
  }

  // -----------------------------------------------------------------------
  // Reading, updating and deleting an order.

  /** `getOrderById` (lines 60-70). */
  function GetOrderById(orders: map<nat, Order>, orderId: nat): (r: Result<Order, OrderError>)
    ensures r.Ok? <==> orderId in orders
    ensures r.Ok? ==> r.value == orders[orderId]
    ensures r.Err? ==> r.error == OrderNotFound
  {
    if orderId in orders then Ok(orders[orderId]) else Err(OrderNotFound)
  }

  /** `parseInt` of a number: its integer part, truncated toward zero. */
  function ParseInt(x: real): (n: int)
    ensures x >= 0.0 ==> 0 <= n && n as real <= x < n as real + 1.0
    ensures x < 0.0 ==> n <= 0 && n as real - 1.0 < x <= n as real
  {
    if x >= 0.0 then x.Floor else -((-x).Floor)
  }

  /** The total `updateOrder` computes (lines 268-276): unit price times
      whole quantity summed over the lines, with no length factor and no
      rounding. */
  function ReplacementTotal(lines: seq<OrderLine>): real
    requires forall i :: 0 <= i < |lines| ==> lines[i].unitPrice.Some?
  {
    if lines == [] then 0.0
    else
      var last := lines[|lines| - 1];
      ReplacementTotal(lines[..|lines| - 1]) + last.unitPrice.value * ParseInt(last.quantity) as real
  }

  /** The items `updateOrder` stores: each line as given, its subtotal unit
      price times whole quantity. */
  function ReplacementItems(orderId: nat, lines: seq<OrderLine>): (items: seq<OrderItem>)
    requires forall i :: 0 <= i < |lines| ==> lines[i].unitPrice.Some?
    ensures |items| == |lines|
    ensures forall i :: 0 <= i < |lines| ==> items[i] == OrderItem(orderId, lines[i].typeItem, lines[i].rulerId,
      lines[i].batchId, lines[i].width, lines[i].length, lines[i].thickness, lines[i].quantity,
      lines[i].unitPrice.value, lines[i].unitPrice.value * ParseInt(lines[i].quantity) as real, lines[i].notes)
  {
    seq(|lines|, i requires 0 <= i < |lines| => OrderItem(orderId, lines[i].typeItem, lines[i].rulerId,
      lines[i].batchId, lines[i].width, lines[i].length, lines[i].thickness, lines[i].quantity,
      lines[i].unitPrice.value, lines[i].unitPrice.value * ParseInt(lines[i].quantity) as real, lines[i].notes))
  }

  /** The replacement total is the sum of the replacement items' subtotals. */
  lemma {:induction false} ReplacementTotalMatchesItems(orderId: nat, lines: seq<OrderLine>)
    requires forall i :: 0 <= i < |lines| ==> lines[i].unitPrice.Some?
    ensures ReplacementTotal(lines) == SumSubtotals(ReplacementItems(orderId, lines))
  {
    if lines != [] {
      var n := |lines| - 1;
      ReplacementTotalMatchesItems(orderId, lines[..n]);
      var whole, prefix := ReplacementItems(orderId, lines), ReplacementItems(orderId, lines[..n]);
      forall k | 0 <= k < n
        ensures whole[k] == prefix[k]
      {
        assert lines[..n][k] == lines[k];
      }
      assert whole[..n] == prefix;
    }
  }

  /** The same line is billed differently by the two operations: 10 per
      metre, 2.5 metres, 2 pieces is 50 when the order is created and 20
      once `updateOrder` recomputes it. */
  lemma UpdateIgnoresLength()
    ensures LineSubtotal(10.0, 2.5, 2.0) == 50.0
    ensures ReplacementTotal([OrderLine(1, 1, 1, 22.0, 2.5, 1.0, 2.0, Some(10.0), None)]) == 20.0
  {
    assert Cents(25.0) == 2500 by {
      assert HalfUpCents(25.0) == (2500.5 as real).Floor;
    }
    var lines := [OrderLine(1, 1, 1, 22.0, 2.5, 1.0, 2.0, Some(10.0), None)];
    assert lines[..0] == [];
    assert ParseInt(2.0) == 2;
  }

  /** The order columns `updateOrder` passes through; an absent one is kept.
      `lines` is `None` when no `items` key is sent. */
  datatype OrderUpdate = OrderUpdate(
    customerId: Option<nat>,
    status: Option<string>,
    notes: Option<string>,
    lines: Option<seq<OrderLine>>)

  function ApplyOrderUpdate(o: Order, u: OrderUpdate): (p: Order)
    ensures p.salesUserId == o.salesUserId && p.totalAmount == o.totalAmount
  {
    o.(customerId := if u.customerId.Some? then u.customerId.value else o.customerId,
       status := if u.status.Some? then u.status.value else o.status,
       notes := if u.notes.Some? then u.notes else o.notes)
  }

  /** The failure `updateOrder` meets first (lines 232-265): a missing
      order, a given customer that does not exist, then the first
      replacement line with a missing ruler or batch. Past the checks the
      store refuses a line without a unit price (its subtotal is NaN) and
      an empty `items` list, which is not a relation write it accepts. */
  function UpdateOrderFailure(customers: map<nat, Customer>, orders: map<nat, Order>, catalog: Catalog,
                              orderId: nat, u: OrderUpdate): (f: Option<OrderError>)
    ensures f == Some(OrderNotFound) <==> orderId !in orders
    ensures f == Some(CustomerNotFound) <==> orderId in orders && u.customerId.Some? && u.customerId.value !in customers
    ensures f.None? <==> (orderId in orders && (u.customerId.Some? ==> u.customerId.value in customers)
      && (u.lines.Some? ==> (u.lines.value != [] && FirstMissingReference(catalog, u.lines.value).None?
          && forall i :: 0 <= i < |u.lines.value| ==> u.lines.value[i].unitPrice.Some?)))
    ensures orderId in orders && (u.customerId.Some? ==> u.customerId.value in customers)
      && u.lines.Some? && u.lines.value != [] && FirstMissingReference(catalog, u.lines.value).Some?
      ==> f == FirstMissingReference(catalog, u.lines.value) && f.value.Status() == 404
    ensures f == Some(StoreRejected) <==> (orderId in orders && (u.customerId.Some? ==> u.customerId.value in customers)
      && u.lines.Some? && (u.lines.value == [] || (FirstMissingReference(catalog, u.lines.value).None?
          && exists i :: 0 <= i < |u.lines.value| && u.lines.value[i].unitPrice.None?)))
  {
    if orderId !in orders then Some(OrderNotFound)
    else if u.customerId.Some? && u.customerId.value !in customers then Some(CustomerNotFound)
    else if u.lines.None? then None
    else if u.lines.value == [] then Some(StoreRejected)
    else if FirstMissingReference(catalog, u.lines.value).Some? then FirstMissingReference(catalog, u.lines.value)
    else if exists i :: 0 <= i < |u.lines.value| && u.lines.value[i].unitPrice.None? then Some(StoreRejected)
    else None
  }

  /** `updateOrder`. With replacement lines, one transaction drops every
      item of the order, stores the new lines and sets the total to their
      unit price × whole quantity sum; without, only the order's own
      columns change. */
  method UpdateOrder(db: SalesDb, catalog: Catalog, orderId: nat, u: OrderUpdate) returns (r: Result<Order, OrderError>)
    requires db.Valid()
    modifies db
    ensures db.Valid()
    ensures var f := UpdateOrderFailure(old(db.customers), old(db.orders), catalog, orderId, u);
      && (f.Some? ==> r == Err(f.value) && unchanged(db))
      && (f.None? ==> r.Ok?)
    ensures r.Ok? && u.lines.None? ==>
      && r.value == ApplyOrderUpdate(old(db.orders)[orderId], u)
      && db.orders == old(db.orders)[orderId := r.value]
      && db.orderItems == old(db.orderItems)
    ensures r.Ok? && u.lines.Some? ==>
      && r.value == ApplyOrderUpdate(old(db.orders)[orderId], u).(totalAmount := ReplacementTotal(u.lines.value))
      && db.orders == old(db.orders)[orderId := r.value]
      && db.orderItems == ItemsNotOf(old(db.orderItems), orderId) + ReplacementItems(orderId, u.lines.value)
    ensures db.customers == old(db.customers) && db.invoices == old(db.invoices)
  {
    var existing := GetOrderById(db.orders, orderId);
    if existing.Err? {
      return Err(existing.error);
    }
    if u.customerId.Some? && u.customerId.value !in db.customers {
      return Err(CustomerNotFound);
    }
    if u.lines.Some? && u.lines.value != [] {
      var lines := u.lines.value;
      var i := 0;
      while i < |lines|
        invariant 0 <= i <= |lines|
        invariant FirstMissingReference(catalog, lines) == FirstMissingReference(catalog, lines[i..])
      {
        assert lines[i..][1..] == lines[i + 1..];
        if lines[i].rulerId !in catalog.rulers {
          return Err(RulerNotFound(lines[i].rulerId));
        }
        if lines[i].batchId !in catalog.batches {
          return Err(BatchNotFound(lines[i].batchId));
        }
        i := i + 1;
      }
      if exists k :: 0 <= k < |lines| && lines[k].unitPrice.None? {
        return Err(StoreRejected);
      }
      var total := ReplacementTotal(lines);
      var o := ApplyOrderUpdate(existing.value, u).(totalAmount := total);
      db.orderItems := ItemsNotOf(db.orderItems, orderId) + ReplacementItems(orderId, lines);
      db.orders := db.orders[orderId := o];
      r := Ok(o);
    } else if u.lines.Some? {
      return Err(StoreRejected);
    } else {
      var o := ApplyOrderUpdate(existing.value, u);
      db.orders := db.orders[orderId := o];
      r := Ok(o);
    }
  }

  /** `deleteOrder` (lines 334-361): 404 for a missing order, 400 while any
      invoice refers to it; otherwise its items and then the order go. */
  method DeleteOrder(db: SalesDb, orderId: nat) returns (r: Result<(), OrderError>)
    requires db.Valid()
    modifies db
    ensures db.Valid()
    ensures orderId !in old(db.orders) ==> r == Err(OrderNotFound)
    ensures orderId in old(db.orders) && HasInvoice(old(db.invoices), orderId) ==> r == Err(HasInvoices)
    ensures r.Err? ==> unchanged(db)
    ensures r.Ok? <==> orderId in old(db.orders) && !HasInvoice(old(db.invoices), orderId)
    ensures r.Ok? ==> (db.orders == old(db.orders) - {orderId}
      && db.orderItems == ItemsNotOf(old(db.orderItems), orderId)
      && db.customers == old(db.customers) && db.invoices == old(db.invoices))
  {
    var existing := GetOrderById(db.orders, orderId);
    if existing.Err? {
      return Err(existing.error);
    }
    if HasInvoice(db.invoices, orderId) {
      return Err(HasInvoices);
    }
    db.orderItems := ItemsNotOf(db.orderItems, orderId);
    db.orders := db.orders - {orderId};
    r := Ok(());
  }
}
