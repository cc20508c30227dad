/** The production side of the relational store: production orders, their
    items (one per routing stage) and the processes recorded against items.
    Items and processes are kept in creation order, which is also the
    order of their ids. */
module ProductionStore {
  import opened Wrappers

  // Production stages, and the routing end point "production".
  const WAREHOUSE: string := "warehouse"
  const SLITTING: string := "slitting"
  const CUTTING: string := "cutting"
  const GLUING: string := "gluing"
  const PRODUCTION: string := "production"

  // Statuses.
  const PENDING: string := "pending"
  const PREPARING: string := "preparing"

  datatype ProductionOrder = ProductionOrder(
    issuedBy: nat,
    typeItem: nat,
    rulerId: nat,
    batchId: nat,
    width: real,
    length: real,
    thickness: real,
    status: string,
    notes: Option<string>)

  /** The stored columns of a production-order item other than its keys. */
  datatype ItemFields = ItemFields(
    productionType: string,
    source: string,
    destination: string,
    status: string,
    width: real,
    length: real,
    quantity: Option<int>,
    notes: Option<string>)

  datatype ProductionOrderItem = ProductionOrderItem(id: nat, orderId: nat, fields: ItemFields)

  datatype ProductionProcess = ProductionProcess(
    id: nat,
    itemId: nat,
    inputLength: real,
    outputLength: real,
    inputWidth: real,
    waste: Option<real>,
    barcode: string,
    userId: nat,
    notes: Option<string>)

  /** The index of the item with id `id`, if there is one. */
  function FindItem(items: seq<ProductionOrderItem>, id: nat): (r: Option<nat>)
    ensures r.Some? ==> r.value < |items| && items[r.value].id == id
    ensures r.None? ==> forall i :: 0 <= i < |items| ==> items[i].id != id
  {
    if items == [] then None
    else if items[|items| - 1].id == id then Some(|items| - 1)
    else FindItem(items[..|items| - 1], id)
  }

  /** The index of the process with id `id`, if there is one. */
  function FindProcess(processes: seq<ProductionProcess>, id: nat): (r: Option<nat>)
    ensures r.Some? ==> r.value < |processes| && processes[r.value].id == id
    ensures r.None? ==> forall i :: 0 <= i < |processes| ==> processes[i].id != id
  {
    if processes == [] then None
    else if processes[|processes| - 1].id == id then Some(|processes| - 1)
    else FindProcess(processes[..|processes| - 1], id)
  }

  predicate HasItemId(items: seq<ProductionOrderItem>, id: nat) {
    exists i :: 0 <= i < |items| && items[i].id == id
  }

  lemma HasItemIdGrows(items: seq<ProductionOrderItem>, more: seq<ProductionOrderItem>, id: nat)
    requires HasItemId(items, id)
    ensures HasItemId(items + more, id)
  {
    var k :| 0 <= k < |items| && items[k].id == id;
    assert (items + more)[k] == items[k];
  }

  predicate BarcodeUsed(processes: seq<ProductionProcess>, barcode: string) {
    exists i :: 0 <= i < |processes| && processes[i].barcode == barcode
  }

  /** No two processes share a barcode. */
  predicate BarcodesDistinct(processes: seq<ProductionProcess>) {
    forall i, j :: 0 <= i < j < |processes| ==> processes[i].barcode != processes[j].barcode
  }

  class ProductionDb {
    var orders: map<nat, ProductionOrder>
    var items: seq<ProductionOrderItem>
    var processes: seq<ProductionProcess>
    var nextOrderId: nat
    var nextItemId: nat
    var nextProcessId: nat

    /** Keys are fresh and increasing, every item belongs to a stored
        order, every process to a stored item, and barcodes are unique. */
    ghost predicate Valid()
      reads this
    {
      && (forall id :: id in orders ==> id < nextOrderId)
      && (forall i, j :: 0 <= i < j < |items| ==> items[i].id < items[j].id)
      && (forall i :: 0 <= i < |items| ==> items[i].id < nextItemId && items[i].orderId in orders)
      && (forall i, j :: 0 <= i < j < |processes| ==> processes[i].id < processes[j].id)
      && (forall i :: 0 <= i < |processes| ==> processes[i].id < nextProcessId && HasItemId(items, processes[i].itemId))
      && BarcodesDistinct(processes)
    }

    constructor ()
      ensures Valid()
      ensures orders == map[] && items == [] && processes == []
    {
      orders, items, processes := map[], [], [];
      nextOrderId, nextItemId, nextProcessId := 1, 1, 1;
    }

    /** `ProductionOrderItemModel.create`: appends an item with the next id. */
    method CreateItem(orderId: nat, fields: ItemFields) returns (item: ProductionOrderItem)
      requires Valid() && orderId in orders
      modifies this
      ensures Valid()
      ensures item == ProductionOrderItem(old(nextItemId), orderId, fields)
      ensures items == old(items) + [item] && nextItemId == old(nextItemId) + 1
      ensures orders == old(orders) && processes == old(processes)
      ensures nextOrderId == old(nextOrderId) && nextProcessId == old(nextProcessId)
    {
      item := ProductionOrderItem(nextItemId, orderId, fields);
      ghost var before := items;
      items := items + [item];
      nextItemId := nextItemId + 1;
      forall p | 0 <= p < |processes|
        ensures HasItemId(items, processes[p].itemId)
      {
        HasItemIdGrows(before, [item], processes[p].itemId);
      }
    }

    /** `ProductionOrderModel.update(id, { status })`. */
    method SetOrderStatus(id: nat, status: string)
      requires Valid() && id in orders
      modifies this
      ensures Valid()
      ensures orders == old(orders)[id := old(orders)[id].(status := status)]
      ensures items == old(items) && processes == old(processes)
      ensures nextOrderId == old(nextOrderId) && nextItemId == old(nextItemId) && nextProcessId == old(nextProcessId)
    {
      orders := orders[id := orders[id].(status := status)];
    }

    /** `productionProcess.delete`: process `i` goes, the rest keep their order. */
    method RemoveProcess(i: nat)
      requires Valid() && i < |processes|
      modifies this
      ensures Valid()
      ensures processes == old(processes)[..i] + old(processes)[i + 1..]
      ensures orders == old(orders) && items == old(items)
      ensures nextOrderId == old(nextOrderId) && nextItemId == old(nextItemId) && nextProcessId == old(nextProcessId)
    {
      var rest := processes[..i] + processes[i + 1..];
      forall a, b | 0 <= a < b < |rest|
        ensures rest[a].id < rest[b].id && rest[a].barcode != rest[b].barcode
      {
        var a', b' := if a < i then a else a + 1, if b < i then b else b + 1;
        assert rest[a] == processes[a'] && rest[b] == processes[b'];
      }
      forall a | 0 <= a < |rest|
        ensures rest[a].id < nextProcessId && HasItemId(items, rest[a].itemId)
      {
        var a' := if a < i then a else a + 1;
        assert rest[a] == processes[a'];
      }
      processes := rest;
    }
  }
}
