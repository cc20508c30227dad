/** services/productionOrder.service.js: the role → production-type table,
    the routing expansion that creates a production order's items, and the
    guard chains of the item and order operations. Each service function
    is a method over the store; a thrown error with a status code is an
    `Err` and leaves the store as it was. */
module ProductionOrders {
  import opened Wrappers
  import opened JsValues
  import opened Roles
  import opened Catalog
  import opened ProductionStore
  import opened ProductionRouting

  datatype ProductionError =
    | OrderNotFound
    | ItemNotFound
    | RulerNotFound
    | BatchNotFound
    | ItemKindNotFound
    | NotPermitted
    | OrderNotPending
    | HasLinkedProcesses
    | HasItems
  {
    /** The `statusCode` the service attaches. */
    function Status(): nat {
      match this
      case OrderNotFound | ItemNotFound | RulerNotFound | BatchNotFound | ItemKindNotFound => 404
      case NotPermitted => 403
      case OrderNotPending | HasLinkedProcesses | HasItems => 400
    }
  }

  // -----------------------------------------------------------------------
  // Role → production types (lines 15-45). The source writes the table out
  // twice, once in each helper; it is one table here.

  const ALL_TYPES: seq<string> := [WAREHOUSE, SLITTING, CUTTING, GLUING]

  const ROLE_PERMISSIONS: map<string, seq<string>> := map[
    ADMIN := ALL_TYPES,
    PRODUCTION_MANAGER := ALL_TYPES,
    WAREHOUSE_KEEPER := [WAREHOUSE],
    WAREHOUSE_PRODUCTS := [WAREHOUSE],
    DISSECTION_TECHNICIAN := [SLITTING],
    CUTTING_TECHNICIAN := [CUTTING],
    GLUING_TECHNICIAN := [GLUING]]

  /** `getAllowedProductionTypes(userRole)`: the table entry, or none. */
  function AllowedProductionTypes(role: string): seq<string> {
    if role in ROLE_PERMISSIONS then ROLE_PERMISSIONS[role] else []
  }

  /** `canAccessProductionType(userRole, productionType)`. */
  predicate CanAccessProductionType(role: string, productionType: string) {
    productionType in AllowedProductionTypes(role)
  }

  /** The table, role by role: managers get all four stages, each
      technician or keeper role its own, and any other role nothing. */
  lemma RolePermissionsTable(role: string)
    ensures IsManager(role) ==> AllowedProductionTypes(role) == [WAREHOUSE, SLITTING, CUTTING, GLUING]
    ensures role == WAREHOUSE_KEEPER || role == WAREHOUSE_PRODUCTS ==> AllowedProductionTypes(role) == [WAREHOUSE]
    ensures role == DISSECTION_TECHNICIAN ==> AllowedProductionTypes(role) == [SLITTING]
    ensures role == CUTTING_TECHNICIAN ==> AllowedProductionTypes(role) == [CUTTING]
    ensures role == GLUING_TECHNICIAN ==> AllowedProductionTypes(role) == [GLUING]
    ensures role !in {ADMIN, PRODUCTION_MANAGER, WAREHOUSE_KEEPER, WAREHOUSE_PRODUCTS,
                      DISSECTION_TECHNICIAN, CUTTING_TECHNICIAN, GLUING_TECHNICIAN}
            ==> AllowedProductionTypes(role) == []
  {
  }

  /** Only the four stage names are ever accessible, and managers reach
      every one of them. */
  lemma AccessOnlyToStages(role: string, t: string)
    ensures CanAccessProductionType(role, t) ==> IsFlowType(t)
    ensures IsManager(role) && IsFlowType(t) ==> CanAccessProductionType(role, t)
  {
  }

  // -----------------------------------------------------------------------
  // Reading items by role (lines 356-373, 541-557).

  /** Ids strictly increase along the list, the store's insertion order. */
  predicate IdsAscending(items: seq<ProductionOrderItem>) {
    forall a, b :: 0 <= a < b < |items| ==> items[a].id < items[b].id
  }

  /** The items of order `orderId` whose type is in `allowed`, in store order. */
  function VisibleItems(items: seq<ProductionOrderItem>, orderId: nat, allowed: seq<string>): (r: seq<ProductionOrderItem>)
    ensures |r| <= |items|
  {
    if items == [] then []
    else
      var prev, x := items[..|items| - 1], items[|items| - 1];
      var r' := VisibleItems(prev, orderId, allowed);
      if x.orderId == orderId && x.fields.productionType in allowed then r' + [x] else r'
  }

  /** An item is listed exactly when it is stored, belongs to the order and
      has an allowed type. */
  lemma {:induction false} VisibleItemsMembership(items: seq<ProductionOrderItem>, orderId: nat, allowed: seq<string>, x: ProductionOrderItem)
    ensures x in VisibleItems(items, orderId, allowed) <==>
      x in items && x.orderId == orderId && x.fields.productionType in allowed
  {
    if items != [] {
      var prev := items[..|items| - 1];
      VisibleItemsMembership(prev, orderId, allowed, x);
      assert items == prev + [items[|items| - 1]];
    }
  }

  /** The listing keeps the store's order. */
  lemma {:induction false} VisibleItemsAscending(items: seq<ProductionOrderItem>, orderId: nat, allowed: seq<string>)
    requires IdsAscending(items)
    ensures IdsAscending(VisibleItems(items, orderId, allowed))
  {
    if items != [] {
      var prev, x := items[..|items| - 1], items[|items| - 1];
      VisibleItemsAscending(prev, orderId, allowed);
      var r' := VisibleItems(prev, orderId, allowed);
      forall y | y in r'
        ensures y.id < x.id
      {
        VisibleItemsMembership(prev, orderId, allowed, y);
      }
    }
  }

  /** `getProductionOrderItemsByType`: 404 for a missing order, otherwise
      exactly the order's items the role may see, in store order. */
  method GetProductionOrderItemsByType(db: ProductionDb, orderId: nat, role: string)
    returns (r: Result<seq<ProductionOrderItem>, ProductionError>)
    ensures orderId !in db.orders ==> r == Err(OrderNotFound)
    ensures orderId in db.orders ==> r.Ok?
    ensures r.Ok? && IdsAscending(db.items) ==> IdsAscending(r.value)
    ensures r.Ok? ==> forall x :: x in r.value <==>
      x in db.items && x.orderId == orderId && CanAccessProductionType(role, x.fields.productionType)
  {
    if orderId !in db.orders {
      return Err(OrderNotFound);
    }
    r := Ok(VisibleItems(db.items, orderId, AllowedProductionTypes(role)));
    if IdsAscending(db.items) {
      VisibleItemsAscending(db.items, orderId, AllowedProductionTypes(role));
    }
    forall x
      ensures x in r.value <==> x in db.items && x.orderId == orderId && CanAccessProductionType(role, x.fields.productionType)
    {
      VisibleItemsMembership(db.items, orderId, AllowedProductionTypes(role), x);
    }
  }

  /** The failure an item read or update meets first: a missing item, then
      a type the role may not access. */
  function ItemAccessFailure(items: seq<ProductionOrderItem>, itemId: nat, role: string): (f: Option<ProductionError>)
    ensures f == Some(ItemNotFound) <==> FindItem(items, itemId).None?
    ensures f == Some(NotPermitted) <==> (FindItem(items, itemId).Some?
      && !CanAccessProductionType(role, items[FindItem(items, itemId).value].fields.productionType))
    ensures f.None? || f == Some(ItemNotFound) || f == Some(NotPermitted)
  {
    match FindItem(items, itemId)
    case None => Some(ItemNotFound)
    case Some(i) => if CanAccessProductionType(role, items[i].fields.productionType) then None else Some(NotPermitted)
  }

  /** `getProductionOrderItemById`. */
  method GetProductionOrderItemById(db: ProductionDb, itemId: nat, role: string)
    returns (r: Result<ProductionOrderItem, ProductionError>)
    requires db.Valid()
    ensures var f := ItemAccessFailure(db.items, itemId, role);
      (f.Some? ==> r == Err(f.value)) && (f.None? ==> r.Ok?)
    ensures r.Ok? ==> (r.value in db.items && r.value.id == itemId
      && CanAccessProductionType(role, r.value.fields.productionType))
  {
    var f := ItemAccessFailure(db.items, itemId, role);
    if f.Some? {
      return Err(f.value);
    }
    r := Ok(db.items[FindItem(db.items, itemId).value]);
  }

  /** `updateProductionOrderItemStatus`: after the same two checks, only
      the item's status changes. The route has no body rule, so `status`
      may be absent (`None`); the store then leaves the column as it is. */
  method UpdateProductionOrderItemStatus(db: ProductionDb, itemId: nat, status: Option<string>, role: string)
    returns (r: Result<ProductionOrderItem, ProductionError>)
    requires db.Valid()
    modifies db
    ensures db.Valid()
    ensures var f := ItemAccessFailure(old(db.items), itemId, role);
      && (f.Some? ==> r == Err(f.value) && unchanged(db))
      && (f.None? ==> r.Ok?)
    ensures r.Ok? ==>
      var i := FindItem(old(db.items), itemId).value;
      && r.value.id == itemId && r.value.orderId == old(db.items)[i].orderId
      && r.value.fields.status == (if status.Some? then status.value else old(db.items)[i].fields.status)
      && r.value.fields == old(db.items)[i].fields.(status := r.value.fields.status)
      && db.items == old(db.items)[i := r.value]
      && db.orders == old(db.orders) && db.processes == old(db.processes)
      && db.nextItemId == old(db.nextItemId)
  {
    var f := ItemAccessFailure(db.items, itemId, role);
    if f.Some? {
      return Err(f.value);
    }
    var i := FindItem(db.items, itemId).value;
    var newStatus := if status.Some? then status.value else db.items[i].fields.status;
    var item := db.items[i].(fields := db.items[i].fields.(status := newStatus));
    ReplaceItemKeepsValid(db, i, item);
    db.items := db.items[i := item];
    r := Ok(item);
  }

  /** The columns `updateProductionOrderItem` accepts; an absent one is kept. */
  datatype ItemPatch = ItemPatch(
    width: Option<real>,
    length: Option<real>,
    quantity: Option<int>,
    status: Option<string>,
    notes: Option<string>)

  function ApplyItemPatch(f: ItemFields, p: ItemPatch): (g: ItemFields)
    ensures g.productionType == f.productionType && g.source == f.source && g.destination == f.destination
  {
    f.(width := if p.width.Some? then p.width.value else f.width,
       length := if p.length.Some? then p.length.value else f.length,
       quantity := if p.quantity.Some? then p.quantity else f.quantity,
       status := if p.status.Some? then p.status.value else f.status,
       notes := if p.notes.Some? then p.notes else f.notes)
  }

  /** `updateProductionOrderItem`: the same two checks, then the patch. */
  method UpdateProductionOrderItem(db: ProductionDb, itemId: nat, patch: ItemPatch, role: string)
    returns (r: Result<ProductionOrderItem, ProductionError>)
    requires db.Valid()
    modifies db
    ensures db.Valid()
    ensures var f := ItemAccessFailure(old(db.items), itemId, role);
      && (f.Some? ==> r == Err(f.value) && unchanged(db))
      && (f.None? ==> r.Ok?)
    ensures r.Ok? ==>
      var i := FindItem(old(db.items), itemId).value;
      && r.value == old(db.items)[i].(fields := ApplyItemPatch(old(db.items)[i].fields, patch))
      && db.items == old(db.items)[i := r.value]
      && db.orders == old(db.orders) && db.processes == old(db.processes)
      && db.nextItemId == old(db.nextItemId)
  {
    var f := ItemAccessFailure(db.items, itemId, role);
    if f.Some? {
      return Err(f.value);
    }
    var i := FindItem(db.items, itemId).value;
    var item := db.items[i].(fields := ApplyItemPatch(db.items[i].fields, patch));
    ReplaceItemKeepsValid(db, i, item);
    db.items := db.items[i := item];
    r := Ok(item);
  }

  lemma ReplaceItemKeepsValid(db: ProductionDb, i: nat, item: ProductionOrderItem)
    requires db.Valid() && i < |db.items|
    requires item.id == db.items[i].id && item.orderId == db.items[i].orderId
    ensures var items := db.items[i := item];
      && (forall a, b :: 0 <= a < b < |items| ==> items[a].id < items[b].id)
      && (forall a :: 0 <= a < |items| ==> items[a].id < db.nextItemId && items[a].orderId in db.orders)
      && (forall p :: 0 <= p < |db.processes| ==> HasItemId(items, db.processes[p].itemId))
  {
    var items := db.items[i := item];
    forall p | 0 <= p < |db.processes|
      ensures HasItemId(items, db.processes[p].itemId)
    {
      var k :| 0 <= k < |db.items| && db.items[k].id == db.processes[p].itemId;
      assert items[k].id == db.items[k].id;
    }
  }

  /** Whether any process is recorded against item `itemId`. */
  predicate HasProcesses(processes: seq<ProductionProcess>, itemId: nat) {
    exists p :: 0 <= p < |processes| && processes[p].itemId == itemId
  }

  /** `deleteProductionOrderItem`: 404, then 403 unless a manager, then
      400 while processes are linked; otherwise the item is removed. */
  method DeleteProductionOrderItem(db: ProductionDb, itemId: nat, role: string)
    returns (r: Result<(), ProductionError>)
    requires db.Valid()
    modifies db
    ensures db.Valid()
    ensures FindItem(old(db.items), itemId).None? ==> r == Err(ItemNotFound)
    ensures FindItem(old(db.items), itemId).Some? && !IsManager(role) ==> r == Err(NotPermitted)
    ensures FindItem(old(db.items), itemId).Some? && IsManager(role) && HasProcesses(old(db.processes), itemId)
      ==> r == Err(HasLinkedProcesses)
    ensures r.Err? ==> unchanged(db)
    ensures r.Ok? <==> FindItem(old(db.items), itemId).Some? && IsManager(role) && !HasProcesses(old(db.processes), itemId)
    ensures r.Ok? ==>
      var i := FindItem(old(db.items), itemId).value;
      && db.items == old(db.items)[..i] + old(db.items)[i + 1..]
      && db.orders == old(db.orders) && db.processes == old(db.processes)
  {
    var found := FindItem(db.items, itemId);
    if found.None? {
      return Err(ItemNotFound);
    }
    if !IsManager(role) {
      return Err(NotPermitted);
    }
    if HasProcesses(db.processes, itemId) {
      return Err(HasLinkedProcesses);
    }
    var i := found.value;
    var items := db.items[..i] + db.items[i + 1..];
    forall a, b | 0 <= a < b < |items|
      ensures items[a].id < items[b].id
    {
      var a', b' := if a < i then a else a + 1, if b < i then b else b + 1;
      assert items[a] == db.items[a'] && items[b] == db.items[b'];
    }
    forall p | 0 <= p < |db.processes|
      ensures HasItemId(items, db.processes[p].itemId)
    {
      var k :| 0 <= k < |db.items| && db.items[k].id == db.processes[p].itemId;
      assert k != i;
      if k < i {
        assert items[k] == db.items[k];
      } else {
        assert items[k - 1] == db.items[k];
      }
    }
    db.items := items;
    r := Ok(());
  }

  /** Whether order `orderId` has any item at all. */
  predicate OrderHasItems(items: seq<ProductionOrderItem>, orderId: nat) {
    exists i :: 0 <= i < |items| && items[i].orderId == orderId
  }

  /** `deleteProductionOrder`: 404, then 403 unless a manager, then 400 if
      the order has any item (it counts items, not processes). */
  method DeleteProductionOrder(db: ProductionDb, orderId: nat, role: string)
    returns (r: Result<(), ProductionError>)
    requires db.Valid()
    modifies db
    ensures db.Valid()
    ensures orderId !in old(db.orders) ==> r == Err(OrderNotFound)
    ensures orderId in old(db.orders) && !IsManager(role) ==> r == Err(NotPermitted)
    ensures orderId in old(db.orders) && IsManager(role) && OrderHasItems(old(db.items), orderId) ==> r == Err(HasItems)
    ensures r.Err? ==> unchanged(db)
    ensures r.Ok? <==> orderId in old(db.orders) && IsManager(role) && !OrderHasItems(old(db.items), orderId)
    ensures r.Ok? ==> (db.orders == old(db.orders) - {orderId}
      && db.items == old(db.items) && db.processes == old(db.processes))
  {
    if orderId !in db.orders {
      return Err(OrderNotFound);
    }
    if !IsManager(role) {
      return Err(NotPermitted);
    }
    if OrderHasItems(db.items, orderId) {
      return Err(HasItems);
    }
    db.orders := db.orders - {orderId};
    r := Ok(());
  }

  // -----------------------------------------------------------------------
  // Creating a production order (lines 141-240) and updating one
  // (lines 245-316).

  datatype NewProductionOrder = NewProductionOrder(
    typeItem: nat,
    rulerId: nat,
    batchId: nat,
    width: real,
    length: real,
    thickness: real,
    status: Option<string>,
    notes: Option<string>)

  /** The failure `createProductionOrder` meets first: the role, then the
      ruler, the batch and the item kind. */
  function CreateOrderFailure(catalog: Catalog, data: NewProductionOrder, role: string): (f: Option<ProductionError>)
    ensures f == Some(NotPermitted) <==> !IsManager(role)
    ensures f == Some(RulerNotFound) <==> IsManager(role) && data.rulerId !in catalog.rulers
    ensures f == Some(BatchNotFound) <==> IsManager(role) && data.rulerId in catalog.rulers && data.batchId !in catalog.batches
    ensures f == Some(ItemKindNotFound) <==> (IsManager(role) && data.rulerId in catalog.rulers
      && data.batchId in catalog.batches && data.typeItem !in catalog.constantValues)
    ensures f.None? <==> (IsManager(role) && data.rulerId in catalog.rulers
      && data.batchId in catalog.batches && data.typeItem in catalog.constantValues)
  {
    if !IsManager(role) then Some(NotPermitted)
    else if data.rulerId !in catalog.rulers then Some(RulerNotFound)
    else if data.batchId !in catalog.batches then Some(BatchNotFound)
    else if data.typeItem !in catalog.constantValues then Some(ItemKindNotFound)
    else None
  }

  /** `createProductionOrder`: only the order is created (the logged
      production types create no items); its status defaults to pending. */
  method CreateProductionOrder(db: ProductionDb, catalog: Catalog, data: NewProductionOrder, userId: nat, role: string)
    returns (r: Result<nat, ProductionError>)
    requires db.Valid()
    modifies db
    ensures db.Valid()
    ensures var f := CreateOrderFailure(catalog, data, role);
      && (f.Some? ==> r == Err(f.value) && unchanged(db))
      && (f.None? ==> r == Ok(old(db.nextOrderId)))
    ensures r.Ok? ==>
      && old(db.nextOrderId) !in old(db.orders)
      && db.orders == old(db.orders)[r.value := ProductionOrder(userId, data.typeItem, data.rulerId, data.batchId,
           data.width, data.length, data.thickness, OrDefault(data.status, PENDING), OrNull(data.notes))]
      && db.items == old(db.items) && db.processes == old(db.processes)
  {
    var f := CreateOrderFailure(catalog, data, role);
    if f.Some? {
      return Err(f.value);
    }
    var id := db.nextOrderId;
    db.orders := db.orders[id := ProductionOrder(userId, data.typeItem, data.rulerId, data.batchId,
      data.width, data.length, data.thickness, OrDefault(data.status, PENDING), OrNull(data.notes))];
    db.nextOrderId := id + 1;
    r := Ok(id);
  }

  /** The columns `updateProductionOrder` accepts; an absent one is kept. */
  datatype OrderPatch = OrderPatch(
    typeItem: Option<nat>,
    rulerId: Option<nat>,
    batchId: Option<nat>,
    width: Option<real>,
    length: Option<real>,
    thickness: Option<real>,
    status: Option<string>,
    notes: Option<string>)

  function ApplyOrderPatch(o: ProductionOrder, p: OrderPatch): ProductionOrder {
    o.(typeItem := if p.typeItem.Some? then p.typeItem.value else o.typeItem,
       rulerId := if p.rulerId.Some? then p.rulerId.value else o.rulerId,
       batchId := if p.batchId.Some? then p.batchId.value else o.batchId,
       width := if p.width.Some? then p.width.value else o.width,
       length := if p.length.Some? then p.length.value else o.length,
       thickness := if p.thickness.Some? then p.thickness.value else o.thickness,
       status := if p.status.Some? then p.status.value else o.status,
       notes := if p.notes.Some? then p.notes else o.notes)
  }

  /** The failure `updateProductionOrder` meets first: a missing order, the
      role, then each reference the patch supplies. */
  function UpdateOrderFailure(orders: map<nat, ProductionOrder>, catalog: Catalog, orderId: nat, p: OrderPatch, role: string)
    : (f: Option<ProductionError>)
    ensures f == Some(OrderNotFound) <==> orderId !in orders
    ensures f == Some(NotPermitted) <==> orderId in orders && !IsManager(role)
    ensures f.None? <==> (orderId in orders && IsManager(role)
      && (p.rulerId.Some? ==> p.rulerId.value in catalog.rulers)
      && (p.batchId.Some? ==> p.batchId.value in catalog.batches)
      && (p.typeItem.Some? ==> p.typeItem.value in catalog.constantValues))
    ensures f == Some(RulerNotFound) <==> (orderId in orders && IsManager(role)
      && p.rulerId.Some? && p.rulerId.value !in catalog.rulers)
    ensures f == Some(BatchNotFound) <==> (orderId in orders && IsManager(role)
      && (p.rulerId.Some? ==> p.rulerId.value in catalog.rulers)
      && p.batchId.Some? && p.batchId.value !in catalog.batches)
    ensures f == Some(ItemKindNotFound) <==> (orderId in orders && IsManager(role)
      && (p.rulerId.Some? ==> p.rulerId.value in catalog.rulers)
      && (p.batchId.Some? ==> p.batchId.value in catalog.batches)
      && p.typeItem.Some? && p.typeItem.value !in catalog.constantValues)
    ensures f.Some? && orderId in orders && IsManager(role) ==> f.value.Status() == 404
  {
    if orderId !in orders then Some(OrderNotFound)
    else if !IsManager(role) then Some(NotPermitted)
    else if p.rulerId.Some? && p.rulerId.value !in catalog.rulers then Some(RulerNotFound)
    else if p.batchId.Some? && p.batchId.value !in catalog.batches then Some(BatchNotFound)
    else if p.typeItem.Some? && p.typeItem.value !in catalog.constantValues then Some(ItemKindNotFound)
    else None
  }

  method UpdateProductionOrder(db: ProductionDb, catalog: Catalog, orderId: nat, patch: OrderPatch, role: string)
    returns (r: Result<ProductionOrder, ProductionError>)
    requires db.Valid()
    modifies db
    ensures db.Valid()
    ensures var f := UpdateOrderFailure(old(db.orders), catalog, orderId, patch, role);
      && (f.Some? ==> r == Err(f.value) && unchanged(db))
      && (f.None? ==> r == Ok(ApplyOrderPatch(old(db.orders)[orderId], patch)))
    ensures r.Ok? ==> (db.orders == old(db.orders)[orderId := r.value]
      && db.items == old(db.items) && db.processes == old(db.processes))
  {
    var f := UpdateOrderFailure(db.orders, catalog, orderId, patch, role);
    if f.Some? {
      return Err(f.value);
    }
    var o := ApplyOrderPatch(db.orders[orderId], patch);
    db.orders := db.orders[orderId := o];
    r := Ok(o);
  }

  // -----------------------------------------------------------------------
  // Creating a production order's items (lines 378-448).

  /** The failure `createProductionOrderItem` meets first: a missing order,
      then the role, then an order that is no longer pending. */
  function CreateItemsFailure(orders: map<nat, ProductionOrder>, orderId: nat, role: string): (f: Option<ProductionError>)
    ensures f == Some(OrderNotFound) <==> orderId !in orders
    ensures f == Some(NotPermitted) <==> orderId in orders && !IsManager(role)
    ensures f == Some(OrderNotPending) <==> orderId in orders && IsManager(role) && orders[orderId].status != PENDING
    ensures f.None? <==> orderId in orders && IsManager(role) && orders[orderId].status == PENDING
  {
    if orderId !in orders then Some(OrderNotFound)
    else if !IsManager(role) then Some(NotPermitted)
    else if orders[orderId].status != PENDING then Some(OrderNotPending)
    else None
  }

  /** The stored columns of a list of items. */
  function FieldsOf(items: seq<ProductionOrderItem>): (fs: seq<ItemFields>)
    ensures |fs| == |items| && forall i :: 0 <= i < |items| ==> fs[i] == items[i].fields
  {
    seq(|items|, i requires 0 <= i < |items| => items[i].fields)
  }

  lemma FieldsOfAppend(a: seq<ProductionOrderItem>, b: seq<ProductionOrderItem>)
    ensures FieldsOf(a + b) == FieldsOf(a) + FieldsOf(b)
  {
  }

  /** `createProductionOrderItem`. After the guards, every spec is walked in
      order and one item is created per stage FLOW_MAP knows, as
      `ProductionRouting.Routing` specifies; the local FLOW_MAP entry for
      slitting is switched to cutting by the first spec listing cutting and
      stays switched for the rest of the call. The order moves to preparing
      when at least one item was created. */
  method CreateProductionOrderItem(db: ProductionDb, orderId: nat, specs: seq<ItemSpec>, role: string)
    returns (r: Result<seq<ProductionOrderItem>, ProductionError>)
    requires db.Valid()
    modifies db
    ensures db.Valid()
    ensures var f := CreateItemsFailure(old(db.orders), orderId, role);
      && (f.Some? ==> r == Err(f.value) && unchanged(db))
      && (f.None? ==> r.Ok?)
    ensures r.Ok? ==>
      && FieldsOf(r.value) == Routing(specs)
      && (forall i :: 0 <= i < |r.value| ==> r.value[i].id == old(db.nextItemId) + i && r.value[i].orderId == orderId)
      && db.items == old(db.items) + r.value
      && db.orders == old(db.orders)[orderId :=
           if r.value != [] then old(db.orders)[orderId].(status := PREPARING) else old(db.orders)[orderId]]
      && db.processes == old(db.processes)
  {
    var f := CreateItemsFailure(db.orders, orderId, role);
    if f.Some? {
      return Err(f.value);
    }
    var created := CreateRoutedItems(db, orderId, specs);
    if created != [] {
      db.SetOrderStatus(orderId, PREPARING);
    }
    r := Ok(created);
  }

  /** The outer loop of `createProductionOrderItem`: each spec in turn,
      with the slitting destination switched to cutting from the first
      spec that lists cutting on. */
  method CreateRoutedItems(db: ProductionDb, orderId: nat, specs: seq<ItemSpec>)
    returns (created: seq<ProductionOrderItem>)
    requires db.Valid() && orderId in db.orders
    modifies db
    ensures db.Valid()
    ensures FieldsOf(created) == Routing(specs)
    ensures Numbered(created, old(db.nextItemId), orderId)
    ensures db.items == old(db.items) + created && db.nextItemId == old(db.nextItemId) + |created|
    ensures db.orders == old(db.orders) && db.processes == old(db.processes)
  {
    ghost var base, before := db.nextItemId, db.items;
    created := [];
    var slittingDestination := PRODUCTION;
    var i := 0;
    while i < |specs|
      invariant 0 <= i <= |specs|
      invariant db.Valid() && orderId in db.orders
      invariant slittingDestination == SlittingDestination(specs[..i])
      invariant FieldsOf(created) == Routing(specs[..i])
      invariant Numbered(created, base, orderId)
      invariant db.items == before + created && db.nextItemId == base + |created|
      invariant db.orders == old(db.orders) && db.processes == old(db.processes)
    {
      var spec := specs[i];
      if CUTTING in spec.productionTypes {
        slittingDestination := CUTTING;
      }
      RoutingSnoc(specs, i);
      var made := CreateSpecItems(db, orderId, spec, slittingDestination);
      FieldsOfAppend(created, made);
      NumberedAppend(before, created, made, base, orderId);
      created := created + made;
      i := i + 1;
    }
    assert specs[..|specs|] == specs;
  }

  /** Items numbered consecutively from `base`, all of order `orderId`. */
  predicate Numbered(items: seq<ProductionOrderItem>, base: nat, orderId: nat) {
    forall k :: 0 <= k < |items| ==> items[k].id == base + k && items[k].orderId == orderId
  }

  lemma NumberedSnoc(before: seq<ProductionOrderItem>, made: seq<ProductionOrderItem>, item: ProductionOrderItem,
                     base: nat, orderId: nat)
    requires Numbered(made, base, orderId) && item.id == base + |made| && item.orderId == orderId
    ensures Numbered(made + [item], base, orderId)
    ensures FieldsOf(made + [item]) == FieldsOf(made) + [item.fields]
    ensures before + made + [item] == before + (made + [item])
  {
    FieldsOfAppend(made, [item]);
  }

  lemma NumberedAppend(before: seq<ProductionOrderItem>, a: seq<ProductionOrderItem>, b: seq<ProductionOrderItem>,
                       base: nat, orderId: nat)
    requires Numbered(a, base, orderId) && Numbered(b, base + |a|, orderId)
    ensures Numbered(a + b, base, orderId)
    ensures before + a + b == before + (a + b)
  {
  }

  /** The inner loop of `createProductionOrderItem`: one item per stage of
      `spec` that FLOW_MAP knows, each sourced from the stage before it. */
  method CreateSpecItems(db: ProductionDb, orderId: nat, spec: ItemSpec, slittingDestination: string)
    returns (made: seq<ProductionOrderItem>)
    requires db.Valid() && orderId in db.orders
    modifies db
    ensures db.Valid()
    ensures FieldsOf(made) == SpecDrafts(spec, spec.productionTypes, slittingDestination)
    ensures Numbered(made, old(db.nextItemId), orderId)
    ensures db.items == old(db.items) + made && db.nextItemId == old(db.nextItemId) + |made|
    ensures db.orders == old(db.orders) && db.processes == old(db.processes)
  {
    ghost var base, before, orders, processes := db.nextItemId, db.items, db.orders, db.processes;
    var types := spec.productionTypes;
    var currentSource := PRODUCTION;
    made := [];
    var j := 0;
    while j < |types|
      invariant 0 <= j <= |types|
      invariant db.Valid() && orderId in db.orders
      invariant currentSource == SourceAfter(types[..j])
      invariant FieldsOf(made) == SpecDrafts(spec, types[..j], slittingDestination)
      invariant Numbered(made, base, orderId)
      invariant db.items == before + made && db.nextItemId == base + |made|
      invariant db.orders == orders && db.processes == processes
    {
      made, currentSource := CreateStage(db, orderId, spec, types, j, currentSource, slittingDestination, made, base, before);
      j := j + 1;
    }
    assert types[..|types|] == types;
  }

  /** One pass of the inner loop: stage `types[j]` gets an item when FLOW_MAP
      knows it, sourced from the previous known stage (or the warehouse). */
  method CreateStage(db: ProductionDb, orderId: nat, spec: ItemSpec, types: seq<string>, j: nat,
                     currentSource: string, slittingDestination: string, made: seq<ProductionOrderItem>,
                     ghost base: nat, ghost before: seq<ProductionOrderItem>)
    returns (made': seq<ProductionOrderItem>, source': string)
    requires db.Valid() && orderId in db.orders && j < |types|
    requires currentSource == SourceAfter(types[..j])
    requires FieldsOf(made) == SpecDrafts(spec, types[..j], slittingDestination)
    requires Numbered(made, base, orderId)
    requires db.items == before + made && db.nextItemId == base + |made|
    modifies db
    ensures db.Valid()
    ensures source' == SourceAfter(types[..j + 1])
    ensures FieldsOf(made') == SpecDrafts(spec, types[..j + 1], slittingDestination)
    ensures Numbered(made', base, orderId)
    ensures db.items == before + made' && db.nextItemId == base + |made'|
    ensures db.orders == old(db.orders) && db.processes == old(db.processes)
  {
    var t := types[j];
    SpecDraftsSnoc(spec, types, j, slittingDestination);
    made', source' := made, currentSource;
    if IsFlowType(t) {
      var source := if t == WAREHOUSE then WAREHOUSE else currentSource;
      var item := db.CreateItem(orderId, Draft(spec, t, source, FlowDestination(t, slittingDestination)));
      NumberedSnoc(before, made, item, base, orderId);
      made', source' := made + [item], t;
    }
  }
}
