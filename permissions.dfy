/** Who can actually perform an operation: the route's `requireRole` list
    (routes/productionOrder.routes.js, routes/productionProcess.router.js)
    composed with the role test inside the service it calls. A request
    must pass both. */
module Permissions {
  import opened Wrappers
  import opened Roles
  import opened RoleGate
  import opened ProductionStore
  import ProductionRouting
  import ProductionOrders
  import ProductionProcesses

  const PRODUCTION_ROUTE_ROLES: seq<string> := [ADMIN, PRODUCTION_MANAGER, SALES, ACCOUNTANT]
  const SALES_ROUTE_ROLES: seq<string> := [ADMIN, SALES]
  const MANAGER_ROUTE_ROLES: seq<string> := [ADMIN, PRODUCTION_MANAGER]
  const ITEM_ROUTE_ROLES: seq<string> := [ADMIN, PRODUCTION_MANAGER, WAREHOUSE_KEEPER, WAREHOUSE_PRODUCTS,
                                          DISSECTION_TECHNICIAN, CUTTING_TECHNICIAN, GLUING_TECHNICIAN]
  const PROCESS_ROUTE_ROLES: seq<string> := [ADMIN, PRODUCTION_MANAGER, WAREHOUSE_KEEPER,
                                             DISSECTION_TECHNICIAN, CUTTING_TECHNICIAN, GLUING_TECHNICIAN]

  /** Creating, updating or deleting a production order: the route admits
      admin and sales, the service only managers, so only admin gets
      through. */
  lemma ProductionOrderWritesOnlyAdmin(user: User)
    ensures Admits(SALES_ROUTE_ROLES, user) && IsManager(user.role) <==> user.role == ADMIN
  {
  }

  /** Listing an order's items: sales and accountants pass the route but
      may see no production type, so they always get an empty list. */
  lemma ItemListingEmptyForSalesSide(user: User, items: seq<ProductionOrderItem>, orderId: nat)
    requires Admits(PRODUCTION_ROUTE_ROLES, user) && !IsManager(user.role)
    ensures ProductionOrders.VisibleItems(items, orderId, ProductionOrders.AllowedProductionTypes(user.role)) == []
  {
    ProductionOrders.RolePermissionsTable(user.role);
    var r := ProductionOrders.VisibleItems(items, orderId, ProductionOrders.AllowedProductionTypes(user.role));
    if r != [] {
      ProductionOrders.VisibleItemsMembership(items, orderId, ProductionOrders.AllowedProductionTypes(user.role), r[0]);
      assert false;
    }
  }

  /** Reading one item: the route admits exactly the roles the type table
      grants some production type. */
  lemma ItemRouteMatchesTable(user: User)
    ensures Admits(ITEM_ROUTE_ROLES, user) <==> ProductionOrders.AllowedProductionTypes(user.role) != []
  {
    ProductionOrders.RolePermissionsTable(user.role);
  }

  /** Updating an item's status or columns: the route admits only
      managers, and managers may access every stage, so the service's
      type check never refuses a request that reached it. */
  lemma ItemWritesOnlyManagers(user: User, t: string)
    requires Admits(MANAGER_ROUTE_ROLES, user) && ProductionRouting.IsFlowType(t)
    ensures ProductionOrders.CanAccessProductionType(user.role, t)
  {
    ProductionOrders.AccessOnlyToStages(user.role, t);
  }

  /** Reading and listing processes: the route list is exactly the
      service's own test. */
  lemma ProcessReadRouteMatchesService(user: User)
    ensures Admits(PROCESS_ROUTE_ROLES, user) <==> ProductionProcesses.CanAccessProcess(user.role)
  {
  }

  /** Recording or amending a process: the service admits six production
      roles but the route only managers, so technicians cannot record
      processes through the API. */
  lemma ProcessWritesOnlyManagers(user: User)
    ensures Admits(MANAGER_ROUTE_ROLES, user) && ProductionProcesses.CanAccessProcess(user.role) <==> IsManager(user.role)
    ensures user.role == CUTTING_TECHNICIAN ==> ProductionProcesses.CanAccessProcess(user.role) && !Admits(MANAGER_ROUTE_ROLES, user)
  {
  }
}
