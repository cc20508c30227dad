# Production and sales back-office: a Dafny model

This project models the core of a back-office API for a factory that cuts
and glues rulers to order. The sales side takes customer orders, prices their
lines from a price-per-meter table and invoices completed orders against the
customer's balance. The production side turns a production order into
per-stage work items and records the production processes carried out on
them. Every route sits behind a role guard.

The model covers:

- **Production orders** (`ProductionOrders`, over the store class
  `ProductionStore.ProductionDb`):
  - the role-to-production-type table;
  - the item routing engine, which expands each item specification into a
    chain of stage items (warehouse, slitting, cutting, gluing) with
    sources and destinations;
  - the create, read, update and delete operations, with their 404/403/400
    guards.
- **The routing itself** (`ProductionRouting`): the same engine as pure
  functions, with lemmas about the shape of the chain and the "slitting goes
  to cutting once a cutting stage has been seen" override.
- **Production processes** (`ProductionProcesses`):
  - recording, updating, reading and deleting processes;
  - the paged, newest-first listing.
- **Sales orders** (`Orders`, over `SalesStore.SalesDb`):
  - width tiers and unit-price lookup;
  - the per-line subtotal, where `toFixed(2)` is applied per piece;
  - the reference checks;
  - the order total;
  - replacing an order's lines on update, which prices them differently;
  - deletion, which is refused while invoices exist.
- **Invoices** (`Invoices`): creating, amending, deleting and paying an
  invoice, and what each one does to the customer's balance. Each operation
  is stated against a per-customer ledger, "balance less outstanding
  remaining amounts".
- **Duration strings** (`Duration`): `durationToMs` (for example "15m" or
  "2H") and the `expiresIn` seconds derived from it.
- **The role guard** (`RoleGate`): `requireRole`, which answers 401, answers
  403 or passes the request on.
- **Permissions** (`Permissions`): for each kind of request, who gets
  through both the route's role list and the service's own role test.

Amounts are exact reals, and JavaScript's `toFixed(2)` is modelled exactly
(`Money.Round2`). The database is modelled as maps and sequences held by a
store class. Auto-increment ids are counters. A database refusal (a unique
index, an invalid query argument, a missing column value) becomes the
`StoreRejected` error. Each error's `Status()` is the `statusCode` the
service attaches, or 500 for an error that carries none (a store refusal,
or an `Error` thrown without a status code): the status that the error
middleware of middlewares/error.middleware.js (line 14) would answer. The
handler that app.js actually installs answers differently; "## Left out"
says how. Where the code's behaviour is surprising, the
model follows the code. Examples:

- The cutting override lasts for one request only, because the flow map is
  a local constant.
- Updating an order's lines prices them without the length
  (`Orders.UpdateIgnoresLength`).
- Amending an invoice recomputes the remaining amount from the order
  total but keeps the invoice total (`Invoices.AmendedSettledIff`).

## Model

| member | source | states |
|---|---|---|
| Duration.MatchComplete | utils/jwt.js:39 | a trimmed string of digits, optional spaces and one unit letter in s/m/h/d/w (either case) matches, giving the digits' value and the lower-cased unit |
| Duration.MatchSound | utils/jwt.js:39-40 | anything the pattern matches has that shape and that parse |
| Duration.NoShapeIsZero | utils/jwt.js:37-40 | a string without that shape (after trimming) gives 0 ms |
| Duration.DurationOfShape | utils/jwt.js:37-54 | a well-formed duration gives value × the unit's milliseconds (1000, 60000, 3600000, 86400000, 604800000) |
| Duration.UnitCaseIrrelevant | utils/jwt.js:43 | an upper-case unit letter gives the same duration as the lower-case one |
| Duration.ExpiresInExact | utils/jwt.js:155 | for a well-formed duration the milliseconds are a whole number of seconds, so `floor(ms / 1000)` is value × the unit's seconds exactly |
| Duration.MonotoneInValue | utils/jwt.js:37-54 | with the same unit, a larger number never gives a shorter duration |
| Duration.ExampleZero | utils/jwt.js:38 | an absent or empty string, and "0s", give 0 |
| Duration.ExampleMinutes | utils/jwt.js:37-54 | "15m" is 900000 ms |
| Duration.ExampleUpperCase | utils/jwt.js:39-43 | "2H" and "2h" are both 7200000 ms |
| Duration.ExampleFraction | utils/jwt.js:39-40 | "1.5h" does not match and gives 0 |
| RoleGate.RequireRole | middlewares/role.middleware.js:3-23 | 401 exactly when there is no user; 403 exactly when the user's role is not listed; `next()` exactly when it is |
| RoleGate.RequireAnyOf | middlewares/role.middleware.js:3 | with the default empty list, every authenticated user gets 403 and an anonymous one gets 401 |
| Money.Round2 | services/order.service.js:137-138 | `toFixed(2)` gives a whole number of cents within half a cent of the amount, with the sign kept |
| Money.Round2OfCents | services/order.service.js:154 | rounding an amount already in cents leaves it unchanged |
| Money.Round2Idempotent | services/order.service.js:137-154 | rounding a rounded amount again changes nothing |
| Money.Round2Monotone | services/order.service.js:137-154 | rounding preserves the order of amounts |
| ProductionOrders.RolePermissionsTable | services/productionOrder.service.js:15-45 | managers may access all four stages; each keeper or technician role only its own; every other role none |
| ProductionOrders.AccessOnlyToStages | services/productionOrder.service.js:15-28 | a role may access only one of the four stage types, and managers may access every one |
| ProductionOrders.VisibleItemsMembership | services/productionOrder.service.js:541-557 | an item is listed exactly when it belongs to the order and the role may access its type |
| ProductionOrders.VisibleItemsAscending | services/productionOrder.service.js:541-557 | the listing keeps the id order of the store |
| ProductionOrders.GetProductionOrderItemsByType | services/productionOrder.service.js:541-557 | 404 for a missing order; otherwise exactly the order's items whose type the role may access, in id order |
| ProductionOrders.ItemAccessFailure | services/productionOrder.service.js:356-373 | 404 exactly when the item is missing; 403 exactly when it exists and the role may not access its type |
| ProductionOrders.GetProductionOrderItemById | services/productionOrder.service.js:356-373 | fails with the access failure, otherwise returns the stored item with that id, of a type the role may access |
| ProductionOrders.UpdateProductionOrderItemStatus | services/productionOrder.service.js:450-474 | after the access guard, only that item's status changes: to the sent status, or not at all when none is sent |
| ProductionOrders.ApplyItemPatch | services/productionOrder.service.js:479-503 | the modelled patch (width, length, quantity, status, notes) never changes the item's stage type, source or destination |
| ProductionOrders.UpdateProductionOrderItem | services/productionOrder.service.js:479-503 | after the access guard, only that item's editable columns change |
| ProductionOrders.DeleteProductionOrderItem | services/productionOrder.service.js:508-536 | 404, then 403 for non-managers, then 400 while processes are linked; success exactly otherwise, removing just that item |
| ProductionOrders.DeleteProductionOrder | services/productionOrder.service.js:321-351 | 404, then 403, then 400 while the order has any item; success exactly otherwise, removing just the order |
| ProductionOrders.CreateOrderFailure | services/productionOrder.service.js:141-171 | 403 for non-managers, then 404 for a missing ruler, batch or item kind, in that order, each as an iff; no failure exactly when a manager names an existing ruler, batch and item kind |
| ProductionOrders.CreateProductionOrder | services/productionOrder.service.js:141-240 | on success a new order with the next id, status defaulting to pending and an empty note stored as null; no item is created |
| ProductionOrders.UpdateOrderFailure | services/productionOrder.service.js:245-289 | 404, then 403, then 404 for a supplied missing ruler, batch or item kind, checked in that order, each as an iff; no failure exactly otherwise |
| ProductionOrders.UpdateProductionOrder | services/productionOrder.service.js:245-316 | on success only that order changes, to the patched value |
| ProductionOrders.CreateItemsFailure | services/productionOrder.service.js:383-400 | 404 for a missing order, 403 for non-managers, 400 unless the order is pending |
| ProductionOrders.CreateProductionOrderItem | services/productionOrder.service.js:378-448 | the created items are exactly the routing of the specifications, appended with consecutive ids; the order becomes preparing exactly when something was created |
| ProductionOrders.CreateRoutedItems | services/productionOrder.service.js:409-436 | walking all specifications creates exactly their routing, with the slitting override switched on by the first one listing cutting, appended with consecutive ids of that order |
| ProductionOrders.CreateSpecItems | services/productionOrder.service.js:412-435 | one specification creates exactly its chain of stage items, with consecutive ids |
| ProductionOrders.CreateStage | services/productionOrder.service.js:417-434 | a stage FLOW_MAP knows adds one item sourced from the previous known stage (or the warehouse) and becomes the next source; an unknown stage adds nothing |
| ProductionRouting.SourceAfterIsLastKnown | services/productionOrder.service.js:411-435 | the next stage's source is the last known stage seen so far, or production when there is none |
| ProductionRouting.SpecDraftsShape | services/productionOrder.service.js:402-435 | one item per known stage in the given order; warehouse is its own source; every other stage's source is the previous stage (production for the first); destinations come from the flow map; status pending; sizes copied |
| ProductionRouting.MentionsCuttingIff | services/productionOrder.service.js:413-414 | the override is on exactly when some specification so far lists cutting |
| ProductionRouting.OverrideSticky | services/productionOrder.service.js:402-414 | once the slitting destination has become cutting within a request, it stays cutting for the rest of that request |
| ProductionRouting.RoutingLength | services/productionOrder.service.js:411-436 | one item is created per known stage type over all specifications; unknown types are skipped |
| ProductionRouting.RoutingExtends | services/productionOrder.service.js:411-436 | the items of the first specifications are a prefix of the whole result |
| ProductionRouting.RoutingNonEmptyIff | services/productionOrder.service.js:438-440 | something is created exactly when some specification names a known stage |
| ProductionRouting.ChainExample | services/productionOrder.service.js:402-435 | warehouse, slitting, cutting gives warehouse→slitting, slitting (from warehouse)→cutting, cutting (from slitting)→gluing |
| ProductionRouting.CuttingOnlyExample | services/productionOrder.service.js:402-435 | a cutting-only specification gives one item from production to gluing |
| ProductionRouting.StickyOverrideExample | services/productionOrder.service.js:413-414 | slitting goes to cutting after a cutting specification and to production before one |
| ProductionProcesses.CanAccessProcessRoles | services/productionProcess.service.js:7-16 | managers may record processes; warehouse-products, sales, accountant and cashier may not |
| ProductionProcesses.CreateFailure | services/productionProcess.service.js:21-55 | 403, then 404 for a missing item, then 400 for an item not pending, 400 for a stage other than cutting or gluing, 400 for a barcode already used, each as an iff in that order; success exactly otherwise |
| ProductionProcesses.CreateProductionProcess | services/productionProcess.service.js:21-82 | on success exactly one process is appended, with the next id and the caller as its user; the process counter grows by one and nothing else changes |
| ProductionProcesses.ApplyProcessPatch | services/productionProcess.service.js:87-112 | the modelled patch (lengths, width, waste, barcode, notes) never changes a process's id, item or user |
| ProductionProcesses.UpdateProductionProcess | services/productionProcess.service.js:87-112 | 404, then 403; a barcode another process carries is refused by the store (StoreRejected, and no other error past the guards); on success only that process changes, counters included |
| ProductionProcesses.GetProductionProcessById | services/productionProcess.service.js:117-139 | 403, then 404; otherwise the stored process with that id |
| ProductionProcesses.DeleteProductionProcess | services/productionProcess.service.js:178-202 | 403 for non-managers, then 404; on success only that process is removed, counters unchanged |
| ProductionProcesses.NumberOr | services/productionProcess.service.js:151-152 | `Number(x) \|\| d` keeps a non-zero value, and an absent or zero value gives the default |
| ProductionProcesses.Window | services/productionProcess.service.js:153-165 | a skip/take window: its length, and the slice it is when it fits |
| ProductionProcesses.Selected | services/productionProcess.service.js:155-166 | exactly the processes matching the item filter |
| ProductionProcesses.GetAllProductionProcesses | services/productionProcess.service.js:144-173 | 403; a negative skip is refused; success exactly otherwise, with the page window of the filtered newest-first list and the full count |
| ProductionProcesses.SelectedNewestFirst | services/productionProcess.service.js:166 | the listing is in strictly descending id order |
| ProductionProcesses.ConsecutiveWindows | services/productionProcess.service.js:153-165 | consecutive pages put together are the combined window |
| ProductionProcesses.DefaultFirstPage | services/productionProcess.service.js:151-153 | without page and limit, the first 20 processes are listed |
| Orders.WidthTier | services/order.service.js:114-117 | width 22, 44 and 66 give their meter tiers, each exactly; every other width gives the blank tier |
| Orders.ResolveUnitPrice | services/order.service.js:120-135 | a supplied non-zero unit price is kept; otherwise the price row for the ruler and tier is used, and a missing row is a 400 naming both |
| Orders.LineSubtotalRoundsPerPiece | services/order.service.js:137-138 | a subtotal is the quantity times a whole number of cents within half a cent of price × length |
| Orders.RoundingBeforeQuantity | services/order.service.js:137-138 | 0.333 × 1 × 3 is billed 0.99, where rounding the product would give 1.00 |
| Orders.FirstMissingReferenceIsFirst | services/order.service.js:93-107 | no failure exactly when every line's ruler and batch exist; otherwise the first bad line is named, ruler before batch |
| Orders.PriceAllPointwise | services/order.service.js:113-135 | pricing succeeds exactly when every line's price resolves, and then each line gets its own resolved price |
| Orders.CreateOrderFailure | services/order.service.js:76-135 | 404 for a missing customer, then 400 for no lines, then the first missing ruler or batch (404), then the first missing price (400); success exactly when none applies |
| Orders.CreateOrder | services/order.service.js:76-225 | on success an order with the next id, status defaulting to pending and total `toFixed(2)` of the summed subtotals, plus one stored item per line with its price and subtotal |
| Orders.CheckReferences | services/order.service.js:93-107 | the check loop finds exactly the first missing reference |
| Orders.PriceLines | services/order.service.js:110-145 | the pricing loop fails exactly as the pricing specification does, and otherwise gives the prices and the sum of the subtotals |
| Orders.Subtotals | services/order.service.js:137-138 | each line's subtotal is its rounded price × length times its quantity |
| Orders.StoredItems | services/order.service.js:137-157 | each stored item copies its line, with the resolved price and the subtotal |
| Orders.CreatedTotalMatchesItems | services/order.service.js:110-157 | the order total before rounding is the sum of the stored items' subtotals |
| Orders.GetOrderById | services/order.service.js:60-70 | found exactly when the id is stored; otherwise 404 |
| Orders.ParseInt | services/order.service.js:270 | `parseInt` of a number truncates toward zero |
| Orders.ReplacementItems | services/order.service.js:269-292 | each replacement item copies its line, with subtotal unit price × the truncated quantity |
| Orders.ReplacementTotalMatchesItems | services/order.service.js:268-276 | the new order total is the sum of the replacement items' subtotals |
| Orders.UpdateIgnoresLength | services/order.service.js:268-276 | the same line (price 10, length 2.5, quantity 2) is billed 50 when the order is created and 20 when its lines are replaced |
| Orders.ApplyOrderUpdate | services/order.service.js:279-327 | the modelled update (customer, status, notes) keeps the salesperson, and the total changes only through replaced lines |
| Orders.UpdateOrderFailure | services/order.service.js:230-329 | 404 for a missing order, then 404 for a supplied missing customer; with lines, the first missing ruler or batch is a 404 naming it, and an empty list or a line without a unit price is refused by the store (500); each as an iff, success exactly otherwise |
| Orders.UpdateOrder | services/order.service.js:230-329 | with lines, the order's items are replaced and the total recomputed; without, only the order's fields change; customers and invoices are untouched |
| Orders.DeleteOrder | services/order.service.js:334-361 | 404, then 400 while invoices exist; success exactly otherwise, removing the order and its items |
| SalesStore.OutstandingAppend | services/invoice.service.js:79-100 | a new invoice adds its remaining amount to its customer's outstanding total |
| SalesStore.OutstandingUpdate | services/invoice.service.js:136-157 | replacing an invoice swaps its old remaining amount for the new one |
| SalesStore.OutstandingRemove | services/invoice.service.js:172-188 | removing an invoice takes its remaining amount off |
| SalesStore.Credit | services/invoice.service.js:92-97 | an increment touches one customer's balance only |
| Invoices.AppendKeepsLedger | services/invoice.service.js:79-100 | creating an invoice and crediting the customer its remaining amount keeps every customer's balance less outstanding |
| Invoices.ReplaceShiftsLedger | services/invoice.service.js:136-157 | amending an invoice and crediting the difference keeps the ledger, up to the stated shift |
| Invoices.RemoveKeepsLedger | services/invoice.service.js:172-188 | deleting an invoice and debiting its remaining amount keeps the ledger |
| Invoices.CreateFailure | services/invoice.service.js:64-75 | the order must exist, be completed and not be invoiced yet, and the paid amount may not exceed its total, each failure stated as an iff in that order; each failure is a 500 |
| Invoices.CreateInvoice | services/invoice.service.js:64-103 | on success the invoice has the order's total, remaining = total − paid ≥ 0, the customer is credited the remaining amount when positive, and the ledger is kept |
| Invoices.GetInvoiceById | services/invoice.service.js:49-59 | found exactly when the id is stored; otherwise 404 |
| Invoices.Amended | services/invoice.service.js:108-160 | an amendment keeps the invoice total and sets remaining = order total − paid |
| Invoices.UpdateInvoice | services/invoice.service.js:108-160 | 404 for a missing invoice or order, 400 when paid exceeds the order total; otherwise the amendment, the customer credited the difference, the ledger kept |
| Invoices.ReplaceInvoiceAt | services/invoice.service.js:136-156 | the update transaction replaces just that invoice and credits its customer the change in remaining amount, keeping the ledger |
| Invoices.AmendedSettledIff | services/invoice.service.js:123-143 | an amended invoice keeps remaining = total − paid exactly when the order total equals the invoice total |
| Invoices.DeleteInvoice | services/invoice.service.js:164-191 | 404 exactly when missing; otherwise the invoice is removed, its remaining amount debited, the ledger kept |
| Invoices.RemoveInvoiceAt | services/invoice.service.js:172-187 | the delete transaction removes just that invoice and debits its customer the remaining amount, keeping the ledger |
| Invoices.PaymentFailure | services/invoice.service.js:196-207 | 404 for a missing invoice; then a non-positive payment, then paid + payment above the total, both a 500; each failure as an iff in that order, success exactly otherwise |
| Invoices.AddPayment | services/invoice.service.js:196-245 | on success paid grows by the payment, remaining = total − paid ≥ 0, the balance drops by the payment, and the ledger shifts only by the invoice's earlier drift |
| Permissions.ProductionOrderWritesOnlyAdmin | routes/productionOrder.routes.js:39-41 | creating, updating or deleting a production order gets through the route and the service exactly for admin |
| Permissions.ItemListingEmptyForSalesSide | routes/productionOrder.routes.js:47 | sales and accountants pass the items route but always get an empty list |
| Permissions.ItemRouteMatchesTable | routes/productionOrder.routes.js:49 | the single-item route admits exactly the roles the type table grants some stage |
| Permissions.ItemWritesOnlyManagers | routes/productionOrder.routes.js:50-52 | the item write routes admit only managers, whom the service's type check never refuses |
| Permissions.ProcessReadRouteMatchesService | routes/productionProcess.router.js:27-28 | the process read routes admit exactly the roles the service admits |
| Permissions.ProcessWritesOnlyManagers | routes/productionProcess.router.js:29-31 | the process write routes admit only managers, so technicians the service would admit cannot record processes |

## Left out

- Floating point: amounts are exact reals, so IEEE double rounding (and `toFixed` on values such as 1.005 whose binary form sits below the half) is not modelled. The same holds for Duration.ExpiresInExact, whose `Number(value) * multiplier` is exact integer arithmetic in the model rather than a double that loses precision past 2^53, and for Orders.ParseInt, which truncates the number exactly where `parseInt` goes through the number's string form (so `parseInt(1e21)` is 1).
- NaN and non-numeric input: a `page` or `limit` that is not a number, fractional page values and numeric strings too long for a double are not modelled; the model takes integers.
- Role names and production types such as "constructor" that JavaScript would find on an object's prototype: the role table and the flow map are plain maps.
- Orders.WidthTier: a width sent as a JSON string is compared with `===` in the code and would always fall to the blank tier; the model takes widths as numbers.
- ProductionOrders.CreateProductionOrderItem: the code creates items outside a transaction, so a failure half-way leaves the items already created; the model has no failing store write inside the loop.
- ProductionProcesses.GetAllProductionProcesses: newest-first ordering is by creation time in the code and by id in the model, assuming ids are issued in creation order.
- ProductionProcesses.Window: a negative `take` is read as counting back from the end of the list, following the database client's documented behaviour.
- Orders.UpdateOrder: replacement lines always carry a ruler and a batch id (the code skips the check for a falsy id; ids here are positive), and a line without a unit price is refused by the store.
- ProductionOrders.ApplyItemPatch: the code writes the whole request body (`updateById(id, data)`), and the validator does not strip other keys, so a request could also rewrite an item's type, source, destination or order; the model's patch carries only the validated columns, so it does not capture those writes.
- ProductionProcesses.ApplyProcessPatch: the code passes the whole request body to the store, and the validator does not strip other keys, so a request could also rewrite a process's item or user; the model's patch carries only the validated columns, so it does not capture those writes.
- ProductionOrders.UpdateProductionOrderItemStatus: the route has no body rule, so a status of another JSON type reaches the store; the model takes a string or nothing, and does not model the store's handling of other types.
- Updates that spread the request body (`...data`), or pass it whole as ProductionOrders.UpdateProductionOrder does (`updateById(id, data)`), can also write columns the services do not validate, for example an invoice's customer or an order's salesperson; the model's patches carry only the documented fields.
- Orders.ApplyOrderUpdate: `updateOrder` spreads the request body into the order update, so a request could also rewrite `sales_user_id`; the modelled update carries only customer, status and notes and does not capture that write.
- Invoices.UpdateInvoice: the fallback `order.total_amount ?? existingInvoice.total_amount` never applies, because every modelled order carries a total; the model always uses the order's total.
- The list endpoints for production orders, sales orders and invoices, and the response shaping of getProductionOrderById, only read and format; they are not modelled.
- Slitting records (slites), warehouse stock movements and discounts: their services are not part of this model.
- Authentication, one-time codes, token signing and refresh: only the duration arithmetic of utils/jwt.js is modelled.
- Controllers, request validators, the logger and the catalog services (rulers, batches, constant values, prices): the catalog is modelled as data that is only looked up.
- Order-item handlers that the order routes name (adding, updating, deleting one item, changing the status) are not part of this model.
- HTTP answers: the global handler app.js installs (lines 172-200) is not middlewares/error.middleware.js. It ignores `statusCode`, so the services' 400, 403 and 404 reach the client as 500; it answers a unique-index refusal (Prisma P2002, such as ProductionProcesses.UpdateProductionProcess's barcode clash) with 409 and a missing record (P2025) with 404. In addition, app.js (lines 141-152) mounts no production-order, production-process or invoice routes. The model states the services' own statuses and does not model what that handler sends or which routes are mounted.
- Concurrency: every operation runs alone; transactions are modelled as atomic.
