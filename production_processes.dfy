/** services/productionProcess.service.js: recording, amending, reading,
    listing and deleting the processes a technician logs against a cutting
    or gluing item. */
module ProductionProcesses {
  import opened Wrappers
  import opened JsValues
  import opened Roles
  import opened ProductionStore

  datatype ProcessError =
    | NotPermitted
    | ItemNotFound
    | ItemNotPending
    | StageWithoutProcesses
    | BarcodeTaken
    | ProcessNotFound
    | StoreRejected
  {
    /** The `statusCode` the service attaches; a store error carries none,
        and middlewares/error.middleware.js would answer it with 500. */
    function Status(): nat {
      match this
      case NotPermitted => 403
      case ItemNotFound | ProcessNotFound => 404
      case ItemNotPending | StageWithoutProcesses | BarcodeTaken => 400
      case StoreRejected => 500
    }
  }

  /** `canAccessProcess` (lines 7-16): every production role except the
      finished-products keeper, and no sales or accounting role. */
  predicate CanAccessProcess(role: string) {
    role in [ADMIN, PRODUCTION_MANAGER, WAREHOUSE_KEEPER, DISSECTION_TECHNICIAN, CUTTING_TECHNICIAN, GLUING_TECHNICIAN]
  }

  lemma CanAccessProcessRoles(role: string)
    ensures IsManager(role) ==> CanAccessProcess(role)
    ensures role == WAREHOUSE_PRODUCTS || role == SALES || role == ACCOUNTANT || role == CASHIER
            ==> !CanAccessProcess(role)
  {
  }

  datatype NewProcess = NewProcess(
    itemId: nat,
    inputLength: real,
    outputLength: real,
    inputWidth: real,
    waste: Option<real>,
    barcode: string,
    notes: Option<string>)

  /** The failure `createProductionProcess` meets first: the role, a missing
      item, an item no longer pending, a stage other than cutting or
      gluing, then a barcode already in use. */
  function CreateFailure(items: seq<ProductionOrderItem>, processes: seq<ProductionProcess>, data: NewProcess, role: string)
    : (f: Option<ProcessError>)
    ensures f == Some(NotPermitted) <==> !CanAccessProcess(role)
    ensures f == Some(ItemNotFound) <==> CanAccessProcess(role) && FindItem(items, data.itemId).None?
    ensures f.None? <==> (CanAccessProcess(role) && FindItem(items, data.itemId).Some?
      && items[FindItem(items, data.itemId).value].fields.status == PENDING
      && items[FindItem(items, data.itemId).value].fields.productionType in {CUTTING, GLUING}
      && !BarcodeUsed(processes, data.barcode))
    ensures var found := FindItem(items, data.itemId);
      f == Some(ItemNotPending) <==> (CanAccessProcess(role) && found.Some?
        && items[found.value].fields.status != PENDING)
    ensures var found := FindItem(items, data.itemId);
      f == Some(StageWithoutProcesses) <==> (CanAccessProcess(role) && found.Some?
        && items[found.value].fields.status == PENDING
        && items[found.value].fields.productionType !in {CUTTING, GLUING})
    ensures var found := FindItem(items, data.itemId);
      f == Some(BarcodeTaken) <==> (CanAccessProcess(role) && found.Some?
        && items[found.value].fields.status == PENDING
        && items[found.value].fields.productionType in {CUTTING, GLUING}
        && BarcodeUsed(processes, data.barcode))
    ensures f.Some? && f.value != NotPermitted && f.value != ItemNotFound ==> f.value.Status() == 400
  {
    if !CanAccessProcess(role) then Some(NotPermitted)
    else match FindItem(items, data.itemId)
      case None => Some(ItemNotFound)
      case Some(i) =>
        if items[i].fields.status != PENDING then Some(ItemNotPending)
        else if items[i].fields.productionType != CUTTING && items[i].fields.productionType != GLUING then Some(StageWithoutProcesses)
        else if BarcodeUsed(processes, data.barcode) then Some(BarcodeTaken)
        else None
  }

  /** `createProductionProcess`: after the guards the process is appended
      with the next id and the caller as its author. */
  method CreateProductionProcess(db: ProductionDb, data: NewProcess, userId: nat, role: string)
    returns (r: Result<ProductionProcess, ProcessError>)
    requires db.Valid()
    modifies db
    ensures db.Valid()
    ensures var f := CreateFailure(old(db.items), old(db.processes), data, role);
      && (f.Some? ==> r == Err(f.value) && unchanged(db))
      && (f.None? ==> r == Ok(ProductionProcess(old(db.nextProcessId), data.itemId, data.inputLength, data.outputLength,
                                                data.inputWidth, data.waste, data.barcode, userId, OrNull(data.notes))))
    ensures r.Ok? ==> (db.processes == old(db.processes) + [r.value]
      && db.orders == old(db.orders) && db.items == old(db.items)
      && db.nextProcessId == old(db.nextProcessId) + 1
      && db.nextOrderId == old(db.nextOrderId) && db.nextItemId == old(db.nextItemId))
  {
    var f := CreateFailure(db.items, db.processes, data, role);
    if f.Some? {
      return Err(f.value);
    }
    var p := ProductionProcess(db.nextProcessId, data.itemId, data.inputLength, data.outputLength,
                               data.inputWidth, data.waste, data.barcode, userId, OrNull(data.notes));
    assert HasItemId(db.items, p.itemId) by {
      var i := FindItem(db.items, data.itemId).value;
      assert db.items[i].id == p.itemId;
    }
    db.processes := db.processes + [p];
    db.nextProcessId := db.nextProcessId + 1;
    r := Ok(p);
  }

  /** The columns `updateProductionProcess` accepts; an absent one is kept. */
  datatype ProcessPatch = ProcessPatch(
    inputLength: Option<real>,
    outputLength: Option<real>,
    inputWidth: Option<real>,
    waste: Option<real>,
    barcode: Option<string>,
    notes: Option<string>)

  function ApplyProcessPatch(p: ProductionProcess, patch: ProcessPatch): (q: ProductionProcess)
    ensures q.id == p.id && q.itemId == p.itemId && q.userId == p.userId
  {
    p.(inputLength := if patch.inputLength.Some? then patch.inputLength.value else p.inputLength,
       outputLength := if patch.outputLength.Some? then patch.outputLength.value else p.outputLength,
       inputWidth := if patch.inputWidth.Some? then patch.inputWidth.value else p.inputWidth,
       waste := if patch.waste.Some? then patch.waste else p.waste,
       barcode := if patch.barcode.Some? then patch.barcode.value else p.barcode,
       notes := if patch.notes.Some? then patch.notes else p.notes)
  }

  /** Another process than the one at index `i` already carries `barcode`. */
  predicate BarcodeClash(processes: seq<ProductionProcess>, i: nat, barcode: string) {
    exists k :: 0 <= k < |processes| && k != i && processes[k].barcode == barcode
  }

  /** `updateProductionProcess`: 404, then 403; the patch is written as
      given, and the store's unique index on barcodes refuses one that
      another process already carries. */
  method UpdateProductionProcess(db: ProductionDb, processId: nat, patch: ProcessPatch, role: string)
    returns (r: Result<ProductionProcess, ProcessError>)
    requires db.Valid()
    modifies db
    ensures db.Valid()
    ensures FindProcess(old(db.processes), processId).None? ==> r == Err(ProcessNotFound)
    ensures FindProcess(old(db.processes), processId).Some? && !CanAccessProcess(role) ==> r == Err(NotPermitted)
    ensures FindProcess(old(db.processes), processId).Some? && CanAccessProcess(role) && r.Err?
      ==> r == Err(StoreRejected)
    ensures r.Err? ==> unchanged(db)
    ensures r.Ok? <==> (FindProcess(old(db.processes), processId).Some? && CanAccessProcess(role)
      && !BarcodeClash(old(db.processes), FindProcess(old(db.processes), processId).value,
                       ApplyProcessPatch(old(db.processes)[FindProcess(old(db.processes), processId).value], patch).barcode))
    ensures r.Ok? ==>
      var i := FindProcess(old(db.processes), processId).value;
      && r.value == ApplyProcessPatch(old(db.processes)[i], patch)
      && db.processes == old(db.processes)[i := r.value]
      && db.orders == old(db.orders) && db.items == old(db.items)
      && db.nextOrderId == old(db.nextOrderId) && db.nextItemId == old(db.nextItemId)
      && db.nextProcessId == old(db.nextProcessId)
  {
    var found := FindProcess(db.processes, processId);
    if found.None? {
      return Err(ProcessNotFound);
    }
    if !CanAccessProcess(role) {
      return Err(NotPermitted);
    }
    var i := found.value;
    var p := ApplyProcessPatch(db.processes[i], patch);
    if BarcodeClash(db.processes, i, p.barcode) {
      return Err(StoreRejected);
    }
    var ps := db.processes[i := p];
    forall a, b | 0 <= a < b < |ps|
      ensures ps[a].barcode != ps[b].barcode
    {
      if a != i && b != i {
        assert ps[a] == db.processes[a] && ps[b] == db.processes[b];
      }
    }
    db.processes := ps;
    r := Ok(p);
  }

  /** `getProductionProcessById`: 403 first, then 404. */
  method GetProductionProcessById(db: ProductionDb, processId: nat, role: string)
    returns (r: Result<ProductionProcess, ProcessError>)
    ensures !CanAccessProcess(role) ==> r == Err(NotPermitted)
    ensures CanAccessProcess(role) && FindProcess(db.processes, processId).None? ==> r == Err(ProcessNotFound)
    ensures r.Ok? <==> CanAccessProcess(role) && FindProcess(db.processes, processId).Some?
    ensures r.Ok? ==> r.value in db.processes && r.value.id == processId
  {
    if !CanAccessProcess(role) {
      return Err(NotPermitted);
    }
    var found := FindProcess(db.processes, processId);
    if found.None? {
      return Err(ProcessNotFound);
    }
    r := Ok(db.processes[found.value]);
  }

  /** `deleteProductionProcess`: 403 unless a manager, then 404. */
  method DeleteProductionProcess(db: ProductionDb, processId: nat, role: string)
    returns (r: Result<(), ProcessError>)
    requires db.Valid()
    modifies db
    ensures db.Valid()
    ensures !IsManager(role) ==> r == Err(NotPermitted)
    ensures IsManager(role) && FindProcess(old(db.processes), processId).None? ==> r == Err(ProcessNotFound)
    ensures r.Err? ==> unchanged(db)
    ensures r.Ok? <==> IsManager(role) && FindProcess(old(db.processes), processId).Some?
    ensures r.Ok? ==>
      var i := FindProcess(old(db.processes), processId).value;
      && db.processes == old(db.processes)[..i] + old(db.processes)[i + 1..]
      && db.orders == old(db.orders) && db.items == old(db.items)
      && db.nextOrderId == old(db.nextOrderId) && db.nextItemId == old(db.nextItemId)
      && db.nextProcessId == old(db.nextProcessId)
  {
    if !IsManager(role) {
      return Err(NotPermitted);
    }
    var found := FindProcess(db.processes, processId);
    if found.None? {
      return Err(ProcessNotFound);
    }
    db.RemoveProcess(found.value);
    r := Ok(());
  }

  // -----------------------------------------------------------------------
  // Listing (lines 144-173).

  /** `Number(x) || fallback` on a query parameter already read as an
      integer: `None` stands for an absent or non-numeric value (NaN), and
      zero is falsy too. */
  function NumberOr(x: Option<int>, fallback: int): (n: int)
    ensures n != 0 || fallback == 0
    ensures x.Some? && x.value != 0 ==> n == x.value
    ensures x.None? || x.value == 0 ==> n == fallback
  {
    if x.None? || x.value == 0 then fallback else x.value
  }

  /** The window a query reads: `skip` rows past the start, then `take`
      rows; a negative `take` counts backwards from the end instead. */
  function Window<T>(list: seq<T>, skip: nat, take: int): (w: seq<T>)
    ensures |w| <= |list|
    ensures take >= 0 ==> |w| == (if skip >= |list| then 0 else if skip + take <= |list| then take else |list| - skip)
    ensures take >= 0 && skip + take <= |list| ==> w == list[skip..skip + take]
  {
    if take >= 0 then
      var lo := if skip <= |list| then skip else |list|;
      var hi := if skip + take <= |list| then skip + take else |list|;
      list[lo..hi]
    else
      var hi := if skip <= |list| then |list| - skip else 0;
      var lo := if hi + take >= 0 then hi + take else 0;
      list[lo..hi]
  }

  /** The processes the filter selects, newest first (creation time grows
      with the id, so this is the store order reversed). */
  function Selected(processes: seq<ProductionProcess>, itemFilter: Option<nat>): (s: seq<ProductionProcess>)
    ensures |s| <= |processes|
    ensures forall p :: p in s <==> p in processes && (itemFilter.Some? ==> p.itemId == itemFilter.value)
  {
    if processes == [] then []
    else
      var last := processes[|processes| - 1];
      var rest := Selected(processes[..|processes| - 1], itemFilter);
      if itemFilter.None? || last.itemId == itemFilter.value then [last] + rest else rest
  }

  datatype Listing = Listing(processes: seq<ProductionProcess>, total: nat)

  /** `getAllProductionProcesses`: 403, then page and limit default to 1
      and 20, the page's window of the newest-first selection, and the
      size of the whole selection. A negative skip is refused by the
      store. */
  method GetAllProductionProcesses(db: ProductionDb, page: Option<int>, limit: Option<int>, itemFilter: Option<nat>, role: string)
    returns (r: Result<Listing, ProcessError>)
    ensures !CanAccessProcess(role) ==> r == Err(NotPermitted)
    ensures CanAccessProcess(role) && (NumberOr(page, 1) - 1) * NumberOr(limit, 20) < 0 ==> r == Err(StoreRejected)
    ensures r.Ok? <==> CanAccessProcess(role) && (NumberOr(page, 1) - 1) * NumberOr(limit, 20) >= 0
    ensures r.Ok? ==>
      var sel := Selected(db.processes, itemFilter);
      var skip := (NumberOr(page, 1) - 1) * NumberOr(limit, 20);
      && skip >= 0
      && r.value == Listing(Window(sel, skip, NumberOr(limit, 20)), |sel|)
  {
    if !CanAccessProcess(role) {
      return Err(NotPermitted);
    }
    var p := NumberOr(page, 1);
    var l := NumberOr(limit, 20);
    var skip := (p - 1) * l;
    if skip < 0 {
      return Err(StoreRejected);
    }
    var sel := Selected(db.processes, itemFilter);
    r := Ok(Listing(Window(sel, skip, l), |sel|));
  }

  /** Process ids strictly increase along the store. */
  predicate IdsAscending(processes: seq<ProductionProcess>) {
    forall a, b :: 0 <= a < b < |processes| ==> processes[a].id < processes[b].id
  }

  predicate IdsDescending(processes: seq<ProductionProcess>) {
    forall a, b :: 0 <= a < b < |processes| ==> processes[a].id > processes[b].id
  }

  /** The selection lists the newest process first. */
  lemma {:induction false} SelectedNewestFirst(processes: seq<ProductionProcess>, itemFilter: Option<nat>)
    requires IdsAscending(processes)
    ensures IdsDescending(Selected(processes, itemFilter))
  {
    if processes != [] {
      var prev, last := processes[..|processes| - 1], processes[|processes| - 1];
      SelectedNewestFirst(prev, itemFilter);
      if itemFilter.None? || last.itemId == itemFilter.value {
        SelectedBelow(prev, itemFilter, last.id);
        PrependDescending(last, Selected(prev, itemFilter));
      }
    }
  }

  /** The selection from processes whose ids are below a bound stays below it. */
  lemma SelectedBelow(processes: seq<ProductionProcess>, itemFilter: Option<nat>, bound: nat)
    requires forall j :: 0 <= j < |processes| ==> processes[j].id < bound
    ensures forall k :: 0 <= k < |Selected(processes, itemFilter)| ==> Selected(processes, itemFilter)[k].id < bound
  {
    var sel := Selected(processes, itemFilter);
    forall k | 0 <= k < |sel|
      ensures sel[k].id < bound
    {
      assert sel[k] in processes;
    }
  }

  lemma PrependDescending(first: ProductionProcess, rest: seq<ProductionProcess>)
    requires IdsDescending(rest)
    requires forall k :: 0 <= k < |rest| ==> rest[k].id < first.id
    ensures IdsDescending([first] + rest)
  {
    var s := [first] + rest;
    forall a, b | 0 <= a < b < |s|
      ensures s[a].id > s[b].id
    {
      assert s[b] == rest[b - 1];
      if a > 0 {
        assert s[a] == rest[a - 1];
      }
    }
  }

  /** Consecutive pages tile the selection: the page after a window starts
      where the window ends, so paging loses and repeats nothing. */
  lemma ConsecutiveWindows<T>(list: seq<T>, skip: nat, a: nat, b: nat)
    ensures Window(list, skip, a) + Window(list, skip + a, b) == Window(list, skip, a + b)
  {
  }

  /** With the defaults the first page holds the twenty newest processes,
      or all of them when there are fewer. */
  lemma DefaultFirstPage(list: seq<ProductionProcess>)
    ensures (NumberOr(None, 1) - 1) * NumberOr(None, 20) == 0
    ensures Window(list, 0, NumberOr(None, 20)) == if |list| <= 20 then list else list[..20]
  {
  }
}
