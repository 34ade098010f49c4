/** The purchase-request lifecycle: create, read, update and delete against
    the tables of `Models.Store`. Each operation is one transaction: it checks
    everything first and writes the tables only on its way to success, so an
    error leaves the store as it was. The hub notification that an update to
    PENDING sends is an oracle, `hubAccepts`, consulted before the commit. */
module PurchaseRequestService {
  import opened Common
  import opened Models
  import HubApi
  import ReferenceGenerator

  /** One line: the product must exist (404) before the quantity must be
      positive (400). */
  function ItemError(products: map<int, Product>, item: Item): Option<ServiceError> {
    if item.product_id !in products then Some(ProductNotFound(item.product_id))
    else if item.quantity <= 0 then Some(QuantityNotPositive)
    else None
  }

  /** The first failing line at index `from` or later. */
  function FirstItemError(products: map<int, Product>, items: seq<Item>, from: nat): (e: Option<ServiceError>)
    requires from <= |items|
    ensures e.Some? ==> e.value.ProductNotFound? || e.value == QuantityNotPositive
    decreases |items| - from
  {
    if from == |items| then None
    else if ItemError(products, items[from]).Some? then ItemError(products, items[from])
    else FirstItemError(products, items, from + 1)
  }

  /** No error is reported exactly when every line passes. */
  lemma {:induction false} FirstItemErrorNone(products: map<int, Product>, items: seq<Item>, from: nat)
    requires from <= |items|
    ensures FirstItemError(products, items, from) == None <==>
      forall k :: from <= k < |items| ==> ItemError(products, items[k]) == None
    decreases |items| - from
  {
    if from < |items| {
      FirstItemErrorNone(products, items, from + 1);
    }
  }

  /** The error reported is that of the first failing line. */
  lemma {:induction false} FirstItemErrorIsFirstFailure(products: map<int, Product>, items: seq<Item>, from: nat, k: nat)
    requires from <= k < |items|
    requires ItemError(products, items[k]).Some?
    requires forall j :: from <= j < k ==> ItemError(products, items[j]) == None
    ensures FirstItemError(products, items, from) == ItemError(products, items[k])
    decreases k - from
  {
    if from < k {
      FirstItemErrorIsFirstFailure(products, items, from + 1, k);
    }
  }

  /** The loop over the lines that both create and update run before
      writing anything. */
  method CheckItems(products: map<int, Product>, items: seq<Item>) returns (e: Option<ServiceError>)
    ensures e == FirstItemError(products, items, 0)
    ensures e.None? ==> ItemsStored(products, items)
  {
    var i := 0;
    while i < |items|
      invariant 0 <= i <= |items|
      invariant FirstItemError(products, items, 0) == FirstItemError(products, items, i)
      invariant forall k :: 0 <= k < i ==> items[k].product_id in products && items[k].quantity > 0
    {
      if items[i].product_id !in products {
        return Some(ProductNotFound(items[i].product_id));
      }
      if items[i].quantity <= 0 {
        return Some(QuantityNotPositive);
      }
      i := i + 1;
    }
    return None;
  }

  /** The checks of create in source order: warehouse, then a non-empty
      item list, then the lines one by one. */
  function CreateError(warehouses: set<int>, products: map<int, Product>, warehouse_id: int, items: Option<seq<Item>>): Option<ServiceError> {
    if warehouse_id !in warehouses then Some(WarehouseNotFound)
    else if items.None? || items.value == [] then Some(ItemsRequired)
    else FirstItemError(products, items.value, 0)
  }

  /** Create fails on the first check that fails, with its status code, and
      passes only when all pass. */
  lemma CreateErrorOrder(warehouses: set<int>, products: map<int, Product>, warehouse_id: int, items: Option<seq<Item>>)
    ensures warehouse_id !in warehouses ==>
      CreateError(warehouses, products, warehouse_id, items) == Some(WarehouseNotFound)
    ensures warehouse_id in warehouses && (items.None? || items.value == []) ==>
      CreateError(warehouses, products, warehouse_id, items) == Some(ItemsRequired)
    ensures CreateError(warehouses, products, warehouse_id, items) == None <==>
      warehouse_id in warehouses && items.Some? && items.value != [] &&
      forall k :: 0 <= k < |items.value| ==> ItemError(products, items.value[k]) == None
    ensures CreateError(warehouses, products, warehouse_id, items).Some? ==>
      HttpStatus(CreateError(warehouses, products, warehouse_id, items).value) in {400, 404}
  {
    if warehouse_id in warehouses && items.Some? {
      FirstItemErrorNone(products, items.value, 0);
    }
  }

  /** With the warehouse and a non-empty list in place, create reports the
      first failing line: a missing product (404) before a quantity that is
      not positive (400). */
  lemma CreateReportsFirstBadLine(warehouses: set<int>, products: map<int, Product>, warehouse_id: int, items: seq<Item>, k: nat)
    requires warehouse_id in warehouses
    requires k < |items|
    requires forall j :: 0 <= j < k ==> ItemError(products, items[j]) == None
    ensures items[k].product_id !in products ==>
      CreateError(warehouses, products, warehouse_id, Some(items)) == Some(ProductNotFound(items[k].product_id))
    ensures items[k].product_id in products && items[k].quantity <= 0 ==>
      CreateError(warehouses, products, warehouse_id, Some(items)) == Some(QuantityNotPositive)
  {
    if ItemError(products, items[k]).Some? {
      FirstItemErrorIsFirstFailure(products, items, 0, k);
    }
  }

  /** createPurchaseRequest. The reference comes from the number of rows, so
      after a deletion it can equal an existing one, which the unique
      constraint rejects. */
  method Create(db: Store, warehouse_id: int, vendor: string, items: Option<seq<Item>>) returns (r: Result<int>)
    requires db.Valid()
    modifies db
    ensures db.Valid()
    ensures db.warehouses == old(db.warehouses) && db.products == old(db.products) && db.stock == old(db.stock)
    ensures CreateError(old(db.warehouses), old(db.products), warehouse_id, items).Some? ==>
      r == Err(CreateError(old(db.warehouses), old(db.products), warehouse_id, items).value)
    ensures CreateError(old(db.warehouses), old(db.products), warehouse_id, items).None? ==>
      var reference := ReferenceGenerator.GenerateReference(|old(db.requests)|);
      if !VendorFits(vendor) then r == Err(VendorTooLong)
      else if HasReference(old(db.requests), reference) then r == Err(ReferenceTaken)
      else
        && items.Some?
        && r == Ok(old(db.nextId))
        && r.value !in old(db.requests)
        && db.requests == old(db.requests)[r.value := PurchaseRequest(reference, warehouse_id, StoredVendor(vendor), DRAFT)]
        && db.items == old(db.items)[r.value := items.value]
        && db.nextId == old(db.nextId) + 1
    ensures r.Err? ==> db.requests == old(db.requests) && db.items == old(db.items) && db.nextId == old(db.nextId)
  {
    if warehouse_id !in db.warehouses {
      return Err(WarehouseNotFound);
    }
    if items.None? || items.value == [] {
      return Err(ItemsRequired);
    }
    var invalid := CheckItems(db.products, items.value);
    if invalid.Some? {
      return Err(invalid.value);
    }
    var reference := ReferenceGenerator.GenerateReference(|db.requests|);
    if !VendorFits(vendor) {
      return Err(VendorTooLong);
    }
    if FindByReference(db.requests, reference, db.nextId - 1).Some? {
      return Err(ReferenceTaken);
    }
    FindByReferenceExact(db.warehouses, db.products, db.requests, db.items, db.stock, db.nextId, reference, 0);
    var request := PurchaseRequest(reference, warehouse_id, StoredVendor(vendor), DRAFT);
    InsertKeepsConsistent(db.warehouses, db.products, db.requests, db.items, db.stock, db.nextId, request, items.value);
    var id := db.nextId;
    db.requests := db.requests[id := request];
    db.items := db.items[id := items.value];
    db.nextId := id + 1;
    return Ok(id);
  }

  /** A request as the read operations return it. The joined warehouse and
      product rows are reference data and are not repeated here. */
  datatype RequestView = RequestView(id: int, request: PurchaseRequest, items: seq<Item>)

  /** getPurchaseRequestById */
  method GetById(db: Store, id: int) returns (r: Result<RequestView>)
    requires db.Valid()
    ensures r.Ok? <==> id in db.requests
    ensures r.Err? ==> r.error == RequestNotFound
    ensures r.Ok? ==> r.value == RequestView(id, db.requests[id], db.items[id])
  {
    if id !in db.requests {
      return Err(RequestNotFound);
    }
    return Ok(RequestView(id, db.requests[id], db.items[id]));
  }

  /** getAllPurchaseRequests: every request once, ordered by id descending. */
  method GetAll(db: Store) returns (views: seq<RequestView>)
    requires db.Valid()
    ensures forall i, j :: 0 <= i < j < |views| ==> views[i].id > views[j].id
    ensures forall i :: 0 <= i < |views| ==>
      views[i].id in db.requests && views[i] == RequestView(views[i].id, db.requests[views[i].id], db.items[views[i].id])
    ensures forall id :: id in db.requests ==> exists i :: 0 <= i < |views| && views[i].id == id
  {
    var ids := IdsDescending(db.requests, db.nextId - 1);
    var requests, lines := db.requests, db.items;
    views := seq(|ids|, i requires 0 <= i < |ids| => RequestView(ids[i], requests[ids[i]], lines[ids[i]]));
    forall id | id in db.requests
      ensures exists i :: 0 <= i < |views| && views[i].id == id
    {
      var i :| 0 <= i < |ids| && ids[i] == id;
      assert views[i].id == id;
    }
  }

  /** The body of an update; `None` is a field the body leaves out. */
  datatype UpdatePayload = UpdatePayload(warehouse_id: Option<int>, vendor: Option<string>, status: Option<Status>, items: Option<seq<Item>>)

  /** `if (warehouse_id)`: a number is truthy unless it is 0. */
  predicate WarehouseGiven(p: UpdatePayload) {
    p.warehouse_id.Some? && p.warehouse_id.value != 0
  }

  /** `if (vendor)`: a string is truthy unless it is empty. */
  predicate VendorGiven(p: UpdatePayload) {
    p.vendor.Some? && p.vendor.value != ""
  }

  /** The checks of update once the request is known to be a DRAFT, in
      source order: the new warehouse, then every supplied line. */
  function UpdateError(warehouses: set<int>, products: map<int, Product>, p: UpdatePayload): Option<ServiceError> {
    if WarehouseGiven(p) && p.warehouse_id.value !in warehouses then Some(WarehouseNotFound)
    else if p.items.Some? then FirstItemError(products, p.items.value, 0)
    else None
  }

  /** `newStatus === 'PENDING' && oldStatus === 'DRAFT'` with
      `newStatus = status || oldStatus`: the branch that calls the hub. */
  predicate NotifiesHub(current: Status, requested: Option<Status>) {
    requested.GetOr(current) == PENDING && current == DRAFT
  }

  /** The status an update writes. From DRAFT the hub is called exactly for a
      requested PENDING, and the result is the requested status, or DRAFT
      when none is requested; COMPLETED is written as it is. */
  function NewStatus(current: Status, requested: Option<Status>): (s: Status)
    ensures NotifiesHub(current, requested) <==> current == DRAFT && requested == Some(PENDING)
    ensures current == DRAFT ==> s == requested.GetOr(DRAFT)
  {
    if NotifiesHub(current, requested) then PENDING
    else if requested.Some? && requested.value != current then requested.value
    else current
  }

  function Updated(req: PurchaseRequest, p: UpdatePayload): PurchaseRequest {
    PurchaseRequest(
      req.reference,
      if WarehouseGiven(p) then p.warehouse_id.value else req.warehouse_id,
      if VendorGiven(p) then p.vendor.value else req.vendor,
      NewStatus(req.status, p.status))
  }

  /** A supplied item list replaces the old one outright, even when empty. */
  function NewItems(current: seq<Item>, p: UpdatePayload): seq<Item> {
    if p.items.Some? then p.items.value else current
  }

  /** The request's lines joined with their products, as the hub call reads them. */
  function HubItems(products: map<int, Product>, lines: seq<Item>): (r: seq<HubApi.HubItem>)
    ensures |r| == |lines|
  {
    seq(|lines|, i requires 0 <= i < |lines| =>
      HubApi.HubItem(lines[i].quantity, if lines[i].product_id in products then Some(products[lines[i].product_id]) else None))
  }

  /** Fields the body leaves out, or gives falsy, keep their values; the
      reference never changes. */
  lemma UpdatedFields(req: PurchaseRequest, p: UpdatePayload)
    requires req.status == DRAFT
    ensures Updated(req, p).reference == req.reference
    ensures Updated(req, p).warehouse_id == (if WarehouseGiven(p) then p.warehouse_id.value else req.warehouse_id)
    ensures Updated(req, p).vendor == (if VendorGiven(p) then p.vendor.value else req.vendor)
    ensures Updated(req, p).status == p.status.GetOr(DRAFT)
    ensures p == UpdatePayload(None, None, None, None) ==> Updated(req, p) == req
  {
  }

  /** The hub receives the updated request as saved and read back: its
      vendor as the column holds it, its unchanged reference, and one detail
      per line of the new item list with the sum of their quantities. */
  lemma HubSeesUpdatedRequest(products: map<int, Product>, req: PurchaseRequest, p: UpdatePayload, current: seq<Item>)
    requires |req.vendor| <= VendorColumnLength
    ensures var payload := HubApi.BuildPayload(StoredVendor(Updated(req, p).vendor), Updated(req, p).reference, HubItems(products, NewItems(current, p)));
      && payload.reference == req.reference
      && payload.vendor == (if VendorGiven(p) then StoredVendor(p.vendor.value) else req.vendor)
      && |payload.details| == |NewItems(current, p)|
      && payload.qty_total == HubApi.Total(HubItems(products, NewItems(current, p)))
  {
    HubApi.QtyTotalIsSum(StoredVendor(Updated(req, p).vendor), Updated(req, p).reference, HubItems(products, NewItems(current, p)));
  }

  /** The field writes of update: a truthy warehouse_id must name a
      warehouse and replaces the old one, a non-empty vendor replaces the old
      one; the status is decided later. */
  method ApplyFields(warehouses: set<int>, req: PurchaseRequest, p: UpdatePayload)
    returns (e: Option<ServiceError>, updated: PurchaseRequest)
    ensures e == (if WarehouseGiven(p) && p.warehouse_id.value !in warehouses then Some(WarehouseNotFound) else None)
    ensures e.None? ==> updated == Updated(req, p).(status := req.status)
    ensures e.None? ==> updated.warehouse_id == req.warehouse_id || updated.warehouse_id in warehouses
  {
    e, updated := None, req;
    if p.warehouse_id.Some? && p.warehouse_id.value != 0 {
      if p.warehouse_id.value !in warehouses {
        return Some(WarehouseNotFound), req;
      }
      updated := updated.(warehouse_id := p.warehouse_id.value);
    }
    if p.vendor.Some? && p.vendor.value != "" {
      updated := updated.(vendor := p.vendor.value);
    }
  }

  /** The item replacement of update: every supplied line is checked before
      the old lines are dropped, and the supplied list then replaces them. */
  method ReplaceLines(products: map<int, Product>, current: seq<Item>, p: UpdatePayload)
    returns (e: Option<ServiceError>, lines: seq<Item>)
    ensures e == (if p.items.Some? then FirstItemError(products, p.items.value, 0) else None)
    ensures e.None? ==> lines == NewItems(current, p)
    ensures e.None? && p.items.Some? ==> ItemsStored(products, lines)
  {
    e, lines := None, current;
    if p.items.Some? {
      e := CheckItems(products, p.items.value);
      if e.None? {
        lines := p.items.value;
      }
    }
  }

  /** Whether the update reaches `purchaseRequest.save()`: only the two
      status branches call it. */
  predicate SavesRow(current: Status, requested: Option<Status>) {
    NotifiesHub(current, requested) || (requested.Some? && requested.value != current)
  }

  /** The row the commit leaves behind. The warehouse and vendor writes are
      made on the loaded instance and reach the table only through a save, so
      without one the row keeps its old fields. */
  function StoredRow(req: PurchaseRequest, p: UpdatePayload): PurchaseRequest {
    if SavesRow(req.status, p.status) then AsStored(Updated(req, p)) else req
  }

  /** From DRAFT the row is saved exactly when a status other than DRAFT is
      requested; otherwise it is left as it was, whatever else the body
      gives. */
  lemma StoredRowOfDraft(req: PurchaseRequest, p: UpdatePayload)
    requires req.status == DRAFT
    ensures SavesRow(DRAFT, p.status) <==> p.status.GetOr(DRAFT) != DRAFT
    ensures p.status.GetOr(DRAFT) == DRAFT ==> StoredRow(req, p) == req
    ensures p.status.GetOr(DRAFT) != DRAFT ==> StoredRow(req, p) == AsStored(Updated(req, p))
  {
  }

  /** The body the edit page sends (warehouse, vendor and items, no status)
      replaces the items but leaves the vendor and the warehouse as they were,
      although the in-memory instance carries the new ones. */
  lemma EditPageBodyKeepsOldFields()
    ensures var req := PurchaseRequest("PR00001", 1, "Acme", DRAFT);
      var p := UpdatePayload(Some(2), Some("Globex"), None, Some([Item(1, 4)]));
      && StoredRow(req, p) == req
      && NewItems([Item(1, 1)], p) == [Item(1, 4)]
      && Updated(req, p).vendor == "Globex" && Updated(req, p).warehouse_id == 2
  {
  }

  /** The checks of update before any table is written: the request must
      exist and be a DRAFT, then the warehouse and the lines are checked.
      On success `fields` is the loaded instance with the new warehouse and
      vendor written to it, and `lines` the item list the commit will hold. */
  method PrepareUpdate(db: Store, id: int, p: UpdatePayload) returns (e: Option<ServiceError>, fields: PurchaseRequest, lines: seq<Item>)
    requires db.Valid()
    ensures id !in db.requests ==> e == Some(RequestNotFound)
    ensures id in db.requests && db.requests[id].status != DRAFT ==> e == Some(NotDraft)
    ensures id in db.requests && db.requests[id].status == DRAFT ==> e == UpdateError(db.warehouses, db.products, p)
    ensures e.None? ==> id in db.requests && db.requests[id].status == DRAFT
    ensures e.None? ==> fields == Updated(db.requests[id], p).(status := DRAFT) && lines == NewItems(db.items[id], p)
    ensures e.None? ==> fields.warehouse_id in db.warehouses && ItemsStored(db.products, lines)
  {
    fields, lines := PurchaseRequest("", 0, "", DRAFT), [];
    if id !in db.requests {
      return Some(RequestNotFound), fields, lines;
    }
    var req := db.requests[id];
    if req.status != DRAFT {
      return Some(NotDraft), fields, lines;
    }
    e, fields := ApplyFields(db.warehouses, req, p);
    if e.None? {
      e, lines := ReplaceLines(db.products, db.items[id], p);
    }
  }

  /** updatePurchaseRequest. `sent` is the body posted to the hub, if any. */
  method Update(db: Store, id: int, p: UpdatePayload, hubAccepts: bool) returns (r: Result<int>, sent: Option<HubApi.Payload>)
    requires db.Valid()
    modifies db
    ensures db.Valid()
    ensures db.warehouses == old(db.warehouses) && db.products == old(db.products)
    ensures db.stock == old(db.stock) && db.nextId == old(db.nextId)
    ensures id !in old(db.requests) ==> r == Err(RequestNotFound) && sent == None
    ensures id in old(db.requests) && old(db.requests[id].status) != DRAFT ==> r == Err(NotDraft) && sent == None
    ensures id in old(db.requests) && old(db.requests[id].status) == DRAFT ==>
      var failure := UpdateError(old(db.warehouses), old(db.products), p);
      var updated := Updated(old(db.requests[id]), p);
      var lines := NewItems(old(db.items[id]), p);
      if failure.Some? then r == Err(failure.value) && sent == None
      else if SavesRow(DRAFT, p.status) && !VendorFits(updated.vendor) then r == Err(VendorTooLong) && sent == None
      else
        && sent == (if NotifiesHub(DRAFT, p.status)
                    then Some(HubApi.BuildPayload(StoredVendor(updated.vendor), updated.reference, HubItems(old(db.products), lines)))
                    else None)
        && r == (if sent.Some? && !hubAccepts then Err(HubFailed) else Ok(id))
    ensures r.Err? ==> db.requests == old(db.requests) && db.items == old(db.items)
    ensures r.Ok? ==>
      && db.requests == old(db.requests)[id := StoredRow(old(db.requests[id]), p)]
      && db.items == old(db.items)[id := NewItems(old(db.items[id]), p)]
  {
    sent := None;
    var invalid, req, lines := PrepareUpdate(db, id, p);
    if invalid.Some? {
      return Err(invalid.value), None;
    }
    var oldStatus := db.requests[id].status;
    var newStatus := p.status.GetOr(oldStatus);
    if newStatus == PENDING && oldStatus == DRAFT {
      req := req.(status := PENDING);
      if !VendorFits(req.vendor) {
        return Err(VendorTooLong), None;
      }
      req := AsStored(req);
      sent := Some(HubApi.BuildPayload(req.vendor, req.reference, HubItems(db.products, lines)));
      if !hubAccepts {
        return Err(HubFailed), sent;
      }
    } else if p.status.Some? && p.status.value != oldStatus {
      req := req.(status := p.status.value);
      if !VendorFits(req.vendor) {
        return Err(VendorTooLong), None;
      }
      req := AsStored(req);
    } else {
      req := db.requests[id];
    }
    assert req == StoredRow(db.requests[id], p);
    ReplaceKeepsConsistent(db.warehouses, db.products, db.requests, db.items, db.stock, db.nextId, id, req, lines);
    db.requests := db.requests[id := req];
    db.items := db.items[id := lines];
    return Ok(id), sent;
  }

  /** Update as evidently intended: the loaded instance is saved whatever
      the status, so every field the body gives is stored. */
  method UpdateSavingFields(db: Store, id: int, p: UpdatePayload, hubAccepts: bool) returns (r: Result<int>, sent: Option<HubApi.Payload>)
    requires db.Valid()
    modifies db
    ensures db.Valid()
    ensures db.warehouses == old(db.warehouses) && db.products == old(db.products)
    ensures db.stock == old(db.stock) && db.nextId == old(db.nextId)
    ensures id !in old(db.requests) ==> r == Err(RequestNotFound) && sent == None
    ensures id in old(db.requests) && old(db.requests[id].status) != DRAFT ==> r == Err(NotDraft) && sent == None
    ensures id in old(db.requests) && old(db.requests[id].status) == DRAFT ==>
      var failure := UpdateError(old(db.warehouses), old(db.products), p);
      var updated := Updated(old(db.requests[id]), p);
      var lines := NewItems(old(db.items[id]), p);
      if failure.Some? then r == Err(failure.value) && sent == None
      else if !VendorFits(updated.vendor) then r == Err(VendorTooLong) && sent == None
      else
        && sent == (if NotifiesHub(DRAFT, p.status)
                    then Some(HubApi.BuildPayload(StoredVendor(updated.vendor), updated.reference, HubItems(old(db.products), lines)))
                    else None)
        && r == (if sent.Some? && !hubAccepts then Err(HubFailed) else Ok(id))
    ensures r.Err? ==> db.requests == old(db.requests) && db.items == old(db.items)
    ensures r.Ok? ==>
      && db.requests == old(db.requests)[id := AsStored(Updated(old(db.requests[id]), p))]
      && db.items == old(db.items)[id := NewItems(old(db.items[id]), p)]
  {
    sent := None;
    var invalid, req, lines := PrepareUpdate(db, id, p);
    if invalid.Some? {
      return Err(invalid.value), None;
    }
    var oldStatus := db.requests[id].status;
    var newStatus := p.status.GetOr(oldStatus);
    if newStatus == PENDING && oldStatus == DRAFT {
      req := req.(status := PENDING);
    } else if p.status.Some? && p.status.value != oldStatus {
      req := req.(status := p.status.value);
    }
    if !VendorFits(req.vendor) {
      return Err(VendorTooLong), None;
    }
    req := AsStored(req);
    if newStatus == PENDING && oldStatus == DRAFT {
      sent := Some(HubApi.BuildPayload(req.vendor, req.reference, HubItems(db.products, lines)));
      if !hubAccepts {
        return Err(HubFailed), sent;
      }
    }
    assert req == AsStored(Updated(db.requests[id], p));
    ReplaceKeepsConsistent(db.warehouses, db.products, db.requests, db.items, db.stock, db.nextId, id, req, lines);
    db.requests := db.requests[id := req];
    db.items := db.items[id := lines];
    return Ok(id), sent;
  }

  /** With the corrected update, a DRAFT updated by the edit page's body
      stores the given warehouse and vendor (as the column holds it) and stays
      DRAFT; the row changes exactly when one of them differs. */
  lemma SavedRowKeepsGivenFields(req: PurchaseRequest, p: UpdatePayload)
    requires req.status == DRAFT && p.status.None? && WarehouseGiven(p) && VendorGiven(p)
    ensures AsStored(Updated(req, p)) == PurchaseRequest(req.reference, p.warehouse_id.value, StoredVendor(p.vendor.value), DRAFT)
    ensures AsStored(Updated(req, p)) != req <==>
      req.warehouse_id != p.warehouse_id.value || req.vendor != StoredVendor(p.vendor.value)
  {
    UpdatedFields(req, p);
  }

  /** deletePurchaseRequest: only a DRAFT goes, with its lines. */
  method Delete(db: Store, id: int) returns (r: Result<()>)
    requires db.Valid()
    modifies db
    ensures db.Valid()
    ensures db.warehouses == old(db.warehouses) && db.products == old(db.products)
    ensures db.stock == old(db.stock) && db.nextId == old(db.nextId)
    ensures id !in old(db.requests) ==> r == Err(RequestNotFound)
    ensures id in old(db.requests) && old(db.requests[id].status) != DRAFT ==> r == Err(NotDraft)
    ensures r.Ok? <==> id in old(db.requests) && old(db.requests[id].status) == DRAFT
    ensures r.Ok? ==> db.requests == old(db.requests) - {id} && db.items == old(db.items) - {id}
    ensures r.Err? ==> db.requests == old(db.requests) && db.items == old(db.items)
  {
    if id !in db.requests {
      return Err(RequestNotFound);
    }
    if db.requests[id].status != DRAFT {
      return Err(NotDraft);
    }
    db.items := db.items - {id};
    db.requests := db.requests - {id};
    return Ok(());
  }
}
