/** The database behind the services: the rows of `warehouses`, `products`,
    `purchase_requests`, `purchase_request_items` and `stocks`, with the
    constraints the schema declares (foreign keys, the unique reference, the
    unique (warehouse, product) stock cell), and the errors the services throw. */
module Models {
  import opened Common

  /** `ENUM('DRAFT', 'PENDING', 'COMPLETED')` */
  datatype Status = DRAFT | PENDING | COMPLETED

  datatype Product = Product(name: string, sku: string)

  /** A purchase-request line: a product and the ordered quantity. */
  datatype Item = Item(product_id: int, quantity: int)

  /** A `purchase_requests` row without its id, which is the key it is stored under. */
  datatype PurchaseRequest = PurchaseRequest(reference: string, warehouse_id: int, vendor: string, status: Status)

  /** The unique index of `stocks`. */
  datatype StockKey = StockKey(warehouse_id: int, product_id: int)

  /** What the services throw. Those the code gives a `status` are 404 or 400;
      the rest reach the error handler without one and become 500. */
  datatype ServiceError =
    | WarehouseNotFound
    | ItemsRequired
    | ProductNotFound(product_id: int)
    | QuantityNotPositive
    | RequestNotFound
    | NotDraft
    | ReferenceNotFound(reference: string)
    | NotPending(current: Status)
    | HubFailed               // callHubApi rethrows without a status
    | ReferenceTaken          // unique constraint on purchase_requests.reference
    | ItemsNotIterable        // `for (const item of items)` on a missing items field
    | StockRowRejected(product_id: int)  // foreign key violation inserting a stock row
    | VendorTooLong           // value too long for the vendor column
    | ReferenceMissing        // `findOne` refuses an undefined `reference` in its where clause
    | ProductIdMissing        // `findOrCreate` refuses an undefined `product_id` in its where clause
    | QuantityMissing         // `quantity += undefined` is NaN, which the integer column refuses

  function HttpStatus(e: ServiceError): (code: int)
    ensures code in {400, 404, 500}
  {
    match e
    case WarehouseNotFound => 404
    case ProductNotFound(_) => 404
    case RequestNotFound => 404
    case ReferenceNotFound(_) => 404
    case ItemsRequired => 400
    case QuantityNotPositive => 400
    case NotDraft => 400
    case NotPending(_) => 400
    case HubFailed => 500
    case ReferenceTaken => 500
    case ItemsNotIterable => 500
    case StockRowRejected(_) => 500
    case VendorTooLong => 500
    case ReferenceMissing => 500
    case ProductIdMissing => 500
    case QuantityMissing => 500
  }

  datatype Result<T> = Ok(value: T) | Err(error: ServiceError)

  /** `vendor` is a Sequelize `STRING` column, `VARCHAR(255)` on Postgres.
      A longer value is refused, unless every character past the limit is a
      space: then it is cut to the limit and stored. */
  const VendorColumnLength := 255

  /** The column accepts the value: at most 255 characters, or only spaces
      beyond them. */
  predicate VendorFits(vendor: string) {
    forall i :: VendorColumnLength <= i < |vendor| ==> vendor[i] == ' '
  }

  /** The value the column holds after an accepted write. */
  function StoredVendor(vendor: string): (s: string)
    ensures |s| <= VendorColumnLength && |s| <= |vendor| && s == vendor[..|s|]
    ensures |vendor| <= VendorColumnLength ==> s == vendor
    ensures |vendor| > VendorColumnLength ==> |s| == VendorColumnLength
  {
    if |vendor| <= VendorColumnLength then vendor else vendor[..VendorColumnLength]
  }

  /** Only trailing spaces are lost: an accepted value is the stored one
      followed by spaces, and a value the column holds is kept as it is. */
  lemma StoredVendorDropsOnlySpaces(vendor: string)
    ensures |vendor| <= VendorColumnLength ==> VendorFits(vendor) && StoredVendor(vendor) == vendor
    ensures VendorFits(vendor) ==>
      && vendor == StoredVendor(vendor) + vendor[|StoredVendor(vendor)|..]
      && forall i :: |StoredVendor(vendor)| <= i < |vendor| ==> vendor[i] == ' '
    ensures !VendorFits(vendor) ==> exists i :: VendorColumnLength <= i < |vendor| && vendor[i] != ' '
  {
    var s := StoredVendor(vendor);
    assert vendor == vendor[..|s|] + vendor[|s|..];
  }

  /** A row as the table holds it once written. */
  function AsStored(req: PurchaseRequest): (stored: PurchaseRequest)
    ensures stored.reference == req.reference && stored.warehouse_id == req.warehouse_id && stored.status == req.status
    ensures stored.vendor == StoredVendor(req.vendor)
  {
    req.(vendor := StoredVendor(req.vendor))
  }

  predicate HasReference(requests: map<int, PurchaseRequest>, reference: string) {
    exists id :: id in requests && requests[id].reference == reference
  }

  /** `Stock.findOrCreate` can insert a row only if both foreign keys resolve. */
  predicate CanCreateCell(warehouses: set<int>, products: map<int, Product>, key: StockKey) {
    key.warehouse_id in warehouses && key.product_id in products
  }

  /** The tables. Warehouses and products are reference data the services
      only read. `nextId` is the next value of the request id sequence. */
  class Store {
    var warehouses: set<int>
    var products: map<int, Product>
    var requests: map<int, PurchaseRequest>
    var items: map<int, seq<Item>>
    var stock: map<StockKey, int>
    var nextId: int

    /** The schema's constraints, kept by every service operation. */
    ghost predicate Valid()
      reads this
    {
      Consistent(warehouses, products, requests, items, stock, nextId)
    }

    constructor (warehouses: set<int>, products: map<int, Product>, stock: map<StockKey, int>)
      requires forall key :: key in stock ==> CanCreateCell(warehouses, products, key)
      ensures Valid()
      ensures this.warehouses == warehouses && this.products == products && this.stock == stock
      ensures requests == map[] && items == map[] && nextId == 1
    {
      this.warehouses := warehouses;
      this.products := products;
      this.stock := stock;
      requests := map[];
      items := map[];
      nextId := 1;
    }
  }

  /** Foreign keys resolve, every request has its item list, ids come from
      the sequence below `nextId`, references are unique, and a stock cell
      exists only for an existing (warehouse, product) pair, and a vendor
      fits its column. */
  ghost predicate Consistent(warehouses: set<int>, products: map<int, Product>, requests: map<int, PurchaseRequest>,
                             items: map<int, seq<Item>>, stock: map<StockKey, int>, nextId: int)
  {
    && items.Keys == requests.Keys
    && nextId >= 1
    && (forall id :: id in requests ==> 1 <= id < nextId)
    && (forall id :: id in requests ==> requests[id].warehouse_id in warehouses)
    && (forall id :: id in requests ==> |requests[id].vendor| <= VendorColumnLength)
    && (forall id :: id in items ==> ItemsStored(products, items[id]))
    && (forall a, b :: a in requests && b in requests && requests[a].reference == requests[b].reference ==> a == b)
    && (forall key :: key in stock ==> CanCreateCell(warehouses, products, key))
  }

  /** Rewriting one request's fields other than its reference, and its
      lines, keeps the constraints. */
  lemma ReplaceKeepsConsistent(warehouses: set<int>, products: map<int, Product>, requests: map<int, PurchaseRequest>,
                               items: map<int, seq<Item>>, stock: map<StockKey, int>, nextId: int,
                               id: int, req: PurchaseRequest, lines: seq<Item>)
    requires Consistent(warehouses, products, requests, items, stock, nextId)
    requires id in requests && req.reference == requests[id].reference
    requires req.warehouse_id in warehouses && |req.vendor| <= VendorColumnLength && ItemsStored(products, lines)
    ensures Consistent(warehouses, products, requests[id := req], items[id := lines], stock, nextId)
  {
  }

  /** Inserting a request with a fresh reference under the next id of the
      sequence, with valid lines, keeps the constraints. */
  lemma InsertKeepsConsistent(warehouses: set<int>, products: map<int, Product>, requests: map<int, PurchaseRequest>,
                              items: map<int, seq<Item>>, stock: map<StockKey, int>, nextId: int,
                              req: PurchaseRequest, lines: seq<Item>)
    requires Consistent(warehouses, products, requests, items, stock, nextId)
    requires !HasReference(requests, req.reference)
    requires req.warehouse_id in warehouses && |req.vendor| <= VendorColumnLength && ItemsStored(products, lines)
    ensures nextId !in requests
    ensures Consistent(warehouses, products, requests[nextId := req], items[nextId := lines], stock, nextId + 1)
  {
  }

  /** Stored lines always name an existing product and a positive quantity. */
  ghost predicate ItemsStored(products: map<int, Product>, lines: seq<Item>) {
    forall k :: 0 <= k < |lines| ==> lines[k].product_id in products && lines[k].quantity > 0
  }

  /** The ids of the table from `top` down to 1: `ORDER BY id DESC`. */
  function IdsDescending(requests: map<int, PurchaseRequest>, top: int): (ids: seq<int>)
    ensures forall i, j :: 0 <= i < j < |ids| ==> ids[i] > ids[j]
    ensures forall k :: 0 <= k < |ids| ==> 1 <= ids[k] <= top && ids[k] in requests
    ensures forall id :: id in requests && 1 <= id <= top ==> id in ids
    decreases top
  {
    if top < 1 then []
    else if top in requests then [top] + IdsDescending(requests, top - 1)
    else IdsDescending(requests, top - 1)
  }

  /** `PurchaseRequest.findOne({ where: { reference } })` over the ids from
      `top` down to 1. */
  function FindByReference(requests: map<int, PurchaseRequest>, reference: string, top: int): (found: Option<int>)
    ensures found.Some? ==> 1 <= found.value <= top && found.value in requests && requests[found.value].reference == reference
    ensures found.None? ==> forall id :: id in requests && 1 <= id <= top ==> requests[id].reference != reference
    decreases top
  {
    if top < 1 then None
    else if top in requests && requests[top].reference == reference then Some(top)
    else FindByReference(requests, reference, top - 1)
  }

  /** On a consistent table the scan below `nextId` finds exactly the one
      request carrying the reference, if there is one. */
  lemma FindByReferenceExact(warehouses: set<int>, products: map<int, Product>, requests: map<int, PurchaseRequest>,
                             items: map<int, seq<Item>>, stock: map<StockKey, int>, nextId: int, reference: string, id: int)
    requires Consistent(warehouses, products, requests, items, stock, nextId)
    ensures FindByReference(requests, reference, nextId - 1) == Some(id) <==> id in requests && requests[id].reference == reference
    ensures FindByReference(requests, reference, nextId - 1).None? <==> !HasReference(requests, reference)
  {
  }
}
