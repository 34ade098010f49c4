# Inventory purchase requests and stock reconciliation, in Dafny

This project models the business core of a small inventory system.
Purchase requests for a warehouse move from DRAFT through PENDING to COMPLETED.
A DRAFT request can be created, edited and deleted.
Editing a DRAFT into PENDING notifies an external hub.
A delivery webhook closes a PENDING request and adds the delivered quantities to the warehouse's stock.
The frontend edits a request's item list, checks it before submitting, and lists warehouses taken from the stock rows.

The database is modelled as the class `Models.Store`, with one field per table:
- warehouse ids;
- products;
- requests by id;
- item lists by request id;
- stock cells by (warehouse, product);
- the next value of the request id sequence.

`Store.Valid` states the schema's constraints:
- foreign keys resolve;
- every request has its item list;
- references are unique;
- there is at most one stock cell per (warehouse, product), which the map key enforces.

Every service operation keeps `Valid`.

Each service call is one transaction. The methods check everything on local values and write the store's fields only on the way to success, so every error leaves the store exactly as it was.

Errors are `Models.ServiceError`. `HttpStatus` gives the code the HTTP layer answers with:
- 404 or 400 where the code sets a status;
- 500 for what is thrown without one (`err.status || 500`), namely:
  - a hub failure;
  - the unique-reference violation;
  - iterating absent webhook items;
  - an absent webhook reference, or a webhook line without a product_id, which the lookups refuse in their where clauses;
  - a webhook line without a quantity, whose sum is NaN and is refused by the integer column;
  - a stock row whose product does not exist;
  - a vendor that does not fit its `VARCHAR(255)` column, at the insert of create or the save of update. Postgres refuses a longer value only when a character past the 255th is not a space. A value longer than 255 characters that continues with spaces alone is cut to 255 and stored; `Models.StoredVendor` gives the stored value, and the hub is sent that value, since it reads the row back.

Modules, one per source component:
- `Common`: `Option`, and JavaScript's `String.prototype.trim` with its whitespace set.
- `ReferenceGenerator`: `"PR" + String(count + 1).padStart(5, '0')`, taking the row count as input.
- `HubApi`: the payload `callHubApi` builds (`qty_total`, `details`). The POST itself is an oracle.
- `Models`: the tables, their invariant, and the lookups by id order and by reference.
- `PurchaseRequestService`: create, list, read, update and delete.
- `WebhookService`: `receiveStock`.
- `Validation`: the three request-body validators, as first-failure functions.
- `NewRequestForm`: the item-list editing and the submit checks of the new-request page.
- `WarehousesApi`: the de-duplication in `warehousesApi.getAll`.

Behaviour of the code worth knowing:
- **Hub failure rolls back the update.** The hub is called before the transaction commits (backend/src/services/purchaseRequestService.js:254-260). So a hub failure rolls back the whole update: the request stays DRAFT with its old items.
- **COMPLETED can be set by update.** An update may request COMPLETED (or any status other than PENDING) and the code writes it directly, with no hub call (lines 255-257). So a DRAFT can become COMPLETED without passing through PENDING or the webhook, and the status machine is not monotonic through PENDING.
- **The webhook is not validated.** The webhook route mounts no validator, so the service sees the body as sent. An absent reference fails the lookup (500). A missing `items` field fails iterating (500). A line without a product_id fails its stock lookup (500), and a line without a quantity fails its save (500). A line whose product does not exist fails when its stock row must be created (foreign key, 500). A non-positive quantity is added as it is.
- **An update without a status change stores only the items.** The new warehouse and vendor are written to the loaded instance (backend/src/services/purchaseRequestService.js:189, 194). `save()` is called only in the DRAFT→PENDING branch (line 233) and when another status is requested (line 257). So an update that requests no status, or DRAFT, replaces the items and leaves the row's warehouse and vendor as they were. The edit page sends exactly such a body (frontend/app/purchase-requests/[id]/edit/page.tsx:124-131). `PurchaseRequestService.Update` models this; see "## Findings".
- **Reference collisions are possible.** The reference comes from the current number of rows. After a deletion it can equal an existing reference. The insert then violates the unique constraint (500), and `Create` models this error path.

`src/services/purchaseRequestService.js` repeats the backend's create, list and read functions, with the same checks in the same order. One model covers both. The table cites the backend file; the same rules sit at src/services/purchaseRequestService.js lines 4-90 (create), 92-114 (list) and 116-145 (read).

A lookup by reference (`findOne({ where: { reference } })`) is modelled as a scan of the ids below the sequence value. On a consistent store this finds the one row carrying the reference, as `Models.FindByReferenceExact` states.

## Model

| member | source | states |
|---|---|---|
| Common.TrimStart | src/middlewares/validation.js:14 | the result is a suffix of the input, does not start with JavaScript whitespace, and everything dropped is whitespace |
| Common.TrimEnd | src/middlewares/validation.js:14 | the result is a prefix of the input, does not end with whitespace, and everything dropped is whitespace |
| Common.BlankIffAllWhitespace | src/middlewares/validation.js:14 | `s.trim() === ''` holds exactly when every character of `s` is whitespace |
| ReferenceGenerator.Decimal | backend/src/utils/referenceGenerator.js:6 | `String(n)` is a non-empty string of digits with no leading zero except for 0 itself |
| ReferenceGenerator.PadStart | backend/src/utils/referenceGenerator.js:6 | `padStart` gives max(length, width) characters, ends with the input unchanged, and the added prefix is all '0' (never truncates) |
| ReferenceGenerator.ParseDecimalOfDecimal | backend/src/utils/referenceGenerator.js:5-6 | the decimal digits of n read back as n |
| ReferenceGenerator.ParseDecimalIgnoresLeadingZeros | backend/src/utils/referenceGenerator.js:6 | padding with zeros keeps the string all digits and does not change its value |
| ReferenceGenerator.DecimalLength | backend/src/utils/referenceGenerator.js:6 | n has at most k digits exactly when n < 10^k |
| ReferenceGenerator.ReferenceParsesBack | backend/src/utils/referenceGenerator.js:4-6 | the reference is "PR" followed by digits only, and those digits parse back to count + 1 |
| ReferenceGenerator.ReferenceHasSevenCharacters | backend/src/utils/referenceGenerator.js:6 | when count + 1 ≤ 99999 the reference has exactly 7 characters and ends with the digits of count + 1 |
| ReferenceGenerator.ReferenceGrowsBeyondFiveDigits | backend/src/utils/referenceGenerator.js:6 | when count + 1 ≥ 100000 the reference is "PR" plus the plain digits, longer than 7, with no leading zero |
| ReferenceGenerator.ReferenceInjective | backend/src/utils/referenceGenerator.js:5-6 | distinct counts give distinct references |
| ReferenceGenerator.FirstReference | backend/src/utils/referenceGenerator.js:4-6 | an empty table gives "PR00001" |
| HubApi.Details | backend/src/utils/hubApi.js:9-13 | one detail per item |
| HubApi.ReduceIsTotal | backend/src/utils/hubApi.js:6 | the `reduce` from an initial sum adds exactly the sum of the quantities |
| HubApi.DetailsKeepTotal | backend/src/utils/hubApi.js:9-13 | the details' `qty` values sum to the items' total quantity |
| HubApi.QtyTotalIsSum | backend/src/utils/hubApi.js:6-20 | `qty_total` equals the sum of the item quantities and the sum of `details[i].qty` |
| HubApi.PayloadShape | backend/src/utils/hubApi.js:9-21 | vendor and reference are copied; one detail per item in order, qty equal to the item's quantity, name and SKU of its product or '' when the product is missing |
| Models.HttpStatus | backend/src/app.js:54 | every service error is answered with 400, 404 or 500 |
| Models.StoredVendor | backend/src/migrations/004-create-purchase-requests.cjs:24-27 | the column holds at most 255 characters, a prefix of the value written, and a value that fits is kept as it is |
| Models.StoredVendorDropsOnlySpaces | backend/src/migrations/004-create-purchase-requests.cjs:24-27 | a value of at most 255 characters is accepted and kept; an accepted longer value is the stored one followed by spaces only; a refused value has a non-space past the 255th character |
| Models.Store.constructor | src/models/Stock.js:34-39 | a store over given reference data and stock rows satisfies the schema invariant and holds no requests |
| Models.ReplaceKeepsConsistent | backend/src/services/purchaseRequestService.js:189-227 | rewriting one request's fields (same reference, existing warehouse) and its lines (existing products, positive quantities) keeps the schema invariant |
| Models.InsertKeepsConsistent | backend/src/services/purchaseRequestService.js:46-60 | inserting a request with a fresh reference under the next id keeps the invariant, and that id is unused |
| Models.IdsDescending | backend/src/services/purchaseRequestService.js:113 | the ids are strictly decreasing, all present, and include every request id in range |
| Models.FindByReference | src/services/webhookService.js:10-13 | a result is a request with that reference; none means no request in range has it |
| Models.FindByReferenceExact | src/services/webhookService.js:10-19 | on a consistent store the lookup finds exactly the request carrying the reference, and nothing only when none carries it |
| PurchaseRequestService.FirstItemError | backend/src/services/purchaseRequestService.js:24-36 | an item error is either a missing product or a non-positive quantity |
| PurchaseRequestService.FirstItemErrorNone | backend/src/services/purchaseRequestService.js:24-36 | no error is reported exactly when every line has an existing product and a positive quantity |
| PurchaseRequestService.FirstItemErrorIsFirstFailure | backend/src/services/purchaseRequestService.js:24-36 | the error reported is the one of the first failing line |
| PurchaseRequestService.CheckItems | backend/src/services/purchaseRequestService.js:24-36 | the validation loop returns the first line's error, and on success every line names an existing product with a positive quantity |
| PurchaseRequestService.CreateErrorOrder | backend/src/services/purchaseRequestService.js:9-36 | a missing warehouse (404) is reported first, then missing or empty items (400); create passes exactly when all lines pass; every error is 400 or 404 |
| PurchaseRequestService.CreateReportsFirstBadLine | src/services/purchaseRequestService.js:23-35 | with warehouse and items present, the first bad line reports a missing product (404) before a non-positive quantity (400) |
| PurchaseRequestService.Create | backend/src/services/purchaseRequestService.js:5-91 | a failing check is returned with nothing stored; otherwise exactly one request is added under the next id with status DRAFT, the generated reference, the given warehouse, the vendor as its column stores it, and exactly the supplied items in order; a vendor the column refuses fails (500) before the reference is looked at, a taken reference fails, both with nothing stored |
| PurchaseRequestService.GetById | backend/src/services/purchaseRequestService.js:117-146 | an unknown id fails with 404; otherwise the stored request and its items; the store is not changed |
| PurchaseRequestService.GetAll | backend/src/services/purchaseRequestService.js:93-115 | every request exactly once, each with its stored items, ordered by id descending; the store is not changed |
| PurchaseRequestService.NewStatus | backend/src/services/purchaseRequestService.js:178-179 | from DRAFT the hub is called exactly for a requested PENDING and the written status is the requested one, or DRAFT when none is requested |
| PurchaseRequestService.HubItems | backend/src/services/purchaseRequestService.js:236-251 | the hub sees one joined line per stored line |
| PurchaseRequestService.UpdatedFields | backend/src/services/purchaseRequestService.js:182-195 | warehouse and vendor change only when given truthy; the reference never changes; the status is the requested one or stays DRAFT; an empty payload changes nothing |
| PurchaseRequestService.HubSeesUpdatedRequest | backend/src/services/purchaseRequestService.js:231-254 | the hub receives the updated vendor as the column stores it, the unchanged reference, one detail per new line and the total of their quantities |
| PurchaseRequestService.ApplyFields | backend/src/services/purchaseRequestService.js:182-195 | a truthy warehouse_id that names no warehouse fails with 404; otherwise warehouse and vendor are updated as given |
| PurchaseRequestService.ReplaceLines | backend/src/services/purchaseRequestService.js:198-228 | every supplied line is validated first; on success the supplied list replaces the old one exactly, an empty list clearing it |
| PurchaseRequestService.StoredRowOfDraft | backend/src/services/purchaseRequestService.js:182-258 | from DRAFT the row is saved exactly when a status other than DRAFT is requested; the stored row is then the updated one, and otherwise the old one unchanged |
| PurchaseRequestService.EditPageBodyKeepsOldFields | backend/src/services/purchaseRequestService.js:189-258 | the body the edit page sends (warehouse, vendor, items, no status) replaces the items while the stored row keeps its old warehouse and vendor, although the instance carries the new ones |
| PurchaseRequestService.PrepareUpdate | backend/src/services/purchaseRequestService.js:148-228 | unknown id 404, non-DRAFT 400, then the warehouse and line checks in order; on success the fields the instance now carries and the line list the commit will hold, with an existing warehouse and stored products; nothing is written |
| PurchaseRequestService.Update | backend/src/services/purchaseRequestService.js:148-291 | unknown id 404; non-DRAFT 400 whatever the payload; then the warehouse and line checks; when the row is saved, a vendor the column refuses fails (500) before the hub; the hub is sent the updated payload, with the vendor as stored, exactly for DRAFT→PENDING, and its failure fails the update; every error leaves requests and items unchanged; success replaces that request's lines and stores the updated row (vendor as the column holds it) only when the status changes, the old row otherwise |
| PurchaseRequestService.UpdateSavingFields | backend/src/services/purchaseRequestService.js:182-258 | the intended update: the same checks, a vendor the column refuses always fails, and success stores the updated row (given warehouse, vendor as the column holds it, requested status) whatever the status |
| PurchaseRequestService.SavedRowKeepsGivenFields | backend/src/services/purchaseRequestService.js:182-195 | under the intended update a DRAFT given a truthy warehouse and vendor and no status stores exactly those (the vendor as the column holds it), stays DRAFT, and its row changes exactly when one of them differs |
| PurchaseRequestService.Delete | backend/src/services/purchaseRequestService.js:293-328 | unknown id 404, non-DRAFT 400, both with nothing changed; a DRAFT is removed with all its items and nothing else changes |
| WebhookService.Present | src/services/webhookService.js:40 | one delivered line per body line, in order, with its product_id and quantity |
| WebhookService.LineFailure | src/services/webhookService.js:40-58 | a line fails exactly when its product_id is absent (500), names no product (foreign key, 500) or its quantity is absent (500), in that order |
| WebhookService.FirstLineFailure | src/services/webhookService.js:39-59 | no failure exactly when every line passes; otherwise the failure of the first failing line |
| WebhookService.AddLine | src/services/webhookService.js:40-58 | one iteration reports exactly the line's failure; otherwise the line's cell, created at 0 if missing, grows by its quantity, and only cells of existing warehouses and products exist |
| WebhookService.AddLines | src/services/webhookService.js:39-59 | the loop reports the first failing line; otherwise the stock is the lines applied in order |
| WebhookService.ApplyLinesCell | src/services/webhookService.js:39-59 | each cell of the request's warehouse grows by the total delivered for its product, so repeated lines accumulate; other cells keep their quantity |
| WebhookService.ApplyLinesKeys | src/services/webhookService.js:43-54 | cells are only added, one per delivered product of the request's warehouse |
| WebhookService.UntouchedCells | src/services/webhookService.js:39-59 | cells of other warehouses, or of products no line delivers, are unchanged |
| WebhookService.NothingDelivered | src/services/webhookService.js:39-59 | a product no line names receives nothing |
| WebhookService.SameProductLinesAccumulate | src/services/webhookService.js:43-57 | 3 and then 2 units of one product against no stock create one cell holding 5 |
| WebhookService.ReceiveStock | src/services/webhookService.js:3-78 | an absent reference 500; unknown reference 404; COMPLETED gives alreadyProcessed with nothing changed; DRAFT 400; for PENDING absent items 500, then the first failing line's error; otherwise the stock becomes the lines applied in order and only that request becomes COMPLETED; every error changes nothing |
| WebhookService.FindByReferenceExactAll | src/services/webhookService.js:10-19 | the lookup finds the one request carrying the reference |
| WebhookService.DeliverTwice | src/services/webhookService.js:21-29 | after a successful delivery, the same webhook again reports alreadyProcessed and leaves the stock as the first call left it |
| Validation.LinesError | src/middlewares/validation.js:34-56 | none reported exactly when every line has a truthy product_id and a positive quantity; a report names a failing index with all earlier lines passing |
| Validation.LinesErrorNamesFirstFailure | src/middlewares/validation.js:107-129 | the error names the first failing index, a missing product_id ahead of a bad quantity |
| Validation.FirstFailureAt | src/middlewares/validation.js:158-180 | the scan from any start reports the first failing line at or after it |
| Validation.CreateChecksInOrder | src/middlewares/validation.js:1-59 | falsy warehouse_id first, then a missing or blank vendor, then a non-array or empty items, then the first bad line; passed on exactly when all checks pass |
| Validation.UpdateChecksInOrder | src/middlewares/validation.js:61-133 | in order: an empty body, a blank present vendor, an invalid present status, present items that are not a non-empty array, then the first bad line; passed on exactly when none applies |
| Validation.WebhookChecksInOrder | src/middlewares/validation.js:135-183 | a missing or blank reference first, then a non-array or empty items, then the first bad line; passed on exactly when all hold |
| Validation.AcceptedBodiesHavePositiveLines | src/middlewares/validation.js:58 | a body any validator passes on carries only lines with a non-zero product_id and a positive quantity |
| NewRequestForm.AddItem | frontend/app/purchase-requests/new/page.tsx:66-68 | one default item {0, 1} is appended and the earlier items are unchanged |
| NewRequestForm.DropIndex | frontend/app/purchase-requests/new/page.tsx:72 | the filter removes exactly the entry at the index, and nothing when the index names no entry |
| NewRequestForm.RemoveItemExact | frontend/app/purchase-requests/new/page.tsx:70-74 | removeItem deletes exactly the entry at index when more than one is left, and otherwise changes nothing |
| NewRequestForm.UpdateItem | frontend/app/purchase-requests/new/page.tsx:76-80 | only the given field of the given entry changes; length and all other entries are unchanged |
| NewRequestForm.ListNeverEmpty | frontend/app/purchase-requests/new/page.tsx:66-80 | any sequence of add, remove and update keeps a non-empty list non-empty |
| NewRequestForm.InitialListNeverEmpty | frontend/app/purchase-requests/new/page.tsx:31-33 | the list starts as the one item {0, 1} and stays non-empty whatever the user does |
| NewRequestForm.SomeProductMissing | frontend/app/purchase-requests/new/page.tsx:92 | true exactly when some item has product_id 0 |
| NewRequestForm.SomeQuantityNotPositive | frontend/app/purchase-requests/new/page.tsx:97 | true exactly when some item has a quantity ≤ 0 |
| NewRequestForm.SubmitChecks | frontend/app/purchase-requests/new/page.tsx:87-111 | submit is blocked, in order, by a blank vendor, an unselected product, a quantity ≤ 0; otherwise the payload carries the vendor as typed and the items in order |
| NewRequestForm.SubmittedPayloadPassesCreateValidator | frontend/app/purchase-requests/new/page.tsx:104-111 | a submitted payload with a selected warehouse and a non-empty list passes the server's create validator |
| WarehousesApi.FindIndexFrom | frontend/lib/api.ts:70 | -1 when no entry has the id, otherwise the first entry with it |
| WarehousesApi.KeepFirst | frontend/lib/api.ts:66-71 | kept entries are first occurrences, in input order, and every first occurrence is kept |
| WarehousesApi.WarehousesOf | frontend/lib/api.ts:67 | one warehouse per stock row |
| WarehousesApi.DedupeProperties | frontend/lib/api.ts:66-71 | no two results share an id; every input id appears; each entry is the first warehouse with its id, in first-occurrence order; at most as many entries as inputs, none for none |
| WarehousesApi.RepeatedWarehouseListedOnce | frontend/lib/api.ts:66-71 | stock rows of warehouses 1, 2, 1 list warehouses 1 and 2 once each |
| WarehousesApi.GetAllProperties | frontend/lib/api.ts:63-76 | a failed response gives `{success: false, data: []}`; otherwise success with each warehouse of the stock rows once |

## Findings

| source | as written | input that shows it | evidently intended | confidence | as-written member | corrected member |
|---|---|---|---|---|---|---|
| backend/src/services/purchaseRequestService.js:189-258 | the new warehouse_id and vendor are set on the instance, but `save()` runs only when the status changes, so they are dropped | a DRAFT with vendor "Acme" and warehouse 1, updated with `{warehouse_id: 2, vendor: "Globex", items: [{product_id: 1, quantity: 4}]}` as the edit page sends: the items become that line and the row keeps "Acme" and 1 | the given warehouse and vendor are stored on every successful update | high, not executed | PurchaseRequestService.EditPageBodyKeepsOldFields | PurchaseRequestService.UpdateSavingFields |

`PurchaseRequestService.Update` models the code as written; `UpdateSavingFields` is the intended variant, with `UpdatedFields` and `SavedRowKeepsGivenFields` stating the row it stores.

## Left out

- The HTTP layer (routers, controllers, the Express app, error handlers, CORS, configuration): it only maps errors to `err.status || 500`, which `Models.HttpStatus` states.
- The ORM, migrations and seeders: the schema is used only as the datatypes and the `Store.Valid` invariant.
- The hub's HTTP POST, its secret header and timeout: the outcome is the `hubAccepts` oracle of `PurchaseRequestService.Update`.
- `fetchApi` and the network in frontend/lib/api.ts: the stocks response is an input of `WarehousesApi.GetAll`.
- Concurrency: the count-then-insert race of the reference generator and simultaneous webhook calls. One operation runs at a time.
- The join of warehouse, product and item rows that the read operations return: views carry the request and its stored lines, and the joined rows are unchanged reference data.
- Timestamps, locale formatting, React rendering, loading state and form events.
- JSON values of the wrong type: a string quantity, a non-string vendor, `null` fields (a `null` webhook reference is looked up as `IS NULL` and answered 404) and a non-array `items` in the backend update. These are treated as absent or as the typed value. Fractional quantities and ids are not modelled; all numbers are integers.
- `parseInt` of the warehouse select box: `NewRequestForm.Submit` takes the parsed number.
- The 32-bit INTEGER columns: ids, quantities and stock cells are unbounded integers, so overflow of a stock cell is not modelled.
- Gaps in the id sequence after a rolled-back insert: a failed `Create` leaves `nextId` unchanged.
- src/utils/hubApi.js is not part of this model: it is an unused variant of the hub call.
- updateStatus.js and src/scripts/createDb.js are one-off scripts that bypass the services.
- The rest of the edit page and the list page of the frontend, including `calculateTotalQuantity`: only the body the edit page sends is used, in `PurchaseRequestService.EditPageBodyKeepsOldFields`.
- PurchaseRequestService.Create: an absent vendor is not modelled. The src create route mounts no validator, so such a body reaches the insert, where the NOT NULL vendor column rejects it (500). The model's vendor is always a string. The 255-character limit of the `reference` column is not modelled either; references are far shorter for any realistic count.
- Item order in the views and in the hub's re-fetch: the model keeps each request's items in insertion order. The source loads them through `include` with no `order` (backend/src/services/purchaseRequestService.js:125-135 and 236-251), so the database may return them in any order.
