/** The request-body validators that run before the services. Each returns
    the first failing check, which is answered with status 400, or `None`
    when the request is passed on (`next()`). Bodies are parsed JSON; a field
    that is `None` is absent, and JavaScript truthiness is written out. */
module Validation {
  import opened Common

  /** The `items` field: absent (or, where `!items` is tested, null), present
      but not an array, or an array. */
  datatype ItemsField<T> = Missing | NotArray | Array(elements: seq<T>)

  /** A line of a body; a number field is falsy when absent or 0. */
  datatype BodyItem = BodyItem(product_id: Option<int>, quantity: Option<int>)

  datatype CreateBody = CreateBody(warehouse_id: Option<int>, vendor: Option<string>, items: ItemsField<BodyItem>)

  /** `otherKeys` counts the body's keys besides the four named ones. */
  datatype UpdateBody = UpdateBody(warehouse_id: Option<int>, vendor: Option<string>, status: Option<string>,
                                   items: ItemsField<BodyItem>, otherKeys: nat)

  datatype WebhookBody = WebhookBody(reference: Option<string>, items: ItemsField<BodyItem>)

  /** The error a validator answers with; the index names the line, as in
      `items[i].product_id`. */
  datatype ValidationError =
    | WarehouseRequired
    | VendorRequired
    | EmptyBody
    | VendorEmpty
    | InvalidStatus
    | ReferenceRequired
    | ItemsNotNonEmptyArray
    | ProductIdRequired(index: nat)
    | QuantityNotPositive(index: nat)

  /** `!x` for a number */
  predicate Falsy(x: Option<int>) {
    x.None? || x.value == 0
  }

  /** `!s || s.trim() === ''` */
  predicate BlankOrMissing(s: Option<string>) {
    s.None? || IsBlank(s.value)
  }

  /** `!items || !Array.isArray(items) || items.length === 0` */
  predicate NotNonEmptyArray<T>(items: ItemsField<T>) {
    !items.Array? || items.elements == []
  }

  /** One line: a falsy product_id first, then `!quantity || quantity <= 0`. */
  function LineError(item: BodyItem, index: nat): Option<ValidationError> {
    if Falsy(item.product_id) then Some(ProductIdRequired(index))
    else if item.quantity.None? || item.quantity.value <= 0 then Some(QuantityNotPositive(index))
    else None
  }

  predicate LineOk(item: BodyItem) {
    item.product_id.Some? && item.product_id.value != 0 && item.quantity.Some? && item.quantity.value > 0
  }

  /** The `for (let i = 0; ...)` scan from index `from`: the first failing line. */
  function LinesError(items: seq<BodyItem>, from: nat): (e: Option<ValidationError>)
    requires from <= |items|
    ensures e.None? <==> forall k :: from <= k < |items| ==> LineOk(items[k])
    ensures e.Some? ==> e.value.ProductIdRequired? || e.value.QuantityNotPositive?
    ensures e.Some? ==> from <= e.value.index < |items| && !LineOk(items[e.value.index])
    ensures e.Some? ==> forall k :: from <= k < e.value.index ==> LineOk(items[k])
    decreases |items| - from
  {
    if from == |items| then None
    else if LineError(items[from], from).Some? then LineError(items[from], from)
    else LinesError(items, from + 1)
  }

  /** The error names the first failing index, and for that line a missing
      product_id is reported before a bad quantity. */
  lemma LinesErrorNamesFirstFailure(items: seq<BodyItem>, k: nat)
    requires k < |items| && !LineOk(items[k])
    requires forall j :: 0 <= j < k ==> LineOk(items[j])
    ensures LinesError(items, 0) == LineError(items[k], k)
    ensures Falsy(items[k].product_id) ==> LinesError(items, 0) == Some(ProductIdRequired(k))
    ensures !Falsy(items[k].product_id) ==> LinesError(items, 0) == Some(QuantityNotPositive(k))
  {
    FirstFailureAt(items, 0, k);
  }

  lemma {:induction false} FirstFailureAt(items: seq<BodyItem>, from: nat, k: nat)
    requires from <= k < |items| && !LineOk(items[k])
    requires forall j :: from <= j < k ==> LineOk(items[j])
    ensures LinesError(items, from) == LineError(items[k], k)
    decreases k - from
  {
    if from < k {
      FirstFailureAt(items, from + 1, k);
    }
  }

  /** validateCreatePurchaseRequest */
  function ValidateCreate(body: CreateBody): Option<ValidationError> {
    if Falsy(body.warehouse_id) then Some(WarehouseRequired)
    else if BlankOrMissing(body.vendor) then Some(VendorRequired)
    else if NotNonEmptyArray(body.items) then Some(ItemsNotNonEmptyArray)
    else LinesError(body.items.elements, 0)
  }

  predicate IsStatusName(s: string) {
    s == "DRAFT" || s == "PENDING" || s == "COMPLETED"
  }

  /** `Object.keys(req.body).length === 0` */
  predicate IsEmptyBody(body: UpdateBody) {
    body.warehouse_id.None? && body.vendor.None? && body.status.None? && body.items.Missing? && body.otherKeys == 0
  }

  /** validateUpdatePurchaseRequest: each field is checked only when present. */
  function ValidateUpdate(body: UpdateBody): Option<ValidationError> {
    if IsEmptyBody(body) then Some(EmptyBody)
    else if body.vendor.Some? && IsBlank(body.vendor.value) then Some(VendorEmpty)
    else if body.status.Some? && !IsStatusName(body.status.value) then Some(InvalidStatus)
    else if !body.items.Missing? && NotNonEmptyArray(body.items) then Some(ItemsNotNonEmptyArray)
    else if body.items.Array? then LinesError(body.items.elements, 0)
    else None
  }

  /** validateWebhookReceiveStock */
  function ValidateWebhook(body: WebhookBody): Option<ValidationError> {
    if BlankOrMissing(body.reference) then Some(ReferenceRequired)
    else if NotNonEmptyArray(body.items) then Some(ItemsNotNonEmptyArray)
    else LinesError(body.items.elements, 0)
  }

  /** Create checks run in order, and a body is passed on exactly when all
      pass: a truthy warehouse_id, a non-blank vendor, and a non-empty array
      of lines with a product_id and a positive quantity each. */
  lemma CreateChecksInOrder(body: CreateBody)
    ensures Falsy(body.warehouse_id) ==> ValidateCreate(body) == Some(WarehouseRequired)
    ensures !Falsy(body.warehouse_id) && BlankOrMissing(body.vendor) ==> ValidateCreate(body) == Some(VendorRequired)
    ensures !Falsy(body.warehouse_id) && !BlankOrMissing(body.vendor) && NotNonEmptyArray(body.items) ==>
      ValidateCreate(body) == Some(ItemsNotNonEmptyArray)
    ensures !Falsy(body.warehouse_id) && !BlankOrMissing(body.vendor) && !NotNonEmptyArray(body.items) ==>
      ValidateCreate(body) == LinesError(body.items.elements, 0)
    ensures ValidateCreate(body) == None <==>
      && !Falsy(body.warehouse_id) && !BlankOrMissing(body.vendor)
      && body.items.Array? && body.items.elements != []
      && forall k :: 0 <= k < |body.items.elements| ==> LineOk(body.items.elements[k])
  {
  }

  /** Update rejects an empty body first, then checks in order: a present
      vendor must not be blank, a present status must name a status, present
      items must be a non-empty array, and then every line must be valid. An
      absent field is not checked at all. */
  lemma UpdateChecksInOrder(body: UpdateBody)
    ensures IsEmptyBody(body) ==> ValidateUpdate(body) == Some(EmptyBody)
    ensures !IsEmptyBody(body) && body.vendor.Some? && IsBlank(body.vendor.value) ==>
      ValidateUpdate(body) == Some(VendorEmpty)
    ensures !IsEmptyBody(body) && (body.vendor.Some? ==> !IsBlank(body.vendor.value)) &&
            body.status.Some? && !IsStatusName(body.status.value) ==>
      ValidateUpdate(body) == Some(InvalidStatus)
    ensures !IsEmptyBody(body) && (body.vendor.Some? ==> !IsBlank(body.vendor.value)) &&
            (body.status.Some? ==> IsStatusName(body.status.value)) &&
            !body.items.Missing? && NotNonEmptyArray(body.items) ==>
      ValidateUpdate(body) == Some(ItemsNotNonEmptyArray)
    ensures !IsEmptyBody(body) && (body.vendor.Some? ==> !IsBlank(body.vendor.value)) &&
            (body.status.Some? ==> IsStatusName(body.status.value)) &&
            body.items.Array? && body.items.elements != [] ==>
      ValidateUpdate(body) == LinesError(body.items.elements, 0)
    ensures ValidateUpdate(body) == None <==>
      && !IsEmptyBody(body)
      && (body.vendor.Some? ==> !IsBlank(body.vendor.value))
      && (body.status.Some? ==> IsStatusName(body.status.value))
      && !body.items.NotArray?
      && (body.items.Array? ==> body.items.elements != [])
      && (body.items.Array? ==> forall k :: 0 <= k < |body.items.elements| ==> LineOk(body.items.elements[k]))
  {
  }

  /** The webhook body needs a non-blank reference before its lines are
      looked at, and is passed on exactly when both hold. */
  lemma WebhookChecksInOrder(body: WebhookBody)
    ensures BlankOrMissing(body.reference) ==> ValidateWebhook(body) == Some(ReferenceRequired)
    ensures !BlankOrMissing(body.reference) && NotNonEmptyArray(body.items) ==>
      ValidateWebhook(body) == Some(ItemsNotNonEmptyArray)
    ensures !BlankOrMissing(body.reference) && !NotNonEmptyArray(body.items) ==>
      ValidateWebhook(body) == LinesError(body.items.elements, 0)
    ensures ValidateWebhook(body) == None <==>
      && !BlankOrMissing(body.reference)
      && body.items.Array? && body.items.elements != []
      && forall k :: 0 <= k < |body.items.elements| ==> LineOk(body.items.elements[k])
  {
  }

  /** Lines a service may rely on after validation: a non-empty array,
      every line with a non-zero product_id and a positive quantity. */
  predicate AcceptedLines(items: ItemsField<BodyItem>) {
    && items.Array? && items.elements != []
    && forall k :: 0 <= k < |items.elements| ==>
         items.elements[k].quantity.Some? && items.elements[k].quantity.value > 0 &&
         items.elements[k].product_id.Some? && items.elements[k].product_id.value != 0
  }

  /** A body a validator passes on carries only accepted lines; for update,
      whenever it carries items at all. */
  lemma AcceptedBodiesHavePositiveLines(c: CreateBody, u: UpdateBody, w: WebhookBody)
    ensures ValidateCreate(c) == None ==> AcceptedLines(c.items)
    ensures ValidateUpdate(u) == None && !u.items.Missing? ==> AcceptedLines(u.items)
    ensures ValidateWebhook(w) == None ==> AcceptedLines(w.items)
  {
  }
}
