/** The item list of the "new purchase request" page and the checks its
    submit handler runs before posting. The list starts with one default row
    and is edited by adding, removing and updating rows; it is never empty. */
module NewRequestForm {
  import opened Common
  import Validation

  /** A row of the form; 0 as product_id means "no product selected". */
  datatype FormItem = FormItem(product_id: int, quantity: int)

  /** `keyof FormItem` */
  datatype Field = ProductId | Quantity

  const DefaultItem := FormItem(0, 1)

  /** The rows the page starts with. */
  const InitialItems: seq<FormItem> := [DefaultItem]

  /** addItem: one default row after the existing ones. */
  function AddItem(items: seq<FormItem>): (r: seq<FormItem>)
    ensures |r| == |items| + 1
    ensures r[..|items|] == items && r[|items|] == FormItem(0, 1)
  {
    items + [DefaultItem]
  }

  /** `items.filter((_, i) => i !== index)` over the positions from `from` on. */
  function DropIndex(items: seq<FormItem>, index: int, from: nat): (r: seq<FormItem>)
    requires from <= |items|
    ensures from <= index < |items| ==> r == items[from..index] + items[index + 1..]
    ensures !(from <= index < |items|) ==> r == items[from..]
    decreases |items| - from
  {
    if from == |items| then []
    else if from == index then DropIndex(items, index, from + 1)
    else [items[from]] + DropIndex(items, index, from + 1)
  }

  /** removeItem: the filter runs only when more than one row is left. */
  function RemoveItem(items: seq<FormItem>, index: int): seq<FormItem> {
    if |items| > 1 then DropIndex(items, index, 0) else items
  }

  /** updateItem: a copy of the list with one field of one row replaced;
      the page only offers it for an existing row. */
  function UpdateItem(items: seq<FormItem>, index: int, field: Field, value: int): (r: seq<FormItem>)
    requires 0 <= index < |items|
    ensures |r| == |items|
    ensures forall j :: 0 <= j < |items| && j != index ==> r[j] == items[j]
    ensures field == ProductId ==> r[index] == FormItem(value, items[index].quantity)
    ensures field == Quantity ==> r[index] == FormItem(items[index].product_id, value)
  {
    var row := items[index];
    items[index := match field
                   case ProductId => row.(product_id := value)
                   case Quantity => row.(quantity := value)]
  }

  /** removeItem drops exactly the row at `index` when more than one row is
      left and `index` names a row; otherwise the list is unchanged. */
  lemma RemoveItemExact(items: seq<FormItem>, index: int)
    ensures |items| > 1 && 0 <= index < |items| ==> RemoveItem(items, index) == items[..index] + items[index + 1..]
    ensures !(|items| > 1 && 0 <= index < |items|) ==> RemoveItem(items, index) == items
  {
    assert items[0..] == items;
  }

  /** A user action on the list. */
  datatype Edit = Add | Remove(index: int) | Update(index: int, field: Field, value: int)

  /** The result of the actions in order; `None` if an update names a row
      that does not exist, which the page never offers. */
  function Replay(items: seq<FormItem>, edits: seq<Edit>): Option<seq<FormItem>>
    decreases |edits|
  {
    if edits == [] then Some(items)
    else
      match edits[0]
      case Add => Replay(AddItem(items), edits[1..])
      case Remove(i) => Replay(RemoveItem(items, i), edits[1..])
      case Update(i, f, v) =>
        if 0 <= i < |items| then Replay(UpdateItem(items, i, f, v), edits[1..]) else None
  }

  /** Whatever the user does, starting from a non-empty list (in particular
      from the initial one) the list stays non-empty. */
  lemma {:induction false} ListNeverEmpty(items: seq<FormItem>, edits: seq<Edit>)
    requires |items| >= 1
    ensures Replay(items, edits).Some? ==> |Replay(items, edits).value| >= 1
    decreases |edits|
  {
    if edits != [] {
      match edits[0]
      case Add =>
        ListNeverEmpty(AddItem(items), edits[1..]);
      case Remove(i) =>
        RemoveItemExact(items, i);
        ListNeverEmpty(RemoveItem(items, i), edits[1..]);
      case Update(i, f, v) =>
        if 0 <= i < |items| {
          ListNeverEmpty(UpdateItem(items, i, f, v), edits[1..]);
        }
    }
  }

  /** The page's own starting point: one row, product 0, quantity 1. */
  lemma InitialListNeverEmpty(edits: seq<Edit>)
    ensures InitialItems == [FormItem(0, 1)]
    ensures Replay(InitialItems, edits).Some? ==> |Replay(InitialItems, edits).value| >= 1
  {
    ListNeverEmpty(InitialItems, edits);
  }

  /** `items.some((item) => item.product_id === 0)` */
  function SomeProductMissing(items: seq<FormItem>): (b: bool)
    ensures b <==> exists k :: 0 <= k < |items| && items[k].product_id == 0
  {
    if items == [] then false
    else items[0].product_id == 0 || SomeProductMissing(items[1..])
  }

  /** `items.some((item) => item.quantity <= 0)` */
  function SomeQuantityNotPositive(items: seq<FormItem>): (b: bool)
    ensures b <==> exists k :: 0 <= k < |items| && items[k].quantity <= 0
  {
    if items == [] then false
    else items[0].quantity <= 0 || SomeQuantityNotPositive(items[1..])
  }

  /** What handleSubmit does: post the payload, or stop with an alert. */
  datatype SubmitOutcome = Success(value: CreatePayload) | Fail(error: SubmitError)

  datatype SubmitError = VendorRequired | ProductNotSelected | QuantityNotPositive

  /** The `CreatePurchaseRequestPayload` the page posts. */
  datatype CreatePayload = CreatePayload(warehouse_id: int, vendor: string, items: seq<FormItem>)

  /** The checks of handleSubmit in order, then the payload: the vendor as
      typed and a row-by-row copy of the items. `warehouse_id` is the
      already parsed number of the select box. */
  function Submit(vendor: string, warehouse_id: int, items: seq<FormItem>): SubmitOutcome {
    if IsBlank(vendor) then Fail(VendorRequired)
    else if SomeProductMissing(items) then Fail(ProductNotSelected)
    else if SomeQuantityNotPositive(items) then Fail(QuantityNotPositive)
    else Success(CreatePayload(warehouse_id, vendor, seq(|items|, i requires 0 <= i < |items| =>
                                                          FormItem(items[i].product_id, items[i].quantity))))
  }

  /** Submit is blocked first by a blank vendor, then by a row without a
      product, then by a row with a quantity of at most 0; otherwise the
      payload carries the vendor unchanged and the rows in order. */
  lemma SubmitChecks(vendor: string, warehouse_id: int, items: seq<FormItem>)
    ensures IsBlank(vendor) ==> Submit(vendor, warehouse_id, items) == Fail(VendorRequired)
    ensures !IsBlank(vendor) && (exists k :: 0 <= k < |items| && items[k].product_id == 0) ==>
      Submit(vendor, warehouse_id, items) == Fail(ProductNotSelected)
    ensures !IsBlank(vendor) && (forall k :: 0 <= k < |items| ==> items[k].product_id != 0) &&
            (exists k :: 0 <= k < |items| && items[k].quantity <= 0) ==>
      Submit(vendor, warehouse_id, items) == Fail(QuantityNotPositive)
    ensures Submit(vendor, warehouse_id, items).Success? <==>
      && !IsBlank(vendor)
      && (forall k :: 0 <= k < |items| ==> items[k].product_id != 0 && items[k].quantity > 0)
    ensures Submit(vendor, warehouse_id, items).Success? ==>
      Submit(vendor, warehouse_id, items).value == CreatePayload(warehouse_id, vendor, items)
  {
    if !IsBlank(vendor) && !SomeProductMissing(items) && !SomeQuantityNotPositive(items) {
      var sent := Submit(vendor, warehouse_id, items).value.items;
      assert |sent| == |items|;
      assert forall i :: 0 <= i < |items| ==> sent[i] == items[i];
    }
  }

  /** The body the server's create validator sees for a payload. */
  function AsBody(p: CreatePayload): Validation.CreateBody {
    Validation.CreateBody(Some(p.warehouse_id), Some(p.vendor),
      Validation.Array(seq(|p.items|, i requires 0 <= i < |p.items| =>
        Validation.BodyItem(Some(p.items[i].product_id), Some(p.items[i].quantity)))))
  }

  /** A payload the page lets through with a non-empty list and a selected
      warehouse is also let through by the server's create validator. */
  lemma SubmittedPayloadPassesCreateValidator(vendor: string, warehouse_id: int, items: seq<FormItem>)
    requires Submit(vendor, warehouse_id, items).Success?
    requires warehouse_id != 0 && items != []
    ensures Validation.ValidateCreate(AsBody(Submit(vendor, warehouse_id, items).value)) == None
  {
    SubmitChecks(vendor, warehouse_id, items);
    var body := AsBody(Submit(vendor, warehouse_id, items).value);
    Validation.CreateChecksInOrder(body);
  }
}
