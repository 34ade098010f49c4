/** The body `callHubApi` posts to the hub when a request becomes PENDING:
    vendor, reference, the total quantity and one detail per line. The HTTP
    call itself is outside this module; the services treat its outcome as an
    oracle. */
module HubApi {
  import opened Common
  import opened Models

  /** A request line joined with its product (`include: Product as 'product'`);
      `None` when the join found no product. */
  datatype HubItem = HubItem(quantity: int, product: Option<Product>)

  datatype Detail = Detail(product_name: string, sku_barcode: string, qty: int)

  datatype Payload = Payload(vendor: string, reference: string, qty_total: int, details: seq<Detail>)

  /** `items.reduce((sum, item) => sum + item.quantity, acc)`: a left fold. */
  function Reduce(items: seq<HubItem>, acc: int): int
    decreases |items|
  {
    if items == [] then acc else Reduce(items[1..], acc + items[0].quantity)
  }

  /** The total quantity, as a plain recursive sum. */
  function Total(items: seq<HubItem>): int {
    if items == [] then 0 else items[0].quantity + Total(items[1..])
  }

  function DetailsTotal(details: seq<Detail>): int {
    if details == [] then 0 else details[0].qty + DetailsTotal(details[1..])
  }

  /** `item.product?.name || ''` and `item.product?.sku || ''` */
  function ToDetail(item: HubItem): Detail {
    if item.product.Some? then Detail(item.product.value.name, item.product.value.sku, item.quantity)
    else Detail("", "", item.quantity)
  }

  function Details(items: seq<HubItem>): (d: seq<Detail>)
    ensures |d| == |items|
  {
    seq(|items|, i requires 0 <= i < |items| => ToDetail(items[i]))
  }

  function BuildPayload(vendor: string, reference: string, items: seq<HubItem>): Payload {
    Payload(vendor, reference, Reduce(items, 0), Details(items))
  }

  lemma {:induction false} ReduceIsTotal(items: seq<HubItem>, acc: int)
    ensures Reduce(items, acc) == acc + Total(items)
  {
    if items != [] {
      ReduceIsTotal(items[1..], acc + items[0].quantity);
    }
  }

  lemma {:induction false} DetailsKeepTotal(items: seq<HubItem>)
    ensures DetailsTotal(Details(items)) == Total(items)
  {
    if items != [] {
      assert Details(items)[1..] == Details(items[1..]);
      DetailsKeepTotal(items[1..]);
    }
  }

  /** `qty_total` is the sum of the line quantities, and so also the sum of
      the `qty` of the details. */
  lemma QtyTotalIsSum(vendor: string, reference: string, items: seq<HubItem>)
    ensures BuildPayload(vendor, reference, items).qty_total == Total(items)
    ensures BuildPayload(vendor, reference, items).qty_total == DetailsTotal(BuildPayload(vendor, reference, items).details)
  {
    ReduceIsTotal(items, 0);
    DetailsKeepTotal(items);
  }

  /** One detail per line, in order, carrying the line's quantity and its
      product's name and SKU, or empty strings when the product is missing;
      vendor and reference are copied unchanged. */
  lemma PayloadShape(vendor: string, reference: string, items: seq<HubItem>)
    ensures BuildPayload(vendor, reference, items).vendor == vendor
    ensures BuildPayload(vendor, reference, items).reference == reference
    ensures |BuildPayload(vendor, reference, items).details| == |items|
    ensures forall i :: 0 <= i < |items| ==>
      var d := BuildPayload(vendor, reference, items).details[i];
      && d.qty == items[i].quantity
      && (items[i].product.None? ==> d.product_name == "" && d.sku_barcode == "")
      && (items[i].product.Some? ==> d.product_name == items[i].product.value.name && d.sku_barcode == items[i].product.value.sku)
  {
  }
}
