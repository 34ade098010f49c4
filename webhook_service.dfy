/** Stock reconciliation on the delivery webhook: the request named by the
    reference is closed and every delivered line is added to the stock cell
    (request warehouse, line product), the cell being created at 0 when it is
    missing. A COMPLETED request is reported as already processed and nothing
    changes, which makes a repeated delivery harmless. No validator runs
    before the service, so the body's fields may be absent. */
module WebhookService {
  import opened Common
  import opened Models
  import Validation

  /** A line of the webhook body as sent: either field may be absent. */
  type BodyLine = Validation.BodyItem

  /** A delivered line with both fields present. */
  datatype Line = Line(product_id: int, quantity: int)

  /** The lines of a body in which every field is present. */
  function Present(lines: seq<BodyLine>): (r: seq<Line>)
    requires forall k :: 0 <= k < |lines| ==> lines[k].product_id.Some? && lines[k].quantity.Some?
    ensures |r| == |lines|
    ensures forall k :: 0 <= k < |lines| ==> r[k] == Line(lines[k].product_id.value, lines[k].quantity.value)
  {
    seq(|lines|, k requires 0 <= k < |lines| => Line(lines[k].product_id.value, lines[k].quantity.value))
  }

  /** The quantity of a stock cell, 0 for a cell not yet created. */
  function Cell(stock: map<StockKey, int>, key: StockKey): int {
    if key in stock then stock[key] else 0
  }

  /** One iteration: find or create the cell with quantity 0, then add the
      delivered quantity. */
  function Receive(stock: map<StockKey, int>, warehouse_id: int, line: Line): map<StockKey, int> {
    var key := StockKey(warehouse_id, line.product_id);
    stock[key := Cell(stock, key) + line.quantity]
  }

  /** The stock after the lines, taken in order. */
  function ApplyLines(stock: map<StockKey, int>, warehouse_id: int, lines: seq<Line>): map<StockKey, int> {
    if lines == [] then stock
    else Receive(ApplyLines(stock, warehouse_id, lines[..|lines| - 1]), warehouse_id, lines[|lines| - 1])
  }

  /** The total quantity delivered for one product. */
  function Delivered(lines: seq<Line>, product_id: int): int {
    if lines == [] then 0
    else
      var last := lines[|lines| - 1];
      Delivered(lines[..|lines| - 1], product_id) + (if last.product_id == product_id then last.quantity else 0)
  }

  function DeliveredProducts(lines: seq<Line>): set<int> {
    set k | 0 <= k < |lines| :: lines[k].product_id
  }

  /** How one iteration of the loop fails, if it does. An absent
      product_id makes `Stock.findOrCreate` throw. A product that does not
      exist has no cell yet (cells exist only for existing products), so
      `findOrCreate` must insert one and the foreign key refuses it. An
      absent quantity makes the sum NaN, which the save refuses. */
  function LineFailure(products: map<int, Product>, line: BodyLine): (e: Option<ServiceError>)
    ensures e.None? <==> line.product_id.Some? && line.product_id.value in products && line.quantity.Some?
  {
    if line.product_id.None? then Some(ProductIdMissing)
    else if line.product_id.value !in products then Some(StockRowRejected(line.product_id.value))
    else if line.quantity.None? then Some(QuantityMissing)
    else None
  }

  /** The failure of the first failing line from `from` on: the loop stops
      there and the transaction is rolled back. */
  function FirstLineFailure(products: map<int, Product>, lines: seq<BodyLine>, from: nat): (e: Option<ServiceError>)
    requires from <= |lines|
    ensures e.None? <==> forall k :: from <= k < |lines| ==> LineFailure(products, lines[k]).None?
    ensures e.Some? ==>
      exists k ::
        && from <= k < |lines| && e == LineFailure(products, lines[k])
        && forall j :: from <= j < k ==> LineFailure(products, lines[j]).None?
    decreases |lines| - from
  {
    if from == |lines| then None
    else if LineFailure(products, lines[from]).Some? then LineFailure(products, lines[from])
    else FirstLineFailure(products, lines, from + 1)
  }

  /** Each cell of the request's warehouse grows by the sum of the
      quantities delivered for its product, so repeated lines accumulate;
      every other cell keeps its quantity. */
  lemma {:induction false} ApplyLinesCell(stock: map<StockKey, int>, warehouse_id: int, lines: seq<Line>, key: StockKey)
    ensures Cell(ApplyLines(stock, warehouse_id, lines), key) ==
      Cell(stock, key) + (if key.warehouse_id == warehouse_id then Delivered(lines, key.product_id) else 0)
  {
    if lines != [] {
      ApplyLinesCell(stock, warehouse_id, lines[..|lines| - 1], key);
    }
  }

  /** Cells are only ever added, one per delivered product of the request's
      warehouse, and never more than one per (warehouse, product). */
  lemma {:induction false} ApplyLinesKeys(stock: map<StockKey, int>, warehouse_id: int, lines: seq<Line>)
    ensures ApplyLines(stock, warehouse_id, lines).Keys ==
      stock.Keys + set p | p in DeliveredProducts(lines) :: StockKey(warehouse_id, p)
  {
    if lines != [] {
      var init := lines[..|lines| - 1];
      ApplyLinesKeys(stock, warehouse_id, init);
      assert DeliveredProducts(lines) == DeliveredProducts(init) + {lines[|lines| - 1].product_id} by {
        forall p | p in DeliveredProducts(lines)
          ensures p in DeliveredProducts(init) + {lines[|lines| - 1].product_id}
        {
          var k :| 0 <= k < |lines| && lines[k].product_id == p;
          if k < |lines| - 1 {
            assert init[k] == lines[k];
          }
        }
        forall p | p in DeliveredProducts(init)
          ensures p in DeliveredProducts(lines)
        {
          var k :| 0 <= k < |init| && init[k].product_id == p;
          assert lines[k] == init[k];
        }
      }
    }
  }

  /** A cell outside the request's warehouse, or of a product no line
      delivers, is untouched: present exactly when it was, with its
      quantity. */
  lemma UntouchedCells(stock: map<StockKey, int>, warehouse_id: int, lines: seq<Line>, key: StockKey)
    requires key.warehouse_id != warehouse_id || key.product_id !in DeliveredProducts(lines)
    ensures key in ApplyLines(stock, warehouse_id, lines) <==> key in stock
    ensures key in stock ==> ApplyLines(stock, warehouse_id, lines)[key] == stock[key]
  {
    ApplyLinesKeys(stock, warehouse_id, lines);
    ApplyLinesCell(stock, warehouse_id, lines, key);
    if key.warehouse_id == warehouse_id {
      NothingDelivered(lines, key.product_id);
    }
  }

  lemma {:induction false} NothingDelivered(lines: seq<Line>, product_id: int)
    requires product_id !in DeliveredProducts(lines)
    ensures Delivered(lines, product_id) == 0
  {
    if lines != [] {
      var init := lines[..|lines| - 1];
      assert lines[|lines| - 1].product_id in DeliveredProducts(lines);
      forall k | 0 <= k < |init|
        ensures init[k].product_id != product_id
      {
        assert lines[k] == init[k];
        assert lines[k].product_id in DeliveredProducts(lines);
      }
      NothingDelivered(init, product_id);
    }
  }

  /** Two lines of 3 and 2 units of one product against an empty stock table
      leave one cell holding 5. */
  lemma SameProductLinesAccumulate(warehouse_id: int)
    ensures ApplyLines(map[], warehouse_id, [Line(1, 3), Line(1, 2)]) == map[StockKey(warehouse_id, 1) := 5]
  {
    var lines := [Line(1, 3), Line(1, 2)];
    var key := StockKey(warehouse_id, 1);
    assert lines[..1] == [Line(1, 3)];
    assert [Line(1, 3)][..0] == [];
    assert ApplyLines(map[], warehouse_id, [Line(1, 3)]) == map[key := 3];
  }

  /** One iteration of the loop: `Stock.findOrCreate` finds the cell or
      inserts it at 0, then the quantity is added and saved. */
  method AddLine(warehouses: set<int>, products: map<int, Product>, cells: map<StockKey, int>, w: int, line: BodyLine)
    returns (e: Option<ServiceError>, next: map<StockKey, int>)
    requires w in warehouses
    requires forall key :: key in cells ==> CanCreateCell(warehouses, products, key)
    ensures e == LineFailure(products, line)
    ensures e.None? ==> next == Receive(cells, w, Line(line.product_id.value, line.quantity.value))
    ensures e.None? ==> forall key :: key in next ==> CanCreateCell(warehouses, products, key)
  {
    next := cells;
    if line.product_id.None? {
      return Some(ProductIdMissing), next;
    }
    var key := StockKey(w, line.product_id.value);
    if key !in next {
      if !(w in warehouses && line.product_id.value in products) {
        return Some(StockRowRejected(line.product_id.value)), next;
      }
      next := next[key := 0];
    }
    if line.quantity.None? {
      return Some(QuantityMissing), next;
    }
    next := next[key := next[key] + line.quantity.value];
    e := None;
  }

  /** The loop of receiveStock over a copy of the stock table: each line
      finds or creates its cell at 0 and adds its quantity, and the first
      failing line stops it. */
  method AddLines(warehouses: set<int>, products: map<int, Product>, stock: map<StockKey, int>,
                  w: int, lines: seq<BodyLine>) returns (e: Option<ServiceError>, cells: map<StockKey, int>)
    requires w in warehouses
    requires forall key :: key in stock ==> CanCreateCell(warehouses, products, key)
    ensures e == FirstLineFailure(products, lines, 0)
    ensures e.None? ==> cells == ApplyLines(stock, w, Present(lines))
    ensures e.None? ==> forall key :: key in cells ==> CanCreateCell(warehouses, products, key)
  {
    cells := stock;
    ghost var delivered: seq<Line> := [];
    var i := 0;
    while i < |lines|
      invariant 0 <= i <= |lines| && |delivered| == i
      invariant forall k :: 0 <= k < i ==>
        LineFailure(products, lines[k]).None? && delivered[k] == Line(lines[k].product_id.value, lines[k].quantity.value)
      invariant cells == ApplyLines(stock, w, delivered)
      invariant FirstLineFailure(products, lines, 0) == FirstLineFailure(products, lines, i)
      invariant forall key :: key in cells ==> CanCreateCell(warehouses, products, key)
    {
      var failure;
      failure, cells := AddLine(warehouses, products, cells, w, lines[i]);
      if failure.Some? {
        return failure, cells;
      }
      var line := lines[i];
      assert (delivered + [Line(line.product_id.value, line.quantity.value)])[..i] == delivered;
      delivered := delivered + [Line(line.product_id.value, line.quantity.value)];
      i := i + 1;
    }
    assert delivered == Present(lines);
    e := None;
  }

  /** receiveStock. `Ok(b)` is a success with `alreadyProcessed == b`. */
  method ReceiveStock(db: Store, reference: Option<string>, items: Option<seq<BodyLine>>) returns (r: Result<bool>)
    requires db.Valid()
    modifies db
    ensures db.Valid()
    ensures db.warehouses == old(db.warehouses) && db.products == old(db.products)
    ensures db.items == old(db.items) && db.nextId == old(db.nextId)
    ensures reference.None? ==> r == Err(ReferenceMissing)
    ensures reference.Some? && !HasReference(old(db.requests), reference.value) ==>
      r == Err(ReferenceNotFound(reference.value))
    ensures reference.Some? ==> forall id :: id in old(db.requests) && old(db.requests)[id].reference == reference.value ==>
      var req := old(db.requests)[id];
      match req.status
      case COMPLETED => r == Ok(true)
      case DRAFT => r == Err(NotPending(DRAFT))
      case PENDING =>
        if items.None? then r == Err(ItemsNotIterable)
        else if FirstLineFailure(old(db.products), items.value, 0).Some? then
          r == Err(FirstLineFailure(old(db.products), items.value, 0).value)
        else
          && r == Ok(false)
          && db.stock == ApplyLines(old(db.stock), req.warehouse_id, Present(items.value))
          && db.requests == old(db.requests)[id := req.(status := COMPLETED)]
    ensures r != Ok(false) ==> db.stock == old(db.stock) && db.requests == old(db.requests)
  {
    if reference.None? {
      return Err(ReferenceMissing);
    }
    var found := FindByReference(db.requests, reference.value, db.nextId - 1);
    FindByReferenceExactAll(db, reference.value);
    if found.None? {
      return Err(ReferenceNotFound(reference.value));
    }
    var id := found.value;
    var req := db.requests[id];
    if req.status == COMPLETED {
      return Ok(true);
    }
    if req.status != PENDING {
      return Err(NotPending(req.status));
    }
    if items.None? {
      return Err(ItemsNotIterable);
    }
    var failure, cells := AddLines(db.warehouses, db.products, db.stock, req.warehouse_id, items.value);
    if failure.Some? {
      return Err(failure.value);
    }
    db.stock := cells;
    db.requests := db.requests[id := req.(status := COMPLETED)];
    return Ok(false);
  }

  lemma FindByReferenceExactAll(db: Store, reference: string)
    requires db.Valid()
    ensures FindByReference(db.requests, reference, db.nextId - 1).None? <==> !HasReference(db.requests, reference)
    ensures forall id :: id in db.requests && db.requests[id].reference == reference ==>
      FindByReference(db.requests, reference, db.nextId - 1) == Some(id)
  {
    FindByReferenceExact(db.warehouses, db.products, db.requests, db.items, db.stock, db.nextId, reference, 0);
    forall id | id in db.requests && db.requests[id].reference == reference
      ensures FindByReference(db.requests, reference, db.nextId - 1) == Some(id)
    {
      FindByReferenceExact(db.warehouses, db.products, db.requests, db.items, db.stock, db.nextId, reference, id);
    }
  }

  /** Delivering the same webhook twice: the second call finds the request
      COMPLETED, reports it as already processed, and the stock stays as
      the first call left it. */
  method DeliverTwice(db: Store, reference: Option<string>, items: Option<seq<BodyLine>>)
    returns (first: Result<bool>, second: Result<bool>, ghost afterFirst: map<StockKey, int>)
    requires db.Valid()
    modifies db
    ensures db.Valid()
    ensures first.Ok? ==> second == Ok(true) && db.stock == afterFirst
  {
    first := ReceiveStock(db, reference, items);
    afterFirst := db.stock;
    second := ReceiveStock(db, reference, items);
    if first.Ok? {
      FindByReferenceExactAll(db, reference.value);
    }
  }
}
