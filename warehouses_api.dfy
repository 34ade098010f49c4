/** The frontend's warehouse list, derived from the stock rows: each stock
    row's warehouse, in order, keeping only the first occurrence of each id. */
module WarehousesApi {
  import opened Common

  datatype Warehouse = Warehouse(id: int, name: string)

  /** A stock row as the frontend receives it; only its warehouse is used here. */
  datatype StockRow = StockRow(warehouse: Warehouse, product_id: int, quantity: int)

  /** `ApiResponse<T>`: `data` may be absent. */
  datatype Response<T> = Response(success: bool, data: Option<T>)

  /** `self.findIndex((w) => w.id === id)`, scanning from `from`: the first
      position with that id, or -1. */
  function FindIndexFrom(ws: seq<Warehouse>, id: int, from: nat): (i: int)
    requires from <= |ws|
    ensures i == -1 || from <= i < |ws|
    ensures i != -1 ==> ws[i].id == id && forall j :: from <= j < i ==> ws[j].id != id
    ensures i == -1 ==> forall j :: from <= j < |ws| ==> ws[j].id != id
    decreases |ws| - from
  {
    if from == |ws| then -1
    else if ws[from].id == id then from
    else FindIndexFrom(ws, id, from + 1)
  }

  function FindIndex(ws: seq<Warehouse>, id: int): int
  {
    FindIndexFrom(ws, id, 0)
  }

  /** `.filter((warehouse, index, self) => self.findIndex(...) === index)`
      over the positions from `from` on. Each kept entry is the first with
      its id, entries keep their relative order, and every first occurrence
      at or after `from` is kept. */
  function KeepFirst(self: seq<Warehouse>, from: nat): (r: seq<Warehouse>)
    requires from <= |self|
    ensures |r| <= |self| - from
    ensures forall i :: 0 <= i < |r| ==>
      from <= FindIndex(self, r[i].id) < |self| && self[FindIndex(self, r[i].id)] == r[i]
    ensures forall i, j :: 0 <= i < j < |r| ==> FindIndex(self, r[i].id) < FindIndex(self, r[j].id)
    ensures forall k :: from <= k < |self| && FindIndex(self, self[k].id) == k ==> self[k] in r
    decreases |self| - from
  {
    if from == |self| then []
    else if FindIndex(self, self[from].id) == from then [self[from]] + KeepFirst(self, from + 1)
    else KeepFirst(self, from + 1)
  }

  function Dedupe(all: seq<Warehouse>): seq<Warehouse> {
    KeepFirst(all, 0)
  }

  /** `stocksResponse.data.map((stock) => stock.warehouse)` */
  function WarehousesOf(stocks: seq<StockRow>): (ws: seq<Warehouse>)
    ensures |ws| == |stocks|
  {
    seq(|stocks|, i requires 0 <= i < |stocks| => stocks[i].warehouse)
  }

  /** warehousesApi.getAll after the fetch. An empty list is a value, so
      only a failure or an absent `data` gives the failed response. */
  function GetAll(stocks: Response<seq<StockRow>>): Response<seq<Warehouse>> {
    if stocks.success && stocks.data.Some? then Response(true, Some(Dedupe(WarehousesOf(stocks.data.value))))
    else Response(false, Some([]))
  }

  /** No two entries of the result share an id; every id of the input is
      present; each entry is the first warehouse of the input with its id,
      in first-occurrence order; there are at most as many entries as
      inputs. */
  lemma DedupeProperties(all: seq<Warehouse>)
    ensures forall i, j :: 0 <= i < j < |Dedupe(all)| ==> Dedupe(all)[i].id != Dedupe(all)[j].id
    ensures forall k :: 0 <= k < |all| ==> exists i :: 0 <= i < |Dedupe(all)| && Dedupe(all)[i].id == all[k].id
    ensures forall i :: 0 <= i < |Dedupe(all)| ==> Dedupe(all)[i] == all[FindIndex(all, Dedupe(all)[i].id)]
    ensures forall i, j :: 0 <= i < j < |Dedupe(all)| ==>
      FindIndex(all, Dedupe(all)[i].id) < FindIndex(all, Dedupe(all)[j].id)
    ensures |Dedupe(all)| <= |all|
    ensures all == [] ==> Dedupe(all) == []
  {
    var d := Dedupe(all);
    forall k | 0 <= k < |all|
      ensures exists i :: 0 <= i < |d| && d[i].id == all[k].id
    {
      var f := FindIndex(all, all[k].id);
      assert all[f].id == all[k].id;
      assert FindIndex(all, all[f].id) == f;
      assert all[f] in d;
    }
  }

  /** A first occurrence is kept and a repeated id is dropped: a worked
      example with stock rows of warehouses 1, 2, 1. */
  lemma RepeatedWarehouseListedOnce(a: Warehouse, b: Warehouse, c: Warehouse)
    requires a.id == 1 && b.id == 2 && c.id == 1
    ensures Dedupe([a, b, c]) == [a, b]
  {
    var all := [a, b, c];
    assert FindIndex(all, 1) == 0;
    assert FindIndexFrom(all, 2, 1) == 1;
    assert KeepFirst(all, 2) == [] by {
      assert KeepFirst(all, 3) == [];
    }
    assert KeepFirst(all, 1) == [b];
  }

  /** The response: a failed or empty-bodied stocks response gives
      `{success: false, data: []}`; otherwise success, with at most one
      warehouse per stock row, each id once, and every warehouse that has
      a stock row. */
  lemma GetAllProperties(stocks: Response<seq<StockRow>>)
    ensures !(stocks.success && stocks.data.Some?) ==> GetAll(stocks) == Response(false, Some([]))
    ensures stocks.success && stocks.data.Some? ==>
      var r := GetAll(stocks);
      && r.success && r.data.Some?
      && |r.data.value| <= |stocks.data.value|
      && (forall i, j :: 0 <= i < j < |r.data.value| ==> r.data.value[i].id != r.data.value[j].id)
      && (forall k :: 0 <= k < |stocks.data.value| ==>
            exists i :: 0 <= i < |r.data.value| && r.data.value[i].id == stocks.data.value[k].warehouse.id)
  {
    if stocks.success && stocks.data.Some? {
      var ws := WarehousesOf(stocks.data.value);
      DedupeProperties(ws);
      forall k | 0 <= k < |stocks.data.value|
        ensures ws[k].id == stocks.data.value[k].warehouse.id
      {
      }
    }
  }
}
