/** The per-record stock mapper (`update_wc_stock`) as a function over the
    local product store, its fold over a batch, and the store itself. The
    store stands for WooCommerce: an SKU index, the products, and the products
    whose `save()` throws. */
module Stock {
  import opened Common
  import opened Api

  const InStock := "instock"
  const OutOfStock := "outofstock"
  /** The fixed quantity written to a managed product that is in stock; an
      out-of-stock one gets 0. Not a real inventory count. */
  const InStockQuantity := 100

  /** `wc_get_product_id_by_sku` yields a positive id or 0 (not found). */
  type ProductId = i: int | 0 < i witness 1

  /** The fields of a local product the job reads or writes; `price` stands
      for everything the job must leave alone. */
  datatype Product = Product(stockStatus: string, manageStock: bool, quantity: int, price: string)

  /** `$product['barcodes'][0] ?? null`. */
  function Sku(record: Edge): Option<string> {
    if |record.barcodes| > 0 then Some(record.barcodes[0]) else None
  }

  /** `($product['supplies']['availability'] ?? '') === 'A'` decides the
      stock status. */
  function StockStatusFor(code: Option<string>): (s: string)
    ensures s == InStock <==> code == Some("A")
    ensures s == InStock || s == OutOfStock
  {
    var c := match code case Some(v) => v case None => "";
    if c == "A" then InStock else OutOfStock
  }

  /** The store's product for `record`, when its SKU is present, truthy, known
      to the index and loads. */
  predicate Resolves(ids: map<string, ProductId>, products: map<ProductId, Product>, record: Edge) {
    var sku := Sku(record);
    sku.Some? && Truthy(sku.value) && sku.value in ids && ids[sku.value] in products
  }

  function TargetId(ids: map<string, ProductId>, products: map<ProductId, Product>, record: Edge): ProductId
    requires Resolves(ids, products, record)
  {
    ids[Sku(record).value]
  }

  /** What `update_wc_stock` does to the store and the log for one record. */
  datatype StepResult = StepResult(ok: bool, products: map<ProductId, Product>, logged: seq<Message>)

  function ApplyRecord(ids: map<string, ProductId>, faults: map<ProductId, string>,
                       products: map<ProductId, Product>, record: Edge): (r: StepResult)
    ensures r.products.Keys == products.Keys
    ensures !r.ok ==> r.products == products
    ensures |r.logged| <= 1
  {
    if !Resolves(ids, products, record) then StepResult(false, products, [])
    else
      var sku := Sku(record).value;
      var id := ids[sku];
      var status := StockStatusFor(record.availability);
      if id in faults then StepResult(false, products, [SkuFailed(sku, faults[id])])
      else
        var p := products[id];
        var q := p.(stockStatus := status,
                    quantity := if p.manageStock then (if status == InStock then InStockQuantity else 0) else p.quantity);
        StepResult(true, products[id := q], if p.stockStatus != status then [SkuUpdated(sku, p.stockStatus, status)] else [])
  }

  /** When a record is skipped or fails, and what it logs then. */
  lemma ApplyRecordFailures(ids: map<string, ProductId>, faults: map<ProductId, string>,
                            products: map<ProductId, Product>, record: Edge)
    ensures var r := ApplyRecord(ids, faults, products, record);
      && (r.ok <==> Resolves(ids, products, record) && TargetId(ids, products, record) !in faults)
      && (!Resolves(ids, products, record) ==> r.logged == [])
      && (Resolves(ids, products, record) && TargetId(ids, products, record) in faults ==>
            var id := TargetId(ids, products, record);
            r.logged == [SkuFailed(Sku(record).value, faults[id])] && IsError(r.logged[0]))
  {
  }

  /** A successful update touches one product, and of it only the stock
      status and, for a managed product, the quantity sentinel; it logs a
      line exactly when the status changed. */
  lemma ApplyRecordUpdates(ids: map<string, ProductId>, faults: map<ProductId, string>,
                           products: map<ProductId, Product>, record: Edge)
    requires ApplyRecord(ids, faults, products, record).ok
    ensures Resolves(ids, products, record)
    ensures var r := ApplyRecord(ids, faults, products, record);
      var id := TargetId(ids, products, record);
      var status := StockStatusFor(record.availability);
      && (forall other :: other in products && other != id ==> r.products[other] == products[other])
      && r.products[id].stockStatus == status
      && r.products[id].manageStock == products[id].manageStock
      && r.products[id].price == products[id].price
      && (products[id].manageStock ==> r.products[id].quantity == (if status == InStock then 100 else 0))
      && (!products[id].manageStock ==> r.products[id].quantity == products[id].quantity)
      && (r.logged == [] <==> products[id].stockStatus == status)
      && (r.logged != [] ==> r.logged == [SkuUpdated(Sku(record).value, products[id].stockStatus, status)])
  {
  }

  /** Applying the same record twice: the second application succeeds too,
      changes nothing and logs nothing. */
  lemma ApplyRecordIdempotent(ids: map<string, ProductId>, faults: map<ProductId, string>,
                              products: map<ProductId, Product>, record: Edge)
    requires ApplyRecord(ids, faults, products, record).ok
    ensures var first := ApplyRecord(ids, faults, products, record);
      var second := ApplyRecord(ids, faults, first.products, record);
      second.ok && second.products == first.products && second.logged == []
  {
    ApplyRecordUpdates(ids, faults, products, record);
    var first := ApplyRecord(ids, faults, products, record);
    var id := TargetId(ids, products, record);
    assert Resolves(ids, first.products, record);
    ApplyRecordUpdates(ids, faults, first.products, record);
    var second := ApplyRecord(ids, faults, first.products, record);
    assert second.products[id] == first.products[id];
  }

  /** The `foreach` over one page's records, with its two counters. */
  datatype BatchResult = BatchResult(products: map<ProductId, Product>, updated: nat, errors: nat, logged: seq<Message>)

  function ApplyAll(ids: map<string, ProductId>, faults: map<ProductId, string>,
                    products: map<ProductId, Product>, records: seq<Edge>): BatchResult
  {
    if records == [] then BatchResult(products, 0, 0, [])
    else
      var b := ApplyAll(ids, faults, products, records[..|records| - 1]);
      Tally(b, ApplyRecord(ids, faults, b.products, records[|records| - 1]))
  }

  /** One more record processed: `true` counts as updated, `false` as an
      error. */
  function Tally(b: BatchResult, s: StepResult): BatchResult {
    BatchResult(s.products, if s.ok then b.updated + 1 else b.updated,
                if s.ok then b.errors else b.errors + 1, b.logged + s.logged)
  }

  lemma ApplyAllSnoc(ids: map<string, ProductId>, faults: map<ProductId, string>,
                     products: map<ProductId, Product>, records: seq<Edge>, record: Edge)
    ensures var b := ApplyAll(ids, faults, products, records);
      ApplyAll(ids, faults, products, records + [record]) == Tally(b, ApplyRecord(ids, faults, b.products, record))
  {
    assert (records + [record])[..|records|] == records;
  }

  /** Every record of the page is counted once, as updated or as an error. */
  lemma {:induction false} ApplyAllCounts(ids: map<string, ProductId>, faults: map<ProductId, string>,
                                          products: map<ProductId, Product>, records: seq<Edge>)
    ensures var r := ApplyAll(ids, faults, products, records);
      r.updated + r.errors == |records|
  {
    if records != [] {
      ApplyAllCounts(ids, faults, products, records[..|records| - 1]);
    }
  }

  /** The page's records leave the set of products alone. */
  lemma {:induction false} ApplyAllKeys(ids: map<string, ProductId>, faults: map<ProductId, string>,
                                        products: map<ProductId, Product>, records: seq<Edge>)
    ensures ApplyAll(ids, faults, products, records).products.Keys == products.Keys
  {
    if records != [] {
      ApplyAllKeys(ids, faults, products, records[..|records| - 1]);
    }
  }

  /** The `foreach` logs only per-record lines: a status change or a failed
      save. */
  lemma {:induction false} ApplyAllLogsRecords(ids: map<string, ProductId>, faults: map<ProductId, string>,
                                               products: map<ProductId, Product>, records: seq<Edge>)
    ensures forall m :: m in ApplyAll(ids, faults, products, records).logged ==> m.SkuUpdated? || m.SkuFailed?
  {
    if records != [] {
      ApplyAllLogsRecords(ids, faults, products, records[..|records| - 1]);
    }
  }

  /** A product that no record of the page resolves to (a present, truthy SKU
      indexed to it, and the product loads) is left as it was. */
  lemma {:induction false} ApplyAllUntouched(ids: map<string, ProductId>, faults: map<ProductId, string>,
                                             products: map<ProductId, Product>, records: seq<Edge>, id: ProductId)
    requires id in products
    requires forall i :: 0 <= i < |records| ==>
      !Resolves(ids, products, records[i]) || TargetId(ids, products, records[i]) != id
    ensures var r := ApplyAll(ids, faults, products, records);
      id in r.products && r.products[id] == products[id]
  {
    if records != [] {
      var init := records[..|records| - 1];
      ApplyAllUntouched(ids, faults, products, init, id);
      ApplyAllKeys(ids, faults, products, init);
      var b := ApplyAll(ids, faults, products, init);
      var last := records[|records| - 1];
      assert Resolves(ids, b.products, last) == Resolves(ids, products, last);
      if ApplyRecord(ids, faults, b.products, last).ok {
        ApplyRecordUpdates(ids, faults, b.products, last);
      }
    }
  }

  /** Two runs of records processed one after the other: the store the
      second leaves, and the counters and log lines of both. */
  function Then(a: BatchResult, b: BatchResult): BatchResult {
    BatchResult(b.products, a.updated + b.updated, a.errors + b.errors, a.logged + b.logged)
  }

  lemma TallyThen(a: BatchResult, c: BatchResult, step: StepResult)
    ensures Tally(Then(a, c), step) == Then(a, Tally(c, step))
  {
    ConcatAssoc(a.logged, c.logged, step.logged);
  }

  /** Processing two runs of records one after the other is processing their
      concatenation: the second run starts from the store the first left. */
  lemma {:induction false} ApplyAllSplit(ids: map<string, ProductId>, faults: map<ProductId, string>,
                                         products: map<ProductId, Product>, first: seq<Edge>, second: seq<Edge>)
    ensures var a := ApplyAll(ids, faults, products, first);
      ApplyAll(ids, faults, products, first + second) == Then(a, ApplyAll(ids, faults, a.products, second))
  {
    var a := ApplyAll(ids, faults, products, first);
    if second == [] {
      assert first + second == first;
      assert a.logged + [] == a.logged;
    } else {
      var init := second[..|second| - 1];
      var last := second[|second| - 1];
      assert first + second == (first + init) + [last];
      assert second == init + [last];
      ApplyAllSplit(ids, faults, products, first, init);
      var c := ApplyAll(ids, faults, a.products, init);
      var step := ApplyRecord(ids, faults, c.products, last);
      ApplyAllSnoc(ids, faults, products, first + init, last);
      ApplyAllSnoc(ids, faults, a.products, init, last);
      TallyThen(a, c, step);
    }
  }

  /** The local product store (WooCommerce). Only `products` changes; the SKU
      index and the set of products whose `save()` throws are fixed. */
  class ProductStore {
    const ids: map<string, ProductId>
    const faults: map<ProductId, string>
    var products: map<ProductId, Product>

    constructor (ids: map<string, ProductId>, faults: map<ProductId, string>, products: map<ProductId, Product>)
      ensures this.ids == ids && this.faults == faults && this.products == products
    {
      this.ids := ids;
      this.faults := faults;
      this.products := products;
    }

    /** `$wc_product->save()`: persists `product` under `id`, or throws with
        the stored message and persists nothing. */
    method Save(id: ProductId, product: Product) returns (fault: Option<string>)
      modifies this
      ensures fault == if id in faults then Some(faults[id]) else None
      ensures products == if id in faults then old(products) else old(products)[id := product]
    {
      if id in faults {
        fault := Some(faults[id]);
      } else {
        fault := None;
        products := products[id := product];
      }
    }
  }
}
