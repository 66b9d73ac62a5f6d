/**
 * What incoming (receipt) and outgoing (write-off) documents share: the
 * client's document and its lines, the loading of the products and bins the
 * lines name, the resolution of one line against them, the items and stock
 * ledger rows that are built, and the per-product and per-key sums that the
 * quantity arithmetic is stated with.
 */
module Movement {
  import opened Common
  import opened Catalog

  /** One line of a document as the client sends it: a product id, a quantity and a bin's string id (nullable). */
  datatype ItemLine = ItemLine(productId: int, quantity: int, binId: Option<string>)

  /** An incoming or outgoing document as the client sends it. */
  datatype MovementDto = MovementDto(
    documentNumber: string,
    createdAt: Timestamp,
    items: Option<seq<ItemLine>>,
    warehouseId: Option<string>)
  {
    function Key(): DocKey { DocKey(documentNumber, createdAt) }
  }

  /** A document item as built from a resolved line: product, quantity, bin and the bin's shelf. */
  datatype MovementItem = MovementItem(productId: int, quantity: int, bin: Bin, shelf: Shelf)

  /** A saved incoming or outgoing document; its items point back at it. */
  datatype MovementDocument = MovementDocument(
    documentNumber: string,
    createdAt: Timestamp,
    warehouse: Warehouse,
    items: seq<MovementItem>)
  {
    function Key(): DocKey { DocKey(documentNumber, createdAt) }
  }

  /** `existsByDocumentNumberAndCreatedAt`: some saved document has this number and date. */
  predicate Exists(documents: seq<MovementDocument>, key: DocKey)
  {
    exists i :: 0 <= i < |documents| && documents[i].Key() == key
  }

  /** Some line of the document names this product. */
  predicate Referenced(lines: seq<ItemLine>, productId: int)
  {
    exists i :: 0 <= i < |lines| && lines[i].productId == productId
  }

  /** Some line of the document names this bin. */
  predicate BinReferenced(lines: seq<ItemLine>, binId: string)
  {
    exists i :: 0 <= i < |lines| && lines[i].binId == Some(binId)
  }

  /**
   * `loadProducts`: `findAllById` over the lines' product ids, collected into a
   * map by id. Every line's product is present exactly when the table has it,
   * with the table's value, and nothing unreferenced is loaded.
   */
  function LoadProducts(lines: seq<ItemLine>, store: map<int, Product>): (loaded: map<int, Product>)
    ensures forall i :: 0 <= i < |lines| ==>
      (lines[i].productId in loaded <==> lines[i].productId in store)
    ensures forall id :: id in loaded ==> id in store && loaded[id] == store[id] && Referenced(lines, id)
    ensures KeyedById(store) ==> KeyedById(loaded)
  {
    map id | id in store && Referenced(lines, id) :: store[id]
  }

  /**
   * `loadBinsWithShelves`: the lines' non-null bin ids, looked up with a query
   * that joins each bin to its shelf. The join is an inner one, so a bin without
   * a shelf is not returned and is absent from the map like an unknown bin.
   */
  function LoadBins(lines: seq<ItemLine>, repository: map<string, Bin>): (loaded: map<string, Bin>)
    ensures forall i :: 0 <= i < |lines| && lines[i].binId.Some? ==>
      (lines[i].binId.value in loaded <==>
         lines[i].binId.value in repository && repository[lines[i].binId.value].shelf != null)
    ensures forall b :: b in loaded ==>
      b in repository && loaded[b] == repository[b] && loaded[b].shelf != null && BinReferenced(lines, b)
    ensures BinsKeyedById(repository) ==> BinsKeyedById(loaded)
  {
    map b | b in repository && BinReferenced(lines, b) && repository[b].shelf != null :: repository[b]
  }

  /** A line whose bin can be found and stands on a shelf. */
  predicate Placed(line: ItemLine, bins: map<string, Bin>)
  {
    line.binId.Some? && line.binId.value in bins && bins[line.binId.value].shelf != null
  }

  /** A line whose product, bin and shelf can all be found. */
  predicate Resolves(line: ItemLine, products: map<int, Product>, bins: map<string, Bin>)
  {
    line.productId in products && Placed(line, bins)
  }

  datatype Resolved = Resolved(product: Product, bin: Bin, shelf: Shelf)

  /**
   * The lookups every line goes through, in the source's order: the product,
   * then the bin (a null bin id finds nothing), then the bin's shelf. Each
   * failure names the id it could not find.
   */
  function ResolveLine(line: ItemLine, products: map<int, Product>, bins: map<string, Bin>): (r: Result<Resolved>)
    ensures r.Ok? <==> Resolves(line, products, bins)
    ensures r.Ok? ==>
      r.value.product == products[line.productId]
      && r.value.bin == bins[line.binId.value] && r.value.shelf == r.value.bin.shelf
    ensures line.productId !in products ==> r == Err(ProductNotFound(line.productId))
    ensures line.productId in products && (line.binId.None? || line.binId.value !in bins) ==>
      r == Err(BinNotFound(line.binId))
    ensures line.productId in products && line.binId.Some? && line.binId.value in bins && !Resolves(line, products, bins) ==>
      r == Err(ShelfNotFound(bins[line.binId.value].binId))
  {
    if line.productId !in products then Err(ProductNotFound(line.productId))
    else if line.binId.None? || line.binId.value !in bins then Err(BinNotFound(line.binId))
    else
      var bin := bins[line.binId.value];
      if bin.shelf == null then Err(ShelfNotFound(bin.binId))
      else Ok(Resolved(products[line.productId], bin, bin.shelf))
  }

  /** Whether two product maps hold the same products, quantities aside. */
  predicate SameProducts(p: map<int, Product>, q: map<int, Product>)
  {
    p.Keys == q.Keys && forall id :: id in p ==> p[id].(quantity := 0) == q[id].(quantity := 0)
  }

  /**
   * A line resolves against a product map exactly when it resolves against
   * any map holding the same products: changing quantities never makes a
   * lookup fail or succeed.
   */
  lemma ResolvesIgnoresQuantities(line: ItemLine, p: map<int, Product>, q: map<int, Product>, bins: map<string, Bin>)
    requires SameProducts(p, q)
    ensures Resolves(line, p, bins) <==> Resolves(line, q, bins)
    ensures ResolveLine(line, p, bins).Err? ==> ResolveLine(line, p, bins) == ResolveLine(line, q, bins)
  {
    assert line.productId in p <==> line.productId in q;
  }

  /** The item built for a resolved line (`new OutgoingItem(product, quantity, bin, shelf)`). */
  function ItemFor(line: ItemLine, bins: map<string, Bin>): (item: MovementItem)
    requires Placed(line, bins)
    ensures item.productId == line.productId && item.quantity == line.quantity
    ensures item.bin == bins[line.binId.value] && item.shelf == item.bin.shelf
  {
    var bin := bins[line.binId.value];
    MovementItem(line.productId, line.quantity, bin, bin.shelf)
  }

  /** The total quantity the lines move for one product. */
  function QuantityFor(lines: seq<ItemLine>, productId: int): int
  {
    if lines == [] then 0
    else
      var last := lines[|lines| - 1];
      QuantityFor(lines[..|lines| - 1], productId) + (if last.productId == productId then last.quantity else 0)
  }

  /** A product no line names moves by nothing. */
  lemma {:induction false} QuantityForUnreferenced(lines: seq<ItemLine>, productId: int)
    requires !Referenced(lines, productId)
    ensures QuantityFor(lines, productId) == 0
  {
    if lines != [] {
      var init := lines[..|lines| - 1];
      assert !Referenced(init, productId) by {
        forall i | 0 <= i < |init| ensures init[i].productId != productId {
          assert init[i] == lines[i];
        }
      }
      QuantityForUnreferenced(init, productId);
      assert lines[|lines| - 1].productId != productId;
    }
  }

  /**
   * The key a stock ledger row is looked up by. The source builds it as the
   * string `productId + "_" + binId + "_" + documentId`; product ids are digits
   * and the document id is digits or "null", so the string is determined by
   * these three parts and the model keeps them as a tuple.
   */
  datatype StockKey = StockKey(productId: int, binId: Option<string>, documentId: Option<int>)

  /** The key a line's stock row is looked up by, within the document with this id. */
  function LineKey(line: ItemLine, documentId: Option<int>): (key: StockKey)
    ensures key.productId == line.productId && key.binId == line.binId && key.documentId == documentId
  {
    StockKey(line.productId, line.binId, documentId)
  }

  /** The total quantity the lines move under one stock key. */
  function KeyQuantity(lines: seq<ItemLine>, key: StockKey, documentId: Option<int>): int
  {
    if lines == [] then 0
    else
      var last := lines[|lines| - 1];
      KeyQuantity(lines[..|lines| - 1], key, documentId)
        + (if LineKey(last, documentId) == key then last.quantity else 0)
  }

  /**
   * A stock ledger row: how much of a product a movement put into (or took out
   * of) a bin, and which document did it. Only the quantity is ever updated.
   */
  class Stock {
    const product: int
    const bin: Bin
    const shelf: Shelf
    const warehouse: Warehouse?
    var quantity: int
    const incomingDocument: Option<DocKey>
    const outgoingDocument: Option<DocKey>

    constructor (product: int, bin: Bin, shelf: Shelf, warehouse: Warehouse?, quantity: int,
                 incomingDocument: Option<DocKey>, outgoingDocument: Option<DocKey>)
      ensures this.product == product && this.bin == bin && this.shelf == shelf && this.warehouse == warehouse
      ensures this.quantity == quantity
      ensures this.incomingDocument == incomingDocument && this.outgoingDocument == outgoingDocument
    {
      this.product := product;
      this.bin := bin;
      this.shelf := shelf;
      this.warehouse := warehouse;
      this.quantity := quantity;
      this.incomingDocument := incomingDocument;
      this.outgoingDocument := outgoingDocument;
    }
  }

  /**
   * The stock rows loaded before the loop, as `Collectors.toMap` keys them:
   * each row sits under its own product and bin, and no row sits under two keys.
   */
  predicate PreloadedRows(rows: map<StockKey, Stock>)
  {
    (forall k :: k in rows ==> rows[k].product == k.productId && rows[k].bin.binId == k.binId)
    && (forall k1, k2 :: k1 in rows && k2 in rows && k1 != k2 ==> rows[k1] != rows[k2])
  }

  /** What processing a document's lines yields: one item per line and the updated product map. */
  datatype Processed = Processed(items: seq<MovementItem>, products: map<int, Product>)

  /** What processing one line yields: its item and the updated product map. */
  datatype Step = Step(item: MovementItem, products: map<int, Product>)

  /** A stock row created for a line: its product, bin, shelf and the shelf's warehouse, with these quantity and document references. */
  predicate NewRow(row: Stock, line: ItemLine, bins: map<string, Bin>, quantity: int,
                   incoming: Option<DocKey>, outgoing: Option<DocKey>)
    requires Placed(line, bins)
    reads row
  {
    row.product == line.productId && row.bin == bins[line.binId.value]
    && row.shelf == row.bin.shelf && row.warehouse == row.shelf.warehouse
    && row.quantity == quantity && row.incomingDocument == incoming && row.outgoingDocument == outgoing
  }

  /** The quantities of the pre-loaded stock rows, by key. */
  function Quantities(preloaded: map<StockKey, Stock>): (q: map<StockKey, int>)
    reads preloaded.Values
    ensures q.Keys == preloaded.Keys
  {
    map k | k in preloaded :: preloaded[k].quantity
  }

  /**
   * Through the two loaders, a line with a null bin id, a line naming an
   * unknown bin and a line naming a bin without a shelf all fail alike, as
   * "bin not found": null ids are filtered out before the query, and the query
   * only returns bins joined to a shelf.
   */
  lemma LoadedBinMissing(lines: seq<ItemLine>, i: int, store: map<int, Product>, repository: map<string, Bin>)
    requires 0 <= i < |lines| && lines[i].productId in store
    requires lines[i].binId.None? || lines[i].binId.value !in repository || repository[lines[i].binId.value].shelf == null
    ensures ResolveLine(lines[i], LoadProducts(lines, store), LoadBins(lines, repository)) == Err(BinNotFound(lines[i].binId))
  {
  }
}
