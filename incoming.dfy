/**
 * Incoming (receipt) documents: every line adds its quantity to its product,
 * with no bound checked, and gets a stock ledger row: a new one carrying the
 * quantity, or the pre-loaded row for its key, which is returned as it was.
 */
module Incoming {
  import opened Common
  import opened Catalog
  import opened Movement

  /** One step of `processIncomingItems`: resolve the line, credit its product, build the item. */
  function ReceiveLine(line: ItemLine, products: map<int, Product>, bins: map<string, Bin>): Result<Step>
  {
    match ResolveLine(line, products, bins)
    case Err(e) => Err(e)
    case Ok(found) =>
      var credited := found.product.(quantity := found.product.quantity + line.quantity);
      Ok(Step(ItemFor(line, bins), products[line.productId := credited]))
  }

  /** `processIncomingItems` as a left fold over the lines: each line sees the map the earlier lines left. */
  function Received(lines: seq<ItemLine>, products: map<int, Product>, bins: map<string, Bin>): Result<Processed>
  {
    if lines == [] then Ok(Processed([], products))
    else
      match Received(lines[..|lines| - 1], products, bins)
      case Err(e) => Err(e)
      case Ok(done) =>
        match ReceiveLine(lines[|lines| - 1], done.products, bins)
        case Err(e) => Err(e)
        case Ok(step) => Ok(Processed(done.items + [step.item], step.products))
  }

  /** The product map after every line has been added: each product gains the sum of its lines. */
  function Credited(products: map<int, Product>, lines: seq<ItemLine>): map<int, Product>
  {
    map id | id in products :: products[id].(quantity := products[id].quantity + QuantityFor(lines, id))
  }

  predicate AllResolve(lines: seq<ItemLine>, products: map<int, Product>, bins: map<string, Bin>)
  {
    forall i :: 0 <= i < |lines| ==> Resolves(lines[i], products, bins)
  }

  /** Once a prefix of the lines fails, the whole document fails with the same error. */
  lemma {:induction false} ReceivedErrorPersists(lines: seq<ItemLine>, k: nat, products: map<int, Product>, bins: map<string, Bin>)
    requires k <= |lines|
    requires Received(lines[..k], products, bins).Err?
    ensures Received(lines, products, bins) == Received(lines[..k], products, bins)
  {
    if k == |lines| {
      assert lines[..k] == lines;
    } else {
      var init := lines[..|lines| - 1];
      assert init[..k] == lines[..k];
      ReceivedErrorPersists(init, k, products, bins);
    }
  }

  /** Adding one more line changes only that line's product, by that line's quantity. */
  lemma CreditedSnoc(products: map<int, Product>, lines: seq<ItemLine>)
    requires lines != [] && lines[|lines| - 1].productId in products
    ensures var last := lines[|lines| - 1];
      var before := Credited(products, lines[..|lines| - 1]);
      Credited(products, lines)
        == before[last.productId := before[last.productId].(quantity := before[last.productId].quantity + last.quantity)]
  {
  }

  lemma CreditedSameProducts(products: map<int, Product>, lines: seq<ItemLine>)
    ensures SameProducts(products, Credited(products, lines))
  {
  }

  /**
   * The last line, processed against the map the earlier lines leave, goes
   * through exactly when it resolves; it then leaves the fully credited map and
   * builds its item, and otherwise fails with its lookup's error.
   */
  lemma LastLineAfterCredit(lines: seq<ItemLine>, products: map<int, Product>, bins: map<string, Bin>)
    requires lines != []
    ensures var last := lines[|lines| - 1];
      var step := ReceiveLine(last, Credited(products, lines[..|lines| - 1]), bins);
      (step.Ok? <==> Resolves(last, products, bins))
      && (step.Err? ==> step == Err(ResolveLine(last, products, bins).error))
      && (step.Ok? ==> step.value.products == Credited(products, lines) && step.value.item == ItemFor(last, bins))
  {
    var n := |lines|;
    var init, last := lines[..n - 1], lines[n - 1];
    CreditedSameProducts(products, init);
    ResolvesIgnoresQuantities(last, products, Credited(products, init), bins);
    if last.productId in products {
      CreditedSnoc(products, lines);
    }
  }

  /**
   * The fold against its reference definition: the lines go through exactly
   * when every line resolves, whatever the quantities; then the final map is
   * the initial one plus each product's total, and item `i` is built from
   * line `i`.
   */
  lemma {:induction false} ReceivedCharacterized(lines: seq<ItemLine>, products: map<int, Product>, bins: map<string, Bin>)
    ensures Received(lines, products, bins).Ok? <==> AllResolve(lines, products, bins)
    ensures Received(lines, products, bins).Ok? ==>
      var receipt := Received(lines, products, bins).value;
      receipt.products == Credited(products, lines)
      && |receipt.items| == |lines|
      && forall i :: 0 <= i < |lines| ==> Placed(lines[i], bins) && receipt.items[i] == ItemFor(lines[i], bins)
  {
    if lines == [] {
      assert Credited(products, lines) == products;
    } else {
      var n := |lines|;
      var init := lines[..n - 1];
      ReceivedCharacterized(init, products, bins);
      LastLineAfterCredit(lines, products, bins);
      assert forall j :: 0 <= j < n - 1 ==> init[j] == lines[j];
      if Received(init, products, bins).Err? {
        var j :| 0 <= j < |init| && !Resolves(init[j], products, bins);
        assert !Resolves(lines[j], products, bins);
      }
    }
  }

  /** A refused document is refused at its first line that does not resolve, with that line's lookup error. */
  lemma {:induction false} ReceivedFailure(lines: seq<ItemLine>, products: map<int, Product>, bins: map<string, Bin>)
    requires Received(lines, products, bins).Err?
    ensures exists i ::
      (0 <= i < |lines|
       && (forall j :: 0 <= j < i ==> Resolves(lines[j], products, bins))
       && !Resolves(lines[i], products, bins)
       && Received(lines, products, bins) == Err(ResolveLine(lines[i], products, bins).error))
  {
    var n := |lines|;
    var init := lines[..n - 1];
    assert forall j :: 0 <= j < n - 1 ==> init[j] == lines[j];
    if Received(init, products, bins).Err? {
      ReceivedFailure(init, products, bins);
      var i :| 0 <= i < |init|
        && (forall j :: 0 <= j < i ==> Resolves(init[j], products, bins))
        && !Resolves(init[i], products, bins)
        && Received(init, products, bins) == Err(ResolveLine(init[i], products, bins).error);
      assert init[i] == lines[i];
    } else {
      ReceivedCharacterized(init, products, bins);
      LastLineAfterCredit(lines, products, bins);
    }
  }

  /**
   * `processIncomingItems`: the stream over the lines, crediting the product
   * map it is given as it goes and stopping at the first line that fails.
   */
  method ProcessIncomingItems(lines: seq<ItemLine>, productMap: map<int, Product>, binMap: map<string, Bin>)
    returns (r: Result<Processed>)
    ensures r == Received(lines, productMap, binMap)
  {
    var items: seq<MovementItem> := [];
    var current := productMap;
    var i := 0;
    while i < |lines|
      invariant 0 <= i <= |lines|
      invariant Received(lines[..i], productMap, binMap) == Ok(Processed(items, current))
    {
      var line := lines[i];
      assert lines[..i + 1][..i] == lines[..i];
      if line.productId !in current {
        r := Err(ProductNotFound(line.productId));
        ReceivedErrorPersists(lines, i + 1, productMap, binMap);
        return;
      }
      var product := current[line.productId];
      if line.binId.None? || line.binId.value !in binMap {
        r := Err(BinNotFound(line.binId));
        ReceivedErrorPersists(lines, i + 1, productMap, binMap);
        return;
      }
      var bin := binMap[line.binId.value];
      if bin.shelf == null {
        r := Err(ShelfNotFound(bin.binId));
        ReceivedErrorPersists(lines, i + 1, productMap, binMap);
        return;
      }
      current := current[line.productId := product.(quantity := product.quantity + line.quantity)];
      items := items + [MovementItem(line.productId, line.quantity, bin, bin.shelf)];
      i := i + 1;
    }
    assert lines[..|lines|] == lines;
    r := Ok(Processed(items, current));
  }

  /**
   * The stock rows `updateStockLevels` returns for an incoming document: one per
   * line, in line order. A line whose key was pre-loaded gets that row as it
   * is; any other line gets a row of its own carrying the line's quantity and
   * this document as its incoming reference, and two such lines under one key
   * get two different rows.
   */
  predicate ReceivedRows(lines: seq<ItemLine>, bins: map<string, Bin>, documentId: Option<int>, document: DocKey,
                         preloaded: map<StockKey, Stock>, rows: seq<Stock>)
    requires forall i :: 0 <= i < |lines| ==> Placed(lines[i], bins)
    reads rows
  {
    |rows| == |lines|
    && (forall i :: 0 <= i < |lines| && LineKey(lines[i], documentId) in preloaded ==>
          rows[i] == preloaded[LineKey(lines[i], documentId)])
    && (forall i :: 0 <= i < |lines| && LineKey(lines[i], documentId) !in preloaded ==>
          NewRow(rows[i], lines[i], bins, lines[i].quantity, Some(document), None))
    && (forall i, j ::
          (0 <= i < j < |lines| && LineKey(lines[i], documentId) !in preloaded
           && LineKey(lines[j], documentId) !in preloaded) ==> rows[i] != rows[j])
  }

  /**
   * `updateStockLevels` of the incoming service. It changes no existing row:
   * a pre-loaded row goes into the result with its quantity as it was.
   */
  method UpdateIncomingStockLevels(lines: seq<ItemLine>, binMap: map<string, Bin>, documentId: Option<int>,
                                   document: DocKey, preloaded: map<StockKey, Stock>)
    returns (rows: seq<Stock>)
    requires forall i :: 0 <= i < |lines| ==> Placed(lines[i], binMap)
    ensures ReceivedRows(lines, binMap, documentId, document, preloaded, rows)
    ensures forall i :: 0 <= i < |lines| && LineKey(lines[i], documentId) !in preloaded ==> fresh(rows[i])
  {
    rows := [];
    var i := 0;
    while i < |lines|
      invariant 0 <= i <= |lines|
      invariant |rows| == i
      invariant forall j :: 0 <= j < i && LineKey(lines[j], documentId) in preloaded ==>
        rows[j] == preloaded[LineKey(lines[j], documentId)]
      invariant forall j :: 0 <= j < i && LineKey(lines[j], documentId) !in preloaded ==>
        fresh(rows[j]) && NewRow(rows[j], lines[j], binMap, lines[j].quantity, Some(document), None)
      invariant forall j, j' ::
        (0 <= j < j' < i && LineKey(lines[j], documentId) !in preloaded
         && LineKey(lines[j'], documentId) !in preloaded) ==> rows[j] != rows[j']
    {
      var line := lines[i];
      var bin := binMap[line.binId.value];
      var key := LineKey(line, documentId);
      var stock: Stock;
      if key in preloaded {
        stock := preloaded[key];
      } else {
        stock := new Stock(line.productId, bin, bin.shelf, bin.shelf.warehouse, line.quantity, Some(document), None);
      }
      rows := rows + [stock];
      i := i + 1;
    }
  }

  /** The result of a successful incoming document: the saved document and the new product table. */
  datatype Outcome = Outcome(document: MovementDocument, products: map<int, Product>)

  /**
   * `createIncomingDocument` on values: the checks in the source's order
   * (duplicate, empty, unknown warehouse, then every line), the product table
   * written back, and the saved document. A document without a warehouse goes
   * through every step and then fails to be turned into the response, which
   * rolls the transaction back.
   */
  function IncomingOutcome(dto: MovementDto, products: map<int, Product>, bins: map<string, Bin>,
                           warehouses: map<string, Warehouse>, documents: seq<MovementDocument>): (r: Result<Outcome>)
    ensures Exists(documents, dto.Key()) ==> r == Err(DuplicateDocument)
    ensures !Exists(documents, dto.Key()) && (dto.items.None? || dto.items.value == []) ==> r == Err(EmptyDocument)
    ensures r.Ok? ==> dto.items.Some? && dto.warehouseId.Some? && dto.warehouseId.value in warehouses
    ensures r.Ok? ==> r.value.document.Key() == dto.Key() && r.value.document.warehouse == warehouses[dto.warehouseId.value]
  {
    match CheckNewDocument(Exists(documents, dto.Key()), dto.items)
    case Some(e) => Err(e)
    case None =>
      if dto.warehouseId.Some? && dto.warehouseId.value !in warehouses then Err(WarehouseNotFound(dto.warehouseId.value))
      else
        var lines := dto.items.value;
        match Received(lines, LoadProducts(lines, products), LoadBins(lines, bins))
        case Err(e) => Err(e)
        case Ok(receipt) =>
          if dto.warehouseId.None? then Err(ResponseMappingFailed)
          else
            var document := MovementDocument(dto.documentNumber, dto.createdAt, warehouses[dto.warehouseId.value], receipt.items);
            Ok(Outcome(document, products + receipt.products))
  }

  /**
   * An incoming document is accepted exactly when it is new, has lines, names
   * a known warehouse, and every line's product and shelved bin are found;
   * quantities play no part.
   */
  lemma IncomingAccepted(dto: MovementDto, products: map<int, Product>, bins: map<string, Bin>,
                         warehouses: map<string, Warehouse>, documents: seq<MovementDocument>)
    ensures IncomingOutcome(dto, products, bins, warehouses, documents).Ok? <==>
      !Exists(documents, dto.Key()) && dto.items.Some? && dto.items.value != []
      && dto.warehouseId.Some? && dto.warehouseId.value in warehouses
      && AllResolve(dto.items.value, LoadProducts(dto.items.value, products), LoadBins(dto.items.value, bins))
  {
    if dto.items.Some? {
      var lines := dto.items.value;
      ReceivedCharacterized(lines, LoadProducts(lines, products), LoadBins(lines, bins));
    }
  }

  /** An accepted incoming document is the fold over its lines against the loaded products and bins. */
  lemma IncomingUnfold(dto: MovementDto, products: map<int, Product>, bins: map<string, Bin>,
                       warehouses: map<string, Warehouse>, documents: seq<MovementDocument>)
    requires IncomingOutcome(dto, products, bins, warehouses, documents).Ok?
    ensures dto.items.Some?
    ensures var lines := dto.items.value;
      var received := Received(lines, LoadProducts(lines, products), LoadBins(lines, bins));
      var o := IncomingOutcome(dto, products, bins, warehouses, documents).value;
      received.Ok? && o.products == products + received.value.products && o.document.items == received.value.items
  {
  }

  /**
   * Writing the credited loaded products back over the product table: no
   * product appears or disappears, and each ends at its initial quantity plus
   * the sum of its lines.
   */
  lemma StoreAfterReceipt(lines: seq<ItemLine>, store: map<int, Product>, bins: map<string, Bin>)
    requires Received(lines, LoadProducts(lines, store), bins).Ok?
    ensures var after := store + Received(lines, LoadProducts(lines, store), bins).value.products;
      after.Keys == store.Keys
      && forall id :: id in store ==>
           after[id] == store[id].(quantity := store[id].quantity + QuantityFor(lines, id))
  {
    var loaded := LoadProducts(lines, store);
    ReceivedCharacterized(lines, loaded, bins);
    var credited := Received(lines, loaded, bins).value.products;
    assert credited == Credited(loaded, lines);
    forall id | id in store
      ensures (store + credited)[id] == store[id].(quantity := store[id].quantity + QuantityFor(lines, id))
    {
      if !Referenced(lines, id) {
        QuantityForUnreferenced(lines, id);
      }
    }
  }

  /**
   * What an accepted incoming document does to the product table: no product
   * appears or disappears, and each product ends at its initial quantity plus
   * the sum of its lines (so unnamed products do not change).
   */
  lemma IncomingSettled(dto: MovementDto, products: map<int, Product>, bins: map<string, Bin>,
                        warehouses: map<string, Warehouse>, documents: seq<MovementDocument>)
    requires IncomingOutcome(dto, products, bins, warehouses, documents).Ok?
    ensures dto.items.Some?
    ensures var lines := dto.items.value;
      var o := IncomingOutcome(dto, products, bins, warehouses, documents).value;
      o.products.Keys == products.Keys
      && forall id :: id in products ==>
           o.products[id] == products[id].(quantity := products[id].quantity + QuantityFor(lines, id))
  {
    IncomingUnfold(dto, products, bins, warehouses, documents);
    StoreAfterReceipt(dto.items.value, products, LoadBins(dto.items.value, bins));
  }

  /** An accepted incoming document holds one item per line, built from the line's product, bin and shelf. */
  lemma IncomingItems(dto: MovementDto, products: map<int, Product>, bins: map<string, Bin>,
                      warehouses: map<string, Warehouse>, documents: seq<MovementDocument>)
    requires IncomingOutcome(dto, products, bins, warehouses, documents).Ok?
    ensures dto.items.Some?
    ensures var lines := dto.items.value;
      var o := IncomingOutcome(dto, products, bins, warehouses, documents).value;
      (forall i :: 0 <= i < |lines| ==> Placed(lines[i], bins) && Placed(lines[i], LoadBins(lines, bins)))
      && |o.document.items| == |lines|
      && (forall i :: 0 <= i < |lines| ==> o.document.items[i] == ItemFor(lines[i], bins))
  {
    IncomingUnfold(dto, products, bins, warehouses, documents);
    var lines := dto.items.value;
    ReceivedCharacterized(lines, LoadProducts(lines, products), LoadBins(lines, bins));
  }

  /**
   * The part of `createIncomingDocument` that decides the outcome: validation,
   * the warehouse lookup, loading, and processing the lines against the loaded
   * product map, with the product table it leaves.
   */
  method BuildIncoming(dto: MovementDto, products: map<int, Product>, bins: map<string, Bin>,
                       warehouses: map<string, Warehouse>, documents: seq<MovementDocument>)
    returns (o: Result<Outcome>)
    ensures o == IncomingOutcome(dto, products, bins, warehouses, documents)
  {
    var invalid := CheckNewDocument(Exists(documents, dto.Key()), dto.items);
    if invalid.Some? {
      return Err(invalid.value);
    }
    if dto.warehouseId.Some? && dto.warehouseId.value !in warehouses {
      return Err(WarehouseNotFound(dto.warehouseId.value));
    }
    var lines := dto.items.value;
    var productMap := LoadProducts(lines, products);
    var binMap := LoadBins(lines, bins);
    var received := ProcessIncomingItems(lines, productMap, binMap);
    if received.Err? {
      return Err(received.error);
    }
    if dto.warehouseId.None? {
      // the response mapper dereferences the document's warehouse
      return Err(ResponseMappingFailed);
    }
    var document := MovementDocument(dto.documentNumber, dto.createdAt, warehouses[dto.warehouseId.value], received.value.items);
    o := Ok(Outcome(document, products + received.value.products));
  }

  /** The incoming service over its repositories: the product table, saved documents and the stock ledger. */
  class IncomingService {
    var products: map<int, Product>
    var documents: seq<MovementDocument>
    var ledger: set<Stock>
    const bins: map<string, Bin>
    const warehouses: map<string, Warehouse>

    constructor (products: map<int, Product>, bins: map<string, Bin>, warehouses: map<string, Warehouse>)
      ensures this.products == products && this.bins == bins && this.warehouses == warehouses
      ensures documents == [] && ledger == {}
    {
      this.products := products;
      this.bins := bins;
      this.warehouses := warehouses;
      documents := [];
      ledger := {};
    }

    /**
     * `createIncomingDocument`. The stock rows already stored for the lines'
     * keys come in as `preloaded`: the document is not saved before they are
     * looked up, so its id is still null and every key carries `None`. On any
     * error the transaction rolls back and nothing changes; no stored stock row
     * is ever changed.
     */
    method CreateIncomingDocument(dto: MovementDto, preloaded: map<StockKey, Stock>)
      returns (r: Result<MovementDocument>, rows: seq<Stock>)
      modifies this
      ensures var o := IncomingOutcome(dto, old(products), bins, warehouses, old(documents));
        o.Err? ==> r == Err(o.error) && products == old(products) && documents == old(documents)
                   && ledger == old(ledger) && rows == []
      ensures var o := IncomingOutcome(dto, old(products), bins, warehouses, old(documents));
        o.Ok? ==> r == Ok(o.value.document) && products == o.value.products
                  && documents == old(documents) + [o.value.document]
                  && ledger == old(ledger) + (set s | s in rows)
      ensures r.Ok? ==>
        (forall i :: 0 <= i < |dto.items.value| ==> Placed(dto.items.value[i], LoadBins(dto.items.value, bins)))
        && ReceivedRows(dto.items.value, LoadBins(dto.items.value, bins), None, dto.Key(), preloaded, rows)
        && forall i :: 0 <= i < |rows| && LineKey(dto.items.value[i], None) !in preloaded ==> fresh(rows[i])
    {
      rows := [];
      var o := BuildIncoming(dto, products, bins, warehouses, documents);
      if o.Err? {
        r := Err(o.error);
        return;
      }
      var lines := dto.items.value;
      IncomingItems(dto, products, bins, warehouses, documents);
      rows := Commit(o.value.document, o.value.products, lines, LoadBins(lines, bins), dto.Key(), preloaded);
      r := Ok(o.value.document);
    }

    /**
     * The writes of a successful `createIncomingDocument`: the stock rows, the
     * saved document, the products written back and the stock rows saved.
     */
    method Commit(document: MovementDocument, newProducts: map<int, Product>, lines: seq<ItemLine>,
                  binMap: map<string, Bin>, key: DocKey, preloaded: map<StockKey, Stock>)
      returns (rows: seq<Stock>)
      requires forall i :: 0 <= i < |lines| ==> Placed(lines[i], binMap)
      modifies this
      ensures products == newProducts && documents == old(documents) + [document]
      ensures ledger == old(ledger) + (set s | s in rows)
      ensures ReceivedRows(lines, binMap, None, key, preloaded, rows)
      ensures forall i :: 0 <= i < |lines| && LineKey(lines[i], None) !in preloaded ==> fresh(rows[i])
    {
      rows := UpdateIncomingStockLevels(lines, binMap, None, key, preloaded);
      documents := documents + [document];
      products := newProducts;
      ledger := ledger + (set s | s in rows);
    }
  }
}
