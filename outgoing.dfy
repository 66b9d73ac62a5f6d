/**
 * Outgoing (write-off) documents: every line takes its quantity out of its
 * product, in line order and against the quantities the earlier lines left,
 * and refuses a line that asks for more than is there; every line then gets a
 * stock ledger row, either a new one or a pre-loaded one whose quantity drops.
 */
module Outgoing {
  import opened Common
  import opened Catalog
  import opened Movement

  /** One step of `processOutgoingItems`: resolve the line, refuse a shortfall, debit, build the item. */
  function IssueLine(line: ItemLine, products: map<int, Product>, bins: map<string, Bin>): Result<Step>
  {
    match ResolveLine(line, products, bins)
    case Err(e) => Err(e)
    case Ok(found) =>
      if found.product.quantity < line.quantity then Err(InsufficientStock(found.product.name))
      else
        var debited := found.product.(quantity := found.product.quantity - line.quantity);
        Ok(Step(ItemFor(line, bins), products[line.productId := debited]))
  }

  /** `processOutgoingItems` as a left fold over the lines: each line sees the map the earlier lines left. */
  function Issued(lines: seq<ItemLine>, products: map<int, Product>, bins: map<string, Bin>): Result<Processed>
  {
    if lines == [] then Ok(Processed([], products))
    else
      match Issued(lines[..|lines| - 1], products, bins)
      case Err(e) => Err(e)
      case Ok(done) =>
        match IssueLine(lines[|lines| - 1], done.products, bins)
        case Err(e) => Err(e)
        case Ok(step) => Ok(Processed(done.items + [step.item], step.products))
  }

  /** The product map after every line has been taken out: each product loses the sum of its lines. */
  function Debited(products: map<int, Product>, lines: seq<ItemLine>): map<int, Product>
  {
    map id | id in products :: products[id].(quantity := products[id].quantity - QuantityFor(lines, id))
  }

  /**
   * Line `i` can be issued: it resolves, and its product still holds at least
   * the line's quantity once the earlier lines for that product are taken out.
   */
  predicate Issuable(lines: seq<ItemLine>, i: int, products: map<int, Product>, bins: map<string, Bin>)
    requires 0 <= i < |lines|
  {
    Resolves(lines[i], products, bins)
    && products[lines[i].productId].quantity - QuantityFor(lines[..i], lines[i].productId) >= lines[i].quantity
  }

  predicate AllIssuable(lines: seq<ItemLine>, products: map<int, Product>, bins: map<string, Bin>)
  {
    forall i :: 0 <= i < |lines| ==> Issuable(lines, i, products, bins)
  }

  /** The error a line that cannot be issued is refused with. */
  function IssueError(line: ItemLine, products: map<int, Product>, bins: map<string, Bin>): Error
  {
    match ResolveLine(line, products, bins)
    case Err(e) => e
    case Ok(found) => InsufficientStock(found.product.name)
  }

  /** Once a prefix of the lines fails, the whole document fails with the same error. */
  lemma {:induction false} IssuedErrorPersists(lines: seq<ItemLine>, k: nat, products: map<int, Product>, bins: map<string, Bin>)
    requires k <= |lines|
    requires Issued(lines[..k], products, bins).Err?
    ensures Issued(lines, products, bins) == Issued(lines[..k], products, bins)
  {
    if k == |lines| {
      assert lines[..k] == lines;
    } else {
      var init := lines[..|lines| - 1];
      assert init[..k] == lines[..k];
      IssuedErrorPersists(init, k, products, bins);
    }
  }

  /** Taking out one more line changes only that line's product, by that line's quantity. */
  lemma DebitedSnoc(products: map<int, Product>, lines: seq<ItemLine>)
    requires lines != [] && lines[|lines| - 1].productId in products
    ensures var last := lines[|lines| - 1];
      var before := Debited(products, lines[..|lines| - 1]);
      Debited(products, lines)
        == before[last.productId := before[last.productId].(quantity := before[last.productId].quantity - last.quantity)]
  {
  }

  lemma DebitedSameProducts(products: map<int, Product>, lines: seq<ItemLine>)
    ensures SameProducts(products, Debited(products, lines))
  {
  }

  /** Whether line `j` is issuable does not depend on the lines after it. */
  lemma PrefixIssuable(lines: seq<ItemLine>, products: map<int, Product>, bins: map<string, Bin>)
    requires lines != []
    ensures forall j :: 0 <= j < |lines| - 1 ==>
      (Issuable(lines, j, products, bins) <==> Issuable(lines[..|lines| - 1], j, products, bins))
  {
    var init := lines[..|lines| - 1];
    forall j | 0 <= j < |lines| - 1
      ensures Issuable(lines, j, products, bins) <==> Issuable(init, j, products, bins)
    {
      assert lines[..j] == init[..j];
    }
  }

  /**
   * The last line, processed against the map the earlier lines leave, goes
   * through exactly when it is issuable; it then leaves the fully debited map
   * and builds its item, and otherwise fails with its own error.
   */
  lemma LastLineAfterDebit(lines: seq<ItemLine>, products: map<int, Product>, bins: map<string, Bin>)
    requires lines != []
    ensures var last := lines[|lines| - 1];
      var step := IssueLine(last, Debited(products, lines[..|lines| - 1]), bins);
      (step.Ok? <==> Issuable(lines, |lines| - 1, products, bins))
      && (step.Err? ==> step.error == IssueError(last, products, bins))
      && (step.Ok? ==> step.value.products == Debited(products, lines) && step.value.item == ItemFor(last, bins))
  {
    var n := |lines|;
    var init, last := lines[..n - 1], lines[n - 1];
    var current := Debited(products, init);
    DebitedSameProducts(products, init);
    ResolvesIgnoresQuantities(last, products, current, bins);
    if last.productId in products {
      DebitedSnoc(products, lines);
    }
  }

  /**
   * The fold against its reference definition: the lines go through exactly
   * when every line is issuable in turn; then the final map is the initial one
   * less each product's total, and item `i` is built from line `i`.
   */
  lemma {:induction false} IssuedCharacterized(lines: seq<ItemLine>, products: map<int, Product>, bins: map<string, Bin>)
    ensures Issued(lines, products, bins).Ok? <==> AllIssuable(lines, products, bins)
    ensures Issued(lines, products, bins).Ok? ==>
      var issue := Issued(lines, products, bins).value;
      issue.products == Debited(products, lines)
      && |issue.items| == |lines|
      && forall i :: 0 <= i < |lines| ==> Placed(lines[i], bins) && issue.items[i] == ItemFor(lines[i], bins)
  {
    if lines == [] {
      assert Debited(products, lines) == products;
    } else {
      var n := |lines|;
      var init := lines[..n - 1];
      IssuedCharacterized(init, products, bins);
      PrefixIssuable(lines, products, bins);
      LastLineAfterDebit(lines, products, bins);
      if Issued(init, products, bins).Err? {
        assert !AllIssuable(init, products, bins);
        var j :| 0 <= j < |init| && !Issuable(init, j, products, bins);
        assert !Issuable(lines, j, products, bins);
      } else if Issued(lines, products, bins).Ok? {
        assert AllIssuable(lines, products, bins);
      }
    }
  }

  /** A refused document is refused at its first line that cannot be issued, with that line's error. */
  lemma {:induction false} IssuedFailure(lines: seq<ItemLine>, products: map<int, Product>, bins: map<string, Bin>)
    requires Issued(lines, products, bins).Err?
    ensures exists i ::
      (0 <= i < |lines|
       && (forall j :: 0 <= j < i ==> Issuable(lines, j, products, bins))
       && !Issuable(lines, i, products, bins)
       && Issued(lines, products, bins).error == IssueError(lines[i], products, bins))
  {
    var n := |lines|;
    var init := lines[..n - 1];
    PrefixIssuable(lines, products, bins);
    if Issued(init, products, bins).Err? {
      IssuedFailure(init, products, bins);
      var i :| 0 <= i < |init|
        && (forall j :: 0 <= j < i ==> Issuable(init, j, products, bins))
        && !Issuable(init, i, products, bins)
        && Issued(init, products, bins).error == IssueError(init[i], products, bins);
      assert init[i] == lines[i];
    } else {
      IssuedCharacterized(init, products, bins);
      LastLineAfterDebit(lines, products, bins);
      assert forall j :: 0 <= j < n - 1 ==> Issuable(init, j, products, bins);
    }
  }

  /** A line issued from a product never leaves it below zero, so after a successful document no referenced product is negative. */
  lemma {:induction false} IssuedNonNegative(lines: seq<ItemLine>, products: map<int, Product>, bins: map<string, Bin>)
    requires Issued(lines, products, bins).Ok?
    ensures forall id :: id in Issued(lines, products, bins).value.products && Referenced(lines, id) ==>
      Issued(lines, products, bins).value.products[id].quantity >= 0
  {
    if lines != [] {
      var n := |lines|;
      var init, last := lines[..n - 1], lines[n - 1];
      IssuedNonNegative(init, products, bins);
      var done := Issued(init, products, bins).value;
      var result := Issued(lines, products, bins).value;
      forall id | id in result.products && Referenced(lines, id)
        ensures result.products[id].quantity >= 0
      {
        if id != last.productId {
          var i :| 0 <= i < n && lines[i].productId == id;
          assert init[i] == lines[i];
        }
      }
    }
  }

  /** Products no line names leave the fold untouched, and no product is added or dropped. */
  lemma IssuedLeavesUnreferenced(lines: seq<ItemLine>, products: map<int, Product>, bins: map<string, Bin>)
    requires Issued(lines, products, bins).Ok?
    ensures Issued(lines, products, bins).value.products.Keys == products.Keys
    ensures forall id :: id in products && !Referenced(lines, id) ==>
      Issued(lines, products, bins).value.products[id] == products[id]
  {
    IssuedCharacterized(lines, products, bins);
    forall id | id in products && !Referenced(lines, id)
      ensures Debited(products, lines)[id] == products[id]
    {
      QuantityForUnreferenced(lines, id);
    }
  }

  /**
   * Lines are debited one after the other: with 5 in stock, two lines of 3 for
   * the same product fail on the second line although each alone would pass.
   */
  lemma SecondLineSeesFirstDebit(bin: Bin)
    requires bin.shelf != null && bin.binId == Some("B1")
    ensures var products := map[7 := Product(7, "nail", None, None, 5)];
      var bins := map["B1" := bin];
      var line := ItemLine(7, 3, Some("B1"));
      Issued([line], products, bins).Ok?
      && Issued([line, line], products, bins) == Err(InsufficientStock("nail"))
  {
    var products := map[7 := Product(7, "nail", None, None, 5)];
    var bins := map["B1" := bin];
    var line := ItemLine(7, 3, Some("B1"));
    assert [line, line][..1] == [line];
    assert [line][..0] == [];
  }

  /**
   * `processOutgoingItems`: the stream over the lines, debiting the product
   * map it is given as it goes and stopping at the first line that fails.
   */
  method ProcessOutgoingItems(lines: seq<ItemLine>, productMap: map<int, Product>, binMap: map<string, Bin>)
    returns (r: Result<Processed>)
    ensures r == Issued(lines, productMap, binMap)
  {
    var items: seq<MovementItem> := [];
    var current := productMap;
    var i := 0;
    while i < |lines|
      invariant 0 <= i <= |lines|
      invariant Issued(lines[..i], productMap, binMap) == Ok(Processed(items, current))
    {
      var line := lines[i];
      assert lines[..i + 1][..i] == lines[..i];
      if line.productId !in current {
        r := Err(ProductNotFound(line.productId));
        IssuedErrorPersists(lines, i + 1, productMap, binMap);
        return;
      }
      var product := current[line.productId];
      if line.binId.None? || line.binId.value !in binMap {
        r := Err(BinNotFound(line.binId));
        IssuedErrorPersists(lines, i + 1, productMap, binMap);
        return;
      }
      var bin := binMap[line.binId.value];
      if bin.shelf == null {
        r := Err(ShelfNotFound(bin.binId));
        IssuedErrorPersists(lines, i + 1, productMap, binMap);
        return;
      }
      if product.quantity < line.quantity {
        r := Err(InsufficientStock(product.name));
        IssuedErrorPersists(lines, i + 1, productMap, binMap);
        return;
      }
      current := current[line.productId := product.(quantity := product.quantity - line.quantity)];
      items := items + [MovementItem(line.productId, line.quantity, bin, bin.shelf)];
      i := i + 1;
    }
    assert lines[..|lines|] == lines;
    r := Ok(Processed(items, current));
  }

  /**
   * The stock rows `updateStockLevels` returns for an outgoing document: one per
   * line, in line order. A line whose key was pre-loaded gets that row, and the
   * row has lost the sum of the lines under its key (`before` holds the
   * quantities the rows had); any other line gets a row of its own with the
   * negated quantity and this document as its outgoing reference. Rows created
   * in the loop are never looked up again, so two such lines under one key get
   * two different rows.
   */
  predicate IssuedRows(lines: seq<ItemLine>, bins: map<string, Bin>, documentId: Option<int>, document: DocKey,
                       preloaded: map<StockKey, Stock>, before: map<StockKey, int>, rows: seq<Stock>)
    requires forall i :: 0 <= i < |lines| ==> Placed(lines[i], bins)
    reads preloaded.Values, rows
  {
    |rows| == |lines|
    && IssuedPrefix(lines, |lines|, bins, documentId, document, preloaded, rows)
    && (forall k :: k in preloaded ==>
          k in before && preloaded[k].quantity == before[k] - KeyQuantity(lines, k, documentId))
  }

  /** The rows made for the first `n` lines because no row was pre-loaded under their key. */
  function NewRows(lines: seq<ItemLine>, n: nat, documentId: Option<int>, preloaded: map<StockKey, Stock>,
                   rows: seq<Stock>): set<Stock>
  {
    set i | 0 <= i < n && i < |lines| && i < |rows| && LineKey(lines[i], documentId) !in preloaded :: rows[i]
  }

  /** The rows for the first `n` lines, as `IssuedRows` describes them. */
  predicate IssuedPrefix(lines: seq<ItemLine>, n: nat, bins: map<string, Bin>, documentId: Option<int>, document: DocKey,
                         preloaded: map<StockKey, Stock>, rows: seq<Stock>)
    requires forall i :: 0 <= i < |lines| ==> Placed(lines[i], bins)
    reads NewRows(lines, n, documentId, preloaded, rows)
  {
    n <= |lines| && n <= |rows|
    && (forall i :: 0 <= i < n && LineKey(lines[i], documentId) in preloaded ==>
          rows[i] == preloaded[LineKey(lines[i], documentId)])
    && (forall i :: 0 <= i < n && LineKey(lines[i], documentId) !in preloaded ==>
          NewRow(rows[i], lines[i], bins, -lines[i].quantity, None, Some(document)))
    && (forall i, j ::
          (0 <= i < j < n && LineKey(lines[i], documentId) !in preloaded
           && LineKey(lines[j], documentId) !in preloaded) ==> rows[i] != rows[j])
  }

  /**
   * One line of `updateStockLevels` of the outgoing service: the pre-loaded row
   * under the line's key loses the line's quantity, or a new row is made.
   */
  method IssueRow(line: ItemLine, binMap: map<string, Bin>, key: StockKey, document: DocKey,
                  preloaded: map<StockKey, Stock>)
    returns (stock: Stock)
    requires Placed(line, binMap) && PreloadedRows(preloaded)
    modifies if key in preloaded then {preloaded[key]} else {}
    ensures key in preloaded ==> stock == preloaded[key]
    ensures Quantities(preloaded) == Debit(old(Quantities(preloaded)), key, line.quantity)
    ensures key !in preloaded ==> fresh(stock) && NewRow(stock, line, binMap, -line.quantity, None, Some(document))
  {
    var bin := binMap[line.binId.value];
    if key in preloaded {
      stock := preloaded[key];
      stock.quantity := stock.quantity - line.quantity;
    } else {
      stock := new Stock(line.productId, bin, bin.shelf, bin.shelf.warehouse, -line.quantity, None, Some(document));
    }
  }

  /** The quantity under `key`, if any, less `quantity`. */
  function Debit(quantities: map<StockKey, int>, key: StockKey, quantity: int): map<StockKey, int>
  {
    if key in quantities then quantities[key := quantities[key] - quantity] else quantities
  }

  /** What is left under each pre-loaded key once the lines under it have been taken off. */
  function Remaining(before: map<StockKey, int>, lines: seq<ItemLine>, documentId: Option<int>): (r: map<StockKey, int>)
    ensures r.Keys == before.Keys
  {
    map k | k in before :: before[k] - KeyQuantity(lines, k, documentId)
  }

  /** Taking off one more line debits only the row under that line's key. */
  lemma RemainingSnoc(before: map<StockKey, int>, lines: seq<ItemLine>, documentId: Option<int>, line: ItemLine)
    ensures Remaining(before, lines + [line], documentId)
      == Debit(Remaining(before, lines, documentId), LineKey(line, documentId), line.quantity)
  {
    assert (lines + [line])[..|lines|] == lines;
  }

  /** Extending the rows by the one made for the next line. */
  lemma IssuedPrefixSnoc(lines: seq<ItemLine>, n: nat, bins: map<string, Bin>, documentId: Option<int>, document: DocKey,
                         preloaded: map<StockKey, Stock>, rows: seq<Stock>, row: Stock)
    requires forall i :: 0 <= i < |lines| ==> Placed(lines[i], bins)
    requires n < |lines| && |rows| == n && IssuedPrefix(lines, n, bins, documentId, document, preloaded, rows)
    requires LineKey(lines[n], documentId) in preloaded ==> row == preloaded[LineKey(lines[n], documentId)]
    requires LineKey(lines[n], documentId) !in preloaded ==>
      row !in rows && NewRow(row, lines[n], bins, -lines[n].quantity, None, Some(document))
    ensures IssuedPrefix(lines, n + 1, bins, documentId, document, preloaded, rows + [row])
  {
    var r := rows + [row];
    assert forall i :: 0 <= i < n ==> r[i] == rows[i];
  }

  /**
   * Where `updateStockLevels` stands after the first `i` lines: their rows, the
   * pre-loaded rows debited by them, and no new row among the pre-loaded ones.
   */
  predicate IssueState(lines: seq<ItemLine>, i: nat, binMap: map<string, Bin>, documentId: Option<int>,
                       document: DocKey, preloaded: map<StockKey, Stock>, before: map<StockKey, int>, rows: seq<Stock>)
    requires forall i :: 0 <= i < |lines| ==> Placed(lines[i], binMap)
    reads preloaded.Values, rows
  {
    i <= |lines| && |rows| == i
    && IssuedPrefix(lines, i, binMap, documentId, document, preloaded, rows)
    && (forall j :: 0 <= j < i && LineKey(lines[j], documentId) !in preloaded ==> rows[j] !in preloaded.Values)
    && Quantities(preloaded) == Remaining(before, lines[..i], documentId)
  }

  /** One round of the loop of `updateStockLevels`. */
  method IssueNext(lines: seq<ItemLine>, i: nat, binMap: map<string, Bin>, documentId: Option<int>, document: DocKey,
                   preloaded: map<StockKey, Stock>, ghost before: map<StockKey, int>, rows: seq<Stock>)
    returns (extended: seq<Stock>)
    requires forall i :: 0 <= i < |lines| ==> Placed(lines[i], binMap)
    requires PreloadedRows(preloaded) && i < |lines|
    requires IssueState(lines, i, binMap, documentId, document, preloaded, before, rows)
    modifies preloaded.Values
    ensures IssueState(lines, i + 1, binMap, documentId, document, preloaded, before, extended)
    ensures extended == rows + [extended[i]]
    ensures LineKey(lines[i], documentId) !in preloaded ==> fresh(extended[i])
  {
    var key := LineKey(lines[i], documentId);
    assert key in preloaded ==> preloaded[key] !in NewRows(lines, i, documentId, preloaded, rows);
    var stock := IssueRow(lines[i], binMap, key, document, preloaded);
    IssuedPrefixSnoc(lines, i, binMap, documentId, document, preloaded, rows, stock);
    extended := rows + [stock];
    assert lines[..i + 1] == lines[..i] + [lines[i]];
    RemainingSnoc(before, lines[..i], documentId, lines[i]);
  }

  /** `updateStockLevels` of the outgoing service. */
  method UpdateOutgoingStockLevels(lines: seq<ItemLine>, binMap: map<string, Bin>, documentId: Option<int>,
                                   document: DocKey, preloaded: map<StockKey, Stock>)
    returns (rows: seq<Stock>)
    requires forall i :: 0 <= i < |lines| ==> Placed(lines[i], binMap)
    requires PreloadedRows(preloaded)
    modifies preloaded.Values
    ensures IssuedRows(lines, binMap, documentId, document, preloaded, old(Quantities(preloaded)), rows)
    ensures forall i :: 0 <= i < |lines| && LineKey(lines[i], documentId) !in preloaded ==> fresh(rows[i])
  {
    rows := [];
    ghost var before := Quantities(preloaded);
    var i := 0;
    while i < |lines|
      invariant 0 <= i <= |lines|
      invariant IssueState(lines, i, binMap, documentId, document, preloaded, before, rows)
      invariant forall j :: 0 <= j < i && LineKey(lines[j], documentId) !in preloaded ==> fresh(rows[j])
    {
      rows := IssueNext(lines, i, binMap, documentId, document, preloaded, before, rows);
      i := i + 1;
    }
    assert lines[..|lines|] == lines;
  }

  /** The result of a successful outgoing document: the saved document and the new product table. */
  datatype Outcome = Outcome(document: MovementDocument, products: map<int, Product>)

  /**
   * `createOutgoingDocument` on values: the checks in the source's order
   * (duplicate, empty, unknown warehouse, then every line), the product table
   * written back, and the saved document. A document without a warehouse goes
   * through every step and then fails to be turned into the response, which
   * rolls the transaction back.
   */
  function OutgoingOutcome(dto: MovementDto, products: map<int, Product>, bins: map<string, Bin>,
                           warehouses: map<string, Warehouse>, documents: seq<MovementDocument>): (r: Result<Outcome>)
    ensures Exists(documents, dto.Key()) ==> r == Err(DuplicateDocument)
    ensures !Exists(documents, dto.Key()) && (dto.items.None? || dto.items.value == []) ==> r == Err(EmptyDocument)
    ensures r.Ok? ==> dto.items.Some? && dto.warehouseId.Some? && dto.warehouseId.value in warehouses
    ensures r.Ok? ==> r.value.document.Key() == dto.Key() && r.value.document.warehouse == warehouses[dto.warehouseId.value]
  {
    match CheckNewDocument(Exists(documents, dto.Key()), dto.items)
    case Some(e) => Err(e)
    case None =>
      if dto.warehouseId.Some? && dto.warehouseId.value !in warehouses then Err(WarehouseNotFound(dto.warehouseId.value))
      else
        var lines := dto.items.value;
        match Issued(lines, LoadProducts(lines, products), LoadBins(lines, bins))
        case Err(e) => Err(e)
        case Ok(issue) =>
          if dto.warehouseId.None? then Err(ResponseMappingFailed)
          else
            var document := MovementDocument(dto.documentNumber, dto.createdAt, warehouses[dto.warehouseId.value], issue.items);
            Ok(Outcome(document, products + issue.products))
  }

  /**
   * An outgoing document is accepted exactly when it is new, has lines, names
   * a known warehouse, and every line can be issued in turn against the loaded
   * products and bins.
   */
  lemma OutgoingAccepted(dto: MovementDto, products: map<int, Product>, bins: map<string, Bin>,
                         warehouses: map<string, Warehouse>, documents: seq<MovementDocument>)
    ensures OutgoingOutcome(dto, products, bins, warehouses, documents).Ok? <==>
      !Exists(documents, dto.Key()) && dto.items.Some? && dto.items.value != []
      && dto.warehouseId.Some? && dto.warehouseId.value in warehouses
      && AllIssuable(dto.items.value, LoadProducts(dto.items.value, products), LoadBins(dto.items.value, bins))
  {
    if dto.items.Some? {
      var lines := dto.items.value;
      IssuedCharacterized(lines, LoadProducts(lines, products), LoadBins(lines, bins));
    }
  }

  /** An accepted outgoing document is the fold over its lines against the loaded products and bins. */
  lemma OutgoingUnfold(dto: MovementDto, products: map<int, Product>, bins: map<string, Bin>,
                       warehouses: map<string, Warehouse>, documents: seq<MovementDocument>)
    requires OutgoingOutcome(dto, products, bins, warehouses, documents).Ok?
    ensures dto.items.Some?
    ensures var lines := dto.items.value;
      var issued := Issued(lines, LoadProducts(lines, products), LoadBins(lines, bins));
      var o := OutgoingOutcome(dto, products, bins, warehouses, documents).value;
      issued.Ok? && o.products == products + issued.value.products && o.document.items == issued.value.items
  {
  }

  /**
   * Writing the debited loaded products back over the product table: no product
   * appears or disappears, each ends at its initial quantity less the sum of
   * its lines, and no product a line names ends below zero.
   */
  lemma StoreAfterIssue(lines: seq<ItemLine>, store: map<int, Product>, bins: map<string, Bin>)
    requires Issued(lines, LoadProducts(lines, store), bins).Ok?
    ensures var after := store + Issued(lines, LoadProducts(lines, store), bins).value.products;
      after.Keys == store.Keys
      && (forall id :: id in store ==>
            after[id] == store[id].(quantity := store[id].quantity - QuantityFor(lines, id)))
      && (forall id :: id in store && Referenced(lines, id) ==> after[id].quantity >= 0)
  {
    var loaded := LoadProducts(lines, store);
    IssuedCharacterized(lines, loaded, bins);
    IssuedNonNegative(lines, loaded, bins);
    var debited := Issued(lines, loaded, bins).value.products;
    assert debited == Debited(loaded, lines);
    forall id | id in store
      ensures (store + debited)[id] == store[id].(quantity := store[id].quantity - QuantityFor(lines, id))
    {
      if !Referenced(lines, id) {
        QuantityForUnreferenced(lines, id);
      }
    }
  }

  /**
   * What an accepted outgoing document does to the product table: no product
   * appears or disappears, each product ends at its initial quantity less the
   * sum of its lines (so unnamed products do not change), and no named product
   * ends below zero.
   */
  lemma OutgoingSettled(dto: MovementDto, products: map<int, Product>, bins: map<string, Bin>,
                        warehouses: map<string, Warehouse>, documents: seq<MovementDocument>)
    requires OutgoingOutcome(dto, products, bins, warehouses, documents).Ok?
    ensures dto.items.Some?
    ensures var lines := dto.items.value;
      var o := OutgoingOutcome(dto, products, bins, warehouses, documents).value;
      o.products.Keys == products.Keys
      && (forall id :: id in products ==>
            o.products[id] == products[id].(quantity := products[id].quantity - QuantityFor(lines, id)))
      && (forall id :: id in products && Referenced(lines, id) ==> o.products[id].quantity >= 0)
  {
    OutgoingUnfold(dto, products, bins, warehouses, documents);
    StoreAfterIssue(dto.items.value, products, LoadBins(dto.items.value, bins));
  }

  /** An accepted outgoing document holds one item per line, built from the line's product, bin and shelf. */
  lemma OutgoingItems(dto: MovementDto, products: map<int, Product>, bins: map<string, Bin>,
                      warehouses: map<string, Warehouse>, documents: seq<MovementDocument>)
    requires OutgoingOutcome(dto, products, bins, warehouses, documents).Ok?
    ensures dto.items.Some?
    ensures var lines := dto.items.value;
      var o := OutgoingOutcome(dto, products, bins, warehouses, documents).value;
      (forall i :: 0 <= i < |lines| ==> Placed(lines[i], bins) && Placed(lines[i], LoadBins(lines, bins)))
      && |o.document.items| == |lines|
      && (forall i :: 0 <= i < |lines| ==> o.document.items[i] == ItemFor(lines[i], bins))
  {
    OutgoingUnfold(dto, products, bins, warehouses, documents);
    var lines := dto.items.value;
    var loaded, loadedBins := LoadProducts(lines, products), LoadBins(lines, bins);
    IssuedCharacterized(lines, loaded, loadedBins);
  }

  /**
   * The part of `createOutgoingDocument` that decides the outcome: validation,
   * the warehouse lookup, loading, and processing the lines against the loaded
   * product map, with the product table it leaves.
   */
  method BuildOutgoing(dto: MovementDto, products: map<int, Product>, bins: map<string, Bin>,
                       warehouses: map<string, Warehouse>, documents: seq<MovementDocument>)
    returns (o: Result<Outcome>)
    ensures o == OutgoingOutcome(dto, products, bins, warehouses, documents)
  {
    var invalid := CheckNewDocument(Exists(documents, dto.Key()), dto.items);
    if invalid.Some? {
      return Err(invalid.value);
    }
    if dto.warehouseId.Some? && dto.warehouseId.value !in warehouses {
      return Err(WarehouseNotFound(dto.warehouseId.value));
    }
    var lines := dto.items.value;
    var productMap := LoadProducts(lines, products);
    var binMap := LoadBins(lines, bins);
    var issued := ProcessOutgoingItems(lines, productMap, binMap);
    if issued.Err? {
      return Err(issued.error);
    }
    if dto.warehouseId.None? {
      // the response mapper dereferences the document's warehouse
      return Err(ResponseMappingFailed);
    }
    var document := MovementDocument(dto.documentNumber, dto.createdAt, warehouses[dto.warehouseId.value], issued.value.items);
    o := Ok(Outcome(document, products + issued.value.products));
  }

  /** The outgoing service over its repositories: the product table, saved documents and the stock ledger. */
  class OutgoingService {
    var products: map<int, Product>
    var documents: seq<MovementDocument>
    var ledger: set<Stock>
    const bins: map<string, Bin>
    const warehouses: map<string, Warehouse>

    constructor (products: map<int, Product>, bins: map<string, Bin>, warehouses: map<string, Warehouse>)
      ensures this.products == products && this.bins == bins && this.warehouses == warehouses
      ensures documents == [] && ledger == {}
    {
      this.products := products;
      this.bins := bins;
      this.warehouses := warehouses;
      documents := [];
      ledger := {};
    }

    /**
     * `createOutgoingDocument`. The stock rows already stored for the lines'
     * keys come in as `preloaded`: the document is not saved before they are
     * looked up, so its id is still null and every key carries `None`. On any
     * error the transaction rolls back and nothing changes.
     */
    method CreateOutgoingDocument(dto: MovementDto, preloaded: map<StockKey, Stock>)
      returns (r: Result<MovementDocument>, rows: seq<Stock>)
      requires PreloadedRows(preloaded)
      modifies this, preloaded.Values
      ensures var o := OutgoingOutcome(dto, old(products), bins, warehouses, old(documents));
        o.Err? ==> r == Err(o.error) && products == old(products) && documents == old(documents)
                   && ledger == old(ledger) && rows == []
      ensures var o := OutgoingOutcome(dto, old(products), bins, warehouses, old(documents));
        o.Ok? ==> r == Ok(o.value.document) && products == o.value.products
                  && documents == old(documents) + [o.value.document]
                  && ledger == old(ledger) + (set s | s in rows)
      ensures r.Err? ==> forall k :: k in preloaded ==> preloaded[k].quantity == old(preloaded[k].quantity)
      ensures r.Ok? ==>
        (forall i :: 0 <= i < |dto.items.value| ==> Placed(dto.items.value[i], LoadBins(dto.items.value, bins)))
        && IssuedRows(dto.items.value, LoadBins(dto.items.value, bins), None, dto.Key(), preloaded,
                      old(Quantities(preloaded)), rows)
        && forall i :: 0 <= i < |rows| && LineKey(dto.items.value[i], None) !in preloaded ==> fresh(rows[i])
    {
      rows := [];
      var o := BuildOutgoing(dto, products, bins, warehouses, documents);
      if o.Err? {
        r := Err(o.error);
        return;
      }
      var lines := dto.items.value;
      OutgoingItems(dto, products, bins, warehouses, documents);
      rows := Commit(o.value.document, o.value.products, lines, LoadBins(lines, bins), dto.Key(), preloaded);
      r := Ok(o.value.document);
    }

    /**
     * The writes of a successful `createOutgoingDocument`: the stock rows, the
     * saved document, the products written back and the stock rows saved.
     */
    method Commit(document: MovementDocument, newProducts: map<int, Product>, lines: seq<ItemLine>,
                  binMap: map<string, Bin>, key: DocKey, preloaded: map<StockKey, Stock>)
      returns (rows: seq<Stock>)
      requires forall i :: 0 <= i < |lines| ==> Placed(lines[i], binMap)
      requires PreloadedRows(preloaded)
      modifies this, preloaded.Values
      ensures products == newProducts && documents == old(documents) + [document]
      ensures ledger == old(ledger) + (set s | s in rows)
      ensures IssuedRows(lines, binMap, None, key, preloaded, old(Quantities(preloaded)), rows)
      ensures forall i :: 0 <= i < |lines| && LineKey(lines[i], None) !in preloaded ==> fresh(rows[i])
    {
      rows := UpdateOutgoingStockLevels(lines, binMap, None, key, preloaded);
      documents := documents + [document];
      products := newProducts;
      ledger := ledger + (set s | s in rows);
    }
  }
}
