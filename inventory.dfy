/**
 * Inventory (stock-taking) documents: creating one from the client's items,
 * filling one with every product in stock, and updating a stored one by
 * merging the submitted items into it by id.
 */
module Inventory {
  import opened Common
  import opened Catalog

  /** The counted values of an inventory line, which an update copies over. */
  datatype Counts = Counts(product: Option<Product>, quantityPlan: int, quantityFact: int, deviation: int)

  /** An inventory line: the planned quantity, the counted one and their difference. */
  class InventoryItem {
    const id: Option<int>
    var document: InventoryDocument?
    var product: Option<Product>
    var quantityPlan: int
    var quantityFact: int
    var deviation: int

    constructor (id: Option<int>, document: InventoryDocument?, product: Option<Product>,
                 quantityPlan: int, quantityFact: int, deviation: int)
      ensures this.id == id && this.document == document && this.product == product
      ensures this.quantityPlan == quantityPlan && this.quantityFact == quantityFact && this.deviation == deviation
    {
      this.id := id;
      this.document := document;
      this.product := product;
      this.quantityPlan := quantityPlan;
      this.quantityFact := quantityFact;
      this.deviation := deviation;
    }

    function Counted(): Counts
      reads this
    {
      Counts(product, quantityPlan, quantityFact, deviation)
    }

    /** The four setters an update calls on a matched item. */
    method CopyCounts(from: InventoryItem)
      requires from != this
      modifies this
      ensures Counted() == old(from.Counted()) && document == old(document)
    {
      quantityPlan := from.quantityPlan;
      quantityFact := from.quantityFact;
      deviation := from.deviation;
      product := from.product;
    }
  }

  class InventoryDocument {
    var id: Option<int>
    var documentNumber: string
    var createdAt: Timestamp
    var items: Option<seq<InventoryItem>>

    constructor (id: Option<int>, documentNumber: string, createdAt: Timestamp, items: Option<seq<InventoryItem>>)
      ensures this.id == id && this.documentNumber == documentNumber && this.createdAt == createdAt
      ensures this.items == items
    {
      this.id := id;
      this.documentNumber := documentNumber;
      this.createdAt := createdAt;
      this.items := items;
    }

    function Key(): DocKey
      reads this
    {
      DocKey(documentNumber, createdAt)
    }
  }

  function Elements(items: seq<InventoryItem>): set<InventoryItem>
  {
    set x | x in items
  }

  /** `findByQuantityGreaterThan(0)`: the products in stock, in the order the table lists them. */
  function InStock(products: seq<Product>): (r: seq<Product>)
    ensures |r| <= |products|
    ensures forall p :: p in r <==> p in products && p.quantity > 0
  {
    if products == [] then []
    else
      var last := products[|products| - 1];
      InStock(products[..|products| - 1]) + (if last.quantity > 0 then [last] else [])
  }

  /** Taking the products in stock keeps a table in which every product is in stock as it is. */
  lemma {:induction false} InStockAllPositive(products: seq<Product>)
    requires forall i :: 0 <= i < |products| ==> products[i].quantity > 0
    ensures InStock(products) == products
  {
    if products != [] {
      var init := products[..|products| - 1];
      InStockAllPositive(init);
      assert init + [products[|products| - 1]] == products;
    }
  }

  /** The item `fillDocumentWithItems` builds for a product: planned what is in stock, counted nothing. */
  predicate FilledItem(item: InventoryItem, product: Product, document: InventoryDocument)
    reads item
  {
    item.id == None && item.document == document && item.product == Some(product)
    && item.quantityPlan == product.quantity && item.quantityFact == 0 && item.deviation == product.quantity
  }

  /** No two items carry the same non-null id. */
  predicate UniqueIds(items: seq<InventoryItem>)
  {
    forall i, j :: 0 <= i < j < |items| && items[i].id.Some? ==> items[i].id != items[j].id
  }

  /** Every item of the map sits under its own id. */
  predicate KeyedItems(byId: map<int, InventoryItem>)
  {
    forall k :: k in byId ==> byId[k].id == Some(k)
  }

  /**
   * The update's map of the existing items: the items with a non-null id,
   * collected by `Collectors.toMap(InventoryItem::getId, …)`, which throws on
   * a second item with the same id.
   */
  function ToMap(items: seq<InventoryItem>): (r: Result<map<int, InventoryItem>>)
    ensures r.Err? ==> r.error == DuplicateItemId
    ensures r.Ok? ==> KeyedItems(r.value) && forall k :: k in r.value ==> r.value[k] in items
    ensures r.Ok? ==> forall i :: 0 <= i < |items| && items[i].id.Some? ==>
      items[i].id.value in r.value && r.value[items[i].id.value] == items[i]
  {
    if items == [] then Ok(map[])
    else
      var init, last := items[..|items| - 1], items[|items| - 1];
      var before := ToMap(init);
      if before.Err? then before
      else if last.id.None? then Ok(before.value)
      else if last.id.value in before.value then Err(DuplicateItemId)
      else Ok(before.value[last.id.value := last])
  }

  /** The map is built exactly when no two existing items share an id. */
  lemma {:induction false} ToMapOkIffUnique(items: seq<InventoryItem>)
    ensures ToMap(items).Ok? <==> UniqueIds(items)
  {
    if items != [] {
      var init, last := items[..|items| - 1], items[|items| - 1];
      ToMapOkIffUnique(init);
      UniqueIdsSnoc(items);
      var before := ToMap(init);
      if before.Ok? && last.id.Some? {
        var k := last.id.value;
        if k in before.value {
          assert before.value[k].id == Some(k);
          var i :| 0 <= i < |init| && init[i] == before.value[k];
          assert init[i].id == last.id;
        } else {
          forall i | 0 <= i < |init| && init[i].id.Some? ensures init[i].id != last.id {
            assert init[i].id.value in before.value;
          }
        }
      }
    }
  }

  /** Ids stay unique after one more item exactly when that item's id is null or new. */
  lemma UniqueIdsSnoc(items: seq<InventoryItem>)
    requires items != []
    ensures var init, last := items[..|items| - 1], items[|items| - 1];
      UniqueIds(items) <==> UniqueIds(init) && (last.id.None? || forall i :: 0 <= i < |init| ==> init[i].id != last.id)
  {
    var init := items[..|items| - 1];
    assert forall i :: 0 <= i < |init| ==> init[i] == items[i];
  }

  /**
   * The ids left in the update's map once the first `i` submitted items are
   * processed: every non-null id they carry has been taken out (taking out an
   * id the map no longer holds changes nothing).
   */
  function Unclaimed(submitted: seq<InventoryItem>, i: nat, ids: set<int>): (r: set<int>)
    requires i <= |submitted|
    ensures r <= ids
  {
    if i == 0 then ids
    else
      var before := Unclaimed(submitted, i - 1, ids);
      if submitted[i - 1].id.Some? then before - {submitted[i - 1].id.value} else before
  }

  /**
   * Whether the submitted item at `i` is merged into an existing item: its id
   * is not null and is still in the update's map.
   */
  predicate Matched(submitted: seq<InventoryItem>, i: nat, ids: set<int>)
    requires i < |submitted|
  {
    submitted[i].id.Some? && submitted[i].id.value in Unclaimed(submitted, i, ids)
  }

  /** The map only loses ids: what is left after `j` items is still there after fewer. */
  lemma {:induction false} UnclaimedShrinks(submitted: seq<InventoryItem>, i: nat, j: nat, ids: set<int>)
    requires i <= j <= |submitted|
    ensures Unclaimed(submitted, j, ids) <= Unclaimed(submitted, i, ids)
  {
    if i < j {
      UnclaimedShrinks(submitted, i, j - 1, ids);
    }
  }

  /**
   * The ids left after `i` items are exactly the existing ids that none of
   * those items carries.
   */
  lemma {:induction false} UnclaimedIsUnseen(submitted: seq<InventoryItem>, i: nat, ids: set<int>, k: int)
    requires i <= |submitted|
    ensures k in Unclaimed(submitted, i, ids) <==> k in ids && forall j :: 0 <= j < i ==> submitted[j].id != Some(k)
  {
    if i > 0 {
      UnclaimedIsUnseen(submitted, i - 1, ids, k);
    }
  }

  /**
   * A submitted item is merged into an existing one exactly when an existing
   * item has its id and no earlier submitted item carries that id.
   */
  lemma MatchedIffFirst(submitted: seq<InventoryItem>, i: nat, ids: set<int>)
    requires i < |submitted|
    ensures Matched(submitted, i, ids) <==>
      submitted[i].id.Some? && submitted[i].id.value in ids && forall j :: 0 <= j < i ==> submitted[j].id != submitted[i].id
  {
    if submitted[i].id.Some? {
      UnclaimedIsUnseen(submitted, i, ids, submitted[i].id.value);
    }
  }

  /** An existing id is merged into at most once: two matched positions carry different ids. */
  lemma MatchedOnce(submitted: seq<InventoryItem>, ids: set<int>, i: nat, j: nat)
    requires i < j < |submitted|
    requires Matched(submitted, i, ids) && Matched(submitted, j, ids)
    ensures submitted[i].id != submitted[j].id
  {
    MatchedIffFirst(submitted, j, ids);
  }

  /** A repeated id matches the first time only; the later item is kept as a new one. */
  lemma RepeatedIdIsNew(submitted: seq<InventoryItem>, ids: set<int>, i: nat, j: nat)
    requires i < j < |submitted| && submitted[i].id == submitted[j].id
    ensures !Matched(submitted, j, ids)
  {
    MatchedIffFirst(submitted, j, ids);
  }

  /** The item the merge puts at position `i`: the matched existing item, or the submitted one. */
  function MergedAt(byId: map<int, InventoryItem>, submitted: seq<InventoryItem>, i: nat): (item: InventoryItem)
    requires i < |submitted| && KeyedItems(byId)
    ensures Matched(submitted, i, byId.Keys) ==> item in byId.Values && item.id == submitted[i].id
    ensures !Matched(submitted, i, byId.Keys) ==> item == submitted[i]
  {
    if Matched(submitted, i, byId.Keys) then
      var k := submitted[i].id.value;
      assert byId[k] in byId.Values;
      byId[k]
    else submitted[i]
  }

  /**
   * An existing item whose id no submitted item claimed is at no position of
   * the merged list: it drops out of the document.
   */
  lemma UnclaimedDropped(byId: map<int, InventoryItem>, submitted: seq<InventoryItem>, k: int, i: nat)
    requires KeyedItems(byId) && i < |submitted|
    requires forall j :: 0 <= j < |submitted| ==> submitted[j] !in byId.Values
    requires k in Unclaimed(submitted, |submitted|, byId.Keys)
    ensures MergedAt(byId, submitted, i) != byId[k]
  {
    if Matched(submitted, i, byId.Keys) {
      UnclaimedShrinks(submitted, i + 1, |submitted|, byId.Keys);
    }
  }

  /**
   * The state of the merge loop once the first `i` submitted items are done,
   * measured against the counts and documents the items had before the loop
   * (`sentCounts` for the submitted items, `counts` and `docs` for the
   * existing ones, by id): the map holds the unclaimed existing items, each
   * done position holds its merged item, a matched item carries its
   * submission's counts, a kept submission points at the document, and the
   * unclaimed existing items are as they were.
   */
  predicate MergeState(document: InventoryDocument, byId: map<int, InventoryItem>, submitted: seq<InventoryItem>,
                       i: nat, remaining: map<int, InventoryItem>, merged: seq<InventoryItem>,
                       sentCounts: seq<Counts>, counts: map<int, Counts>, docs: map<int, InventoryDocument?>)
    requires KeyedItems(byId)
    reads byId.Values, submitted, merged
  {
    i <= |submitted| == |sentCounts| && |merged| == i && counts.Keys == byId.Keys && docs.Keys == byId.Keys
    && remaining.Keys == Unclaimed(submitted, i, byId.Keys)
    && (forall k :: k in remaining ==> remaining[k] == byId[k])
    && (forall j :: 0 <= j < i ==> merged[j] == MergedAt(byId, submitted, j))
    && (forall j :: 0 <= j < |submitted| ==> submitted[j].Counted() == sentCounts[j])
    && (forall j :: 0 <= j < i && Matched(submitted, j, byId.Keys) ==> merged[j].Counted() == sentCounts[j])
    && (forall j :: 0 <= j < i && !Matched(submitted, j, byId.Keys) ==> submitted[j].document == document)
    && (forall k :: k in byId ==> byId[k].document == docs[k])
    && (forall k :: k in remaining ==> byId[k].Counted() == counts[k])
  }

  /**
   * One round of the merge loop, for the submitted item at `i`: if its id is
   * still in the map, the existing item takes its counts, goes into the list
   * and leaves the map; otherwise the submitted item is pointed at the
   * document and goes into the list.
   */
  method MergeOne(document: InventoryDocument, byId: map<int, InventoryItem>, submitted: seq<InventoryItem>,
                  i: nat, remaining: map<int, InventoryItem>, merged: seq<InventoryItem>,
                  ghost sentCounts: seq<Counts>, ghost counts: map<int, Counts>, ghost docs: map<int, InventoryDocument?>)
    returns (rest: map<int, InventoryItem>, extended: seq<InventoryItem>)
    requires KeyedItems(byId) && i < |submitted|
    requires forall j :: 0 <= j < |submitted| ==> submitted[j] !in byId.Values
    requires MergeState(document, byId, submitted, i, remaining, merged, sentCounts, counts, docs)
    modifies byId.Values, submitted
    ensures MergeState(document, byId, submitted, i + 1, rest, extended, sentCounts, counts, docs)
  {
    var update := submitted[i];
    if update.id.Some? && update.id.value in remaining {
      var k := update.id.value;
      var existing := remaining[k];
      assert existing == byId[k] && existing in byId.Values;
      existing.CopyCounts(update);
      extended := merged + [existing];
      rest := remaining - {k};
      forall j | 0 <= j < i && Matched(submitted, j, byId.Keys) ensures merged[j] != existing {
        UnclaimedShrinks(submitted, j + 1, i, byId.Keys);
      }
    } else {
      update.document := document;
      extended := merged + [update];
      rest := remaining;
      assert update.id.Some? ==> remaining.Keys - {update.id.value} == remaining.Keys;
    }
  }

  /**
   * What the merge loop leaves behind: each position of `merged` holds the
   * matched existing item, now with the submitted counts, or else the
   * submitted item, now pointing at `document`. Existing items keep their
   * document, and those no submission claimed keep their counts.
   */
  twostate predicate MergedInto(document: InventoryDocument, byId: map<int, InventoryItem>,
                                submitted: seq<InventoryItem>, new merged: seq<InventoryItem>)
    requires KeyedItems(byId)
    reads byId.Values, submitted, merged
  {
    |merged| == |submitted|
    && (forall j :: 0 <= j < |submitted| ==>
          merged[j] == MergedAt(byId, submitted, j) && merged[j].Counted() == old(submitted[j].Counted()))
    && (forall j :: 0 <= j < |submitted| && !Matched(submitted, j, byId.Keys) ==> submitted[j].document == document)
    && (forall k :: k in byId ==> byId[k].document == old(byId[k].document))
    && forall k :: k in Unclaimed(submitted, |submitted|, byId.Keys) ==> byId[k].Counted() == old(byId[k].Counted())
  }

  /** The merge loop of `updateInventoryDocument`, over the map `byId` of the existing items. */
  method MergeItems(document: InventoryDocument, byId: map<int, InventoryItem>, submitted: seq<InventoryItem>)
    returns (merged: seq<InventoryItem>)
    requires KeyedItems(byId)
    requires forall j :: 0 <= j < |submitted| ==> submitted[j] !in byId.Values
    modifies byId.Values, submitted
    ensures MergedInto(document, byId, submitted, merged)
  {
    ghost var sentCounts := seq(|submitted|, j requires 0 <= j < |submitted| reads submitted => submitted[j].Counted());
    ghost var counts := map k | k in byId :: byId[k].Counted();
    ghost var docs := map k | k in byId :: byId[k].document;
    var remaining := byId;
    merged := [];
    var i := 0;
    while i < |submitted|
      invariant i <= |submitted|
      invariant MergeState(document, byId, submitted, i, remaining, merged, sentCounts, counts, docs)
    {
      remaining, merged := MergeOne(document, byId, submitted, i, remaining, merged, sentCounts, counts, docs);
      i := i + 1;
    }
    forall j | 0 <= j < |submitted| ensures merged[j].Counted() == old(submitted[j].Counted()) {
      assert sentCounts[j] == old(submitted[j].Counted());
    }
  }

  /**
   * The writes of a successful `updateInventoryDocument` on the stored
   * document: the submitted number and date, then the merged item list.
   * Existing items with a null id, and existing items no submission claimed,
   * are left out of the new list and keep their counts.
   */
  method ApplyUpdate(stored: InventoryDocument, documentNumber: string, createdAt: Timestamp,
                     byId: map<int, InventoryItem>, submitted: seq<InventoryItem>)
    requires stored.items.Some? && KeyedItems(byId)
    requires forall k :: k in byId ==> byId[k] in stored.items.value
    requires forall x :: x in stored.items.value && x.id.Some? ==> x.id.value in byId && byId[x.id.value] == x
    requires forall j :: 0 <= j < |submitted| ==> submitted[j] !in stored.items.value
    modifies stored, byId.Values, submitted
    ensures stored.id == old(stored.id)
    ensures stored.documentNumber == documentNumber && stored.createdAt == createdAt && stored.items.Some?
    ensures MergedInto(stored, byId, submitted, stored.items.value)
    ensures forall x :: x in old(stored.items.value) && (x.id.None? || x.id.value in Unclaimed(submitted, |submitted|, byId.Keys)) ==>
      x !in stored.items.value && x.Counted() == old(x.Counted())
  {
    ghost var existing := stored.items.value;
    assert forall j :: 0 <= j < |submitted| ==> submitted[j] !in byId.Values by {
      forall j, k | 0 <= j < |submitted| && k in byId ensures submitted[j] != byId[k] {
        assert byId[k] in existing;
      }
    }
    stored.documentNumber := documentNumber;
    stored.createdAt := createdAt;
    label Merge:
    var merged := MergeItems(stored, byId, submitted);
    label Merged:
    stored.items := Some(merged);
    forall x | x in existing && (x.id.None? || x.id.value in Unclaimed(submitted, |submitted|, byId.Keys))
      ensures x !in merged && x.Counted() == old(x.Counted())
    {
      assert old@Merge(x.Counted()) == old(x.Counted());
      if x.id.Some? {
        assert x == byId[x.id.value];
        ghost var k := x.id.value;
        assert k in Unclaimed(submitted, |submitted|, byId.Keys);
        assert old@Merged(byId[k].Counted()) == old@Merge(byId[k].Counted());
        forall i | 0 <= i < |submitted| ensures merged[i] != x {
          UnclaimedDropped(byId, submitted, x.id.value, i);
        }
      } else {
        forall k | k in byId ensures byId[k] != x {}
        assert x !in submitted;
      }
      assert x.Counted() == old@Merge(x.Counted());
    }
  }

  /** The inventory service over the stored documents and the product table. */
  class InventoryService {
    var documents: map<int, InventoryDocument>
    var nextId: int
    const products: seq<Product>

    /** Every stored document is stored under its own id, and the next id is unused. */
    predicate Valid()
      reads this, documents.Values
    {
      forall k :: k in documents ==> k < nextId && documents[k].id == Some(k)
    }

    constructor (products: seq<Product>)
      ensures Valid() && documents == map[] && this.products == products
    {
      documents := map[];
      nextId := 0;
      this.products := products;
    }

    /** `isDocumentExists`: a stored document has this number and date. */
    predicate IsDocumentExists(key: DocKey)
      reads this, documents.Values
    {
      exists k :: k in documents && documents[k].Key() == key
    }

    /**
     * `createInventoryDocument`: refuse a taken number and date, then an empty
     * item list; otherwise save the document under a new id and point every
     * item at it.
     */
    method CreateInventoryDocument(document: InventoryDocument) returns (r: Result<InventoryDocument>)
      requires Valid()
      modifies this, document, if document.items.Some? then Elements(document.items.value) else {}
      ensures Valid()
      ensures old(IsDocumentExists(document.Key())) ==>
        r == Err(DuplicateDocument) && documents == old(documents) && unchanged(document)
      ensures !old(IsDocumentExists(document.Key())) && (old(document.items).None? || old(document.items) == Some([])) ==>
        r == Err(EmptyDocument) && documents == old(documents) && unchanged(document)
      ensures r.Ok? ==>
        r.value == document && document.items == old(document.items) && document.items.Some?
        && documents == old(documents)[old(nextId) := document] && document.id == Some(old(nextId))
        && document.Key() == old(document.Key())
        && forall x :: x in document.items.value ==> x.document == document && x.Counted() == old(x.Counted())
      ensures r.Ok? <==> !old(IsDocumentExists(document.Key())) && old(document.items).Some? && old(document.items) != Some([])
    {
      if exists k :: k in documents && documents[k].Key() == document.Key() {
        return Err(DuplicateDocument);
      }
      if document.items.None? || document.items.value == [] {
        return Err(EmptyDocument);
      }
      var id := nextId;
      document.id := Some(id);
      documents := documents[id := document];
      nextId := nextId + 1;
      var items := document.items.value;
      var i := 0;
      while i < |items|
        invariant 0 <= i <= |items|
        invariant document.items == Some(items) && document.id == Some(id) && document.Key() == old(document.Key())
        invariant documents == old(documents)[id := document] && nextId == id + 1
        invariant forall j :: 0 <= j < i ==> items[j].document == document
        invariant forall x :: x in items ==> x.Counted() == old(x.Counted())
      {
        items[i].document := document;
        i := i + 1;
      }
      r := Ok(document);
    }

    /**
     * `fillDocumentWithItems`: replace the document's items by one new item per
     * product in stock, in table order. No other check is made.
     */
    method FillDocumentWithItems(document: InventoryDocument) returns (r: InventoryDocument)
      modifies document
      ensures r == document && document.Key() == old(document.Key()) && document.id == old(document.id)
      ensures document.items.Some? && |document.items.value| == |InStock(products)|
      ensures forall i :: 0 <= i < |document.items.value| ==>
        fresh(document.items.value[i]) && FilledItem(document.items.value[i], InStock(products)[i], document)
    {
      var available := InStock(products);
      var items: seq<InventoryItem> := [];
      var i := 0;
      while i < |available|
        invariant 0 <= i <= |available| && |items| == i && unchanged(document)
        invariant forall j :: 0 <= j < i ==> fresh(items[j]) && FilledItem(items[j], available[j], document)
      {
        var product := available[i];
        var item := new InventoryItem(None, document, Some(product), product.quantity, 0, product.quantity);
        items := items + [item];
        i := i + 1;
      }
      document.items := Some(items);
      r := document;
    }

    /**
     * `updateInventoryDocument`: find the stored document by the submitted id,
     * overwrite its number and date, and replace its items by the merge of the
     * submitted items into them. The submitted document and its items come from
     * the request, so none of them is stored. A null item list on either side
     * and a repeated id among the stored items throw, and the transaction then
     * leaves everything as it was.
     */
    method UpdateInventoryDocument(submitted: InventoryDocument) returns (r: Result<InventoryDocument>)
      requires Valid()
      requires submitted !in documents.Values
      requires submitted.id.Some? && submitted.id.value in documents && documents[submitted.id.value].items.Some?
               && submitted.items.Some? ==>
        Elements(documents[submitted.id.value].items.value) !! Elements(submitted.items.value)
      modifies if submitted.id.Some? && submitted.id.value in documents then
                 {documents[submitted.id.value]}
                 + (if documents[submitted.id.value].items.Some? then Elements(documents[submitted.id.value].items.value) else {})
                 + (if submitted.items.Some? then Elements(submitted.items.value) else {})
               else {}
      ensures Valid() && documents == old(documents)
      ensures submitted.id.None? || submitted.id.value !in documents ==> r == Err(DocumentNotFound)
      ensures r.Err? ==> forall k :: k in documents ==> unchanged(documents[k])
      ensures r.Ok? <==>
        submitted.id.Some? && submitted.id.value in documents
        && old(documents[submitted.id.value].items).Some? && ToMap(old(documents[submitted.id.value].items).value).Ok?
        && submitted.items.Some?
      ensures r.Ok? ==>
        r.value == documents[submitted.id.value] && r.value.id == old(r.value.id)
        && r.value.documentNumber == submitted.documentNumber && r.value.createdAt == submitted.createdAt
        && r.value.items.Some?
        && MergedInto(r.value, ToMap(old(r.value.items).value).value, submitted.items.value, r.value.items.value)
      ensures r.Ok? ==>
        var existing, merged := old(r.value.items).value, r.value.items.value;
        var byId, sent := ToMap(existing).value, submitted.items.value;
        forall x :: x in existing && (x.id.None? || x.id.value in Unclaimed(sent, |sent|, byId.Keys)) ==>
          x !in merged && x.Counted() == old(x.Counted())
    {
      if submitted.id.None? || submitted.id.value !in documents {
        return Err(DocumentNotFound);
      }
      var stored := documents[submitted.id.value];
      if stored.items.None? {
        return Err(MissingItemList);
      }
      var existing := stored.items.value;
      var byIdOrError := ToMap(existing);
      if byIdOrError.Err? {
        return Err(byIdOrError.error);
      }
      if submitted.items.None? {
        return Err(MissingItemList);
      }
      var byId, sent := byIdOrError.value, submitted.items.value;
      assert forall j :: 0 <= j < |sent| ==> sent[j] !in existing by {
        forall j | 0 <= j < |sent| ensures sent[j] !in existing {
          assert sent[j] in Elements(sent);
        }
      }
      ApplyUpdate(stored, submitted.documentNumber, submitted.createdAt, byId, sent);
      r := Ok(stored);
    }
  }
}
