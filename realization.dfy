/**
 * Realization (sale) documents: a first pass checks every line against the
 * stored product table, and only if every line passes does a second pass
 * write each line's product back with its quantity reduced.
 *
 * The two passes read different things. The check looks the product up in
 * the table; the write-off starts from the product object the line itself
 * carries, as the client sent it, and saves that object over the stored row.
 */
module Realization {
  import opened Common
  import opened Catalog

  /** A line of a realization document: the product it carries and the quantity sold. */
  datatype RealizationItem = RealizationItem(product: Product, quantity: int)

  datatype RealizationDocument = RealizationDocument(
    documentNumber: string,
    createdAt: Timestamp,
    items: seq<RealizationItem>)

  /** `isEnoughProductAvailable`: a missing product is never enough. */
  predicate IsEnoughProductAvailable(products: map<int, Product>, productId: int, quantity: int)
  {
    productId in products && products[productId].quantity >= quantity
  }

  predicate ItemAvailable(products: map<int, Product>, item: RealizationItem)
  {
    IsEnoughProductAvailable(products, item.product.id, item.quantity)
  }

  /**
   * The first pass: the index of the first line that fails the check, if any.
   * Every line is checked against the same table, so the lines of one
   * product are not added up.
   */
  function FirstShortfall(products: map<int, Product>, items: seq<RealizationItem>): (r: Option<nat>)
    ensures r.None? <==> forall i :: 0 <= i < |items| ==> ItemAvailable(products, items[i])
    ensures r.Some? ==>
      r.value < |items| && !ItemAvailable(products, items[r.value])
      && forall j :: 0 <= j < r.value ==> ItemAvailable(products, items[j])
  {
    if items == [] then None
    else if !ItemAvailable(products, items[0]) then Some(0)
    else
      match FirstShortfall(products, items[1..])
      case None => None
      case Some(k) => Some(k + 1)
  }

  /** The row the second pass saves for one line: the carried product with the line's quantity taken off. */
  function Debited(item: RealizationItem): Product
  {
    item.product.(quantity := item.product.quantity - item.quantity)
  }

  /** The product table after the second pass: the lines are saved one after another, in order. */
  function WrittenBack(products: map<int, Product>, items: seq<RealizationItem>): (written: map<int, Product>)
    ensures products.Keys <= written.Keys
    ensures forall i :: 0 <= i < |items| ==> items[i].product.id in written
  {
    if items == [] then products
    else
      var last := items[|items| - 1];
      WrittenBack(products, items[..|items| - 1])[last.product.id := Debited(last)]
  }

  predicate Mentions(items: seq<RealizationItem>, productId: int)
  {
    exists i :: 0 <= i < |items| && items[i].product.id == productId
  }

  /**
   * The second pass adds no product the first pass did not find and touches no
   * product that no line names.
   */
  lemma {:induction false} WrittenBackFrame(products: map<int, Product>, items: seq<RealizationItem>)
    requires forall i :: 0 <= i < |items| ==> ItemAvailable(products, items[i])
    ensures WrittenBack(products, items).Keys == products.Keys
    ensures forall id :: id in products && !Mentions(items, id) ==> WrittenBack(products, items)[id] == products[id]
  {
    if items != [] {
      var init := items[..|items| - 1];
      assert forall i :: 0 <= i < |init| ==> init[i] == items[i];
      WrittenBackFrame(products, init);
    }
  }

  /** A named product ends as the last of its lines leaves it: the last save wins. */
  lemma {:induction false} WrittenBackLastLine(products: map<int, Product>, items: seq<RealizationItem>, k: int)
    requires 0 <= k < |items|
    requires forall j :: k < j < |items| ==> items[j].product.id != items[k].product.id
    ensures WrittenBack(products, items)[items[k].product.id] == Debited(items[k])
  {
    var n := |items|;
    if k < n - 1 {
      var init := items[..n - 1];
      assert forall j :: k < j < |init| ==> init[j] == items[j];
      WrittenBackLastLine(products, init, k);
    }
  }

  /**
   * When every line carries the product exactly as stored and each product
   * appears on one line only, the second pass takes each line's quantity off
   * its stored product, and after a passing check nothing goes below zero.
   */
  lemma Unaliased(products: map<int, Product>, items: seq<RealizationItem>)
    requires forall i :: 0 <= i < |items| ==> ItemAvailable(products, items[i])
    requires forall i :: 0 <= i < |items| ==>
      items[i].product.id in products && items[i].product == products[items[i].product.id]
    requires forall i, j :: 0 <= i < j < |items| ==> items[i].product.id != items[j].product.id
    ensures forall i :: 0 <= i < |items| ==>
      var id := items[i].product.id;
      WrittenBack(products, items)[id] == products[id].(quantity := products[id].quantity - items[i].quantity)
      && WrittenBack(products, items)[id].quantity >= 0
  {
    forall i | 0 <= i < |items|
      ensures WrittenBack(products, items)[items[i].product.id] == Debited(items[i])
    {
      WrittenBackLastLine(products, items, i);
    }
  }

  /**
   * Two lines of 3 against 5 in stock both pass the check, which does not add
   * them up, and the product ends at 2: each line saves its own copy of the
   * product, so the second save overwrites the first.
   */
  lemma RepeatedProductLastSaveWins()
    ensures var nail := Product(1, "nail", None, None, 5);
      var items := [RealizationItem(nail, 3), RealizationItem(nail, 3)];
      FirstShortfall(map[1 := nail], items).None?
      && WrittenBack(map[1 := nail], items)[1].quantity == 2
  {
    var nail := Product(1, "nail", None, None, 5);
    var items := [RealizationItem(nail, 3), RealizationItem(nail, 3)];
    assert items[..1] == [items[0]];
    assert items[..1][..0] == [];
  }

  /** The realization service over the product table and the saved documents. */
  class RealizationService {
    var products: map<int, Product>
    var documents: seq<RealizationDocument>

    constructor (products: map<int, Product>)
      ensures this.products == products && documents == []
    {
      this.products := products;
      documents := [];
    }

    /**
     * `createRealizationDocument`: check every line, fail at the first line
     * that is not covered (naming its product) with nothing written, and
     * otherwise save every line's product, then the document.
     */
    method CreateRealizationDocument(document: RealizationDocument) returns (r: Result<RealizationDocument>)
      modifies this
      ensures var f := FirstShortfall(old(products), document.items);
        f.Some? ==> r == Err(NotEnoughForRealization(document.items[f.value].product.id))
                    && products == old(products) && documents == old(documents)
      ensures FirstShortfall(old(products), document.items).None? ==>
        r == Ok(document) && products == WrittenBack(old(products), document.items)
        && documents == old(documents) + [document]
    {
      var items := document.items;
      var i := 0;
      while i < |items|
        invariant 0 <= i <= |items|
        invariant forall j :: 0 <= j < i ==> ItemAvailable(products, items[j])
      {
        var productId := items[i].product.id;
        if !IsEnoughProductAvailable(products, productId, items[i].quantity) {
          r := Err(NotEnoughForRealization(productId));
          return;
        }
        i := i + 1;
      }
      ghost var before := products;
      i := 0;
      while i < |items|
        invariant 0 <= i <= |items|
        invariant products == WrittenBack(before, items[..i])
        invariant documents == old(documents)
      {
        assert items[..i + 1][..i] == items[..i];
        var product := items[i].product;
        products := products[product.id := product.(quantity := product.quantity - items[i].quantity)];
        i := i + 1;
      }
      assert items[..|items|] == items;
      documents := documents + [document];
      r := Ok(document);
    }
  }
}
