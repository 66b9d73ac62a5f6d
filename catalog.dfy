/**
 * The reference books the stock movements work against: products, and the
 * warehouse tree of warehouses, shelves and bins.
 */
module Catalog {
  import opened Common

  /**
   * A product row. The services reach a product only through its id, so the
   * product table is a `map<int, Product>` and changing a product's quantity
   * is a map update.
   */
  datatype Product = Product(
    id: int,
    name: string,
    sku: Option<string>,
    category: Option<string>,
    quantity: int)

  /** Every product is stored under its own id, as `Collectors.toMap(Product::getId, …)` builds it. */
  predicate KeyedById(products: map<int, Product>)
  {
    forall id :: id in products ==> products[id].id == id
  }

  /** A warehouse; its shelf list is filled in after the warehouse object exists. */
  class Warehouse {
    const warehouseId: Option<string>
    const warehouseName: Option<string>
    var shelves: seq<Shelf>

    constructor (warehouseId: Option<string>, warehouseName: Option<string>)
      ensures this.warehouseId == warehouseId && this.warehouseName == warehouseName
      ensures shelves == []
    {
      this.warehouseId := warehouseId;
      this.warehouseName := warehouseName;
      shelves := [];
    }
  }

  /** A shelf, with a back-reference to its warehouse (nullable in the schema). */
  class Shelf {
    const shelfId: Option<string>
    const shelfName: Option<string>
    const warehouse: Warehouse?
    var bins: seq<Bin>

    constructor (shelfId: Option<string>, shelfName: Option<string>, warehouse: Warehouse?)
      ensures this.shelfId == shelfId && this.shelfName == shelfName && this.warehouse == warehouse
      ensures bins == []
    {
      this.shelfId := shelfId;
      this.shelfName := shelfName;
      this.warehouse := warehouse;
      bins := [];
    }
  }

  /** A storage bin, with a back-reference to its shelf. */
  class Bin {
    const binId: Option<string>
    const binName: Option<string>
    const qrCode: Option<string>
    const shelf: Shelf?

    constructor (binId: Option<string>, binName: Option<string>, qrCode: Option<string>, shelf: Shelf?)
      ensures this.binId == binId && this.binName == binName && this.qrCode == qrCode && this.shelf == shelf
    {
      this.binId := binId;
      this.binName := binName;
      this.qrCode := qrCode;
      this.shelf := shelf;
    }
  }

  /** Every bin is stored under its own string id. */
  predicate BinsKeyedById(bins: map<string, Bin>)
  {
    forall b :: b in bins ==> bins[b].binId == Some(b)
  }
}
