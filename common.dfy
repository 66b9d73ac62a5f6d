/**
 * Value types shared by every service of the warehouse-accounting core:
 * an optional value (Java's nullable references), the result of an operation
 * that can fail with one of the services' named errors, document identity.
 */
module Common {

  /** A nullable Java reference: `None` stands for `null`. */
  datatype Option<T> = None | Some(value: T)

  /** The outcome of a service call: a value, or the exception it throws. */
  datatype Result<T> = Ok(value: T) | Err(error: Error)

  /**
   * The failures the services raise. Most are `IllegalArgumentException`s in
   * the source, told apart there only by their message; the payload is the id
   * or name that message contains.
   */
  datatype Error =
    | DuplicateDocument                      // a document with this number and date already exists
    | EmptyDocument                          // a document without items cannot be created
    | WarehouseNotFound(warehouseId: string) // the document's warehouseId names no warehouse
    | ProductNotFound(productId: int)
    | BinNotFound(binId: Option<string>)
    | ShelfNotFound(binId: Option<string>)
    | InsufficientStock(productName: string)
    | ResponseMappingFailed                  // the saved document has no warehouse to put in the response
    | DocumentNotFound
    | MissingItemList                        // dereferencing a document whose item list is null
    | DuplicateItemId                        // `Collectors.toMap` meets two items with one id (IllegalStateException)
    | NotEnoughForRealization(productId: int)
    | NullWarehouseDto
    | WarehouseNameRequired
    | WarehouseAlreadyExists                 // an IllegalStateException in the source
    | ShelfNameRequired
    | BinNameRequired

  /** `LocalDateTime`: the services only ever compare two of them for equality. */
  datatype Timestamp = Timestamp(epochSecond: int)

  /** The (documentNumber, createdAt) pair that must be unique among documents of one kind. */
  datatype DocKey = DocKey(documentNumber: string, createdAt: Timestamp)

  /**
   * The two checks every document-creating service makes before anything else,
   * in this order: the (number, date) pair is new, and the item list is neither
   * null nor empty. `duplicate` is the document repository's answer.
   */
  function CheckNewDocument<T>(duplicate: bool, items: Option<seq<T>>): (r: Option<Error>)
    ensures r.None? <==> !duplicate && items.Some? && items.value != []
    ensures duplicate ==> r == Some(DuplicateDocument)
    ensures !duplicate && r.Some? ==> r == Some(EmptyDocument)
  {
    if duplicate then Some(DuplicateDocument)
    else if items.None? || items.value == [] then Some(EmptyDocument)
    else None
  }
}
