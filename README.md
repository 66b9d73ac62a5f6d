# Warehouse accounting core in Dafny

This project models the in-memory rules of a small warehouse accounting
service (a Spring application over a relational database). The modelled
parts are:

- **Incoming and outgoing documents.** A receipt or write-off document is
  validated: its (number, date) pair must be new and it must have lines. Its
  products and bins are loaded, and its lines are processed in order.
  - A receipt adds every line's quantity to its product and checks no bound.
  - A write-off refuses a line that asks for more than the product still
    holds, after the earlier lines have been taken out.
  - Every line then gets a stock ledger row. The code first looks for a row
    stored under the line's `product_bin_document` key and creates a new row
    when there is none. The outgoing service would debit a row it found; the
    incoming service would return it unchanged.
  - In the program that lookup never finds a row (see "Left out"), so every
    line gets a new row of its own. The model keeps the looked-up rows as a
    parameter and states both branches. With no pre-loaded rows its contract
    gives one fresh row per line.
- **Inventory documents.**
  - Creation: the same two checks, then every item points back at the saved
    document.
  - Filling: one fresh item per product in stock, in table order.
  - Update: the submitted items are merged by id into the stored ones. The
    merge uses a map from which matched ids are removed. A stored item whose
    id is never claimed drops out of the document. A repeated submitted id is
    treated as a new item the second time.
- **Realization (sale) documents.** Every line is first checked against the
  stored product table, without adding up lines of one product. Only then is
  every line's carried product saved with its quantity reduced, so the last
  save of a product wins.
- **Warehouse creation.** The warehouse, its shelves and their bins are
  checked in order: null description, blank name, taken id, then per shelf
  its name and its bins' names. The nested structure is built with
  back-references and nothing is saved on a failure.
- **Account rules of the authentication controller.**
  - Role normalisation: upper-case the role and prefix `ROLE_`; a missing
    role becomes `ROLE_USER`.
  - The guard order of registration, update and deletion.
  - Partial update: only the fields that were sent change.

Modules:

| module | file | content |
|---|---|---|
| `Common` | common.dfy | `Option`, `Result`, the error kinds, the document key, the shared document checks |
| `Catalog` | catalog.dfy | products (values) and the warehouse → shelf → bin classes |
| `Movement` | movement.dfy | what receipts and write-offs share: lines, loaders, line resolution, stock rows and their keys |
| `Incoming`, `Outgoing` | incoming.dfy, outgoing.dfy | the two movement services |
| `Inventory` | inventory.dfy | inventory items and documents, the id merge, the inventory service |
| `Realization` | realization.dfy | the two-pass write-off |
| `WarehouseTree` | warehouse.dfy | warehouse validation and tree construction |
| `Auth` | auth.dfy | role normalisation and the account handlers |

How the model is organised:

- Products are values in a `map<int, Product>`. The services reach a product
  only through its id, so an update of the product object held by the map is
  a map update.
- Stock rows, inventory items and documents, warehouses, shelves, bins and
  accounts are classes. The source updates their fields in place, and one
  stock row object can appear several times in a result list.
- Every processing loop of the source is a method with a loop. Each such
  method is tied to a recursive function, for example the left fold `Issued`
  for `processOutgoingItems`. That function is in turn characterised by
  lemmas against an independent reference definition, such as "every line is
  issuable in turn" and "initial quantity less the sum of the lines".

Source paths below are relative to the repository root.

## Model

| member | source | states |
|---|---|---|
| `Common.CheckNewDocument` | src/main/java/rest_api_warehouse_accounting/service/OutgoingService.java:102-110 | validation passes exactly when the (number, date) pair is new and the item list is non-null and non-empty; a duplicate is reported before an empty list |
| `Movement.LoadProducts` | src/main/java/rest_api_warehouse_accounting/service/OutgoingService.java:131-138 | a line's product is in the loaded map exactly when the table has it, with the table's value; nothing that no line names is loaded |
| `Movement.LoadBins` | src/main/java/rest_api_warehouse_accounting/service/OutgoingService.java:147-155 | a line's bin is loaded exactly when its id is non-null, the bin exists and it stands on a shelf (the query joins the shelf); loaded bins are the repository's, so a repository keyed by bin id gives a map keyed by bin id as `toMap(Bin::getBinId, …)` builds it |
| `Movement.ResolveLine` | src/main/java/rest_api_warehouse_accounting/service/OutgoingService.java:175-189 | the lookups run product, bin, shelf; each failure names the missing id; success exactly when all three are found, returning the stored product, the bin and its shelf |
| `Movement.LoadedBinMissing` | src/main/java/rest_api_warehouse_accounting/service/IncomingService.java:143-151 | through the loaders, a null bin id, an unknown bin and a bin without a shelf all fail alike as "bin not found" |
| `Movement.ResolvesIgnoresQuantities` | src/main/java/rest_api_warehouse_accounting/service/OutgoingService.java:175-189 | whether a line resolves, and the error it fails with, does not depend on product quantities |
| `Movement.ItemFor` | src/main/java/rest_api_warehouse_accounting/mappers/OutgoingDocumentMapper.java:96-98 | the item built for a line carries the line's product and quantity, the resolved bin and that bin's shelf |
| `Movement.QuantityForUnreferenced` | src/main/java/rest_api_warehouse_accounting/service/OutgoingService.java:173-201 | a product that no line names moves by zero |
| `Outgoing.ProcessOutgoingItems` | src/main/java/rest_api_warehouse_accounting/service/OutgoingService.java:167-202 | the loop over the lines returns exactly the left fold `Issued`: each line is checked and debited against the map the earlier lines left, stopping at the first failure |
| `Outgoing.IssuedErrorPersists` | src/main/java/rest_api_warehouse_accounting/service/OutgoingService.java:173-201 | once a prefix of the lines fails, the document fails with that same error |
| `Outgoing.DebitedSnoc` | src/main/java/rest_api_warehouse_accounting/service/OutgoingService.java:195 | one more line changes only its own product, by its own quantity |
| `Outgoing.DebitedSameProducts` | src/main/java/rest_api_warehouse_accounting/service/OutgoingService.java:192-195 | debiting changes quantities only: the same product ids with the same names and other fields |
| `Outgoing.PrefixIssuable` | src/main/java/rest_api_warehouse_accounting/service/OutgoingService.java:173-201 | whether a line can be issued does not depend on later lines |
| `Outgoing.LastLineAfterDebit` | src/main/java/rest_api_warehouse_accounting/service/OutgoingService.java:175-199 | the last line, against the map the earlier lines left, passes exactly when it is issuable; it then leaves the fully debited map and builds its item, and otherwise fails with its own error |
| `Outgoing.IssuedCharacterized` | src/main/java/rest_api_warehouse_accounting/service/OutgoingService.java:173-201 | a write-off goes through exactly when every line resolves and its product still holds the line's quantity after the earlier lines; each product then ends at its initial quantity less the sum of its lines, and item i is built from line i |
| `Outgoing.IssuedFailure` | src/main/java/rest_api_warehouse_accounting/service/OutgoingService.java:178-194 | a refused write-off is refused at its first line that cannot be issued, with that line's lookup error or "insufficient stock" naming the product |
| `Outgoing.IssuedNonNegative` | src/main/java/rest_api_warehouse_accounting/service/OutgoingService.java:192-195 | after a successful write-off no product a line names is below zero |
| `Outgoing.IssuedLeavesUnreferenced` | src/main/java/rest_api_warehouse_accounting/service/OutgoingService.java:173-201 | no product is added or dropped, and products no line names are untouched |
| `Outgoing.SecondLineSeesFirstDebit` | src/main/java/rest_api_warehouse_accounting/service/OutgoingService.java:192-195 | with 5 in stock, two lines of 3 for one product fail on the second line although each passes alone |
| `Outgoing.IssueRow` | src/main/java/rest_api_warehouse_accounting/service/OutgoingService.java:245-258 | a line with a pre-loaded row under its key gets that row, which loses the line's quantity while no other row changes; otherwise it gets a fresh row with the negated quantity and the document as outgoing reference |
| `Outgoing.RemainingSnoc` | src/main/java/rest_api_warehouse_accounting/service/OutgoingService.java:240-259 | taking one more line off the pre-loaded quantities debits only the row under that line's key |
| `Outgoing.IssuedPrefixSnoc` | src/main/java/rest_api_warehouse_accounting/service/OutgoingService.java:240-259 | appending the row made for the next line extends the rows described so far by one |
| `Outgoing.IssueNext` | src/main/java/rest_api_warehouse_accounting/service/OutgoingService.java:240-259 | one loop round keeps the loop state: one row per processed line, debited pre-loaded rows, new rows distinct and not pre-loaded |
| `Outgoing.UpdateOutgoingStockLevels` | src/main/java/rest_api_warehouse_accounting/service/OutgoingService.java:214-262 | one row per line in line order; a pre-loaded row is returned for its key and ends at its old quantity less the sum of the lines under that key; other lines get fresh rows with quantity −q and the document as outgoing reference, two such lines never sharing a row |
| `Outgoing.OutgoingOutcome` | src/main/java/rest_api_warehouse_accounting/service/OutgoingService.java:65-94 | a duplicate is refused first, then an empty document; an accepted document has the submitted key and the named, known warehouse |
| `Outgoing.OutgoingAccepted` | src/main/java/rest_api_warehouse_accounting/service/OutgoingService.java:65-94 | a write-off is accepted exactly when it is new, has lines, names a known warehouse and every line is issuable in turn against the loaded products and bins |
| `Outgoing.OutgoingUnfold` | src/main/java/rest_api_warehouse_accounting/service/OutgoingService.java:74-81 | an accepted write-off is the fold over its lines against the loaded products and bins, written back over the product table |
| `Outgoing.StoreAfterIssue` | src/main/java/rest_api_warehouse_accounting/service/OutgoingService.java:74-90 | writing the debited loaded products back leaves the same product ids, each at its initial quantity less the sum of its lines, none that a line names below zero |
| `Outgoing.OutgoingSettled` | src/main/java/rest_api_warehouse_accounting/service/OutgoingService.java:65-94 | after an accepted write-off each product is at its initial quantity less the sum of its lines, and no named product is negative |
| `Outgoing.OutgoingItems` | src/main/java/rest_api_warehouse_accounting/service/OutgoingService.java:78-81 | an accepted write-off holds one item per line, built from that line's product, bin and shelf |
| `Outgoing.BuildOutgoing` | src/main/java/rest_api_warehouse_accounting/service/OutgoingService.java:65-81 | the steps in the source's order compute exactly `OutgoingOutcome` |
| `Outgoing.OutgoingService.CreateOutgoingDocument` | src/main/java/rest_api_warehouse_accounting/service/OutgoingService.java:65-94 | on a refusal nothing changes (products, documents, ledger, pre-loaded rows); on success the products are the debited table, the document is appended, and the ledger gains exactly the rows described by `IssuedRows` |
| `Outgoing.OutgoingService.Commit` | src/main/java/rest_api_warehouse_accounting/service/OutgoingService.java:84-90 | the writes of an accepted write-off: the stock rows, the saved document, the products written back and the rows saved |
| `Incoming.ReceivedErrorPersists` | src/main/java/rest_api_warehouse_accounting/service/IncomingService.java:169-197 | once a prefix of the lines fails, the receipt fails with that same error |
| `Incoming.CreditedSnoc` | src/main/java/rest_api_warehouse_accounting/service/IncomingService.java:188 | one more line changes only its own product, by its own quantity |
| `Incoming.CreditedSameProducts` | src/main/java/rest_api_warehouse_accounting/service/IncomingService.java:188 | crediting changes quantities only: the same product ids with the same names and other fields |
| `Incoming.LastLineAfterCredit` | src/main/java/rest_api_warehouse_accounting/service/IncomingService.java:171-191 | the last line passes exactly when it resolves; it then leaves the fully credited map and builds its item, and otherwise fails with its lookup's error |
| `Incoming.ReceivedCharacterized` | src/main/java/rest_api_warehouse_accounting/service/IncomingService.java:169-197 | a receipt goes through exactly when every line resolves, whatever the quantities; each product then ends at its initial quantity plus the sum of its lines, and item i is built from line i |
| `Incoming.ReceivedFailure` | src/main/java/rest_api_warehouse_accounting/service/IncomingService.java:171-185 | a refused receipt is refused at its first line that does not resolve, with that line's lookup error |
| `Incoming.ProcessIncomingItems` | src/main/java/rest_api_warehouse_accounting/service/IncomingService.java:163-198 | the loop over the lines returns exactly the left fold `Received` |
| `Incoming.UpdateIncomingStockLevels` | src/main/java/rest_api_warehouse_accounting/service/IncomingService.java:211-259 | one row per line in line order; a pre-loaded row is returned for its key with its quantity untouched (the method changes no existing object); other lines get fresh rows with quantity +q and the document as incoming reference, two such lines never sharing a row |
| `Incoming.IncomingOutcome` | src/main/java/rest_api_warehouse_accounting/service/IncomingService.java:60-89 | a duplicate is refused first, then an empty document; an accepted document has the submitted key and the named, known warehouse |
| `Incoming.IncomingAccepted` | src/main/java/rest_api_warehouse_accounting/service/IncomingService.java:60-89 | a receipt is accepted exactly when it is new, has lines, names a known warehouse and every line resolves against the loaded products and bins |
| `Incoming.IncomingUnfold` | src/main/java/rest_api_warehouse_accounting/service/IncomingService.java:69-76 | an accepted receipt is the fold over its lines against the loaded products and bins, written back over the product table |
| `Incoming.StoreAfterReceipt` | src/main/java/rest_api_warehouse_accounting/service/IncomingService.java:69-85 | writing the credited loaded products back leaves the same product ids, each at its initial quantity plus the sum of its lines |
| `Incoming.IncomingSettled` | src/main/java/rest_api_warehouse_accounting/service/IncomingService.java:60-89 | after an accepted receipt each product is at its initial quantity plus the sum of its lines |
| `Incoming.IncomingItems` | src/main/java/rest_api_warehouse_accounting/service/IncomingService.java:73-76 | an accepted receipt holds one item per line, built from that line's product, bin and shelf |
| `Incoming.BuildIncoming` | src/main/java/rest_api_warehouse_accounting/service/IncomingService.java:60-76 | the steps in the source's order compute exactly `IncomingOutcome` |
| `Incoming.IncomingService.CreateIncomingDocument` | src/main/java/rest_api_warehouse_accounting/service/IncomingService.java:60-89 | on a refusal nothing changes; on success the products are the credited table, the document is appended and the ledger gains exactly the rows described by `ReceivedRows` |
| `Incoming.IncomingService.Commit` | src/main/java/rest_api_warehouse_accounting/service/IncomingService.java:78-85 | the writes of an accepted receipt: the stock rows, the saved document, the products written back and the rows saved |
| `Inventory.InventoryItem.CopyCounts` | src/main/java/rest_api_warehouse_accounting/service/InventoryService.java:173-177 | an existing item takes the submitted plan, fact, deviation and product and keeps its document |
| `Inventory.InStock` | src/main/java/rest_api_warehouse_accounting/service/InventoryService.java:111 | a product is among those in stock exactly when it is in the table with quantity above zero |
| `Inventory.InStockAllPositive` | src/main/java/rest_api_warehouse_accounting/service/InventoryService.java:111 | the filter keeps a table in which every product is in stock unchanged, order included |
| `Inventory.ToMap` | src/main/java/rest_api_warehouse_accounting/service/InventoryService.java:158-160 | the map of the stored items holds each item with a non-null id under that id and nothing else; a repeated id makes the collection fail |
| `Inventory.ToMapOkIffUnique` | src/main/java/rest_api_warehouse_accounting/service/InventoryService.java:158-160 | the map is built exactly when no two stored items share a non-null id |
| `Inventory.UniqueIdsSnoc` | src/main/java/rest_api_warehouse_accounting/service/InventoryService.java:158-160 | ids stay unique after one more item exactly when its id is null or new |
| `Inventory.Unclaimed` | src/main/java/rest_api_warehouse_accounting/service/InventoryService.java:166-194 | the ids left in the update's map are a subset of the stored ids |
| `Inventory.UnclaimedShrinks` | src/main/java/rest_api_warehouse_accounting/service/InventoryService.java:181 | the update's map only ever loses ids |
| `Inventory.UnclaimedIsUnseen` | src/main/java/rest_api_warehouse_accounting/service/InventoryService.java:166-194 | an id is still in the map after i submitted items exactly when it is stored and none of those items carries it |
| `Inventory.MatchedIffFirst` | src/main/java/rest_api_warehouse_accounting/service/InventoryService.java:167-181 | a submitted item is merged into a stored one exactly when its id is non-null, stored, and carried by no earlier submitted item |
| `Inventory.MatchedOnce` | src/main/java/rest_api_warehouse_accounting/service/InventoryService.java:179-181 | a stored item is merged into at most once |
| `Inventory.RepeatedIdIsNew` | src/main/java/rest_api_warehouse_accounting/service/InventoryService.java:182-188 | the second submitted item with an id is kept as a new item, not merged |
| `Inventory.MergedAt` | src/main/java/rest_api_warehouse_accounting/service/InventoryService.java:166-194 | a matched position holds the stored item with the submitted id, any other the submitted item itself |
| `Inventory.UnclaimedDropped` | src/main/java/rest_api_warehouse_accounting/service/InventoryService.java:196-205 | a stored item whose id no submitted item claimed is at no position of the merged list |
| `Inventory.MergeOne` | src/main/java/rest_api_warehouse_accounting/service/InventoryService.java:167-193 | one loop round keeps the merge state: matched ids leave the map, the position holds its merged item with the submitted counts, a kept submission points at the document, unclaimed stored items are untouched |
| `Inventory.MergeItems` | src/main/java/rest_api_warehouse_accounting/service/InventoryService.java:163-194 | the merged list has the submitted list's length and order; position j is the stored item claimed by the j-th submission, now carrying that submission's counts, or else the submission itself, now pointing at the document; stored items that no submission claims keep their counts and document |
| `Inventory.ApplyUpdate` | src/main/java/rest_api_warehouse_accounting/service/InventoryService.java:153-205 | the header takes the submitted number and date, the items become the merge, and stored items that are unclaimed or have a null id drop out with their counts unchanged |
| `Inventory.InventoryService.CreateInventoryDocument` | src/main/java/rest_api_warehouse_accounting/service/InventoryService.java:51-79 | a taken (number, date) is refused first, then a null or empty list, with nothing changed; otherwise the document is stored under a new id, keeps its items and every item points back at it |
| `Inventory.InventoryService.FillDocumentWithItems` | src/main/java/rest_api_warehouse_accounting/service/InventoryService.java:102-125 | the item list is replaced by one fresh item per product in stock, in table order, with plan = quantity, fact = 0, deviation = quantity and the document as back-reference |
| `Inventory.InventoryService.UpdateInventoryDocument` | src/main/java/rest_api_warehouse_accounting/service/InventoryService.java:142-211 | an unknown id fails with nothing changed; success exactly when the stored list is present with unique ids and the submitted list is present; the stored document then carries the submitted header and the merged list, and unclaimed stored items drop out |
| `Realization.FirstShortfall` | src/main/java/rest_api_warehouse_accounting/service/RealizationService.java:39-46 | no shortfall exactly when every line's product is stored with at least the line's quantity; otherwise the index of the first line that fails, each checked against the same stored table |
| `Realization.WrittenBack` | src/main/java/rest_api_warehouse_accounting/service/RealizationService.java:49-54 | the second pass keeps every stored product id and adds each line's product id |
| `Realization.WrittenBackFrame` | src/main/java/rest_api_warehouse_accounting/service/RealizationService.java:49-54 | after a passing check the second pass adds no product, and products no line names are untouched |
| `Realization.WrittenBackLastLine` | src/main/java/rest_api_warehouse_accounting/service/RealizationService.java:49-54 | a product ends as its last line saves it: the carried product less that line's quantity |
| `Realization.Unaliased` | src/main/java/rest_api_warehouse_accounting/service/RealizationService.java:39-54 | when every line carries the product as stored and names a different product, each product loses its line's quantity and none goes below zero |
| `Realization.RepeatedProductLastSaveWins` | src/main/java/rest_api_warehouse_accounting/service/RealizationService.java:39-54 | two lines of 3 against 5 in stock both pass the check, and the product ends at 2 |
| `Realization.RealizationService.CreateRealizationDocument` | src/main/java/rest_api_warehouse_accounting/service/RealizationService.java:37-58 | the first failing line is reported with its product id and nothing is written; otherwise the products become the second pass's result and then the document is saved |
| `WarehouseTree.TrimStartRemovesSpaces` | src/main/java/rest_api_warehouse_accounting/service/WarehouseService.java:68 | trimming the front removes exactly a prefix of characters up to the space |
| `WarehouseTree.TrimEndRemovesSpaces` | src/main/java/rest_api_warehouse_accounting/service/WarehouseService.java:68 | trimming the back removes exactly a suffix of characters up to the space |
| `WarehouseTree.TrimEmptyIffSpaces` | src/main/java/rest_api_warehouse_accounting/service/WarehouseService.java:68 | a name is blank after trimming exactly when all its characters are at most the space |
| `WarehouseTree.ShelfError` | src/main/java/rest_api_warehouse_accounting/service/WarehouseService.java:123-136 | a shelf passes exactly when its name and all its bins' names are non-blank |
| `WarehouseTree.ShelvesErrorNone` | src/main/java/rest_api_warehouse_accounting/service/WarehouseService.java:83-95 | the shelves pass exactly when every shelf passes |
| `WarehouseTree.FirstShelfError` | src/main/java/rest_api_warehouse_accounting/service/WarehouseService.java:83-95 | the first failing shelf decides the error |
| `WarehouseTree.WarehouseError` | src/main/java/rest_api_warehouse_accounting/service/WarehouseService.java:64-74 | a null description is refused first, then a blank name, then a taken id; the description passes exactly when none of these holds and every shelf passes |
| `WarehouseTree.BuiltPrefixSnoc` | src/main/java/rest_api_warehouse_accounting/service/WarehouseService.java:83-95 | appending a shelf built from the next description extends the built prefix |
| `WarehouseTree.MapBins` | src/main/java/rest_api_warehouse_accounting/service/WarehouseService.java:102-118 | fails exactly when some bin name is blank; otherwise one fresh bin per description, in order, with id, name and QR code copied and the shelf as back-reference |
| `WarehouseTree.BuildShelf` | src/main/java/rest_api_warehouse_accounting/service/WarehouseService.java:84-92 | fails exactly as `ShelfError` says; otherwise a fresh shelf with id and name copied, the warehouse as back-reference and its bins built |
| `WarehouseTree.MapShelves` | src/main/java/rest_api_warehouse_accounting/service/WarehouseService.java:79-97 | fails exactly when some shelf fails, with the first failure; otherwise one fresh shelf per description, in order, each with its own fresh bins |
| `WarehouseTree.WarehouseService.CreateWarehouse` | src/main/java/rest_api_warehouse_accounting/service/WarehouseService.java:41-59 | a refused description leaves the stored warehouses as they were; otherwise a fresh warehouse with the submitted id and name and its built shelves is appended |
| `Auth.NormalizeRole` | src/main/java/rest_api_warehouse_accounting/controllers/AuthController.java:106-109 | the result is upper-case and starts with `ROLE_`; a missing role gives `ROLE_USER`; otherwise it is the upper-cased role, prefixed unless already prefixed |
| `Auth.NormalizedUnchanged` | src/main/java/rest_api_warehouse_accounting/controllers/AuthController.java:152-155 | an upper-case role that already starts with `ROLE_` is kept as it is |
| `Auth.NormalizeIdempotent` | src/main/java/rest_api_warehouse_accounting/controllers/AuthController.java:152-155 | normalising twice is normalising once |
| `Auth.PatchedFields` | src/main/java/rest_api_warehouse_accounting/controllers/AuthController.java:144-157 | a field left out keeps its value, a sent year of birth or e-mail replaces it, and a sent role is stored with the `ROLE_` prefix |
| `Auth.PatchIdempotent` | src/main/java/rest_api_warehouse_accounting/controllers/AuthController.java:144-157 | sending the same update twice changes nothing the second time |
| `Auth.UpdateReply` | src/main/java/rest_api_warehouse_accounting/controllers/AuthController.java:164-170 | the update is answered with its fields exactly when none of them is null; otherwise building the answer fails |
| `Auth.AuthController.Register` | src/main/java/rest_api_warehouse_accounting/controllers/AuthController.java:85-120 | binding errors are answered first, then a taken username, with nothing saved; otherwise a fresh account with the normalised role and the encoded password is added and no other account changes |
| `Auth.AuthController.UpdateUser` | src/main/java/rest_api_warehouse_accounting/controllers/AuthController.java:124-171 | an unknown username is answered before binding errors, both with nothing changed; otherwise only the sent fields change, the password stays, and no other account changes |
| `Auth.AuthController.DeleteUser` | src/main/java/rest_api_warehouse_accounting/controllers/AuthController.java:175-199 | binding errors are answered before the lookup, an unknown user gets "not found", and otherwise exactly that account is removed |

## Left out

- Logging, the HTTP layer, JWT issuance, password hashing, authentication and
  the mappers' response shaping are not part of this model. The password
  encoder's output and the binding result's verdict are parameters.
- Repositories are maps and sequences. `existsByDocumentNumberAndCreatedAt`,
  `findAllById`, `findAllByBinIdIn` (with its inner join on the shelf) and
  `findByQuantityGreaterThan(0)` are modelled as membership tests, subsets and
  filters.
- Transactions: on any refusal the model leaves the state as it was. It does
  not model the Java objects that are changed and then discarded by the
  rollback.
- The stock rows looked up before the ledger loop are a parameter, and the
  queries are not part of this model. In the program the lookup finds nothing:
  - The incoming query (StockRepository.java:19) filters on the id of a
    document that is saved only later (IncomingService.java:82). That id is
    still null, and no stored row can refer to a document being created.
  - The outgoing service calls
    `findAllByProductIdsAndBinIdsAndOutgoingDocument`, which the stock
    repository does not declare.
  - So the pre-loaded branches of `Incoming.UpdateIncomingStockLevels` and
    `Outgoing.UpdateOutgoingStockLevels` are faithful to the code but cannot
    be reached. Every line gets a new row, and the ledger is never updated
    per (product, bin). The model's keys carry a null document id for the
    same reason.
- Saving the document does not assign it an id in the movement services. The
  saved document is appended to a sequence.
- `Common.CheckNewDocument`: the model checks only the (number, date) pair,
  as the services do. Every document entity also declares `document_number`
  unique and not null (OutgoingDocument.java:22, IncomingDocument.java:26,
  InventoryDocument.java:25). Where the schema comes from these entities, a
  document that reuses a stored number with another date passes the pair
  check; its insert then fails and the transaction rolls back. The model
  accepts such a document. The same holds for the incoming, outgoing and
  inventory create methods. Realization documents have the same column
  (RealizationDocument.java:24) but no pair check; their own line below
  covers them.
- `Inventory.InventoryService.CreateInventoryDocument`: the model always
  stores the posted document under a new id. In the program the request body
  is the entity itself, and `save` merges rather than inserts when its id is
  non-null. A document posted with a stored document's id passes the
  (number, date) check and then overwrites that document's header; through
  `orphanRemoval` it also replaces that document's items. That case is not
  modelled.
- `Realization.RealizationService.CreateRealizationDocument`: the model makes
  no check on the document number, as the service makes none, and always
  answers with the saved document. `document_number` is also unique and not
  null (RealizationDocument.java:24). In the program, a document that reuses
  a stored number passes both loops and then fails at its save
  (RealizationService.java:57). The transaction rolls back, and no product
  changes. The model instead debits the products and appends the document, so
  posting one sale twice debits twice in the model but once in the program. A
  posted document with a non-null id is merged by `save` into the stored
  document with that id. That case is not modelled either.
- `Inventory.InventoryService.UpdateInventoryDocument`: the new number is
  written without a check (InventoryService.java:153), and the model does
  not check it either. `document_number` is unique (InventoryDocument.java:25).
  So in the program, an update that gives a document a number another stored
  document already holds fails at `save` (InventoryService.java:208), and the
  transaction rolls back. The model answers `Ok` with the renamed header in
  that case.
- `Inventory.RepeatedIdIsNew`: "kept as a new item" describes only the
  in-memory merged list. When the document is saved the merge cascades to the
  items, so a repeated or foreign submitted id overwrites the stored row that
  has that id. The persistence step is not part of this model.
- `Auth.AuthController.Register`: the verdict of the binding result is a free
  parameter, which hides one interaction. The person validator
  (PersonValidator.java:19-30) records a binding error for a taken username
  before `hasErrors` is read (AuthController.java:92-95). So in the program a
  taken username is answered "Validation failed". The "user exists" branch
  (AuthController.java:100-102) is reached only when the two lookups
  disagree.
- `Movement.LoadBins`: the bin repository is a map keyed by bin id, so it
  cannot hold two bins with one `binId`. The program does not rule that out:
  - `Bin.binId` has no unique constraint.
  - Warehouse creation copies bin ids unchecked, as `WarehouseTree.MapBins`
    does.
  - When two stored bins share a requested id, `Collectors.toMap(Bin::getBinId, …)`
    throws (OutgoingService.java:153-154, IncomingService.java:149-150), and the
    document is refused.
  - The model resolves the line to the single bin under that id instead, so
    this refusal is not modelled. `Inventory.ToMap` models the same
    duplicate-key failure for inventory items.
- `Movement.LoadBins`: a bin without a shelf is never loaded, because the bin
  query joins the shelf. Through the services such a line therefore fails as
  "bin not found"; the "shelf not found" branch of the line loop cannot be
  reached that way. The documented behaviour names "shelf not found" for such
  a line; the model follows the code. `Movement.ResolveLine` still models that
  branch on its own.
- A document without a warehouse id passes every check and is then refused
  in a different place for each service:
  - An incoming document fails when the response is built, because that step
    dereferences the warehouse. Its `warehouse_id` column is nullable
    (IncomingDocument.java:37).
  - An outgoing document fails earlier, at the insert, on its non-null
    `warehouse_id` column (OutgoingDocument.java:33), before the response is
    built.
  - The model reports both as `ResponseMappingFailed` with nothing changed,
    after the lines have been processed.
- Java `int` overflow on quantities and Unicode case mapping are not
  modelled: quantities are unbounded integers.
- `Auth.UpperChar`: only the ASCII letters are upper-cased. `String.toUpperCase`
  also maps other letters.
- `WarehouseTree.TrimStart`: trimming removes characters up to U+0020, as
  `String.trim` does. Strings are sequences of UTF-16 units.
- `Inventory.InventoryService.UpdateInventoryDocument`: the submitted
  document is assumed not to be a stored document object, and its items are
  assumed not to be stored item objects. Both come from the request body.
- `Inventory.InventoryService.UpdateInventoryDocument`: a null submitted id
  is reported as "document not found". The repository call with a null id is
  not part of this model.
- A null item list on a realization document, and null lines or null nested
  objects in any request, are not modelled. The source fails there
  on the null reference.
- Concurrency (two requests racing on one product or one stock row) is out of
  scope.
- The bin mapping back to a client description, which swaps the QR code and
  the shelf id, is not modelled, and neither is any round trip through it.
- Incoming and outgoing `saveAllEntities` are modelled as the new product
  table and the set of saved stock rows. The per-item repository writes and
  the item back-references set after processing are not modelled separately.
