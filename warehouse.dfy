/**
 * Creating a warehouse from the client's nested description: the guards on
 * the warehouse itself, then the shelves in order, each shelf's name checked
 * before its bins are built, every shelf pointing back at the new warehouse
 * and every bin at its shelf. Nothing is saved unless every check passes.
 */
module WarehouseTree {
  import opened Common
  import opened Catalog

  datatype BinDto = BinDto(binId: Option<string>, binName: Option<string>, shelfId: Option<string>, qrCode: Option<string>)

  /** A shelf as the client sends it; its `warehouseId` is never read. */
  datatype ShelfDto = ShelfDto(shelfId: Option<string>, shelfName: Option<string>, warehouseId: Option<string>,
                               bins: Option<seq<BinDto>>)

  datatype WarehouseDto = WarehouseDto(warehouseId: Option<string>, warehouseName: Option<string>,
                                       shelves: Option<seq<ShelfDto>>)

  /** `String.trim` at the front: every leading character up to and including the space goes. */
  function TrimStart(s: string): string
  {
    if s != [] && s[0] <= ' ' then TrimStart(s[1..]) else s
  }

  /** `String.trim` at the back. */
  function TrimEnd(s: string): string
  {
    if s != [] && s[|s| - 1] <= ' ' then TrimEnd(s[..|s| - 1]) else s
  }

  function Trim(s: string): string
  {
    TrimEnd(TrimStart(s))
  }

  /** `name == null || name.trim().isEmpty()`. */
  predicate Blank(name: Option<string>)
  {
    name.None? || Trim(name.value) == []
  }

  /** Trimming the front removes a prefix of spaces and control characters and stops at the first other character. */
  lemma {:induction false} TrimStartRemovesSpaces(s: string)
    ensures var t := TrimStart(s);
      |t| <= |s| && t == s[|s| - |t|..]
      && (forall j :: 0 <= j < |s| - |t| ==> s[j] <= ' ')
      && (t == [] || t[0] > ' ')
  {
    if s != [] && s[0] <= ' ' {
      TrimStartRemovesSpaces(s[1..]);
    }
  }

  /** Trimming the back removes a suffix of spaces and control characters and stops at the last other character. */
  lemma {:induction false} TrimEndRemovesSpaces(s: string)
    ensures var t := TrimEnd(s);
      |t| <= |s| && t == s[..|t|]
      && (forall j :: |t| <= j < |s| ==> s[j] <= ' ')
      && (t == [] || t[|t| - 1] > ' ')
  {
    if s != [] && s[|s| - 1] <= ' ' {
      TrimEndRemovesSpaces(s[..|s| - 1]);
    }
  }

  /** A string trims to nothing exactly when it is made only of spaces and control characters. */
  lemma TrimEmptyIffSpaces(s: string)
    ensures Trim(s) == [] <==> forall i :: 0 <= i < |s| ==> s[i] <= ' '
  {
    TrimStartRemovesSpaces(s);
    TrimEndRemovesSpaces(TrimStart(s));
  }

  /** `Optional.ofNullable(list).orElse(List.of())`. */
  function ShelfList(dto: WarehouseDto): seq<ShelfDto>
  {
    if dto.shelves.None? then [] else dto.shelves.value
  }

  function BinList(dto: ShelfDto): seq<BinDto>
  {
    if dto.bins.None? then [] else dto.bins.value
  }

  /** The first failure met while building one shelf: its own name, then its bins' names. */
  function ShelfError(dto: ShelfDto): (e: Option<Error>)
    ensures e.None? <==> !Blank(dto.shelfName) && forall j :: 0 <= j < |BinList(dto)| ==> !Blank(BinList(dto)[j].binName)
  {
    if Blank(dto.shelfName) then Some(ShelfNameRequired)
    else if exists j :: 0 <= j < |BinList(dto)| && Blank(BinList(dto)[j].binName) then Some(BinNameRequired)
    else None
  }

  /** The first failure met while building the shelves, in order. */
  function ShelvesError(shelves: seq<ShelfDto>): Option<Error>
  {
    if shelves == [] then None
    else if ShelfError(shelves[0]).Some? then ShelfError(shelves[0])
    else ShelvesError(shelves[1..])
  }

  /** The shelves are refused exactly when one of them is. */
  lemma {:induction false} ShelvesErrorNone(shelves: seq<ShelfDto>)
    ensures ShelvesError(shelves).None? <==> forall i :: 0 <= i < |shelves| ==> ShelfError(shelves[i]).None?
  {
    if shelves != [] {
      var rest := shelves[1..];
      ShelvesErrorNone(rest);
      assert forall i :: 1 <= i < |shelves| ==> shelves[i] == rest[i - 1];
    }
  }

  /** The first shelf that fails decides the failure of the whole list. */
  lemma {:induction false} FirstShelfError(shelves: seq<ShelfDto>, i: int)
    requires 0 <= i < |shelves| && ShelfError(shelves[i]).Some?
    requires forall j :: 0 <= j < i ==> ShelfError(shelves[j]).None?
    ensures ShelvesError(shelves) == ShelfError(shelves[i])
  {
    if i > 0 {
      var rest := shelves[1..];
      assert rest[i - 1] == shelves[i];
      assert forall j :: 0 <= j < i - 1 ==> rest[j] == shelves[j + 1];
      FirstShelfError(rest, i - 1);
    }
  }

  /** `existsByWarehouseId`: a stored warehouse already has this string id (null matches a null id). */
  predicate IdTaken(stored: seq<Warehouse>, warehouseId: Option<string>)
  {
    exists i :: 0 <= i < |stored| && stored[i].warehouseId == warehouseId
  }

  /**
   * Why `createWarehouse` refuses a description, in the order the checks run:
   * nothing sent, a blank name, an id already in use, then the shelves.
   */
  function WarehouseError(dto: Option<WarehouseDto>, stored: seq<Warehouse>): (e: Option<Error>)
    ensures dto.None? ==> e == Some(NullWarehouseDto)
    ensures dto.Some? && Blank(dto.value.warehouseName) ==> e == Some(WarehouseNameRequired)
    ensures dto.Some? && !Blank(dto.value.warehouseName) && IdTaken(stored, dto.value.warehouseId) ==>
      e == Some(WarehouseAlreadyExists)
    ensures e.None? <==>
      dto.Some? && !Blank(dto.value.warehouseName) && !IdTaken(stored, dto.value.warehouseId)
      && forall i :: 0 <= i < |ShelfList(dto.value)| ==> ShelfError(ShelfList(dto.value)[i]).None?
  {
    if dto.None? then Some(NullWarehouseDto)
    else if Blank(dto.value.warehouseName) then Some(WarehouseNameRequired)
    else if IdTaken(stored, dto.value.warehouseId) then Some(WarehouseAlreadyExists)
    else ShelvesErrorNone(ShelfList(dto.value)); ShelvesError(ShelfList(dto.value))
  }

  predicate Distinct<T(==)>(s: seq<T>)
  {
    forall i, j :: 0 <= i < j < |s| ==> s[i] != s[j]
  }

  /** The bins built for a shelf: one new bin per description, in order, with its fields copied and its shelf set. */
  predicate BinsBuilt(bins: seq<Bin>, dtos: seq<BinDto>, shelf: Shelf)
  {
    |bins| == |dtos| && Distinct(bins)
    && forall i :: 0 <= i < |bins| ==>
      bins[i].binId == dtos[i].binId && bins[i].binName == dtos[i].binName
      && bins[i].qrCode == dtos[i].qrCode && bins[i].shelf == shelf
  }

  /** The shelves built for a warehouse, each with its own bins. */
  predicate ShelvesBuilt(shelves: seq<Shelf>, dtos: seq<ShelfDto>, warehouse: Warehouse)
    reads shelves
  {
    |shelves| == |dtos| && BuiltPrefix(shelves, dtos, warehouse)
  }

  /** The shelves built so far from the first descriptions. */
  predicate BuiltPrefix(shelves: seq<Shelf>, dtos: seq<ShelfDto>, warehouse: Warehouse)
    reads shelves
  {
    |shelves| <= |dtos| && Distinct(shelves)
    && forall i :: 0 <= i < |shelves| ==>
      shelves[i].shelfId == dtos[i].shelfId && shelves[i].shelfName == dtos[i].shelfName
      && shelves[i].warehouse == warehouse && BinsBuilt(shelves[i].bins, BinList(dtos[i]), shelves[i])
  }

  /** Appending a shelf built from the next description. */
  lemma BuiltPrefixSnoc(shelves: seq<Shelf>, dtos: seq<ShelfDto>, warehouse: Warehouse, shelf: Shelf)
    requires BuiltPrefix(shelves, dtos, warehouse) && |shelves| < |dtos| && shelf !in shelves
    requires var d := dtos[|shelves|];
      shelf.shelfId == d.shelfId && shelf.shelfName == d.shelfName && shelf.warehouse == warehouse
      && BinsBuilt(shelf.bins, BinList(d), shelf)
    ensures BuiltPrefix(shelves + [shelf], dtos, warehouse)
  {
    var s := shelves + [shelf];
    forall i | 0 <= i < |s|
      ensures s[i].shelfId == dtos[i].shelfId && s[i].shelfName == dtos[i].shelfName
      && s[i].warehouse == warehouse && BinsBuilt(s[i].bins, BinList(dtos[i]), s[i])
    {
      if i < |shelves| {
        assert s[i] == shelves[i];
      }
    }
  }

  /** `mapBins` with `validateBinDto`: the shelf's bins, or the failure of the first blank name. */
  method MapBins(dto: ShelfDto, shelf: Shelf) returns (r: Result<seq<Bin>>)
    ensures r.Err? <==> exists j :: 0 <= j < |BinList(dto)| && Blank(BinList(dto)[j].binName)
    ensures r.Err? ==> r.error == BinNameRequired
    ensures r.Ok? ==> BinsBuilt(r.value, BinList(dto), shelf) && forall i :: 0 <= i < |r.value| ==> fresh(r.value[i])
  {
    var dtos := BinList(dto);
    var bins: seq<Bin> := [];
    var i := 0;
    while i < |dtos|
      invariant 0 <= i <= |dtos|
      invariant forall j :: 0 <= j < i ==> !Blank(dtos[j].binName)
      invariant |bins| == i && Distinct(bins)
      invariant forall j :: 0 <= j < i ==>
        bins[j].binId == dtos[j].binId && bins[j].binName == dtos[j].binName
        && bins[j].qrCode == dtos[j].qrCode && bins[j].shelf == shelf
      invariant forall j :: 0 <= j < |bins| ==> fresh(bins[j])
    {
      if Blank(dtos[i].binName) {
        return Err(BinNameRequired);
      }
      var bin := new Bin(dtos[i].binId, dtos[i].binName, dtos[i].qrCode, shelf);
      bins := bins + [bin];
      i := i + 1;
    }
    r := Ok(bins);
  }

  /** One round of `mapShelves`: check the shelf's name, create it, then build and attach its bins. */
  method BuildShelf(dto: ShelfDto, warehouse: Warehouse) returns (r: Result<Shelf>)
    ensures r.Err? <==> ShelfError(dto).Some?
    ensures r.Err? ==> r.error == ShelfError(dto).value
    ensures r.Ok? ==>
      fresh(r.value) && r.value.shelfId == dto.shelfId && r.value.shelfName == dto.shelfName
      && r.value.warehouse == warehouse && BinsBuilt(r.value.bins, BinList(dto), r.value)
      && forall j :: 0 <= j < |r.value.bins| ==> fresh(r.value.bins[j])
  {
    if Blank(dto.shelfName) {
      return Err(ShelfNameRequired);
    }
    var shelf := new Shelf(dto.shelfId, dto.shelfName, warehouse);
    var bins := MapBins(dto, shelf);
    if bins.Err? {
      return Err(bins.error);
    }
    shelf.bins := bins.value;
    r := Ok(shelf);
  }

  /** Every shelf, and every bin on it, was allocated since the enclosing call began. */
  twostate predicate AllNew(new shelves: seq<Shelf>)
    reads shelves
  {
    (forall i :: 0 <= i < |shelves| ==> fresh(shelves[i]))
    && forall i, j :: 0 <= i < |shelves| && 0 <= j < |shelves[i].bins| ==> fresh(shelves[i].bins[j])
  }

  twostate lemma AllNewSnoc(new shelves: seq<Shelf>, new shelf: Shelf)
    requires AllNew(shelves) && fresh(shelf)
    requires forall j :: 0 <= j < |shelf.bins| ==> fresh(shelf.bins[j])
    ensures AllNew(shelves + [shelf])
  {
    var s := shelves + [shelf];
    forall i, j | 0 <= i < |s| && 0 <= j < |s[i].bins|
      ensures fresh(s[i].bins[j])
    {
      if i < |shelves| {
        assert s[i] == shelves[i];
      }
    }
  }

  /** `mapShelves` with `validateShelfDto`: the warehouse's shelves, or the first failure met. */
  method MapShelves(dto: WarehouseDto, warehouse: Warehouse) returns (r: Result<seq<Shelf>>)
    ensures r.Err? <==> ShelvesError(ShelfList(dto)).Some?
    ensures r.Err? ==> r.error == ShelvesError(ShelfList(dto)).value
    ensures r.Ok? ==> ShelvesBuilt(r.value, ShelfList(dto), warehouse) && AllNew(r.value)
  {
    var dtos := ShelfList(dto);
    var shelves: seq<Shelf> := [];
    var i := 0;
    while i < |dtos|
      invariant 0 <= i <= |dtos|
      invariant forall j :: 0 <= j < i ==> ShelfError(dtos[j]).None?
      invariant |shelves| == i && BuiltPrefix(shelves, dtos, warehouse)
      invariant AllNew(shelves)
    {
      var built := BuildShelf(dtos[i], warehouse);
      if built.Err? {
        FirstShelfError(dtos, i);
        return Err(built.error);
      }
      var shelf := built.value;
      assert ShelfError(dtos[i]).None?;
      BuiltPrefixSnoc(shelves, dtos, warehouse, shelf);
      AllNewSnoc(shelves, shelf);
      shelves := shelves + [shelf];
      i := i + 1;
    }
    ShelvesErrorNone(dtos);
    r := Ok(shelves);
  }

  /** The warehouse service over the stored warehouses. */
  class WarehouseService {
    var warehouses: seq<Warehouse>

    constructor (warehouses: seq<Warehouse>)
      ensures this.warehouses == warehouses
    {
      this.warehouses := warehouses;
    }

    /**
     * `createWarehouse`: validate, build the warehouse with its shelves and
     * bins, and save it; a refused description leaves the stored warehouses
     * as they were.
     */
    method CreateWarehouse(dto: Option<WarehouseDto>) returns (r: Result<Warehouse>)
      modifies this
      ensures var e := WarehouseError(dto, old(warehouses));
        e.Some? ==> r == Err(e.value) && warehouses == old(warehouses)
      ensures WarehouseError(dto, old(warehouses)).None? ==>
        r.Ok? && fresh(r.value) && warehouses == old(warehouses) + [r.value]
        && r.value.warehouseId == dto.value.warehouseId && r.value.warehouseName == dto.value.warehouseName
        && ShelvesBuilt(r.value.shelves, ShelfList(dto.value), r.value)
        && (forall i :: 0 <= i < |r.value.shelves| ==> fresh(r.value.shelves[i]))
        && forall i, j :: 0 <= i < |r.value.shelves| && 0 <= j < |r.value.shelves[i].bins| ==>
             fresh(r.value.shelves[i].bins[j])
    {
      if dto.None? {
        return Err(NullWarehouseDto);
      }
      var description := dto.value;
      if Blank(description.warehouseName) {
        return Err(WarehouseNameRequired);
      }
      if exists i :: 0 <= i < |warehouses| && warehouses[i].warehouseId == description.warehouseId {
        return Err(WarehouseAlreadyExists);
      }
      var warehouse := new Warehouse(description.warehouseId, description.warehouseName);
      var shelves := MapShelves(description, warehouse);
      if shelves.Err? {
        return Err(shelves.error);
      }
      warehouse.shelves := shelves.value;
      warehouses := warehouses + [warehouse];
      r := Ok(warehouse);
    }
  }
}
