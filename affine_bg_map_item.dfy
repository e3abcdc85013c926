/**
 * `affine_bg_map_item` (butano/include/bn_affine_bg_map_item.h): a value that references
 * map cells and records their dimensions, plus the searches and allocations its
 * documentation promises over the affine maps bank, kept abstract as a `ContentPool.Pool`.
 */
module AffineBgMapItems {
  import opened Wrappers
  import ContentPool

  /** `size`, in map cells. */
  datatype Size = Size(width: int, height: int)

  /** Address of the first referenced `affine_bg_map_cell`: the cells are referenced, never copied. */
  type CellsPtr = int

  /** A map side the constructor accepts: 16, or a positive multiple of 32. */
  predicate ValidSide(side: int)
  {
    side == 16 || (side >= 32 && side % 32 == 0)
  }

  /** The accepted sides, stated without `%`: 16 and every 32 * k with k >= 1. */
  lemma ValidSideIsSixteenOrBlocks(side: int)
    ensures ValidSide(side) <==> side == 16 || exists k :: k >= 1 && side == 32 * k
  {
    if side >= 32 && side % 32 == 0 {
      var k := side / 32;
      assert side == 32 * k;
    }
  }

  datatype AffineBgMapItem = AffineBgMapItem(cellsPtr: CellsPtr, dimensions: Size)
  {
    /** `cells_ref()`: the reference given at construction. */
    function CellsRef(): CellsPtr
    {
      cellsPtr
    }

    /** `dimensions()`: the size given at construction. */
    function Dimensions(): Size
    {
      dimensions
    }
  }

  /** An item as the constructor leaves it: both sides passed its checks. */
  type ConstructedItem = item: AffineBgMapItem | ValidSide(item.dimensions.width) && ValidSide(item.dimensions.height)
    witness AffineBgMapItem(0, Size(16, 16))

  /**
   * The constructor: both sides must be valid (a fatal assertion otherwise), and the
   * item keeps the reference and the dimensions exactly as given.
   */
  function MakeAffineBgMapItem(cellsRef: CellsPtr, dimensions: Size): (item: ConstructedItem)
    requires ValidSide(dimensions.width) && ValidSide(dimensions.height)
    ensures item.CellsRef() == cellsRef && item.Dimensions() == dimensions
  {
    AffineBgMapItem(cellsRef, dimensions)
  }

  /** Every item is rebuilt from its own accessors: construction loses and adds nothing. */
  lemma MakeFromAccessors(item: ConstructedItem)
    ensures MakeAffineBgMapItem(item.CellsRef(), item.Dimensions()) == item
  {
  }

  /** The defaulted `operator==`: the same cells pointer and equal dimensions. */
  function Equal(a: AffineBgMapItem, b: AffineBgMapItem): (r: bool)
    ensures r <==> a.CellsRef() == b.CellsRef() && a.Dimensions() == b.Dimensions()
  {
    a == b
  }

  /** Examples of the dimension rule. */
  lemma ValidSideExamples()
    ensures ValidSide(16) && ValidSide(32) && ValidSide(64) && ValidSide(96)
    ensures !ValidSide(0) && !ValidSide(17) && !ValidSide(20) && !ValidSide(48)
  {
  }

  /** What a map in the bank references: the item's cells and dimensions, its tiles and its palette. */
  datatype MapContent = MapContent(item: AffineBgMapItem, tilesId: int, paletteId: int)

  type AffineBgMapsBank = ContentPool.Pool<MapContent, ()>

  /** Some map of the bank references these cells. */
  ghost predicate ReferencesCells(bank: AffineBgMapsBank, cellsPtr: CellsPtr)
    reads bank
  {
    exists id :: id in bank.entries && bank.entries[id].content.item.cellsPtr == cellsPtr
  }

  /** `find_map`: a map referencing this item with these tiles and palette, if there is one. */
  method FindMap(bank: AffineBgMapsBank, item: ConstructedItem, tilesId: int, paletteId: int)
    returns (r: Option<int>)
    requires bank.Valid()
    modifies bank
    ensures bank.Valid()
    ensures r.Some? <==> old(bank.Holds(MapContent(item, tilesId, paletteId)))
    ensures r.Some? ==> r.value in old(bank.entries) && old(bank.entries)[r.value].content == MapContent(item, tilesId, paletteId)
    ensures r.Some? ==> bank.entries == ContentPool.Increased(old(bank.entries), r.value)
    ensures r.Some? ==> bank.holders == old(bank.holders) + multiset{r.value}
    ensures r.None? ==> bank.entries == old(bank.entries) && bank.holders == old(bank.holders)
  {
    var id := bank.Find(MapContent(item, tilesId, paletteId));
    r := if id >= 0 then Some(id) else None;
  }

  /** `create_map`: the map `find_map` would return, otherwise a new one, which must be allocatable. */
  method CreateMap(bank: AffineBgMapsBank, item: ConstructedItem, tilesId: int, paletteId: int)
    returns (id: int)
    requires bank.Valid()
    requires bank.Holds(MapContent(item, tilesId, paletteId)) || bank.HasRoom()
    modifies bank
    ensures bank.Valid() && id in bank.entries
    ensures bank.entries[id].content == MapContent(item, tilesId, paletteId)
    ensures old(bank.Holds(MapContent(item, tilesId, paletteId))) ==>
      id in old(bank.entries) && bank.entries == ContentPool.Increased(old(bank.entries), id)
    ensures !old(bank.Holds(MapContent(item, tilesId, paletteId))) ==>
      id !in old(bank.entries) && bank.entries == old(bank.entries)[id := ContentPool.Entry(MapContent(item, tilesId, paletteId), bank.initial, 1)]
    ensures bank.holders == old(bank.holders) + multiset{id}
  {
    var found := FindMap(bank, item, tilesId, paletteId);
    if found.Some? {
      id := found.value;
    } else {
      id := bank.Create(MapContent(item, tilesId, paletteId), true);
    }
  }

  /**
   * `create_new_map`: never searches. The map system does not support two maps over
   * the same cells, so no map may reference them yet; the allocation must succeed.
   */
  method CreateNewMap(bank: AffineBgMapsBank, item: ConstructedItem, tilesId: int, paletteId: int)
    returns (id: int)
    requires bank.Valid() && bank.HasRoom()
    requires !ReferencesCells(bank, item.cellsPtr)
    modifies bank
    ensures bank.Valid()
    ensures id !in old(bank.entries)
    ensures bank.entries == old(bank.entries)[id := ContentPool.Entry(MapContent(item, tilesId, paletteId), bank.initial, 1)]
    ensures bank.holders == old(bank.holders) + multiset{id}
  {
    id := bank.Create(MapContent(item, tilesId, paletteId), true);
  }

  /** `create_map_optional`: as `create_map`, but nothing when the map is neither found nor allocatable. */
  method CreateMapOptional(bank: AffineBgMapsBank, item: ConstructedItem, tilesId: int, paletteId: int)
    returns (r: Option<int>)
    requires bank.Valid()
    modifies bank
    ensures bank.Valid()
    ensures r.None? <==> !old(bank.Holds(MapContent(item, tilesId, paletteId))) && !old(bank.HasRoom())
    ensures r.None? ==> bank.entries == old(bank.entries) && bank.holders == old(bank.holders)
    ensures r.Some? ==> r.value in bank.entries && bank.entries[r.value].content == MapContent(item, tilesId, paletteId)
    ensures r.Some? && old(bank.Holds(MapContent(item, tilesId, paletteId))) ==>
      r.value in old(bank.entries) && bank.entries == ContentPool.Increased(old(bank.entries), r.value)
    ensures r.Some? && !old(bank.Holds(MapContent(item, tilesId, paletteId))) ==>
      (r.value !in old(bank.entries) &&
       bank.entries == old(bank.entries)[r.value := ContentPool.Entry(MapContent(item, tilesId, paletteId), bank.initial, 1)])
    ensures r.Some? ==> bank.holders == old(bank.holders) + multiset{r.value}
  {
    var found := FindMap(bank, item, tilesId, paletteId);
    if found.Some? {
      r := found;
    } else {
      var id := bank.Create(MapContent(item, tilesId, paletteId), false);
      r := if id >= 0 then Some(id) else None;
    }
  }

  /** `create_new_map_optional`: as `create_new_map`, but nothing when the map cannot be allocated. */
  method CreateNewMapOptional(bank: AffineBgMapsBank, item: ConstructedItem, tilesId: int, paletteId: int)
    returns (r: Option<int>)
    requires bank.Valid()
    requires !ReferencesCells(bank, item.cellsPtr)
    modifies bank
    ensures bank.Valid()
    ensures r.None? <==> !old(bank.HasRoom())
    ensures r.None? ==> bank.entries == old(bank.entries) && bank.holders == old(bank.holders)
    ensures r.Some? ==>
      (r.value !in old(bank.entries) &&
       bank.entries == old(bank.entries)[r.value := ContentPool.Entry(MapContent(item, tilesId, paletteId), bank.initial, 1)])
    ensures r.Some? ==> bank.holders == old(bank.holders) + multiset{r.value}
  {
    var id := bank.Create(MapContent(item, tilesId, paletteId), false);
    r := if id >= 0 then Some(id) else None;
  }
}
