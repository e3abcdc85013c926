/**
 * The decisions of the graphics tool (butano/tools/butano-graphics-tool.py): which
 * sprite shapes and sizes a bitmap maps to, how a sprite sheet splits into graphics,
 * which background dimensions and depths are accepted, the tile-count limits and the
 * grit command lines. Bitmaps enter as their width, height and colour count; the
 * item's JSON options enter already read, each one present or absent.
 */
module GraphicsTool {
  import opened Wrappers
  import opened Colors
  import AffineBgMapItems

  /** The `ValueError`s the item constructors and `write_header` raise, and the division by zero. */
  datatype ToolError =
    | DivisionByZero
    | HeightNotDivisor(bmpHeight: int, height: int)
    | InvalidSpriteSize(width: int, height: int)
    | InvalidSpriteHeight(height: int)
    | InvalidSpriteWidth(width: int)
    | RegularBgWidthNotMultipleOf256(width: int)
    | RegularBgHeightNotMultipleOf256(height: int)
    | InvalidBppMode(mode: string)
    | AffineBgWidthInvalid(width: int)
    | AffineBgHeightInvalid(height: int)
    | TooManyRegularBgTiles(count: int)
    | TooManyAffineBgTiles(count: int)

  datatype SpriteShape = Square | Wide | Tall
  datatype SpriteSize = Small | Normal | Big | Huge
  datatype ShapeSize = ShapeSize(shape: SpriteShape, size: SpriteSize)

  // ---------------------------------------------------------------- sprite sizes

  /**
   * The table of `SpriteItem.__init__`: width first, then height. Every size it accepts
   * is a hardware size, and a width outside the table is reported before the height.
   */
  function SpriteShapeSize(width: int, height: int): (r: Result<ShapeSize, ToolError>)
    ensures r.Success? ==> (width, height) in HardwareSpriteSizes
    ensures width !in {8, 16, 32, 64} ==> r == Failure(InvalidSpriteWidth(width))
  {
    if width == 8 then
      if height == 8 then Success(ShapeSize(Square, Small))
      else if height == 16 then Success(ShapeSize(Tall, Small))
      else if height == 32 then Success(ShapeSize(Tall, Normal))
      else if height == 64 then Failure(InvalidSpriteSize(width, height))
      else Failure(InvalidSpriteHeight(height))
    else if width == 16 then
      if height == 8 then Success(ShapeSize(Wide, Small))
      else if height == 16 then Success(ShapeSize(Square, Normal))
      else if height == 32 then Success(ShapeSize(Tall, Big))
      else if height == 64 then Failure(InvalidSpriteSize(width, height))
      else Failure(InvalidSpriteHeight(height))
    else if width == 32 then
      if height == 8 then Success(ShapeSize(Wide, Normal))
      else if height == 16 then Success(ShapeSize(Wide, Big))
      else if height == 32 then Success(ShapeSize(Square, Big))
      else if height == 64 then Success(ShapeSize(Tall, Huge))
      else Failure(InvalidSpriteHeight(height))
    else if width == 64 then
      if height == 8 then Failure(InvalidSpriteSize(width, height))
      else if height == 16 then Failure(InvalidSpriteSize(width, height))
      else if height == 32 then Success(ShapeSize(Wide, Huge))
      else if height == 64 then Success(ShapeSize(Square, Huge))
      else Failure(InvalidSpriteHeight(height))
    else Failure(InvalidSpriteWidth(width))
  }

  /** The twelve sprite sizes of the GBA hardware, as (width, height) in pixels. */
  const HardwareSpriteSizes: set<(int, int)> :=
    {(8, 8), (16, 16), (32, 32), (64, 64), (16, 8), (32, 8), (32, 16), (64, 32),
     (8, 16), (8, 32), (16, 32), (32, 64)}

  /** A size is accepted exactly when the hardware has it. */
  lemma SpriteShapeSizeAcceptsHardwareSizes(width: int, height: int)
    ensures SpriteShapeSize(width, height).Success? <==> (width, height) in HardwareSpriteSizes
  {
  }

  /** Which error a rejected size raises: a bad width first, then the four sizes the table names, then a bad height. */
  lemma SpriteShapeSizeErrors(width: int, height: int)
    requires SpriteShapeSize(width, height).Failure?
    ensures SpriteShapeSize(width, height).error.InvalidSpriteWidth? <==> width !in {8, 16, 32, 64}
    ensures SpriteShapeSize(width, height).error.InvalidSpriteSize? <==>
      (width, height) in {(8, 64), (16, 64), (64, 8), (64, 16)}
    ensures SpriteShapeSize(width, height).error.InvalidSpriteHeight? <==>
      width in {8, 16, 32, 64} && height !in {8, 16, 32, 64}
  {
  }

  /** The shape follows the aspect: square when the sides are equal, wide when wider, tall when taller. */
  lemma SpriteShapeFollowsAspect(width: int, height: int)
    requires SpriteShapeSize(width, height).Success?
    ensures SpriteShapeSize(width, height).value.shape == Square <==> width == height
    ensures SpriteShapeSize(width, height).value.shape == Wide <==> width > height
    ensures SpriteShapeSize(width, height).value.shape == Tall <==> width < height
  {
  }

  function SizeRank(size: SpriteSize): nat
  {
    match size
    case Small => 0
    case Normal => 1
    case Big => 2
    case Huge => 3
  }

  /** The size class of a pixel area: up to 128, 256, up to 1024, above. */
  function AreaRank(area: int): nat
  {
    if area <= 128 then 0 else if area <= 256 then 1 else if area <= 1024 then 2 else 3
  }

  /** The size is fixed by the area, so it grows from SMALL to HUGE as the sprite grows. */
  lemma SpriteSizeFollowsArea(width: int, height: int)
    requires SpriteShapeSize(width, height).Success?
    ensures SizeRank(SpriteShapeSize(width, height).value.size) == AreaRank(width * height)
  {
  }

  /** Of two accepted sprites, the one with the larger area never has the smaller size. */
  lemma SpriteSizeMonotone(w1: int, h1: int, w2: int, h2: int)
    requires SpriteShapeSize(w1, h1).Success? && SpriteShapeSize(w2, h2).Success?
    requires w1 * h1 <= w2 * h2
    ensures SizeRank(SpriteShapeSize(w1, h1).value.size) <= SizeRank(SpriteShapeSize(w2, h2).value.size)
  {
    SpriteSizeFollowsArea(w1, h1);
    SpriteSizeFollowsArea(w2, h2);
  }

  /** The sizes `valid_sizes_message` lists, as written: eleven, without 64x32. */
  const ListedSpriteSizesAsWritten: seq<(int, int)> :=
    [(8, 8), (16, 16), (32, 32), (64, 64), (16, 8), (32, 8), (32, 16), (8, 16), (8, 32), (16, 32), (32, 64)]

  /** The message's list with the missing 64x32 restored. */
  const ListedSpriteSizes: seq<(int, int)> :=
    [(8, 8), (16, 16), (32, 32), (64, 64), (16, 8), (32, 8), (32, 16), (64, 32), (8, 16), (8, 32), (16, 32), (32, 64)]

  /** 64x32 is accepted, yet the message that lists the valid sizes leaves it out. */
  lemma ListedSizesAsWrittenOmitAcceptedSize()
    ensures SpriteShapeSize(64, 32).Success?
    ensures (64, 32) !in ListedSpriteSizesAsWritten
  {
  }

  /** The corrected list names exactly the accepted sizes. */
  lemma ListedSpriteSizesAreAccepted(width: int, height: int)
    ensures (width, height) in ListedSpriteSizes <==> SpriteShapeSize(width, height).Success?
  {
    SpriteShapeSizeAcceptsHardwareSizes(width, height);
  }

  // ---------------------------------------------------------------- colour depth

  /** The `bpp_8` flag of sprites, sprite palettes and background palettes: more than 16 colours. */
  function BppModeFor(colorsCount: int): (mode: BppMode)
    ensures mode == Bpp8 <==> colorsCount > 16
  {
    if colorsCount > 16 then Bpp8 else Bpp4
  }

  /** The chosen depth is the smallest one whose palette holds all the colours. */
  lemma BppModeForIsSmallestFitting(colorsCount: int)
    requires 0 <= colorsCount <= 256
    ensures colorsCount <= ColorsCapacity(BppModeFor(colorsCount))
    ensures BppModeFor(colorsCount) == Bpp8 ==> ColorsCapacity(Bpp4) < colorsCount
  {
  }

  // ---------------------------------------------------------------- sprite items

  /** What `SpriteItem.__init__` settles: shape and size, graphics count, depth and colours. */
  datatype SpriteItem = SpriteItem(shapeSize: ShapeSize, graphics: int, bpp8: bool, colorsCount: int)

  /** The height of one graphic: the `height` option when present, the whole bitmap otherwise. */
  function ItemHeight(bmpHeight: nat, infoHeight: Option<int>): int
  {
    if infoHeight.Some? then infoHeight.value else bmpHeight
  }

  /**
   * `SpriteItem.__init__`: the item height must divide the bitmap height (division by a
   * zero height fails in Python too), the sheet splits into `bmpHeight / height` graphics,
   * and the width with the item height must be a hardware size.
   */
  function SpriteItemFor(bmpWidth: nat, bmpHeight: nat, colorsCount: int, infoHeight: Option<int>)
    : (r: Result<SpriteItem, ToolError>)
    ensures ItemHeight(bmpHeight, infoHeight) == 0 ==> r == Failure(DivisionByZero)
    ensures r.Success? ==> Success(r.value.shapeSize) == SpriteShapeSize(bmpWidth, ItemHeight(bmpHeight, infoHeight))
    ensures r.Success? ==> r.value.colorsCount == colorsCount
  {
    var height := ItemHeight(bmpHeight, infoHeight);
    if height == 0 then Failure(DivisionByZero)
    else if infoHeight.Some? && bmpHeight % height != 0 then Failure(HeightNotDivisor(bmpHeight, height))
    else
      var graphics := bmpHeight / height;
      match SpriteShapeSize(bmpWidth, height)
      case Failure(e) => Failure(e)
      case Success(shapeSize) => Success(SpriteItem(shapeSize, graphics, BppModeFor(colorsCount) == Bpp8, colorsCount))
  }

  /** A sprite sheet is accepted exactly when its item height divides it and is a hardware size with its width. */
  lemma SpriteItemAccepted(bmpWidth: nat, bmpHeight: nat, colorsCount: int, infoHeight: Option<int>)
    ensures SpriteItemFor(bmpWidth, bmpHeight, colorsCount, infoHeight).Success? <==>
      && ItemHeight(bmpHeight, infoHeight) != 0
      && bmpHeight % ItemHeight(bmpHeight, infoHeight) == 0
      && (bmpWidth, ItemHeight(bmpHeight, infoHeight)) in HardwareSpriteSizes
  {
    SpriteShapeSizeAcceptsHardwareSizes(bmpWidth, ItemHeight(bmpHeight, infoHeight));
  }

  /**
   * The graphics exactly tile the sheet: `graphics` items of the item height make up the
   * bitmap height, so without a `height` option there is one graphic.
   */
  lemma {:induction false} SpriteGraphicsTileSheet(bmpWidth: nat, bmpHeight: nat, colorsCount: int, infoHeight: Option<int>)
    requires SpriteItemFor(bmpWidth, bmpHeight, colorsCount, infoHeight).Success?
    ensures SpriteItemFor(bmpWidth, bmpHeight, colorsCount, infoHeight).value.graphics * ItemHeight(bmpHeight, infoHeight) == bmpHeight
    ensures infoHeight.None? ==> SpriteItemFor(bmpWidth, bmpHeight, colorsCount, infoHeight).value.graphics == 1
  {
    var height := ItemHeight(bmpHeight, infoHeight);
    var item := SpriteItemFor(bmpWidth, bmpHeight, colorsCount, infoHeight).value;
    assert SpriteShapeSize(bmpWidth, height).Success?;
    assert height > 0;
    if infoHeight.None? {
      assert height == bmpHeight;
    }
    assert bmpHeight % height == 0;
    assert item.graphics == bmpHeight / height;
    assert bmpHeight == height * (bmpHeight / height) + bmpHeight % height;
  }

  /** A sprite's depth is its colour count's: BPP_8 exactly above 16 colours. */
  lemma SpriteDepthFromColors(bmpWidth: nat, bmpHeight: nat, colorsCount: int, infoHeight: Option<int>)
    requires SpriteItemFor(bmpWidth, bmpHeight, colorsCount, infoHeight).Success?
    ensures SpriteItemFor(bmpWidth, bmpHeight, colorsCount, infoHeight).value.bpp8 <==> colorsCount > 16
  {
  }

  // ---------------------------------------------------------------- regular backgrounds

  /** The options a background item reads from its JSON file; an absent key is `None`. */
  datatype BgInfo = BgInfo(
    repeatedTilesReduction: Option<bool>,
    flippedTilesReduction: Option<bool>,
    bppMode: Option<string>)

  /** What `RegularBgItem.__init__` settles. */
  datatype RegularBgItem = RegularBgItem(
    mapWidth: int,
    mapHeight: int,
    bpp8: bool,
    quantized: bool,
    colorsCount: int,
    sbb: bool,
    repeatedTilesReduction: bool,
    flippedTilesReduction: bool)

  /** The `bpp_mode` option, `bpp_8` when absent. */
  function EffectiveBppMode(info: BgInfo): string
  {
    if info.bppMode.Some? then info.bppMode.value else "bpp_8"
  }

  /** The three `bpp_mode` values the tool knows. */
  predicate KnownBppMode(mode: string)
  {
    mode == "bpp_8" || mode == "bpp_4_auto" || mode == "bpp_4_manual"
  }

  /** A reduction switch, on when absent. */
  function SwitchOrDefault(switch: Option<bool>): bool
  {
    if switch.Some? then switch.value else true
  }

  /**
   * `RegularBgItem.__init__`. Both sides must be multiples of 256; the map counts 8x8
   * cells; with more than 16 colours the `bpp_mode` option picks BPP_8, quantization to
   * BPP_4 (whose colour count `quantizedColorsCount` the bitmap library reports), or
   * BPP_4 as drawn.
   */
  function RegularBgItemFor(width: nat, height: nat, colorsCount: int, info: BgInfo, quantizedColorsCount: int)
    : (r: Result<RegularBgItem, ToolError>)
    ensures width % 256 != 0 ==> r == Failure(RegularBgWidthNotMultipleOf256(width))
    ensures width % 256 == 0 && height % 256 != 0 ==> r == Failure(RegularBgHeightNotMultipleOf256(height))
    ensures r.Failure? && r.error.InvalidBppMode? ==>
      colorsCount > 16 && r.error.mode == EffectiveBppMode(info) && !KnownBppMode(r.error.mode)
  {
    if width % 256 != 0 then Failure(RegularBgWidthNotMultipleOf256(width))
    else if height % 256 != 0 then Failure(RegularBgHeightNotMultipleOf256(height))
    else
      var sbb := (width == 256 && height == 512) || (width == 512 && height == 256) || (width == 512 && height == 512);
      var item := RegularBgItem(width / 8, height / 8, false, false, colorsCount, sbb,
                                SwitchOrDefault(info.repeatedTilesReduction), SwitchOrDefault(info.flippedTilesReduction));
      if colorsCount > 16 then
        var mode := EffectiveBppMode(info);
        if mode == "bpp_8" then Success(item.(bpp8 := true))
        else if mode == "bpp_4_auto" then Success(item.(quantized := true, colorsCount := quantizedColorsCount))
        else if mode != "bpp_4_manual" then Failure(InvalidBppMode(mode))
        else Success(item)
      else Success(item)
  }

  /** Accepted exactly when both sides are multiples of 256 and, above 16 colours, the `bpp_mode` is known. */
  lemma RegularBgAccepted(width: nat, height: nat, colorsCount: int, info: BgInfo, quantizedColorsCount: int)
    ensures RegularBgItemFor(width, height, colorsCount, info, quantizedColorsCount).Success? <==>
      width % 256 == 0 && height % 256 == 0 && (colorsCount > 16 ==> KnownBppMode(EffectiveBppMode(info)))
  {
  }

  /**
   * The depth: up to 16 colours stay BPP_4 whatever the option says; above, BPP_8 by
   * default or when asked, quantized BPP_4 for `bpp_4_auto`, BPP_4 as drawn for `bpp_4_manual`.
   */
  lemma RegularBgDepth(width: nat, height: nat, colorsCount: int, info: BgInfo, quantizedColorsCount: int)
    requires RegularBgItemFor(width, height, colorsCount, info, quantizedColorsCount).Success?
    ensures var item := RegularBgItemFor(width, height, colorsCount, info, quantizedColorsCount).value;
      && (item.bpp8 <==> colorsCount > 16 && EffectiveBppMode(info) == "bpp_8")
      && (item.quantized <==> colorsCount > 16 && EffectiveBppMode(info) == "bpp_4_auto")
      && !(item.bpp8 && item.quantized)
      && (item.colorsCount == if item.quantized then quantizedColorsCount else colorsCount)
  {
  }

  /**
   * The map is the bitmap in 8x8 cells, and it takes the screen-base-block layout exactly
   * for the 32x64, 64x32 and 64x64 cell maps (256x512, 512x256 and 512x512 pixels).
   */
  lemma RegularBgMapLayout(width: nat, height: nat, colorsCount: int, info: BgInfo, quantizedColorsCount: int)
    requires RegularBgItemFor(width, height, colorsCount, info, quantizedColorsCount).Success?
    ensures var item := RegularBgItemFor(width, height, colorsCount, info, quantizedColorsCount).value;
      && item.mapWidth * 8 == width && item.mapHeight * 8 == height
      && (item.sbb <==> (item.mapWidth, item.mapHeight) in {(32, 64), (64, 32), (64, 64)})
  {
  }

  /** Absent reduction switches are on; present ones are taken as given. */
  lemma RegularBgReductionDefaults(width: nat, height: nat, colorsCount: int, info: BgInfo, quantizedColorsCount: int)
    requires RegularBgItemFor(width, height, colorsCount, info, quantizedColorsCount).Success?
    ensures var item := RegularBgItemFor(width, height, colorsCount, info, quantizedColorsCount).value;
      && (item.repeatedTilesReduction <==> info.repeatedTilesReduction != Some(false))
      && (item.flippedTilesReduction <==> info.flippedTilesReduction != Some(false))
  {
  }

  // ---------------------------------------------------------------- affine backgrounds

  /** What `AffineBgItem.__init__` settles. */
  datatype AffineBgItem = AffineBgItem(mapWidth: int, mapHeight: int, repeatedTilesReduction: bool)

  /** An affine background side: 128 pixels, or a multiple of 256. */
  predicate AffineSide(side: int)
  {
    side == 128 || side % 256 == 0
  }

  /** `AffineBgItem.__init__`: each side 128 or a multiple of 256; the map counts 8x8 cells. */
  function AffineBgItemFor(width: nat, height: nat, info: BgInfo): (r: Result<AffineBgItem, ToolError>)
    ensures r.Success? <==> AffineSide(width) && AffineSide(height)
    ensures !AffineSide(width) ==> r == Failure(AffineBgWidthInvalid(width))
    ensures AffineSide(width) && !AffineSide(height) ==> r == Failure(AffineBgHeightInvalid(height))
    ensures r.Success? ==> r.value.mapWidth * 8 == width && r.value.mapHeight * 8 == height
  {
    if width != 128 && width % 256 != 0 then Failure(AffineBgWidthInvalid(width))
    else if height != 128 && height % 256 != 0 then Failure(AffineBgHeightInvalid(height))
    else
      AffineSideInCells(width);
      AffineSideInCells(height);
      Success(AffineBgItem(width / 8, height / 8, SwitchOrDefault(info.repeatedTilesReduction)))
  }

  /** An affine background side is a whole number of 8-pixel cells. */
  lemma AffineSideInCells(side: int)
    requires AffineSide(side)
    ensures side / 8 * 8 == side
  {
    if side != 128 {
      var k := side / 256;
      assert side == 256 * k;
      assert side / 8 == 32 * k;
    }
  }

  /**
   * An accepted affine background of non-zero size has a map the engine's
   * `affine_bg_map_item` accepts: 128 pixels make a 16-cell side, 256 * k pixels a 32 * k one.
   */
  lemma AffineBgMapFitsMapItem(width: nat, height: nat, info: BgInfo)
    requires AffineBgItemFor(width, height, info).Success? && width > 0 && height > 0
    ensures AffineSide(width) && AffineSide(height)
    ensures AffineBgMapItems.ValidSide(AffineBgItemFor(width, height, info).value.mapWidth)
    ensures AffineBgMapItems.ValidSide(AffineBgItemFor(width, height, info).value.mapHeight)
  {
    AffineSideMapsToValidSide(width);
    AffineSideMapsToValidSide(height);
  }

  lemma AffineSideMapsToValidSide(side: int)
    requires AffineSide(side) && side > 0
    ensures AffineBgMapItems.ValidSide(side / 8)
  {
    if side != 128 {
      var k := side / 256;
      assert side == 256 * k;
      assert side / 8 == 32 * k;
    }
  }

  // ---------------------------------------------------------------- tile counts

  /** The regular tiles check of `write_header`: more than 1024 tiles are refused. */
  function CheckRegularBgTiles(tilesCount: int): (r: Result<(), ToolError>)
    ensures r.Failure? ==> r.error == TooManyRegularBgTiles(tilesCount)
  {
    if tilesCount > 1024 then Failure(TooManyRegularBgTiles(tilesCount)) else Success(())
  }

  /** The affine tiles check of `write_header`: more than 256 tiles are refused. */
  function CheckAffineBgTiles(tilesCount: int): (r: Result<(), ToolError>)
    ensures r.Failure? ==> r.error == TooManyAffineBgTiles(tilesCount)
  {
    if tilesCount > 256 then Failure(TooManyAffineBgTiles(tilesCount)) else Success(())
  }

  /** A tile index a regular map cell can hold: its tile field is 10 bits wide. */
  predicate FitsRegularCell(tileIndex: int)
  {
    0 <= tileIndex < 0x400
  }

  /** A tile index an affine map cell can hold: the cell is one byte. */
  predicate FitsAffineCell(tileIndex: int)
  {
    0 <= tileIndex < 0x100
  }

  /**
   * The limits are the map cells' tile-index ranges: a count passes exactly when every
   * index of its tiles fits the cell of its kind of background.
   */
  lemma TileLimitsAreIndexRanges(tilesCount: int)
    ensures CheckRegularBgTiles(tilesCount).Success? <==> forall i :: 0 <= i < tilesCount ==> FitsRegularCell(i)
    ensures CheckAffineBgTiles(tilesCount).Success? <==> forall i :: 0 <= i < tilesCount ==> FitsAffineCell(i)
  {
    if tilesCount > 1024 {
      assert !FitsRegularCell(1024);
    }
    if tilesCount > 256 {
      assert !FitsAffineCell(256);
    }
  }

  // ---------------------------------------------------------------- grit command lines

  /** The depth grit converts at for a depth option, if it is one. */
  function GritDepth(option: string): Option<BppMode>
  {
    if option == "-gB8" then Some(Bpp8) else if option == "-gB4" then Some(Bpp4) else None
  }

  /** The depth option of grit: it makes grit convert at 8 bpp exactly for `bpp8`. */
  function DepthFlag(bpp8: bool): (option: string)
    ensures GritDepth(option) == Some(if bpp8 then Bpp8 else Bpp4)
  {
    if bpp8 then "-gB8" else "-gB4"
  }

  /**
   * The tile-reduction option of grit: `t` for repeated tiles, `p` for palette
   * reduction (BPP_4 maps), `f` for flipped tiles, or `!` for none.
   */
  function ReductionFlag(repeated: bool, palette: bool, flipped: bool): (option: string)
    ensures 4 <= |option| <= 6 && option[..3] == "-mR"
  {
    "-mR" + (if repeated || palette || flipped
             then (if repeated then "t" else "") + (if palette then "p" else "") + (if flipped then "f" else "")
             else "!")
  }

  /** The eight reduction options spelled out. */
  lemma ReductionFlagSpellings()
    ensures ReductionFlag(true, true, true) == "-mRtpf" && ReductionFlag(true, true, false) == "-mRtp"
    ensures ReductionFlag(true, false, true) == "-mRtf" && ReductionFlag(false, true, true) == "-mRpf"
    ensures ReductionFlag(true, false, false) == "-mRt" && ReductionFlag(false, true, false) == "-mRp"
    ensures ReductionFlag(false, false, true) == "-mRf" && ReductionFlag(false, false, false) == "-mR!"
  {
    assert "t" + "p" + "f" == "tpf";
    assert "t" + "p" + "" == "tp";
    assert "t" + "" + "f" == "tf";
    assert "" + "p" + "f" == "pf";
    assert "t" + "" + "" == "t";
    assert "" + "p" + "" == "p";
    assert "" + "" + "f" == "f";
  }

  /** The reduction option says exactly which reductions are on, so no two settings share one. */
  lemma ReductionFlagDecodes(repeated: bool, palette: bool, flipped: bool)
    ensures ReductionFlag(repeated, palette, flipped)[..3] == "-mR"
    ensures 't' in ReductionFlag(repeated, palette, flipped) <==> repeated
    ensures 'p' in ReductionFlag(repeated, palette, flipped) <==> palette
    ensures 'f' in ReductionFlag(repeated, palette, flipped) <==> flipped
    ensures '!' in ReductionFlag(repeated, palette, flipped) <==> !repeated && !palette && !flipped
  {
    ReductionFlagSpellings();
  }

  /** The map layout option of grit: screen base blocks (`s`) for sbb maps, flat (`f`) otherwise. */
  function LayoutFlag(sbb: bool): (option: string)
    ensures |option| == 4 && option[..3] == "-mL"
    ensures option[3] == 's' <==> sbb
    ensures option[3] == 'f' <==> !sbb
  {
    if sbb then "-mLs" else "-mLf"
  }

  /**
   * `RegularBgItem.process`: `filePath` is the bitmap grit converts, which for a
   * `bpp_4_auto` item is the quantized copy `<build folder>/<name>.bn_quantized.bmp`
   * that `RegularBgItem.__init__` wrote. Then come the depth, the reductions (palette
   * reduction exactly for BPP_4) and the layout, in that order, after the bitmap and
   * before the output prefix.
   */
  method RegularBgGritCommand(filePath: string, outputPath: string, item: RegularBgItem) returns (command: seq<string>)
    ensures command == ["grit", filePath, DepthFlag(item.bpp8),
                        ReductionFlag(item.repeatedTilesReduction, !item.bpp8, item.flippedTilesReduction),
                        LayoutFlag(item.sbb), "-o" + outputPath]
  {
    ReductionFlagSpellings();
    command := ["grit", filePath];
    if item.bpp8 {
      command := command + ["-gB8"];
      if item.repeatedTilesReduction && item.flippedTilesReduction {
        command := command + ["-mRtf"];
      } else if item.repeatedTilesReduction {
        command := command + ["-mRt"];
      } else if item.flippedTilesReduction {
        command := command + ["-mRf"];
      } else {
        command := command + ["-mR!"];
      }
    } else {
      command := command + ["-gB4"];
      if item.repeatedTilesReduction && item.flippedTilesReduction {
        command := command + ["-mRtpf"];
      } else if item.repeatedTilesReduction {
        command := command + ["-mRtp"];
      } else if item.flippedTilesReduction {
        command := command + ["-mRpf"];
      } else {
        command := command + ["-mRp"];
      }
    }
    if item.sbb {
      command := command + ["-mLs"];
    } else {
      command := command + ["-mLf"];
    }
    command := command + ["-o" + outputPath];
  }

  /** `AffineBgItem.process`: 8 bpp, affine layout, 8-bit map cells, and repeated-tile reduction or none. */
  method AffineBgGritCommand(filePath: string, outputPath: string, item: AffineBgItem) returns (command: seq<string>)
    ensures command == ["grit", filePath, DepthFlag(true), "-mLa", "-mu8",
                        ReductionFlag(item.repeatedTilesReduction, false, false), "-o" + outputPath]
  {
    ReductionFlagSpellings();
    command := ["grit", filePath, "-gB8", "-mLa", "-mu8"];
    if item.repeatedTilesReduction {
      command := command + ["-mRt"];
    } else {
      command := command + ["-mR!"];
    }
    command := command + ["-o" + outputPath];
  }

  /** The depth option `SpriteItem.process` picks as written: BPP_4 for exactly 16 colours. */
  function SpriteDepthFlagAsWritten(colorsCount: int): string
  {
    if colorsCount == 16 then "-gB4" else "-gB8"
  }

  /** `SpriteItem.process` as written. */
  method SpriteGritCommandAsWritten(filePath: string, outputPath: string, colorsCount: int)
    returns (command: seq<string>)
    ensures command == ["grit", filePath, "-gt", SpriteDepthFlagAsWritten(colorsCount), "-o" + outputPath]
  {
    command := ["grit", filePath, "-gt"];
    if colorsCount == 16 {
      command := command + ["-gB4"];
    } else {
      command := command + ["-gB8"];
    }
    command := command + ["-o" + outputPath];
  }

  /**
   * The as-written depth option agrees with the depth the sprite's header declares
   * (BPP_8 above 16 colours) exactly from 16 colours up: a sheet of fewer colours is
   * converted at 8 bpp while its item claims 4.
   */
  lemma SpriteDepthAsWrittenAgreesFrom16(colorsCount: int)
    ensures GritDepth(SpriteDepthFlagAsWritten(colorsCount)) == Some(BppModeFor(colorsCount)) <==> colorsCount >= 16
  {
  }

  /** An 8-colour sprite sheet: converted with `-gB8`, declared BPP_4. */
  lemma SpriteDepthAsWrittenCounterexample()
    ensures SpriteDepthFlagAsWritten(8) == "-gB8"
    ensures BppModeFor(8) == Bpp4
  {
  }

  /** The depth label `write_header` gives a sprite item: BPP_8 exactly for a `bpp_8` item. */
  function SpriteHeaderBpp(item: SpriteItem): BppMode
  {
    if item.bpp8 then Bpp8 else Bpp4
  }

  /** The arguments of `SpriteItem.process`, with the depth option taken from the item's own depth. */
  function SpriteGritArguments(filePath: string, outputPath: string, item: SpriteItem): seq<string>
  {
    ["grit", filePath, "-gt", DepthFlag(item.bpp8), "-o" + outputPath]
  }

  /** `SpriteItem.process` with the depth option taken from the item's own depth. */
  method SpriteGritCommand(filePath: string, outputPath: string, item: SpriteItem) returns (command: seq<string>)
    ensures command == SpriteGritArguments(filePath, outputPath, item)
  {
    command := ["grit", filePath, "-gt"];
    if item.bpp8 {
      command := command + ["-gB8"];
    } else {
      command := command + ["-gB4"];
    }
    command := command + ["-o" + outputPath];
  }

  /**
   * The corrected command converts every accepted sprite at the depth its header declares:
   * its one depth option, the fourth argument, makes grit use the header's depth, which is
   * the depth the colour count calls for.
   */
  lemma SpriteGritDepthMatchesHeader(filePath: string, outputPath: string,
                                     bmpWidth: nat, bmpHeight: nat, colorsCount: int, infoHeight: Option<int>)
    requires SpriteItemFor(bmpWidth, bmpHeight, colorsCount, infoHeight).Success?
    ensures var item := SpriteItemFor(bmpWidth, bmpHeight, colorsCount, infoHeight).value;
      var command := SpriteGritArguments(filePath, outputPath, item);
      && |command| == 5
      && GritDepth(command[3]) == Some(SpriteHeaderBpp(item))
      && SpriteHeaderBpp(item) == BppModeFor(colorsCount)
  {
  }
}
