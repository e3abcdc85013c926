# Butano core: resource handles and asset-conversion decisions, in Dafny

This project models five pieces of the butano GBA engine and its asset tool, and proves
what each promises.

- **Graphics tool decisions** (`GraphicsTool`, `GraphicsListing`). This is the pure logic of
  `butano-graphics-tool.py`:
  - the sprite (shape, size) table and how a sheet splits into graphics;
  - the dimension and depth rules of regular and affine backgrounds, and the screen-base-block (sbb) layout test;
  - the tile-count limits;
  - the grit command lines, built by appends as the tool builds them;
  - the folder walk that rejects a name used twice within one graphics type.
- **Affine background map item** (`AffineBgMapItems`). A value type whose constructor checks
  each map side. Its map searches and allocations run against an abstract maps bank.
- **Background palette handle** (`BgPalettes`). Reference-counted handles over an abstract
  palettes bank. The factories find, create, or do either, and the optional ones may yield nothing.
  Copies keep the per-id usage counts balanced. Every attribute is read and written through the id.
- **Sprite-palette colour H-Blank effect** (`SpritePaletteHblankEffects`). The colour handler's
  five operations, the target colour slot `palette_id * 16 + color_index`, registration with an
  abstract effects manager that can fail, and the handle's copy, move and swap.
- **Regular background map handle** (`RegularBgMaps`). An `int8_t` handle with the -1 sentinel.
  Moves transfer ownership, and the destructor releases a handle only when it owns one.

The banks these handles sit in front of are not part of this model. They are one generic
class, `ContentPool.Pool`: a fixed-capacity map from id to (content, attributes, usage count),
plus a ghost multiset `holders`. Under `Pool.Valid()` each id occurs in `holders` exactly as
often as its usage count says, so `holders` is the usage counts written as a multiset. A handle's
own `Valid()` requires its id, when it has one, to occur in `holders`. Nothing ties the number
of handle objects to the counts: that balance is what the contracts of the copies, moves and
destructors state call by call.
Room in a bank is a count: an allocation can succeed exactly when fewer entries than slots are
used. Which matching entry a search returns, and which free slot an allocation takes, are left
open. `Slots.FreeSlotExists` proves a free slot exists whenever there is room.
Fatal `BN_ASSERT`/`BN_ERROR` checks become preconditions. Python exceptions become `Failure`
values of a `Result`.

Two conventions of the model:
- A search or allocation that returns an id also accounts for that id's one usage. The handle
  built from it, through the private constructor, does not add another.
- A bitmap enters as its width, height and colour count. A JSON option enters as present or
  absent, already converted the way the tool converts it (`int`, `bool`, `str`).

## Model

| member | source | states |
|---|---|---|
| ContentPool.Pool.Find | butano/src/bn_bg_palette_ptr.cpp.h:21-28 | a bank search succeeds iff some entry holds the content; the hit's usage goes up by one and nothing else changes; a miss returns -1 and changes nothing |
| ContentPool.Pool.Create | butano/src/bn_bg_palette_ptr.cpp.h:46-64 | allocation succeeds iff the bank has a free slot; the new id was free and now holds the content with usage 1; a failed optional allocation returns -1 and changes nothing |
| ContentPool.Pool.IncreaseUsages | butano/src/bn_bg_palette_ptr.cpp.h:148-152 | the bank call a copy makes: the id's usage goes up by one, and no other usage, content or attribute changes |
| ContentPool.Pool.DecreaseUsages | butano/src/bn_bg_palette_ptr.cpp.h:245-248 | the bank call a release makes: the id's usage goes down by one, its slot is freed with its last usage, and nothing else changes |
| AffineBgMapItems.ValidSideIsSixteenOrBlocks | butano/include/bn_affine_bg_map_item.h:59-62 | a side is accepted iff it is 16 or 32 * k for some k >= 1 |
| AffineBgMapItems.ValidSideExamples | butano/include/bn_affine_bg_map_item.h:59-62 | 16, 32, 64 and 96 are accepted; 0, 17, 20 and 48 are rejected |
| AffineBgMapItems.MakeAffineBgMapItem | butano/include/bn_affine_bg_map_item.h:55-63 | construction needs both sides valid; `cells_ref()` and `dimensions()` then return exactly the arguments, with the cells referenced and not copied |
| AffineBgMapItems.MakeFromAccessors | butano/include/bn_affine_bg_map_item.h:68-79 | rebuilding an item from its two accessors gives the same item |
| AffineBgMapItems.Equal | butano/include/bn_affine_bg_map_item.h:158-163 | two items are equal iff they have the same cells pointer and equal dimensions |
| AffineBgMapItems.FindMap | butano/include/bn_affine_bg_map_item.h:81-89 | for a constructed item: returns a map iff the bank holds one with this item, tiles and palette; that map's usage goes up by one; on a miss nothing changes |
| AffineBgMapItems.CreateMap | butano/include/bn_affine_bg_map_item.h:91-103 | returns the map find_map would find, otherwise a new map holding this content with usage 1; it always returns a map |
| AffineBgMapItems.CreateNewMap | butano/include/bn_affine_bg_map_item.h:105-119 | never searches: always a new slot holding the content, allowed only when no map already references these cells |
| AffineBgMapItems.CreateMapOptional | butano/include/bn_affine_bg_map_item.h:121-135 | empty iff the map is neither found nor allocatable, and then the bank is unchanged; otherwise as create_map: a found map gains one usage, or exactly one new entry is added and nothing else changes |
| AffineBgMapItems.CreateNewMapOptional | butano/include/bn_affine_bg_map_item.h:137-153 | empty iff the bank is full, and then the bank is unchanged; otherwise a new slot as in create_new_map |
| BgPalettes.BgPalettePtr.Find | butano/src/bn_bg_palette_ptr.cpp.h:15-38 | a handle iff the sub-pool of the item's depth holds its colours; the handle carries the found id, whose usage goes up by one |
| BgPalettes.BgPalettePtr.Create | butano/src/bn_bg_palette_ptr.cpp.h:40-67 | deduplicating: the existing entry when the search hits, a new one with usage 1 otherwise; the bank must then have room |
| BgPalettes.BgPalettePtr.CreateNew | butano/src/bn_bg_palette_ptr.cpp.h:69-85 | never searches: a new entry with usage 1 in a slot that was free |
| BgPalettes.BgPalettePtr.CreateOptional | butano/src/bn_bg_palette_ptr.cpp.h:87-121 | empty iff the colours are neither found nor allocatable, with the bank unchanged; otherwise as create |
| BgPalettes.BgPalettePtr.CreateNewOptional | butano/src/bn_bg_palette_ptr.cpp.h:123-146 | empty iff the bank is full, with the bank unchanged; otherwise as create_new |
| BgPalettes.CopyAsWrittenPassesNegativeId | butano/src/bn_bg_palette_ptr.cpp.h:148-168 | as written, the copy constructor and copy assignment call increase_usages(-1) exactly when the copied handle is moved from (for assignment, when the target is live) |
| BgPalettes.CopyAssignFromMovedFrom | butano/src/bn_bg_palette_ptr.cpp.h:154-168 | assigning a moved-from handle to the holder of id 0 makes the calls decrease_usages(0), then increase_usages(-1) |
| BgPalettes.BgPalettePtr.Copy | butano/src/bn_bg_palette_ptr.cpp.h:148-152 | a copy has the same id, and that id's usage goes up by exactly one; no other id changes (a moved-from copy changes nothing) |
| BgPalettes.BgPalettePtr.CopyAssign | butano/src/bn_bg_palette_ptr.cpp.h:154-168 | with equal ids the bank is unchanged; otherwise the whole new bank is the old one with one usage released from the old id if it is not negative, then one usage added to the new id if it is not negative; colours, attributes and all other ids are kept |
| BgPalettes.BgPalettePtr.Destroy | butano/src/bn_bg_palette_ptr.cpp.h:245-248 | the id's usage goes down by exactly one, and its slot is freed with its last usage |
| BgPalettes.BgPalettePtr.ColorsCount | butano/src/bn_bg_palette_ptr.cpp.h:170-173 | the number of colours of the bank entry of this id |
| BgPalettes.BgPalettePtr.Colors | butano/src/bn_bg_palette_ptr.cpp.h:175-178 | the colours of the bank entry of this id |
| BgPalettes.BgPalettePtr.Bpp | butano/src/bn_bg_palette_ptr.cpp.h:185-188 | the depth of the bank entry of this id |
| BgPalettes.BgPalettePtr.Attributes | butano/src/bn_bg_palette_ptr.cpp.h:190-238 | the inverted, grayscale, fade and rotate attributes of the bank entry of this id |
| BgPalettes.BgPalettePtr.SetColors | butano/src/bn_bg_palette_ptr.cpp.h:180-183 | the entry of this id takes the new colours and keeps its depth, attributes and usages; no other entry changes |
| BgPalettes.BgPalettePtr.SetAttributes | butano/src/bn_bg_palette_ptr.cpp.h:195-243 | the entry of this id gets the given attributes; its colours and usages and every other entry are kept |
| BgPalettes.BgPalettePtr.SetInverted | butano/src/bn_bg_palette_ptr.cpp.h:195-198 | only the inverted attribute of this id's entry changes |
| BgPalettes.BgPalettePtr.SetGrayscaleIntensity | butano/src/bn_bg_palette_ptr.cpp.h:205-208 | only the grayscale intensity of this id's entry changes |
| BgPalettes.BgPalettePtr.SetFadeColor | butano/src/bn_bg_palette_ptr.cpp.h:220-223 | only the fade colour of this id's entry changes |
| BgPalettes.BgPalettePtr.SetFadeIntensity | butano/src/bn_bg_palette_ptr.cpp.h:225-228 | only the fade intensity of this id's entry changes |
| BgPalettes.BgPalettePtr.SetFade | butano/src/bn_bg_palette_ptr.cpp.h:230-233 | fade colour and intensity change together, and nothing else does |
| BgPalettes.BgPalettePtr.SetRotateCount | butano/src/bn_bg_palette_ptr.cpp.h:240-243 | only the rotate count of this id's entry changes |
| BgPalettes.SameIdSameView | butano/src/bn_bg_palette_ptr.cpp.h:170-243 | two handles with the same id read the same colours, depth and attributes, so each sees the other's changes |
| BgPalettes.CreateTwiceSharesEntry | butano/src/bn_bg_palette_ptr.cpp.h:40-67 | creating the same palette twice gives two handles with one id: one new entry, held twice |
| BgPalettes.SharedFadeAndRelease | butano/src/bn_bg_palette_ptr.cpp.h:148-248 | the attributes read through a copy after a fade is set through the original are the old ones with the new fade colour and intensity; destroying both handles then frees the slot |
| RegularBgMaps.ToInt8 | butano/include/btn_regular_bg_map_ptr.h:118-123 | the stored handle is congruent to the given one modulo 256, and equal to it when it fits in [-128, 127] |
| RegularBgMaps.RegularBgMapPtr.FromHandle | butano/include/btn_regular_bg_map_ptr.h:120-123 | the private constructor stores `int8_t(handle)` and releases or takes nothing |
| RegularBgMaps.RegularBgMapPtr.Move | butano/include/btn_regular_bg_map_ptr.h:62-66 | the destination holds the source's handle, the source holds -1, and the bank is untouched |
| RegularBgMaps.RegularBgMapPtr.MoveAssign | butano/include/btn_regular_bg_map_ptr.h:68-72 | the two handles are swapped |
| RegularBgMaps.RegularBgMapPtr.Destroy | butano/include/btn_regular_bg_map_ptr.h:74-80 | the handle is released to the bank iff it is not negative |
| RegularBgMaps.RegularBgMapPtr.Equals | butano/include/btn_regular_bg_map_ptr.h:107-110 | equal iff the handles are equal |
| RegularBgMaps.RegularBgMapPtr.NotEquals | butano/include/btn_regular_bg_map_ptr.h:112-115 | exactly the negation of `==` |
| RegularBgMaps.EqualHandlesHashEqually | butano/include/btn_regular_bg_map_ptr.h:102-105 | equal handles hash equally, whatever `make_hash` is |
| RegularBgMaps.MoveThenDestroyBoth | butano/include/btn_regular_bg_map_ptr.h:62-80 | moving a handle and destroying both handles releases it exactly once, and a moved-from handle releases nothing |
| RegularBgMaps.MoveAssignTwiceRestores | butano/include/btn_regular_bg_map_ptr.h:68-72 | two move assignments between the same handles restore both |
| SpritePaletteHblankEffects.SetupTarget | butano/src/btn_sprite_palette_hblank_effects.cpp:21-23 | the colour handler's setup leaves the target's last value unchanged |
| SpritePaletteHblankEffects.TargetVisible | butano/src/btn_sprite_palette_hblank_effects.cpp:25-28 | a colour target is always visible |
| SpritePaletteHblankEffects.TargetUpdated | butano/src/btn_sprite_palette_hblank_effects.cpp:30-33 | a colour target never reports an update |
| SpritePaletteHblankEffects.OutputRegister | butano/src/btn_sprite_palette_hblank_effects.cpp:35-38 | the output is the sprite colour register of the target slot |
| SpritePaletteHblankEffects.WriteOutputValues | butano/src/btn_sprite_palette_hblank_effects.cpp:40-44 | the first values_count input values land in the output buffer in order, and nothing after them is written |
| SpritePaletteHblankEffects.TargetColorIndex | butano/src/btn_sprite_palette_hblank_effects.cpp:64 | a colour of a 16-colour palette lands in that palette's own block of sixteen slots, from palette_id * 16 |
| SpritePaletteHblankEffects.TargetColorIndexDecodes | butano/src/btn_sprite_palette_hblank_effects.cpp:64 | for a colour of a 16-colour palette, slot / 16 is the palette id and slot % 16 the colour index |
| SpritePaletteHblankEffects.TargetColorIndexInjective | butano/src/btn_sprite_palette_hblank_effects.cpp:64 | different colours of 16-colour palettes never share a slot |
| SpritePaletteHblankEffects.RegistrationFor | butano/src/btn_sprite_palette_hblank_effects.cpp:64-66 | the manager is given the colours' data and size, the slot palette_id * 16 + color_index, and the colour handler |
| SpritePaletteHblankEffects.SpritePaletteColorHblankEffectPtr.FromId | butano/src/btn_sprite_palette_hblank_effects.cpp:145-151 | the private constructor stores the id, colour index and palette as given |
| SpritePaletteHblankEffects.SpritePaletteColorHblankEffectPtr.Create | butano/src/btn_sprite_palette_hblank_effects.cpp:58-68 | requires a colour index of the palette and room in the manager; registers a new effect targeting that colour, and the handle holds that effect's id, the palette and the index |
| SpritePaletteHblankEffects.SpritePaletteColorHblankEffectPtr.OptionalCreate | butano/src/btn_sprite_palette_hblank_effects.cpp:70-87 | empty iff the manager has no room, with the manager unchanged; otherwise as create |
| SpritePaletteHblankEffects.SpritePaletteColorHblankEffectPtr.Copy | butano/src/btn_sprite_palette_hblank_effects.cpp:89-95 | a copy has the same effect id, palette and colour index, so it targets the same slot |
| SpritePaletteHblankEffects.SpritePaletteColorHblankEffectPtr.CopyAssign | butano/src/btn_sprite_palette_hblank_effects.cpp:97-104 | after assignment the handle has the other's effect id, palette and colour index |
| SpritePaletteHblankEffects.SpritePaletteColorHblankEffectPtr.Move | butano/src/btn_sprite_palette_hblank_effects.cpp:106-112 | the destination takes the effect, the palette and the colour index; the source is left without an effect and keeps its colour index |
| SpritePaletteHblankEffects.SpritePaletteColorHblankEffectPtr.MoveAssign | butano/src/btn_sprite_palette_hblank_effects.cpp:114-121 | the handle takes the other's effect, palette and colour index; the other receives this handle's former effect and palette |
| SpritePaletteHblankEffects.SpritePaletteColorHblankEffectPtr.ColorsRef | butano/src/btn_sprite_palette_hblank_effects.cpp:123-127 | the span of the values and count the manager holds for this effect |
| SpritePaletteHblankEffects.SpritePaletteColorHblankEffectPtr.SetColorsRef | butano/src/btn_sprite_palette_hblank_effects.cpp:129-133 | the manager's values and count for this id are replaced, colors_ref() returns them from then on, and the target and other effects are kept |
| SpritePaletteHblankEffects.SpritePaletteColorHblankEffectPtr.SwapAsWritten | butano/src/btn_sprite_palette_hblank_effects.cpp:140-143 | as written, swap exchanges the effect ids and leaves both palettes and colour indexes in place |
| SpritePaletteHblankEffects.SwapAsWrittenMismatchesTarget | butano/src/btn_sprite_palette_hblank_effects.cpp:140-143 | after the as-written swap of effects on palettes 0 and 1, neither handle's palette and colour match the slot its effect targets |
| SpritePaletteHblankEffects.SpritePaletteColorHblankEffectPtr.Swap | butano/src/btn_sprite_palette_hblank_effects.cpp:140-143 | swap exchanging id, palette and colour index: each handle still describes the effect it holds |
| GraphicsTool.SpriteShapeSize | butano/tools/butano-graphics-tool.py:49-110 | every size the table accepts is a hardware size, and a width outside 8, 16, 32 and 64 is reported as an invalid width whatever the height |
| GraphicsTool.SpriteShapeSizeAcceptsHardwareSizes | butano/tools/butano-graphics-tool.py:49-110 | a sprite size is accepted iff it is one of the twelve hardware sizes |
| GraphicsTool.SpriteShapeSizeErrors | butano/tools/butano-graphics-tool.py:49-110 | an invalid width is reported first; then the four named invalid sizes 8x64, 16x64, 64x8 and 64x16; otherwise an invalid height |
| GraphicsTool.SpriteShapeFollowsAspect | butano/tools/butano-graphics-tool.py:49-106 | SQUARE iff width == height, WIDE iff width > height, TALL iff width < height |
| GraphicsTool.SpriteSizeFollowsArea | butano/tools/butano-graphics-tool.py:49-106 | the size class is fixed by the area: SMALL up to 128 pixels, NORMAL at 256, BIG up to 1024, HUGE above |
| GraphicsTool.SpriteSizeMonotone | butano/tools/butano-graphics-tool.py:49-106 | a sprite with a larger area never has a smaller size class |
| GraphicsTool.ListedSizesAsWrittenOmitAcceptedSize | butano/tools/butano-graphics-tool.py:26-27 | 64x32 is accepted but missing from the list of valid sizes in the error message |
| GraphicsTool.ListedSpriteSizesAreAccepted | butano/tools/butano-graphics-tool.py:26-27 | the corrected list names exactly the accepted sizes |
| GraphicsTool.BppModeFor | butano/tools/butano-graphics-tool.py:35 | BPP_8 iff more than 16 colours; sprite palettes (line 185) and background palettes (line 501) use the same rule |
| GraphicsTool.BppModeForIsSmallestFitting | butano/tools/butano-graphics-tool.py:35 | the chosen depth is the smallest whose palette holds all the colours |
| GraphicsTool.SpriteItemFor | butano/tools/butano-graphics-tool.py:29-110 | a zero item height fails as a division by zero; an accepted item has the table's shape and size for the bitmap width and the item height, and the bitmap's colour count |
| GraphicsTool.SpriteItemAccepted | butano/tools/butano-graphics-tool.py:37-110 | a sheet is accepted iff its item height is non-zero, divides the bitmap height, and makes a hardware size with the width |
| GraphicsTool.SpriteGraphicsTileSheet | butano/tools/butano-graphics-tool.py:37-46 | graphics * item height == bitmap height, so without a height option there is one graphic |
| GraphicsTool.SpriteDepthFromColors | butano/tools/butano-graphics-tool.py:35 | an accepted sprite is BPP_8 iff it has more than 16 colours |
| GraphicsTool.RegularBgItemFor | butano/tools/butano-graphics-tool.py:244-294 | a bad width is reported before a bad height; an unknown bpp_mode is reported only above 16 colours, naming the option's value (bpp_8 when absent) |
| GraphicsTool.RegularBgAccepted | butano/tools/butano-graphics-tool.py:254-294 | accepted iff both sides are multiples of 256 and, above 16 colours, the bpp_mode (bpp_8 when absent) is bpp_8, bpp_4_auto or bpp_4_manual |
| GraphicsTool.RegularBgDepth | butano/tools/butano-graphics-tool.py:262-294 | up to 16 colours stay BPP_4 whatever the option; above 16, BPP_8 iff bpp_8, quantized iff bpp_4_auto, never both; quantizing replaces the colour count |
| GraphicsTool.RegularBgMapLayout | butano/tools/butano-graphics-tool.py:260-264 | map sides are the pixel sides / 8; sbb iff the map is 32x64, 64x32 or 64x64 cells (256x512, 512x256 or 512x512 pixels) |
| GraphicsTool.RegularBgReductionDefaults | butano/tools/butano-graphics-tool.py:266-274 | each reduction switch is on unless the option is present and false |
| GraphicsTool.AffineBgItemFor | butano/tools/butano-graphics-tool.py:398-420 | accepted iff each side is 128 or a multiple of 256, a bad width reported before a bad height; the map sides are the pixel sides in 8-pixel cells |
| GraphicsTool.AffineBgMapFitsMapItem | butano/tools/butano-graphics-tool.py:408-415 | an accepted non-empty affine background has sides of 128 or multiples of 256, and map sides that `affine_bg_map_item` accepts |
| GraphicsTool.CheckRegularBgTiles | butano/tools/butano-graphics-tool.py:317-318 | more than 1024 tiles is an error naming the count |
| GraphicsTool.CheckAffineBgTiles | butano/tools/butano-graphics-tool.py:443-444 | more than 256 tiles is an error naming the count |
| GraphicsTool.TileLimitsAreIndexRanges | butano/tools/butano-graphics-tool.py:317-318 | a regular tile count passes iff every tile index fits a 10-bit cell field; an affine count (lines 443-444) iff every index fits a one-byte cell |
| GraphicsTool.DepthFlag | butano/tools/butano-graphics-tool.py:359-371 | the depth option makes grit convert at 8 bpp exactly for a BPP_8 item and at 4 bpp otherwise |
| GraphicsTool.ReductionFlag | butano/tools/butano-graphics-tool.py:362-380 | every reduction option is -mR followed by one to three letters |
| GraphicsTool.LayoutFlag | butano/tools/butano-graphics-tool.py:382-385 | the layout option is -mLs exactly for an sbb map and -mLf otherwise |
| GraphicsTool.ReductionFlagSpellings | butano/tools/butano-graphics-tool.py:362-380 | the eight reduction options are -mRtpf, -mRtp, -mRtf, -mRpf, -mRt, -mRp, -mRf and -mR! |
| GraphicsTool.ReductionFlagDecodes | butano/tools/butano-graphics-tool.py:362-380 | the option contains t iff repeated-tile reduction, p iff palette reduction (BPP_4), f iff flipped-tile reduction, and ! iff none |
| GraphicsTool.RegularBgGritCommand | butano/tools/butano-graphics-tool.py:356-387 | the command is grit, the bitmap, the depth, the reductions (with palette reduction exactly for BPP_4), -mLs iff sbb or else -mLf, and the output prefix |
| GraphicsTool.AffineBgGritCommand | butano/tools/butano-graphics-tool.py:476-484 | the command is -gB8 -mLa -mu8, then -mRt or -mR! by the repeated-tile switch, then the output prefix |
| GraphicsTool.SpriteGritCommandAsWritten | butano/tools/butano-graphics-tool.py:160-168 | as written, the sprite command uses -gB4 exactly for 16 colours |
| GraphicsTool.SpriteDepthAsWrittenAgreesFrom16 | butano/tools/butano-graphics-tool.py:160-166 | the as-written depth option makes grit convert at the depth the colour count calls for iff the sheet has at least 16 colours |
| GraphicsTool.SpriteDepthAsWrittenCounterexample | butano/tools/butano-graphics-tool.py:163-166 | an 8-colour sheet is converted with -gB8 while its item is BPP_4 |
| GraphicsTool.SpriteGritCommand | butano/tools/butano-graphics-tool.py:160-168 | the sprite command is grit, the bitmap, -gt, the depth option of the item's own depth, and the output prefix |
| GraphicsTool.SpriteGritDepthMatchesHeader | butano/tools/butano-graphics-tool.py:130-133 | for every accepted sprite, the depth option of the corrected command makes grit convert at the depth label write_header puts in its header, which is the depth its colour count calls for |
| GraphicsListing.ParseGraphicsType | butano/tools/butano-graphics-tool.py:633-645 | a recognised type name maps to the type of that name; other names are unknown |
| GraphicsListing.ParseTypeName | butano/tools/butano-graphics-tool.py:633-645 | each of the five types is recognised by its own name |
| GraphicsListing.TypedNamesMembers | butano/tools/butano-graphics-tool.py:647-651 | a type's name set holds exactly the names of the earlier graphics files of that type |
| GraphicsListing.FailsAt | butano/tools/butano-graphics-tool.py:611-649 | only a .bmp file with a valid name can stop the walk, and one whose JSON is missing, unparsable, typeless or of unknown type always does |
| GraphicsListing.ChangedInfos | butano/tools/butano-graphics-tool.py:661-664 | at most one info per file, each naming a file collected under the info's type |
| GraphicsListing.ListGraphicsFileInfos | butano/tools/butano-graphics-tool.py:596-666 | the walk succeeds iff no file fails, and then returns the changed graphics files in order; otherwise it reports the error of the first failing file |
| GraphicsListing.LaterNamesakeFails | butano/tools/butano-graphics-tool.py:647-649 | a graphics file whose type and name an earlier file already has is where the walk stops |
| GraphicsListing.ListingSucceedsIff | butano/tools/butano-graphics-tool.py:633-651 | the walk succeeds iff every graphics file declares a known type and no two share both type and name |
| GraphicsListing.SameNameInTwoTypes | butano/tools/butano-graphics-tool.py:647-651 | a sprite and a background palette with the same name are both listed |
| GraphicsListing.SameNameTwiceInOneType | butano/tools/butano-graphics-tool.py:647-649 | two sprites with the same name fail with the duplicate-name error |

## Left out

- File I/O, the `subprocess` grit calls, header text, BMP parsing, `bmp.quantize`, printing and timing are not modelled. `quantize`'s colour count is an input of `RegularBgItemFor`. For a `bpp_4_auto` background the path of the quantized bitmap (`<build folder>/<name>.bn_quantized.bmp`), which grit then converts, is the `filePath` argument of `RegularBgGritCommand`; the model does not derive it.
- Folder listing and sorting are not modelled. `ListGraphicsFileInfos` receives the files of every folder, already in walk order.
- `FileInfo.validate` and `FileInfo` change detection are not modelled. Each file carries its verdict as a boolean.
- GraphicsListing.ListGraphicsFileInfos: a missing JSON file and one that cannot be opened or parsed are inputs (`JsonInfo`). The `GraphicsFileInfo` objects keep only the type and the name, not paths or file infos.
- The palette items' `process` (`-g!` only) and `GraphicsFileInfo.process` (dispatch on the type) make no decision, so they are not modelled.
- `int(x / y)` in the tool divides in floating point. The model uses exact integer division, which agrees whenever the division is exact, as it is on every accepted input.
- GraphicsTool.AffineBgMapFitsMapItem: it assumes non-zero sides. A 0-pixel side passes the tool (0 is a multiple of 256), but its 0-cell map is not a side `affine_bg_map_item` accepts.
- `colors_hash` is not modelled: a BPP_4 search is keyed on colours and depth. The hash is a function of the colours, so a search by colour equality finds the same entries.
- Room in a bank is modelled as a count (`Pool.HasRoom`). Which free slot an allocation takes, and which of several matching entries a search returns, are left open.
- The fade, grayscale and rotation arithmetic is not modelled. Attributes are stored and read back, with `fixed` intensities as their raw integers.
- BgPalettes.BgPalettePtr.Attributes: the separate getters `Inverted`, `GrayscaleIntensity`, `FadeColor`, `FadeIntensity` and `RotateCount` read the fields of `Attributes()` and carry no contract of their own.
- BgPalettes.BgPalettePtr.SetColors: it keeps the entry's depth. What the bank does when the new colours change the count is not part of this model.
- RegularBgMaps.RegularBgMapPtr.FromHandle: it models the `int8_t` truncation rather than requiring a handle in [-128, 127].
- `regular_bg_map_ptr`'s copy constructor, copy assignment, factories, `id()` and `_destroy` are declared but not defined in the header. The bank only records released handles.
- RegularBgMaps.RegularBgMapPtr.Hash: `make_hash` is a parameter. The `std::hash` specialisation hashes `id()`, which is not defined here.
- The base `hblank_effect_ptr` is not part of this model, including its usage accounting for copies and destruction.
- SpritePaletteHblankEffects.SpritePaletteColorHblankEffectPtr.Move: the -1 id of the moved-from source follows the handle convention of `regular_bg_map_ptr`. The base class that sets it is not shown. The source's colour index is only read, so it is kept; the moved-from palette handle is left unspecified, because `sprite_palette_ptr`'s move is not part of this model.
- SpritePaletteHblankEffects.SpritePaletteColorHblankEffectPtr.MoveAssign: the moved-from source receiving the former id and palette also assumes that convention (a swap).
- `sprite_palette_ptr` reference counting is not modelled: the effect sees a palette as its id and colour count.
- `reload_colors_ref` asks the manager to reload values it does not model, so it is not modelled.
- grit itself is not modelled. `GraphicsTool.GritDepth` reads only the two depth options, as the conversion depth each one selects.
- `memory::copy` is modelled as an element-by-element loop, and the colour register addresses are abstract.

## Findings

| source | as written | input that shows it | evidently intended | confidence | as-written member | corrected member |
|---|---|---|---|---|---|---|
| butano/tools/butano-graphics-tool.py:163-166 | the sprite is converted with `-gB4` only for exactly 16 colours, while its header (lines 130-133) declares BPP_4 for up to 16 | a sheet whose bitmap reports 8 colours: converted with `-gB8`, declared BPP_4 | convert with the item's own depth | low: depends on what the bitmap reader reports; not executed | GraphicsTool.SpriteDepthAsWrittenAgreesFrom16 | GraphicsTool.SpriteGritCommand |
| butano/src/bn_bg_palette_ptr.cpp.h:148-168 | the copy constructor and copy assignment call `increase_usages(_id)` unguarded, while the decrease is guarded by `_id >= 0` | copying a moved-from handle (id -1) calls `increase_usages(-1)` | guard the increase like the decrease | low: moved-from handles are rarely copied; not executed | BgPalettes.CopyAsWrittenPassesNegativeId | BgPalettes.BgPalettePtr.CopyAssign, BgPalettes.BgPalettePtr.Copy |
| butano/src/btn_sprite_palette_hblank_effects.cpp:140-143 | `swap` exchanges only the base effect ids, not `_palette_ptr` or `_color_index` | effects on colour 1 of palettes 0 and 1: after swap the first handle holds the slot-17 effect but names palette 0, colour 1 | swap all three members | medium: not executed | SpritePaletteHblankEffects.SwapAsWrittenMismatchesTarget | SpritePaletteHblankEffects.SpritePaletteColorHblankEffectPtr.Swap |
| butano/tools/butano-graphics-tool.py:26-27 | the valid-sizes message lists eleven sizes | 64x32, which the table accepts (lines 101-103), is not listed | list all twelve accepted sizes | high: not executed | GraphicsTool.ListedSizesAsWrittenOmitAcceptedSize | GraphicsTool.ListedSpriteSizesAreAccepted |
