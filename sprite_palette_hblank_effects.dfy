/**
 * `sprite_palette_color_hblank_effect_ptr` (butano/src/btn_sprite_palette_hblank_effects.cpp):
 * an H-Blank effect that rewrites one colour of a sprite palette on every scanline.
 * The H-Blank effects manager is kept abstract as a `ContentPool.Pool` of registrations:
 * registering either yields a new id or, when the manager is full, fails.
 */
module SpritePaletteHblankEffects {
  import opened Wrappers
  import opened Colors
  import ContentPool

  /** The handler an effect is registered with; this file defines only the colour one. */
  datatype Handler = ColorHandler

  /** The hardware register a handler writes to: the colour slot `targetId` of sprite palette memory. */
  datatype Register = SpriteColorRegister(slot: int)

  /** `setup_target` of the colour handler: the target's last value is left as it was. */
  function SetupTarget<T>(targetId: int, targetLastValue: T): (r: T)
    ensures r == targetLastValue
  {
    targetLastValue
  }

  /** `target_visible` of the colour handler: a palette colour is always visible. */
  function TargetVisible(targetId: int): (r: bool)
    ensures r
  {
    true
  }

  /** `target_updated` of the colour handler: the target never reports a change of its own. */
  function TargetUpdated<T>(targetId: int, targetLastValue: T): (r: bool)
    ensures !r
  {
    false
  }

  /** `output_register` of the colour handler: the colour register of the target slot. */
  function OutputRegister(targetId: int): (r: Register)
    ensures r.slot == targetId
  {
    SpriteColorRegister(targetId)
  }

  /**
   * `write_output_values` of the colour handler: the first `valuesCount` input values
   * land in the output buffer in order, and nothing past them is written.
   */
  method WriteOutputValues(valuesCount: int, input: seq<uint16>, output: array<uint16>)
    requires 0 <= valuesCount <= |input| && valuesCount <= output.Length
    modifies output
    ensures output[..valuesCount] == input[..valuesCount]
    ensures output[valuesCount..] == old(output[valuesCount..])
  {
    var i := 0;
    while i < valuesCount
      invariant 0 <= i <= valuesCount
      invariant output[..i] == input[..i]
      invariant output[valuesCount..] == old(output[valuesCount..])
    {
      output[i] := input[i];
      i := i + 1;
    }
  }

  /**
   * The colour slot an effect targets: colour `colorIndex` of the sprite palette `paletteId`,
   * counting sixteen colours per palette, so a colour of a 16-colour palette lands in that
   * palette's own block of sixteen slots.
   */
  function TargetColorIndex(paletteId: int, colorIndex: int): (slot: int)
    ensures 0 <= colorIndex < 16 ==> paletteId * 16 <= slot < (paletteId + 1) * 16
  {
    paletteId * 16 + colorIndex
  }

  /**
   * For a colour of a 16-colour palette the slot decodes back into its palette and its
   * colour, so two different (palette, colour) pairs never share a slot.
   */
  lemma TargetColorIndexDecodes(paletteId: int, colorIndex: int)
    requires paletteId >= 0 && 0 <= colorIndex < 16
    ensures TargetColorIndex(paletteId, colorIndex) / 16 == paletteId
    ensures TargetColorIndex(paletteId, colorIndex) % 16 == colorIndex
  {
    var slot := TargetColorIndex(paletteId, colorIndex);
    assert slot == 16 * paletteId + colorIndex;
    DivModUnique(slot, paletteId, colorIndex);
  }

  /** `n == 16 * q + r` with `0 <= r < 16` fixes `n / 16` and `n % 16`. */
  lemma DivModUnique(n: int, q: int, r: int)
    requires n == 16 * q + r && 0 <= r < 16
    ensures n / 16 == q && n % 16 == r
  {
    var q' := n / 16;
    var r' := n % 16;
    assert n == 16 * q' + r';
  }

  /** Different colours of 16-colour palettes target different slots. */
  lemma TargetColorIndexInjective(p1: int, c1: int, p2: int, c2: int)
    requires p1 >= 0 && 0 <= c1 < 16 && p2 >= 0 && 0 <= c2 < 16
    requires TargetColorIndex(p1, c1) == TargetColorIndex(p2, c2)
    ensures p1 == p2 && c1 == c2
  {
    TargetColorIndexDecodes(p1, c1);
    TargetColorIndexDecodes(p2, c2);
  }

  /** A sprite palette as the effect sees it: its id and its number of colours. */
  datatype SpritePalettePtr = SpritePalettePtr(id: int, colorsCount: int)

  /** `span<const color>`: where the per-scanline colours are and how many there are. */
  datatype ColorsSpan = ColorsSpan(data: int, size: nat)

  /** What the manager keeps for an effect: its values, their count, the target slot and the handler. */
  datatype Registration = Registration(valuesRef: int, valuesCount: nat, targetId: int, handler: Handler)

  type HblankEffectsManager = ContentPool.Pool<Registration, ()>

  /** The registration `create` and `optional_create` hand the manager. */
  function RegistrationFor(palette: SpritePalettePtr, colorIndex: int, colors: ColorsSpan): (r: Registration)
    ensures r.valuesRef == colors.data && r.valuesCount == colors.size
    ensures r.targetId == TargetColorIndex(palette.id, colorIndex) && r.handler == ColorHandler
  {
    Registration(colors.data, colors.size, TargetColorIndex(palette.id, colorIndex), ColorHandler)
  }

  class SpritePaletteColorHblankEffectPtr {
    const manager: HblankEffectsManager
    /** The effect's id in the manager, or -1 once moved from. */
    var id: int
    var palette: SpritePalettePtr
    var colorIndex: int

    /** The effect is registered, and its registration targets this handle's palette colour. */
    ghost predicate Consistent()
      reads this, manager
    {
      && id in manager.entries
      && manager.entries[id].content.targetId == TargetColorIndex(palette.id, colorIndex)
      && manager.entries[id].content.handler == ColorHandler
    }

    /** The private constructor: it takes over an id the manager has just granted. */
    constructor FromId(manager: HblankEffectsManager, id: int, colorIndex: int, palette: SpritePalettePtr)
      ensures this.manager == manager && this.id == id
      ensures this.colorIndex == colorIndex && this.palette == palette
    {
      this.manager := manager;
      this.id := id;
      this.colorIndex := colorIndex;
      this.palette := palette;
    }

    /**
     * `create`: the colour index must be one of the palette's colours (a fatal assertion
     * otherwise) and the manager must accept the registration.
     */
    static method Create(manager: HblankEffectsManager, palette: SpritePalettePtr, colorIndex: int, colors: ColorsSpan)
      returns (p: SpritePaletteColorHblankEffectPtr)
      requires manager.Valid() && manager.HasRoom()
      requires 0 <= colorIndex < palette.colorsCount
      modifies manager
      ensures fresh(p) && p.manager == manager && manager.Valid()
      ensures p.palette == palette && p.colorIndex == colorIndex
      ensures p.id !in old(manager.entries)
      ensures manager.entries == old(manager.entries)[p.id := ContentPool.Entry(RegistrationFor(palette, colorIndex, colors), manager.initial, 1)]
      ensures p.Consistent() && p.ColorsRef() == colors
    {
      var id := manager.Create(RegistrationFor(palette, colorIndex, colors), true);
      p := new SpritePaletteColorHblankEffectPtr.FromId(manager, id, colorIndex, palette);
    }

    /** `optional_create`: empty exactly when the manager has no room for the registration. */
    static method OptionalCreate(manager: HblankEffectsManager, palette: SpritePalettePtr, colorIndex: int, colors: ColorsSpan)
      returns (r: Option<SpritePaletteColorHblankEffectPtr>)
      requires manager.Valid()
      requires 0 <= colorIndex < palette.colorsCount
      modifies manager
      ensures manager.Valid()
      ensures r.None? <==> !old(manager.HasRoom())
      ensures r.None? ==> manager.entries == old(manager.entries) && manager.holders == old(manager.holders)
      ensures r.Some? ==> fresh(r.value) && r.value.manager == manager
      ensures r.Some? ==> r.value.palette == palette && r.value.colorIndex == colorIndex
      ensures r.Some? ==>
        (r.value.id !in old(manager.entries) &&
         manager.entries == old(manager.entries)[r.value.id := ContentPool.Entry(RegistrationFor(palette, colorIndex, colors), manager.initial, 1)])
      ensures r.Some? ==> r.value.Consistent() && r.value.ColorsRef() == colors
    {
      var id := manager.Create(RegistrationFor(palette, colorIndex, colors), false);
      if id >= 0 {
        var p := new SpritePaletteColorHblankEffectPtr.FromId(manager, id, colorIndex, palette);
        r := Some(p);
      } else {
        r := None;
      }
    }

    /** The copy constructor: same effect, same palette, same colour index. */
    constructor Copy(other: SpritePaletteColorHblankEffectPtr)
      ensures manager == other.manager && id == other.id
      ensures palette == other.palette && colorIndex == other.colorIndex
      ensures other.Consistent() ==> Consistent()
    {
      manager := other.manager;
      id := other.id;
      palette := other.palette;
      colorIndex := other.colorIndex;
    }

    /** Copy assignment: this takes the effect, palette and colour index of `other`. */
    method CopyAssign(other: SpritePaletteColorHblankEffectPtr)
      requires manager == other.manager
      modifies this
      ensures id == other.id && palette == other.palette && colorIndex == other.colorIndex
      ensures other.Consistent() ==> Consistent()
    {
      id := other.id;
      palette := other.palette;
      colorIndex := other.colorIndex;
    }

    /**
     * The move constructor: this takes the effect, the palette and the colour index;
     * the source is left without an effect.
     */
    constructor Move(other: SpritePaletteColorHblankEffectPtr)
      modifies other
      ensures manager == other.manager
      ensures id == old(other.id) && palette == old(other.palette) && colorIndex == old(other.colorIndex)
      ensures other.id == -1 && other.colorIndex == old(other.colorIndex)
      ensures old(other.Consistent()) ==> Consistent()
    {
      manager := other.manager;
      id := other.id;
      palette := other.palette;
      colorIndex := other.colorIndex;
      new;
      other.id := -1;
    }

    /**
     * Move assignment: this takes the effect, the palette and the colour index of `other`,
     * which receives this handle's former effect and palette.
     */
    method MoveAssign(other: SpritePaletteColorHblankEffectPtr)
      requires manager == other.manager
      modifies this, other
      ensures id == old(other.id) && palette == old(other.palette) && colorIndex == old(other.colorIndex)
      ensures other.id == old(id) && other.palette == old(palette) && other.colorIndex == old(other.colorIndex)
      ensures old(other.Consistent()) ==> Consistent()
    {
      id, other.id := other.id, id;
      palette, other.palette := other.palette, palette;
      colorIndex := other.colorIndex;
    }

    /** `colors_ref()`: the values and the count the manager holds for this effect. */
    function ColorsRef(): (colors: ColorsSpan)
      requires id in manager.entries
      reads this, manager
      ensures colors.data == manager.entries[id].content.valuesRef
      ensures colors.size == manager.entries[id].content.valuesCount
    {
      ColorsSpan(manager.entries[id].content.valuesRef, manager.entries[id].content.valuesCount)
    }

    /**
     * `set_colors_ref`: the manager's values and count for this effect are replaced, so
     * `colors_ref()` returns them from now on; the target and every other effect are kept.
     */
    method SetColorsRef(colors: ColorsSpan)
      requires manager.Valid() && id in manager.entries
      modifies manager
      ensures manager.Valid() && manager.holders == old(manager.holders)
      ensures manager.entries == old(manager.entries)[id := old(manager.entries)[id].(content :=
        old(manager.entries)[id].content.(valuesRef := colors.data, valuesCount := colors.size))]
      ensures ColorsRef() == colors
      ensures old(Consistent()) ==> Consistent()
    {
      var registration := manager.entries[id].content;
      manager.SetContent(id, registration.(valuesRef := colors.data, valuesCount := colors.size));
    }

    /** `swap` as written: only the effect ids are exchanged; palettes and colour indexes stay. */
    method SwapAsWritten(other: SpritePaletteColorHblankEffectPtr)
      modifies this, other
      ensures id == old(other.id) && other.id == old(id)
      ensures palette == old(palette) && other.palette == old(other.palette)
      ensures colorIndex == old(colorIndex) && other.colorIndex == old(other.colorIndex)
    {
      id, other.id := other.id, id;
    }

    /** `swap` exchanging the whole state, so each handle keeps describing the effect it holds. */
    method Swap(other: SpritePaletteColorHblankEffectPtr)
      requires manager == other.manager
      modifies this, other
      ensures id == old(other.id) && other.id == old(id)
      ensures palette == old(other.palette) && other.palette == old(palette)
      ensures colorIndex == old(other.colorIndex) && other.colorIndex == old(colorIndex)
      ensures old(Consistent()) ==> other.Consistent()
      ensures old(other.Consistent()) ==> Consistent()
    {
      id, other.id := other.id, id;
      palette, other.palette := other.palette, palette;
      colorIndex, other.colorIndex := other.colorIndex, colorIndex;
    }
  }

  /**
   * Two effects on colour 1 of palettes 0 and 1: after the as-written `swap` the first
   * handle holds the effect on slot 17 while still naming palette 0 and colour 1 (slot 1).
   */
  method SwapAsWrittenMismatchesTarget(manager: HblankEffectsManager, colors: ColorsSpan)
    returns (a: SpritePaletteColorHblankEffectPtr, b: SpritePaletteColorHblankEffectPtr)
    requires manager.Valid() && |manager.entries| + 2 <= manager.capacity
    modifies manager
    ensures a.Consistent() == false && b.Consistent() == false
  {
    a := SpritePaletteColorHblankEffectPtr.Create(manager, SpritePalettePtr(0, 16), 1, colors);
    b := SpritePaletteColorHblankEffectPtr.Create(manager, SpritePalettePtr(1, 16), 1, colors);
    assert a.id != b.id;
    a.SwapAsWritten(b);
  }
}
