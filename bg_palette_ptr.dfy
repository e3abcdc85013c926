/**
 * `bg_palette_ptr`: reference-counted handles over the background palettes bank
 * (butano/src/bn_bg_palette_ptr.cpp.h). The bank is a `ContentPool.Pool` whose
 * content is a palette's colours and depth; the depth splits it into the BPP_4 and
 * BPP_8 sub-pools, since a lookup only matches an entry of the item's own depth.
 * Every attribute lives in the bank, keyed by the handle's id alone.
 */
module BgPalettes {
  import opened Wrappers
  import opened Colors
  import ContentPool

  /** `bg_palette_item`: the colours of a palette and its depth. */
  datatype BgPaletteItem = BgPaletteItem(colors: seq<Color>, bpp: BppMode)

  /** What the bank deduplicates on: equal colours in the same sub-pool share an entry. */
  datatype PaletteContent = PaletteContent(colors: seq<Color>, bpp: BppMode)

  /**
   * The live effects of a palette; they are not part of the deduplication key.
   * Intensities are the raw value of the engine's `fixed` type.
   */
  datatype PaletteAttributes = PaletteAttributes(
    inverted: bool,
    grayscaleIntensity: int,
    fadeColor: Color,
    fadeIntensity: int,
    rotateCount: int)

  type PalettesBank = ContentPool.Pool<PaletteContent, PaletteAttributes>

  function ContentOf(item: BgPaletteItem): PaletteContent
  {
    PaletteContent(item.colors, item.bpp)
  }

  /** The bank calls a copy makes on usage counts. */
  datatype UsageCall = IncreaseUsages(id: int) | DecreaseUsages(id: int)

  /** The calls of the copy constructor as written: it always increases the copied id. */
  function CopyConstructCallsAsWritten(otherId: int): (calls: seq<UsageCall>)
    ensures calls == [IncreaseUsages(otherId)]
  {
    [IncreaseUsages(otherId)]
  }

  /** The calls of copy assignment as written: only the decrease is guarded by `_id >= 0`. */
  function CopyAssignCallsAsWritten(selfId: int, otherId: int): (calls: seq<UsageCall>)
  {
    if selfId == otherId then []
    else (if selfId >= 0 then [DecreaseUsages(selfId)] else []) + [IncreaseUsages(otherId)]
  }

  /** The as-written copies hand the bank a negative id exactly when the copied handle is moved from. */
  lemma CopyAsWrittenPassesNegativeId(selfId: int, otherId: int)
    requires selfId >= -1 && otherId >= -1
    ensures IncreaseUsages(-1) in CopyConstructCallsAsWritten(otherId) <==> otherId == -1
    ensures IncreaseUsages(-1) in CopyAssignCallsAsWritten(selfId, otherId) <==> otherId == -1 && selfId >= 0
  {
  }

  /** Assigning a moved-from handle to a live one reaches `increase_usages(-1)`. */
  lemma CopyAssignFromMovedFrom()
    ensures CopyAssignCallsAsWritten(0, -1) == [DecreaseUsages(0), IncreaseUsages(-1)]
  {
  }

  class BgPalettePtr {
    const bank: PalettesBank
    /** The bank slot, or -1 for a moved-from handle. */
    var id: int
    /** False once the destructor has run. */
    ghost var alive: bool

    /** A live handle whose id, when it has one, is counted among the bank's holders. */
    ghost predicate Valid()
      reads this, bank
    {
      alive && bank.Valid() && id >= -1 && (id >= 0 ==> bank.holders[id] > 0)
    }

    /** The private `bg_palette_ptr(int id)`: it takes over the usage the bank granted. */
    constructor FromId(bank: PalettesBank, id: int)
      ensures this.bank == bank && this.id == id && alive
    {
      this.bank := bank;
      this.id := id;
      alive := true;
    }

    /** `find`: a handle to an existing palette with the item's colours and depth, if any. */
    static method Find(bank: PalettesBank, item: BgPaletteItem) returns (r: Option<BgPalettePtr>)
      requires bank.Valid()
      modifies bank
      ensures bank.Valid()
      ensures r.Some? <==> old(bank.Holds(ContentOf(item)))
      ensures r.Some? ==> fresh(r.value) && r.value.Valid() && r.value.bank == bank
      ensures r.Some? ==> r.value.id in old(bank.entries) && old(bank.entries)[r.value.id].content == ContentOf(item)
      ensures r.Some? ==> bank.entries == ContentPool.Increased(old(bank.entries), r.value.id)
      ensures r.None? ==> bank.entries == old(bank.entries) && bank.holders == old(bank.holders)
    {
      var id := bank.Find(ContentOf(item));
      if id >= 0 {
        var p := new BgPalettePtr.FromId(bank, id);
        r := Some(p);
      } else {
        r := None;
      }
    }

    /**
     * `create`: the existing palette when the search hits, otherwise a new one; the
     * bank's allocation is then required to succeed.
     */
    static method Create(bank: PalettesBank, item: BgPaletteItem) returns (p: BgPalettePtr)
      requires bank.Valid()
      requires bank.Holds(ContentOf(item)) || bank.HasRoom()
      modifies bank
      ensures fresh(p) && p.Valid() && p.bank == bank && p.id >= 0
      ensures bank.entries[p.id].content == ContentOf(item)
      ensures old(bank.Holds(ContentOf(item))) ==>
        p.id in old(bank.entries) && bank.entries == ContentPool.Increased(old(bank.entries), p.id)
      ensures !old(bank.Holds(ContentOf(item))) ==>
        p.id !in old(bank.entries) && bank.entries == old(bank.entries)[p.id := ContentPool.Entry(ContentOf(item), bank.initial, 1)]
    {
      var id := bank.Find(ContentOf(item));
      if id < 0 {
        id := bank.Create(ContentOf(item), true);
      }
      p := new BgPalettePtr.FromId(bank, id);
    }

    /** `create_new`: always a new palette, never a search; the allocation is required to succeed. */
    static method CreateNew(bank: PalettesBank, item: BgPaletteItem) returns (p: BgPalettePtr)
      requires bank.Valid() && bank.HasRoom()
      modifies bank
      ensures fresh(p) && p.Valid() && p.bank == bank && p.id >= 0
      ensures p.id !in old(bank.entries)
      ensures bank.entries == old(bank.entries)[p.id := ContentPool.Entry(ContentOf(item), bank.initial, 1)]
    {
      var id := bank.Create(ContentOf(item), true);
      p := new BgPalettePtr.FromId(bank, id);
    }

    /** `create_optional`: like `create`, but empty instead of failing when the bank is full. */
    static method CreateOptional(bank: PalettesBank, item: BgPaletteItem) returns (r: Option<BgPalettePtr>)
      requires bank.Valid()
      modifies bank
      ensures bank.Valid()
      ensures r.None? <==> !old(bank.Holds(ContentOf(item))) && !old(bank.HasRoom())
      ensures r.None? ==> bank.entries == old(bank.entries) && bank.holders == old(bank.holders)
      ensures r.Some? ==> fresh(r.value) && r.value.Valid() && r.value.bank == bank && r.value.id >= 0
      ensures r.Some? ==> bank.entries[r.value.id].content == ContentOf(item)
      ensures r.Some? && old(bank.Holds(ContentOf(item))) ==>
        r.value.id in old(bank.entries) && bank.entries == ContentPool.Increased(old(bank.entries), r.value.id)
      ensures r.Some? && !old(bank.Holds(ContentOf(item))) ==>
        r.value.id !in old(bank.entries) &&
        bank.entries == old(bank.entries)[r.value.id := ContentPool.Entry(ContentOf(item), bank.initial, 1)]
    {
      var id := bank.Find(ContentOf(item));
      if id < 0 {
        id := bank.Create(ContentOf(item), false);
      }
      if id >= 0 {
        var p := new BgPalettePtr.FromId(bank, id);
        r := Some(p);
      } else {
        r := None;
      }
    }

    /** `create_new_optional`: like `create_new`, but empty instead of failing when the bank is full. */
    static method CreateNewOptional(bank: PalettesBank, item: BgPaletteItem) returns (r: Option<BgPalettePtr>)
      requires bank.Valid()
      modifies bank
      ensures bank.Valid()
      ensures r.None? <==> !old(bank.HasRoom())
      ensures r.None? ==> bank.entries == old(bank.entries) && bank.holders == old(bank.holders)
      ensures r.Some? ==> fresh(r.value) && r.value.Valid() && r.value.bank == bank
      ensures r.Some? ==>
        (r.value.id !in old(bank.entries) &&
         bank.entries == old(bank.entries)[r.value.id := ContentPool.Entry(ContentOf(item), bank.initial, 1)])
    {
      var id := bank.Create(ContentOf(item), false);
      if id >= 0 {
        var p := new BgPalettePtr.FromId(bank, id);
        r := Some(p);
      } else {
        r := None;
      }
    }

    /**
     * The copy constructor, with the increase guarded like copy assignment's decrease:
     * a copy of a live handle raises its id's usage by one, a copy of a moved-from
     * handle touches nothing.
     */
    constructor Copy(other: BgPalettePtr)
      requires other.Valid()
      modifies other.bank
      ensures Valid() && other.Valid() && bank == other.bank && id == other.id
      ensures id >= 0 ==> bank.entries == ContentPool.Increased(old(other.bank.entries), id)
      ensures id >= 0 ==> bank.holders == old(other.bank.holders) + multiset{id}
      ensures id < 0 ==> bank.entries == old(other.bank.entries) && bank.holders == old(other.bank.holders)
    {
      bank := other.bank;
      id := other.id;
      alive := true;
      new;
      if id >= 0 {
        bank.IncreaseUsages(id);
      }
    }

    /**
     * Copy assignment, with both bank calls guarded by a non-negative id: between equal
     * ids nothing changes; otherwise the old id loses one usage and the new id gains one.
     */
    method CopyAssign(other: BgPalettePtr)
      requires Valid() && other.Valid() && other.bank == bank
      modifies this, bank
      ensures Valid() && other.Valid() && id == other.id && other.id == old(other.id)
      ensures old(id) == other.id ==> bank.entries == old(bank.entries) && bank.holders == old(bank.holders)
      ensures old(id) != other.id && old(id) >= 0 ==>
        ContentPool.UsageOf(bank.entries, old(id)) == ContentPool.UsageOf(old(bank.entries), old(id)) - 1
      ensures old(id) != other.id && other.id >= 0 ==>
        ContentPool.UsageOf(bank.entries, other.id) == ContentPool.UsageOf(old(bank.entries), other.id) + 1
      ensures forall k :: k != old(id) && k != other.id ==>
        ContentPool.UsageOf(bank.entries, k) == ContentPool.UsageOf(old(bank.entries), k)
      ensures old(id) != other.id ==>
        bank.entries == (var released := if old(id) >= 0 then ContentPool.Decreased(old(bank.entries), old(id)) else old(bank.entries);
                         if other.id >= 0 then ContentPool.Increased(released, other.id) else released)
      ensures old(id) != other.id ==>
        bank.holders == old(bank.holders) - (if old(id) >= 0 then multiset{old(id)} else multiset{})
                                          + (if other.id >= 0 then multiset{other.id} else multiset{})
    {
      if id != other.id {
        if id >= 0 {
          bank.DecreaseUsages(id);
        }
        id := other.id;
        if id >= 0 {
          bank.IncreaseUsages(id);
        }
      }
    }

    /** `_destroy`: the handle's id loses exactly one usage, and the handle is gone. */
    method Destroy()
      requires Valid() && id >= 0
      modifies this, bank
      ensures !alive && id == old(id)
      ensures bank.Valid()
      ensures bank.entries == ContentPool.Decreased(old(bank.entries), id)
      ensures bank.holders == old(bank.holders) - multiset{id}
    {
      bank.DecreaseUsages(id);
      alive := false;
    }

    /** The bank entry this handle designates. */
    ghost predicate Designates()
      reads this, bank
    {
      Valid() && id >= 0
    }

    lemma DesignatedIsInBank()
      requires Designates()
      ensures id in bank.entries
    {
      assert id in bank.holders;
    }

    function ColorsCount(): (n: nat)
      requires Designates()
      reads this, bank
      ensures id in bank.entries && n == |bank.entries[id].content.colors|
    {
      DesignatedIsInBank();
      |bank.entries[id].content.colors|
    }

    function Colors(): (colors: seq<Color>)
      requires Designates()
      reads this, bank
      ensures id in bank.entries && colors == bank.entries[id].content.colors
    {
      DesignatedIsInBank();
      bank.entries[id].content.colors
    }

    function Bpp(): (bpp: BppMode)
      requires Designates()
      reads this, bank
      ensures id in bank.entries && bpp == bank.entries[id].content.bpp
    {
      DesignatedIsInBank();
      bank.entries[id].content.bpp
    }

    function Attributes(): (a: PaletteAttributes)
      requires Designates()
      reads this, bank
      ensures id in bank.entries && a == bank.entries[id].attributes
    {
      DesignatedIsInBank();
      bank.entries[id].attributes
    }

    function Inverted(): bool
      requires Designates()
      reads this, bank
    {
      Attributes().inverted
    }

    function GrayscaleIntensity(): int
      requires Designates()
      reads this, bank
    {
      Attributes().grayscaleIntensity
    }

    function FadeColor(): Color
      requires Designates()
      reads this, bank
    {
      Attributes().fadeColor
    }

    function FadeIntensity(): int
      requires Designates()
      reads this, bank
    {
      Attributes().fadeIntensity
    }

    function RotateCount(): int
      requires Designates()
      reads this, bank
    {
      Attributes().rotateCount
    }

    /** `set_colors`: the entry of this id takes the item's colours; its depth is kept. */
    method SetColors(item: BgPaletteItem)
      requires Designates()
      modifies bank
      ensures Designates()
      ensures Colors() == item.colors && Bpp() == old(Bpp()) && Attributes() == old(Attributes())
      ensures bank.holders == old(bank.holders)
      ensures bank.entries == old(bank.entries)[id := old(bank.entries)[id].(content := PaletteContent(item.colors, old(Bpp())))]
    {
      DesignatedIsInBank();
      bank.SetContent(id, PaletteContent(item.colors, bank.entries[id].content.bpp));
    }

    /** Stores new attributes for this id; every handle with the same id sees them. */
    method SetAttributes(a: PaletteAttributes)
      requires Designates()
      modifies bank
      ensures Designates() && Attributes() == a
      ensures bank.holders == old(bank.holders)
      ensures bank.entries == old(bank.entries)[id := old(bank.entries)[id].(attributes := a)]
    {
      DesignatedIsInBank();
      bank.SetAttributes(id, a);
    }

    method SetInverted(inverted: bool)
      requires Designates()
      modifies bank
      ensures Designates() && Attributes() == old(Attributes()).(inverted := inverted)
      ensures bank.holders == old(bank.holders)
      ensures bank.entries == old(bank.entries)[id := old(bank.entries)[id].(attributes := old(Attributes()).(inverted := inverted))]
    {
      SetAttributes(Attributes().(inverted := inverted));
    }

    method SetGrayscaleIntensity(intensity: int)
      requires Designates()
      modifies bank
      ensures Designates() && Attributes() == old(Attributes()).(grayscaleIntensity := intensity)
      ensures bank.holders == old(bank.holders)
      ensures bank.entries == old(bank.entries)[id := old(bank.entries)[id].(attributes := old(Attributes()).(grayscaleIntensity := intensity))]
    {
      SetAttributes(Attributes().(grayscaleIntensity := intensity));
    }

    method SetFadeColor(color: Color)
      requires Designates()
      modifies bank
      ensures Designates() && Attributes() == old(Attributes()).(fadeColor := color)
      ensures bank.holders == old(bank.holders)
      ensures bank.entries == old(bank.entries)[id := old(bank.entries)[id].(attributes := old(Attributes()).(fadeColor := color))]
    {
      SetAttributes(Attributes().(fadeColor := color));
    }

    method SetFadeIntensity(intensity: int)
      requires Designates()
      modifies bank
      ensures Designates() && Attributes() == old(Attributes()).(fadeIntensity := intensity)
      ensures bank.holders == old(bank.holders)
      ensures bank.entries == old(bank.entries)[id := old(bank.entries)[id].(attributes := old(Attributes()).(fadeIntensity := intensity))]
    {
      SetAttributes(Attributes().(fadeIntensity := intensity));
    }

    method SetFade(color: Color, intensity: int)
      requires Designates()
      modifies bank
      ensures Designates() && Attributes() == old(Attributes()).(fadeColor := color, fadeIntensity := intensity)
      ensures bank.holders == old(bank.holders)
      ensures bank.entries == old(bank.entries)[id := old(bank.entries)[id].(attributes := old(Attributes()).(fadeColor := color, fadeIntensity := intensity))]
    {
      SetAttributes(Attributes().(fadeColor := color, fadeIntensity := intensity));
    }

    method SetRotateCount(count: int)
      requires Designates()
      modifies bank
      ensures Designates() && Attributes() == old(Attributes()).(rotateCount := count)
      ensures bank.holders == old(bank.holders)
      ensures bank.entries == old(bank.entries)[id := old(bank.entries)[id].(attributes := old(Attributes()).(rotateCount := count))]
    {
      SetAttributes(Attributes().(rotateCount := count));
    }
  }

  /**
   * Two handles with the same id read the same colours and attributes, so a change
   * made through one is seen through the other.
   */
  lemma SameIdSameView(p: BgPalettePtr, q: BgPalettePtr)
    requires p.Designates() && q.Designates()
    requires p.bank == q.bank && p.id == q.id
    ensures p.Colors() == q.Colors() && p.Bpp() == q.Bpp() && p.Attributes() == q.Attributes()
  {
  }

  /**
   * Creating the same palette twice: the second `create` reuses the first entry, so the
   * bank gains one entry, not two, and the entry is held twice.
   */
  method CreateTwiceSharesEntry(bank: PalettesBank, item: BgPaletteItem) returns (p: BgPalettePtr, q: BgPalettePtr)
    requires bank.Valid() && !bank.Holds(ContentOf(item)) && bank.HasRoom()
    modifies bank
    ensures p.Valid() && q.Valid() && p.id == q.id && p != q
    ensures bank.entries.Keys == old(bank.entries.Keys) + {p.id} && p.id !in old(bank.entries)
    ensures bank.entries[p.id].usages == 2
  {
    p := BgPalettePtr.Create(bank, item);
    assert bank.Holds(ContentOf(item));
    q := BgPalettePtr.Create(bank, item);
    assert q.id in bank.entries;
    assert bank.entries[q.id].content == ContentOf(item);
    if q.id != p.id {
      assert old(bank.Holds(ContentOf(item)));
      assert false;
    }
  }

  /**
   * A fade set through one handle is seen through its copy: `seen`, the attributes read
   * through the copy, are the old ones with the new fade. Destroying both frees the slot.
   */
  method SharedFadeAndRelease(p: BgPalettePtr, color: Color, intensity: int) returns (seen: PaletteAttributes)
    requires p.Designates() && p.bank.entries[p.id].usages == 1
    modifies p, p.bank
    ensures seen == old(p.Attributes()).(fadeColor := color, fadeIntensity := intensity)
    ensures seen.fadeColor == color && seen.fadeIntensity == intensity
    ensures p.id !in p.bank.entries
  {
    var q := new BgPalettePtr.Copy(p);
    p.SetFade(color, intensity);
    SameIdSameView(p, q);
    seen := q.Attributes();
    assert p.bank.entries[p.id].usages == 2;
    q.Destroy();
    assert p.Designates();
    p.Destroy();
  }
}
