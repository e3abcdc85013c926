/** Colours, 16-bit hardware values and the two palette depths. */
module Colors {

  /** An unsigned 16-bit value, the width of every palette and H-Blank register write. */
  newtype uint16 = x: int | 0 <= x < 0x1_0000

  /** `bn::color`: one 16-bit palette entry. */
  type Color = uint16

  /** `bpp_mode`: four bits per pixel (16-colour palettes) or eight (256-colour palettes). */
  datatype BppMode = Bpp4 | Bpp8

  /** How many colours one palette of the given depth holds. */
  function ColorsCapacity(bpp: BppMode): nat
  {
    match bpp
    case Bpp4 => 16
    case Bpp8 => 256
  }
}
