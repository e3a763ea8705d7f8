/**
 * Images as the imaging library hands them around: only the size and the
 * pixel mode are modelled, never the pixels themselves.
 */
module Images {

  /** The pixel modes the program meets ("1", "L", "LA", "P", "RGB", "RGBA", ...). */
  datatype Mode = Bilevel | L | LA | P | RGB | RGBA | CMYK | OtherMode

  /** A raster, reduced to its size and mode. */
  datatype Image = Image(width: int, height: int, mode: Mode)

  /**
   * The modes that `Image.paste(im, box, mask)` accepts as a transparency
   * mask; any other mask mode makes the paste raise "bad transparency mask".
   */
  predicate IsTransparencyMask(m: Mode)
  {
    m == Bilevel || m == L || m == LA || m == RGBA
  }

  /**
   * The offset that centres a span of `inner` pixels inside a span of
   * `outer` pixels: Python's `(outer - inner) // 2`. Python's floor division
   * and Dafny's Euclidean division agree for the divisor 2, also when
   * `outer - inner` is negative.
   */
  function CenterOffset(outer: int, inner: int): (off: int)
    ensures 2 * off <= outer - inner < 2 * off + 2
    ensures inner <= outer ==> 0 <= off && off + inner <= outer
    ensures inner <= outer ==> 0 <= (outer - (off + inner)) - off <= 1
    ensures inner > outer ==> off < 0
  {
    (outer - inner) / 2
  }
}
