/**
 * The `qrcode.QRCode` object as the program uses it: configured once, then
 * fed with `add_data`. Encoding, version fitting and error correction belong
 * to the library; only the accumulated data and the configuration that fixes
 * the raster's size are modelled.
 */
module QrCodes {

  /** Error-correction levels L, M, Q and H. */
  datatype ErrorCorrection = Low | Medium | Quartile | High

  /** The highest version a QR symbol can have; a larger fit raises `DataOverflowError`. */
  const MaxVersion := 40

  class QrCode {
    /** The strings passed to `add_data`, in order (the library may split each into several segments). */
    var chunks: seq<string>
    const startVersion: int
    const errorCorrection: ErrorCorrection
    const boxSize: int
    const border: int

    /** `QRCode(version, error_correction, box_size, border)`; the library rejects a non-positive box or a negative border. */
    constructor (version: int, errorCorrection: ErrorCorrection, boxSize: int, border: int)
      requires boxSize >= 1 && border >= 0
      ensures chunks == []
      ensures this.startVersion == version && this.errorCorrection == errorCorrection
      ensures this.boxSize == boxSize && this.border == border
    {
      chunks := [];
      this.startVersion := version;
      this.errorCorrection := errorCorrection;
      this.boxSize := boxSize;
      this.border := border;
    }

    /** `add_data`: appends, never replaces. */
    method AddData(data: string)
      modifies this`chunks
      ensures chunks == old(chunks) + [data]
    {
      chunks := chunks + [data];
    }

    /**
     * Side in pixels of the raster `make_image` draws for a symbol of the
     * given version: modules plus the quiet zone on both sides, times the box.
     */
    function PixelSide(version: int): (side: int)
      requires 1 <= version && boxSize >= 1 && border >= 0
      ensures side >= (21 + 2 * border) * boxSize
    {
      MultiplyMonotonic(21 + 2 * border, 4 * version + 17 + 2 * border, boxSize);
      (4 * version + 17 + 2 * border) * boxSize
    }
  }

  lemma MultiplyMonotonic(a: int, b: int, k: nat)
    requires a <= b
    ensures a * k <= b * k
  {
    assert b * k - a * k == (b - a) * k;
  }
}
