/** The bit arithmetic on 32-bit ARGB pixels that the image code performs: reading the red,
    green and blue bytes, writing one grey value into all three, and the one-channel pixels.
    A Java `int` pixel is a `bv32` here; reading and writing images is not modelled. */
module PixelBits {

  /** Java's `x >> k` on `int`: the shift that copies the sign bit (Dafny's `>>` on `bv32`
      shifts zeros in). */
  function ArithmeticShiftRight(x: bv32, k: nat): (r: bv32)
    requires k < 32
    ensures x & 0x8000_0000 == 0 ==> r == x >> k
  {
    if x & 0x8000_0000 == 0 then x >> k else !((!x) >> k)
  }

  /** `(pixel >> 16) & 0xff`, as `transformToGray` and `rotateImage` read red. */
  function RedOf(pixel: bv32): (r: bv32)
    ensures r <= 0xff
  {
    ArithmeticShiftRight(pixel, 16) & 0xff
  }

  /** `(pixel >> 8) & 0xff`. */
  function GreenOf(pixel: bv32): (g: bv32)
    ensures g <= 0xff
  {
    ArithmeticShiftRight(pixel, 8) & 0xff
  }

  /** `pixel & 0xff`. */
  function BlueOf(pixel: bv32): (b: bv32)
    ensures b <= 0xff
  {
    pixel & 0xff
  }

  /** `(pixel & 0xff0000) >> 16`, as `readPrintPixel` reads red. */
  function RedMaskedFirst(pixel: bv32): bv32
  {
    ArithmeticShiftRight(pixel & 0xff_0000, 16)
  }

  /** `(pixel & 0xff00) >> 8`. */
  function GreenMaskedFirst(pixel: bv32): bv32
  {
    ArithmeticShiftRight(pixel & 0xff00, 8)
  }

  /** Masking before or after the shift reads the same byte, whatever the sign of the pixel:
      both are bits 16-23 (red) and 8-15 (green). */
  lemma ExtractionOrderIrrelevant(pixel: bv32)
    ensures RedMaskedFirst(pixel) == RedOf(pixel) == (pixel >> 16) & 0xff
    ensures GreenMaskedFirst(pixel) == GreenOf(pixel) == (pixel >> 8) & 0xff
  {
    ExtractLogical(pixel);
  }

  /** The sign bits that the arithmetic shift copies in are masked away. */
  lemma ExtractLogical(pixel: bv32)
    ensures RedOf(pixel) == (pixel >> 16) & 0xff
    ensures GreenOf(pixel) == (pixel >> 8) & 0xff
  {
    if pixel & 0x8000_0000 != 0 {
      assert !((!pixel) >> 16) & 0xff == (pixel >> 16) & 0xff;
      assert !((!pixel) >> 8) & 0xff == (pixel >> 8) & 0xff;
    }
  }

  /** The three assignments of `transformToGray`: red, then green, then blue become the low
      byte of `grayValue`; the alpha byte stays as it was. */
  function PackGray(pixel: bv32, grayValue: bv32): (packed: bv32)
    ensures packed & 0xff00_0000 == pixel & 0xff00_0000
    ensures RedOf(packed) == GreenOf(packed) == BlueOf(packed) == grayValue & 0xff
  {
    var withRed := ((grayValue << 16) & 0x00ff_0000) | (pixel & 0xff00_ffff);
    var withGreen := ((grayValue << 8) & 0x0000_ff00) | (withRed & 0xffff_00ff);
    var packed := (grayValue & 0x0000_00ff) | (withGreen & 0xffff_ff00);
    ExtractLogical(packed);
    packed
  }

  /** A grey value that fits a byte is read back unchanged from each channel. */
  lemma PackThenExtract(pixel: bv32, grayValue: bv32)
    requires grayValue <= 0xff
    ensures RedOf(PackGray(pixel, grayValue)) == grayValue
    ensures GreenOf(PackGray(pixel, grayValue)) == grayValue
    ensures BlueOf(PackGray(pixel, grayValue)) == grayValue
  {
  }

  /** The packed pixel depends only on the alpha byte and the low byte of the grey value. */
  lemma PackGrayDetermined(pixel: bv32, grayValue: bv32)
    ensures PackGray(pixel, grayValue) == (pixel & 0xff00_0000) | ((grayValue & 0xff) * 0x01_0101)
  {
  }

  /** Packing the same grey value again changes nothing. */
  lemma PackGrayIdempotent(pixel: bv32, grayValue: bv32)
    ensures PackGray(PackGray(pixel, grayValue), grayValue) == PackGray(pixel, grayValue)
  {
    PackGrayDetermined(pixel, grayValue);
    PackGrayDetermined(PackGray(pixel, grayValue), grayValue);
  }

  /** The pixel `outputGrayImage` writes: grey packed into a pixel that starts at 0, so its
      alpha byte is 0. */
  function OutputGrayPixel(grayValue: bv32): (pixel: bv32)
    ensures pixel & 0xff00_0000 == 0
    ensures RedOf(pixel) == GreenOf(pixel) == BlueOf(pixel) == grayValue & 0xff
  {
    PackGray(0, grayValue)
  }

  /** The one-channel pixels of `rotateImage`: `r << 16`, `g << 8` and `b << 0` carry their
      channel and zero in every other byte. */
  lemma SingleChannelPixels(r: bv32, g: bv32, b: bv32)
    requires r <= 0xff && g <= 0xff && b <= 0xff
    ensures RedOf(r << 16) == r && GreenOf(r << 16) == 0 && BlueOf(r << 16) == 0
    ensures (r << 16) & 0xff00_0000 == 0
    ensures RedOf(g << 8) == 0 && GreenOf(g << 8) == g && BlueOf(g << 8) == 0
    ensures (g << 8) & 0xff00_0000 == 0
    ensures RedOf(b << 0) == 0 && GreenOf(b << 0) == 0 && BlueOf(b << 0) == b
    ensures (b << 0) & 0xff00_0000 == 0
  {
  }
}
