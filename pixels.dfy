/** The addressable pixel strip (a NeoPixel buffer on pin 0) shared by every
    part of the program: one RGB triple per pixel, plus the flush operation
    that pushes the buffer to the LEDs. */
module Pixels {

  datatype Rgb = Rgb(r: int, g: int, b: int)

  const Black := Rgb(0, 0, 0)

  /** Both class-level handles in the program open pin 0 with five pixels. */
  const StripLength := 5

  predicate InByteRange(c: Rgb) {
    0 <= c.r <= 255 && 0 <= c.g <= 255 && 0 <= c.b <= 255
  }

  /** A frame in which every one of `n` pixels holds `c`. */
  function Solid(c: Rgb, n: nat): (s: seq<Rgb>)
    ensures |s| == n
    ensures forall k :: 0 <= k < n ==> s[k] == c
  {
    seq(n, _ => c)
  }

  class Strip {
    /** The pending value of each pixel. */
    const pixels: array<Rgb>
    /** Every frame flushed to the LEDs so far, oldest first. */
    ghost var shown: seq<seq<Rgb>>

    /** The driver allocates its own all-zero buffer and has displayed nothing. */
    constructor (n: nat)
      ensures fresh(pixels)
      ensures pixels.Length == n && pixels[..] == Solid(Black, n)
      ensures shown == []
    {
      pixels := new Rgb[n](_ => Black);
      shown := [];
    }

    /** Writes `c` to every pixel, as the `for led in range(np.n)` loops do. */
    method Fill(c: Rgb)
      modifies pixels
      ensures pixels[..] == Solid(c, pixels.Length)
    {
      for k := 0 to pixels.Length
        invariant forall j :: 0 <= j < k ==> pixels[j] == c
      {
        pixels[k] := c;
      }
    }

    /** `np.write()`: the LEDs now display the buffer. */
    method Write()
      modifies this`shown
      ensures shown == old(shown) + [pixels[..]]
    {
      shown := shown + [pixels[..]];
    }
  }
}
