/** The rainbow effect: a hue wheel of three 85-step bands, and the blocking
    256-step animation that staggers the five pixels along it. */
module Rainbow {
  import opened Pixels

  /** Phase units between the hues of neighbouring pixels (`i + 10*k`). */
  const PixelLag := 10

  /** The colour `wheel(i, j, np)` stores into pixel `j`. The phase
      `(i + j) & 255` is inverted and mapped onto three bands: red falls while
      blue rises, then blue falls while green rises, then green falls while red
      rises. Python's `& 255` on any integer is Dafny's Euclidean `% 256`. */
  function Wheel(i: int, j: int): (c: Rgb)
    ensures InByteRange(c)
    ensures c.r + c.g + c.b == 255
    ensures c.r == 0 || c.g == 0 || c.b == 0
  {
    var pos := 255 - (i + j) % 256;
    if pos < 85 then Rgb(255 - pos * 3, 0, pos * 3)
    else if pos < 170 then Rgb(0, (pos - 85) * 3, 255 - (pos - 85) * 3)
    else Rgb((pos - 170) * 3, 255 - (pos - 170) * 3, 0)
  }

  /** The frame one step of `show` writes: pixel `k` gets `wheel(i + 10k, k)`. */
  function RainbowFrame(i: int): (f: seq<Rgb>)
    ensures |f| == StripLength
  {
    seq(StripLength, k => Wheel(i + PixelLag * k, k))
  }

  /** One frame written out pixel by pixel, as `show` stores it. */
  lemma RainbowFrameLiteral(i: int)
    ensures RainbowFrame(i) == [Wheel(i, 0), Wheel(i + 10, 1), Wheel(i + 20, 2), Wheel(i + 30, 3), Wheel(i + 40, 4)]
  {
  }

  /** The 256 frames one call of `show` flushes, in order. */
  function RainbowCycle(): (fs: seq<seq<Rgb>>)
    ensures |fs| == 256
  {
    seq(256, i => RainbowFrame(i))
  }

  /** The wheel sees only the phase `(i + j) & 255`. */
  lemma WheelDependsOnlyOnPhase(i: int, j: int, i': int, j': int)
    requires (i + j) % 256 == (i' + j') % 256
    ensures Wheel(i, j) == Wheel(i', j')
  {
  }

  /** The wheel is periodic with period 256 in its position. */
  lemma WheelPeriodic(i: int, j: int, m: int)
    ensures Wheel(i + 256 * m, j) == Wheel(i, j)
  {
    assert (i + 256 * m + j) % 256 == (i + j) % 256;
  }

  /** Advancing the position by one moves every channel by at most 3, across
      band borders and across the wrap from 255 back to 0. */
  lemma WheelContinuous(i: int, j: int)
    ensures -3 <= Wheel(i + 1, j).r - Wheel(i, j).r <= 3
    ensures -3 <= Wheel(i + 1, j).g - Wheel(i, j).g <= 3
    ensures -3 <= Wheel(i + 1, j).b - Wheel(i, j).b <= 3
  {
    var p := (i + j) % 256;
    if p == 255 {
      assert (i + 1 + j) % 256 == 0;
    } else {
      assert (i + 1 + j) % 256 == p + 1;
    }
  }

  /** Two phases give the same colour only when they are equal or are the
      two ends of the wheel, 0 and 255. */
  lemma WheelAlmostInjective(i: int, j: int, i': int, j': int)
    requires Wheel(i, j) == Wheel(i', j')
    ensures var p, q := (i + j) % 256, (i' + j') % 256;
      p == q || (p == 0 && q == 255) || (p == 255 && q == 0)
  {
  }

  /** Pixel `k` of step `i` sits at wheel phase `(i + 11k) & 255`. */
  lemma RainbowFramePhase(i: int, k: int)
    requires 0 <= k < StripLength
    ensures RainbowFrame(i)[k] == Wheel(i + 11 * k, 0)
  {
  }

  /** Adding a lag of 11 to 44 phase units to a phase never lands on the same
      phase nor on a neighbouring one. */
  lemma LagIsNotNeighbour(a: int, d: int)
    requires 11 <= d <= 44
    ensures var p, q := a % 256, (a + d) % 256;
      q != p && q != (p + 1) % 256 && p != (q + 1) % 256
  {
    var p := a % 256;
    if p + d < 256 {
      assert (a + d) % 256 == p + d;
    } else {
      assert (a + d) % 256 == p + d - 256;
    }
  }

  /** Within one step of `show` the five pixels all show different colours. */
  lemma RainbowPixelsDistinct(i: int, k: int, k': int)
    requires 0 <= k < k' < StripLength
    ensures RainbowFrame(i)[k] != RainbowFrame(i)[k']
  {
    RainbowFramePhase(i, k);
    RainbowFramePhase(i, k');
    LagIsNotNeighbour(i + 11 * k, 11 * (k' - k));
    if RainbowFrame(i)[k] == RainbowFrame(i)[k'] {
      WheelAlmostInjective(i + 11 * k, 0, i + 11 * k', 0);
      assert false;
    }
  }

  /** `show(delay)`: for `i` in 0..255 write `wheel(i + 10k, k)` to pixel `k`
      for all five pixels, then flush. The delay only paces the animation. */
  method Show(strip: Strip, delay: int)
    requires strip.pixels.Length == StripLength
    modifies strip, strip.pixels
    ensures strip.shown == old(strip.shown) + RainbowCycle()
    ensures strip.pixels[..] == RainbowFrame(255)
  {
    for i := 0 to 256
      invariant strip.shown == old(strip.shown) + seq(i, t => RainbowFrame(t))
      invariant i > 0 ==> strip.pixels[..] == RainbowFrame(i - 1)
    {
      ShowStep(strip, i);
      assert seq(i + 1, t => RainbowFrame(t)) == seq(i, t => RainbowFrame(t)) + [RainbowFrame(i)];
    }
  }

  /** One step of `show`: the five wheel colours written, then a flush. */
  method ShowStep(strip: Strip, i: int)
    requires strip.pixels.Length == StripLength
    modifies strip, strip.pixels
    ensures strip.pixels[..] == RainbowFrame(i)
    ensures strip.shown == old(strip.shown) + [RainbowFrame(i)]
  {
    strip.pixels[0] := Wheel(i, 0);
    strip.pixels[1] := Wheel(i + 10, 1);
    strip.pixels[2] := Wheel(i + 20, 2);
    strip.pixels[3] := Wheel(i + 30, 3);
    strip.pixels[4] := Wheel(i + 40, 4);
    RainbowFrameLiteral(i);
    assert strip.pixels[..] == [Wheel(i, 0), Wheel(i + 10, 1), Wheel(i + 20, 2), Wheel(i + 30, 3), Wheel(i + 40, 4)];
    strip.Write();
  }
}
