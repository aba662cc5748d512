/** The boot helpers: `set_color`, which shows one 24-bit colour on the whole
    strip, and `demo`, the start-up light show (cycle, bounce, fade, clear). */
module Boot {
  import opened Pixels

  const White := Rgb(255, 255, 255)
  const DimBlue := Rgb(0, 0, 128)

  /** `((color >> 16) & 0xFF, (color >> 8) & 0xFF, color & 0xFF)`. Python's
      right shift floors and its `& 0xFF` keeps the low byte of any integer,
      which are Dafny's Euclidean `/` and `%` by powers of two. */
  function Unpack(color: int): (c: Rgb)
    ensures InByteRange(c)
  {
    Rgb((color / 0x10000) % 0x100, (color / 0x100) % 0x100, color % 0x100)
  }

  /** `(r << 16) | (g << 8) | b`; for bytes the bit fields do not overlap, so
      the or is a sum. */
  function Pack(c: Rgb): int
  {
    c.r * 0x10000 + c.g * 0x100 + c.b
  }

  /** Unpacking keeps exactly the low 24 bits: `(r<<16)|(g<<8)|b == color & 0xFFFFFF`. */
  lemma PackUnpack(color: int)
    ensures Pack(Unpack(color)) == color % 0x1000000
  {
    var x, q := color % 0x1000000, color / 0x1000000;
    var b0, y := x % 0x100, x / 0x100;
    var b1, b2 := y % 0x100, y / 0x100;
    assert x == 0x10000 * b2 + 0x100 * b1 + b0;
    DivModOf(color, 0x10000, 0x100 * q + b2, 0x100 * b1 + b0);
    DivModOf(0x100 * q + b2, 0x100, q, b2);
    DivModOf(color, 0x100, 0x10000 * q + 0x100 * b2 + b1, b0);
    DivModOf(0x10000 * q + 0x100 * b2 + b1, 0x100, 0x100 * q + b2, b1);
  }

  /** Every byte triple is the unpacking of its packed form. */
  lemma UnpackPack(c: Rgb)
    requires InByteRange(c)
    ensures Unpack(Pack(c)) == c
  {
    var p := Pack(c);
    DivModOf(p, 0x10000, c.r, 0x100 * c.g + c.b);
    DivModOf(c.r, 0x100, 0, c.r);
    DivModOf(p, 0x100, 0x100 * c.r + c.g, c.b);
    DivModOf(0x100 * c.r + c.g, 0x100, c.r, c.g);
  }

  /** `set_color(color)`: the unpacked triple on every pixel, then a flush. */
  method SetColor(strip: Strip, color: int)
    modifies strip, strip.pixels
    ensures strip.pixels[..] == Solid(Unpack(color), strip.pixels.Length)
    ensures strip.shown == old(strip.shown) + [Solid(Unpack(color), strip.pixels.Length)]
  {
    strip.Fill(Unpack(color));
    strip.Write();
  }

  /** Cycle frame `i`: all pixels black except pixel `i % n`, which is white. */
  function CycleFrame(n: nat, i: int): (f: seq<Rgb>)
    ensures |f| == n
  {
    if n == 0 then [] else Solid(Black, n)[i % n := White]
  }

  /** The dark pixel of bounce frame `i`: it runs up the strip in even blocks
      of `n` frames and back down in odd ones. */
  function BounceDark(n: nat, i: int): (k: int)
    requires n > 0
    ensures 0 <= k < n
  {
    if (i / n) % 2 == 0 then i % n else n - 1 - i % n
  }

  /** Bounce frame `i`: dim blue everywhere but the dark pixel. */
  function BounceFrame(n: nat, i: int): (f: seq<Rgb>)
    ensures |f| == n
  {
    if n == 0 then [] else Solid(DimBlue, n)[BounceDark(n, i) := Black]
  }

  /** The red level of fade frame `i`: `i & 0xff` in even blocks of 256,
      `255 - (i & 0xff)` in odd ones. */
  function FadeLevel(i: int): (v: int)
    ensures 0 <= v <= 255
  {
    if (i / 256) % 2 == 0 then i % 256 else 255 - i % 256
  }

  /** Fade frame `i`: every pixel `(FadeLevel(i), 0, 0)`. */
  function FadeFrame(n: nat, i: int): (f: seq<Rgb>)
    ensures |f| == n
  {
    Solid(Rgb(FadeLevel(i), 0, 0), n)
  }

  /** The frames `demo` flushes: 4n cycle frames, 4n bounce frames, fade frames
      for `i` in `range(0, 1024, 8)`, and a final black frame. */
  function DemoFrames(n: nat): (fs: seq<seq<Rgb>>)
    ensures |fs| == 8 * n + 129
    ensures fs[|fs| - 1] == Solid(Black, n)
  {
    seq(4 * n, i => CycleFrame(n, i))
    + seq(4 * n, i => BounceFrame(n, i))
    + seq(128, t => FadeFrame(n, 8 * t))
    + [Solid(Black, n)]
  }

  lemma MulAtLeast(n: int, d: int)
    requires n > 0 && d >= 1
    ensures n * d >= n
  {
  }

  /** `a` divided by `n` is `q` with remainder `r`. */
  lemma DivModOf(a: int, n: int, q: int, r: int)
    requires n > 0 && 0 <= r < n && a == n * q + r
    ensures a / n == q && a % n == r
  {
    var q', r' := a / n, a % n;
    var d := q - q';
    assert a == n * q' + r';
    assert n * d == n * q - n * q';
    assert n * d == r' - r;
    if d >= 1 {
      MulAtLeast(n, d);
    }
  }

  /** Over the 4n cycle frames each pixel is lit exactly four times, once per
      pass along the strip: in frames j, j + n, j + 2n and j + 3n. */
  lemma CycleLightsEachPixelFourTimes(n: nat, i: int, j: int)
    requires 0 <= i < 4 * n && 0 <= j < n
    ensures CycleFrame(n, i)[j] == White <==> i in {j, j + n, j + 2 * n, j + 3 * n}
    ensures CycleFrame(n, i)[j] != White ==> CycleFrame(n, i)[j] == Black
  {
    if i < n {
      DivModOf(i, n, 0, i);
    } else if i < 2 * n {
      DivModOf(i, n, 1, i - n);
    } else if i < 3 * n {
      DivModOf(i, n, 2, i - 2 * n);
    } else {
      DivModOf(i, n, 3, i - 3 * n);
    }
  }

  /** From one bounce frame to the next the dark pixel moves by at most one
      place: at each end of the strip it stays put for one frame and turns. */
  lemma BounceMovesByOne(n: nat, i: int)
    requires n > 0
    ensures -1 <= BounceDark(n, i + 1) - BounceDark(n, i) <= 1
  {
    var q, r := i / n, i % n;
    assert i == n * q + r;
    if r < n - 1 {
      DivModOf(i + 1, n, q, r + 1);
    } else {
      DivModOf(i + 1, n, q + 1, 0);
    }
  }

  /** Over the four blocks of `demo`'s fade the level rises one unit per `i`,
      falls, rises again and falls again. */
  lemma FadeIsTriangle(i: int)
    requires 0 <= i < 256
    ensures FadeLevel(i) == i
    ensures FadeLevel(256 + i) == 255 - i
    ensures FadeLevel(i + 512) == FadeLevel(i)
    ensures FadeLevel(768 + i) == 255 - i
  {
    DivModOf(256 + i, 256, 1, i);
    DivModOf(512 + i, 256, 2, i);
    DivModOf(768 + i, 256, 3, i);
  }

  /** The fade repeats every 512 for every `i`. */
  lemma FadePeriodic(i: int)
    ensures FadeLevel(i + 512) == FadeLevel(i)
  {
    DivModOf(i + 512, 256, i / 256 + 2, i % 256);
  }

  /** Consecutive fade frames (8 apart) differ in red by at most 8, also
      where the fade turns. */
  lemma FadeStepsSmall(i: int)
    ensures -8 <= FadeLevel(i + 8) - FadeLevel(i) <= 8
  {
    var q, r := i / 256, i % 256;
    if r < 248 {
      DivModOf(i + 8, 256, q, r + 8);
    } else {
      DivModOf(i + 8, 256, q + 1, r - 248);
    }
  }

  /** `demo(np)`: the cycle, bounce and fade animations, then the strip cleared. */
  method Demo(strip: Strip)
    modifies strip, strip.pixels
    ensures strip.shown == old(strip.shown) + DemoFrames(strip.pixels.Length)
    ensures strip.pixels[..] == Solid(Black, strip.pixels.Length)
  {
    Cycle(strip);
    Bounce(strip);
    Fade(strip);
    // clear
    strip.Fill(Black);
    strip.Write();
  }

  /** The cycle part of `demo`: a white pixel runs along the strip four times. */
  method Cycle(strip: Strip)
    modifies strip, strip.pixels
    ensures strip.shown == old(strip.shown) + seq(4 * strip.pixels.Length, t => CycleFrame(strip.pixels.Length, t))
  {
    var n := strip.pixels.Length;
    for i := 0 to 4 * n
      invariant strip.shown == old(strip.shown) + seq(i, t => CycleFrame(n, t))
    {
      strip.Fill(Black);
      strip.pixels[i % n] := White;
      assert strip.pixels[..] == CycleFrame(n, i);
      strip.Write();
      assert seq(i + 1, t => CycleFrame(n, t)) == seq(i, t => CycleFrame(n, t)) + [CycleFrame(n, i)];
    }
  }

  /** The bounce part of `demo`: a dark pixel on dim blue runs up and back, twice. */
  method Bounce(strip: Strip)
    modifies strip, strip.pixels
    ensures strip.shown == old(strip.shown) + seq(4 * strip.pixels.Length, t => BounceFrame(strip.pixels.Length, t))
  {
    var n := strip.pixels.Length;
    for i := 0 to 4 * n
      invariant strip.shown == old(strip.shown) + seq(i, t => BounceFrame(n, t))
    {
      strip.Fill(DimBlue);
      if (i / n) % 2 == 0 {
        strip.pixels[i % n] := Black;
      } else {
        strip.pixels[n - 1 - (i % n)] := Black;
      }
      assert strip.pixels[..] == BounceFrame(n, i);
      strip.Write();
      assert seq(i + 1, t => BounceFrame(n, t)) == seq(i, t => BounceFrame(n, t)) + [BounceFrame(n, i)];
    }
  }

  /** The fade part of `demo`: red fades in and out twice, `i` stepping by 8. */
  method Fade(strip: Strip)
    modifies strip, strip.pixels
    ensures strip.shown == old(strip.shown) + seq(128, t => FadeFrame(strip.pixels.Length, 8 * t))
  {
    var n := strip.pixels.Length;
    for t := 0 to 128
      invariant strip.shown == old(strip.shown) + seq(t, u => FadeFrame(n, 8 * u))
    {
      var i := 8 * t;
      var val := if (i / 256) % 2 == 0 then i % 256 else 255 - i % 256;
      strip.Fill(Rgb(val, 0, 0));
      strip.Write();
      assert seq(t + 1, u => FadeFrame(n, 8 * u)) == seq(t, u => FadeFrame(n, 8 * u)) + [FadeFrame(n, i)];
    }
  }

  /** The start-up blink of `main.py`: a new five-pixel strip on pin 0 runs
      `demo` once, so exactly the demo frames are shown and the strip ends dark. */
  method StartupBlink() returns (strip: Strip)
    ensures fresh(strip) && fresh(strip.pixels)
    ensures strip.pixels.Length == StripLength
    ensures strip.shown == DemoFrames(StripLength)
    ensures strip.pixels[..] == Solid(Black, StripLength)
  {
    strip := new Strip(StripLength);
    Demo(strip);
  }
}
