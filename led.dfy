/** The ambient flicker engine (class `Led`): a solid colour written to the
    whole strip, and a bounded random walk of one channel at a time shown on a
    single pixel that changes every 30 ticks. */
module Flicker {
  import opened Pixels

  /** `change_nyance` moves a channel by `stepsize = 1` ... */
  const Step := 1
  /** ... within `offset = 30` of the commanded colour ... */
  const Offset := 30
  /** ... on one pixel for `counter = 30` ticks. */
  const DwellTicks := 30

  /** `new_color_value`: one step up (flag 1) or down (any other flag),
      clamped to the byte range. */
  function NewColorValue(positive: int, color: int, step: int): (r: int)
    ensures positive == 1 ==> r <= 255 && (r == color + step || r == 255)
    ensures positive != 1 ==> r >= 0 && (r == color - step || r == 0)
    ensures 0 <= color <= 255 && 0 <= step ==> 0 <= r <= 255
    ensures 0 <= color <= 255 && 0 <= step ==>
      if positive == 1 then color <= r <= color + step else color - step <= r <= color
  {
    if positive == 1 then
      var newColor := color + step;
      if newColor > 255 then 255 else newColor
    else
      var newColor := color - step;
      if newColor < 0 then 0 else newColor
  }

  /** `change_direction`: the flag for the next step. Moving up turns down
      once the value is strictly above `defaultValue + offset` or at 255;
      moving down turns up once strictly below `defaultValue - offset` or at 0. */
  function ChangeDirection(positive: int, offset: int, current: int, defaultValue: int): (r: int)
    ensures r == 0 || r == 1
    ensures positive == 1 ==> (r == 0 <==> current > defaultValue + offset || current >= 255)
    ensures positive != 1 ==> (r == 1 <==> current < defaultValue - offset || current <= 0)
  {
    if positive == 1 then
      if current > defaultValue + offset || current >= 255 then 0 else 1
    else
      if current < defaultValue - offset || current <= 0 then 1 else 0
  }

  /** One channel of the walk: its value and its direction flag. */
  datatype Channel = Channel(value: int, positive: int)

  /** The three channels of the walk. */
  datatype Drift = Drift(red: Channel, green: Channel, blue: Channel)

  /** A channel's step: move it, then re-evaluate its direction at the new value. */
  function StepChannel(c: Channel, defaultValue: int, step: int, offset: int): Channel
  {
    var v := NewColorValue(c.positive, c.value, step);
    Channel(v, ChangeDirection(c.positive, offset, v, defaultValue))
  }

  /** `update_led_color` on values: draw 0, 1 or 2 steps red, green or blue;
      draw 3 changes nothing. */
  function Flick(d: Drift, centers: Rgb, draw: int, step: int, offset: int): (e: Drift)
    ensures (e.green == d.green && e.blue == d.blue)
         || (e.red == d.red && e.blue == d.blue)
         || (e.red == d.red && e.green == d.green)
    ensures draw !in {0, 1, 2} ==> e == d
  {
    if draw == 0 then d.(red := StepChannel(d.red, centers.r, step, offset))
    else if draw == 1 then d.(green := StepChannel(d.green, centers.g, step, offset))
    else if draw == 2 then d.(blue := StepChannel(d.blue, centers.b, step, offset))
    else d
  }

  /** The flicker steps of `change_nyance` for a run of 2-bit draws. */
  function FlickRun(d: Drift, centers: Rgb, draws: seq<int>): Drift
    decreases |draws|
  {
    if draws == [] then d
    else FlickRun(Flick(d, centers, draws[0], Step, Offset), centers, draws[1..])
  }

  /** The walk state `update_colors(c)` leaves: every channel moved to its new
      value, every direction flag kept. */
  function Recolored(d: Drift, c: Rgb): Drift
  {
    Drift(Channel(c.r, d.red.positive), Channel(c.g, d.green.positive), Channel(c.b, d.blue.positive))
  }

  /** The excursion band of a channel walking around `center`: it stays a byte,
      its flag is 0 or 1, it is never more than one step beyond
      `center +- Offset`, and it only overshoots in the direction it has
      already turned away from. */
  ghost predicate InBand(c: Channel, center: int)
  {
    && 0 <= c.value <= 255
    && (c.positive == 0 || c.positive == 1)
    && center - Offset - Step <= c.value <= center + Offset + Step
    && (c.positive == 1 ==> c.value <= center + Offset)
    && (c.positive == 0 ==> c.value >= center - Offset)
  }

  ghost predicate DriftInBand(d: Drift, centers: Rgb)
  {
    InBand(d.red, centers.r) && InBand(d.green, centers.g) && InBand(d.blue, centers.b)
  }

  /** `update_colors` puts each channel at its centre, which is inside the band
      whatever the direction flag left over from before. */
  lemma CenterIsInBand(c: Channel)
    requires 0 <= c.value <= 255 && (c.positive == 0 || c.positive == 1)
    ensures InBand(c, c.value)
  {
  }

  /** One step of a channel keeps it in its band. */
  lemma StepKeepsBand(c: Channel, center: int)
    requires 0 <= center <= 255
    requires InBand(c, center)
    ensures InBand(StepChannel(c, center, Step, Offset), center)
  {
  }

  /** However the draws fall, the flicker never leaves the bands around a
      commanded colour, and so never leaves 0..255. */
  lemma {:induction false} FlickRunKeepsBand(d: Drift, centers: Rgb, draws: seq<int>)
    requires InByteRange(centers)
    requires DriftInBand(d, centers)
    ensures DriftInBand(FlickRun(d, centers, draws), centers)
    decreases |draws|
  {
    if draws != [] {
      StepKeepsBand(d.red, centers.r);
      StepKeepsBand(d.green, centers.g);
      StepKeepsBand(d.blue, centers.b);
      FlickRunKeepsBand(Flick(d, centers, draws[0], Step, Offset), centers, draws[1..]);
    }
  }

  /** The pixel selection of `change_nyance`: the ticks left on the current
      pixel, and that pixel. */
  datatype Dwell = Dwell(counter: int, pixel: int)

  /** Re-arm to 30 ticks on pixel `int(r8 / 52)` when the counter is 0, then
      use up one tick. */
  function DwellStep(d: Dwell, r8: int): (e: Dwell)
    ensures d.counter == 0 && 0 <= r8 < 256 ==> 0 <= e.pixel < StripLength
    ensures d.counter == 0 ==> e.counter == DwellTicks - 1 && e.pixel == r8 / 52
    ensures d.counter != 0 ==> e.counter == d.counter - 1 && e.pixel == d.pixel
  {
    var armed := if d.counter == 0 then Dwell(DwellTicks, r8 / 52) else d;
    armed.(counter := armed.counter - 1)
  }

  /** Successive dwell steps for a run of 8-bit draws. */
  function DwellRun(d: Dwell, draws: seq<int>): Dwell
    decreases |draws|
  {
    if draws == [] then d else DwellRun(DwellStep(d, draws[0]), draws[1..])
  }

  /** While ticks remain, the pixel does not change and the draws are ignored. */
  lemma {:induction false} DwellKeepsPixel(d: Dwell, draws: seq<int>)
    requires d.counter >= |draws|
    ensures DwellRun(d, draws) == Dwell(d.counter - |draws|, d.pixel)
    decreases |draws|
  {
    if draws != [] {
      DwellKeepsPixel(DwellStep(d, draws[0]), draws[1..]);
    }
  }

  /** From a spent counter, the next 30 ticks all go to the pixel chosen by the
      first draw, and after them the counter is spent again, so the 31st tick
      chooses afresh. */
  lemma DwellThirtyTicks(d: Dwell, draws: seq<int>)
    requires d.counter == 0 && |draws| == DwellTicks
    requires 0 <= draws[0] < 256
    ensures forall k :: 1 <= k <= DwellTicks ==>
      DwellRun(d, draws[..k]) == Dwell(DwellTicks - k, draws[0] / 52)
    ensures DwellRun(d, draws).counter == 0
    ensures 0 <= draws[0] / 52 < StripLength
  {
    forall k | 1 <= k <= DwellTicks
      ensures DwellRun(d, draws[..k]) == Dwell(DwellTicks - k, draws[0] / 52)
    {
      assert draws[..k][1..] == draws[1..k];
      DwellKeepsPixel(DwellStep(d, draws[0]), draws[1..k]);
    }
    assert draws[..DwellTicks] == draws;
  }

  class Led {
    /** The shared pin-0 strip. */
    const strip: Strip
    var startvalues: Rgb
    var defaultRed: int
    var defaultGreen: int
    var defaultBlue: int
    var red: int
    var green: int
    var blue: int
    var rPositive: int
    var gPositive: int
    var bPositive: int
    var counter: int
    /** Unset until the first `change_nyance`, which sets it because the
        counter starts at 0; only meaningful while ticks remain. */
    var randomnum: int

    ghost predicate Valid()
      reads this
    {
      && strip.pixels.Length == StripLength
      && 0 <= counter < DwellTicks
      && (counter != 0 ==> 0 <= randomnum < StripLength)
      && (rPositive == 0 || rPositive == 1)
      && (gPositive == 0 || gPositive == 1)
      && (bPositive == 0 || bPositive == 1)
    }

    function Current(): Rgb
      reads this
    {
      Rgb(red, green, blue)
    }

    function Centers(): Rgb
      reads this
    {
      Rgb(defaultRed, defaultGreen, defaultBlue)
    }

    function CurrentDrift(): Drift
      reads this
    {
      Drift(Channel(red, rPositive), Channel(green, gPositive), Channel(blue, bPositive))
    }

    function CurrentDwell(): Dwell
      reads this
    {
      Dwell(counter, randomnum)
    }

    /** The class defaults: every colour field 0, every direction up, the
        dwell counter spent. */
    constructor (strip: Strip)
      requires strip.pixels.Length == StripLength
      ensures Valid() && this.strip == strip
      ensures startvalues == Black && Centers() == Black && Current() == Black
      ensures rPositive == 1 && gPositive == 1 && bPositive == 1
      ensures counter == 0
    {
      this.strip := strip;
      startvalues := Black;
      defaultRed, defaultGreen, defaultBlue := 0, 0, 0;
      red, green, blue := 0, 0, 0;
      rPositive, gPositive, bPositive := 1, 1, 1;
      counter := 0;
      randomnum := 0;
    }

    /** `update_colors`: the new commanded colour becomes the start value, the
        centre of the walk and the current colour, and is shown on every
        pixel. Direction flags and the dwell are left as they were. */
    method UpdateColors(r: int, g: int, b: int)
      requires Valid()
      modifies this`startvalues, this`defaultRed, this`defaultGreen, this`defaultBlue
      modifies this`red, this`green, this`blue, strip, strip.pixels
      ensures Valid()
      ensures startvalues == Rgb(r, g, b) && Centers() == Rgb(r, g, b) && Current() == Rgb(r, g, b)
      ensures CurrentDrift() == Recolored(old(CurrentDrift()), Rgb(r, g, b))
      ensures strip.pixels[..] == Solid(Rgb(r, g, b), StripLength)
      ensures strip.shown == old(strip.shown) + [Solid(Rgb(r, g, b), StripLength)]
    {
      startvalues := Rgb(r, g, b);
      defaultRed, defaultGreen, defaultBlue := r, g, b;
      red, blue, green := r, b, g;
      strip.Fill(startvalues);
      strip.Write();
    }

    /** `turn_off`: every pixel black; the stored colour is kept so that the
        next `update_colors` or flicker tick shows it again. */
    method TurnOff()
      requires Valid()
      modifies strip, strip.pixels
      ensures strip.pixels[..] == Solid(Black, StripLength)
      ensures strip.shown == old(strip.shown) + [Solid(Black, StripLength)]
    {
      strip.Fill(Black);
      strip.Write();
    }

    /** `update_led_color`: step the channel the 2-bit draw selects and return
        the current colour. */
    method UpdateLedColor(step: int, offset: int, draw: int) returns (c: Rgb)
      modifies this`red, this`green, this`blue, this`rPositive, this`gPositive, this`bPositive
      ensures CurrentDrift() == Flick(old(CurrentDrift()), Centers(), draw, step, offset)
      ensures c == Current()
    {
      if draw == 0 {
        red := NewColorValue(rPositive, red, step);
        rPositive := ChangeDirection(rPositive, offset, red, defaultRed);
      } else if draw == 1 {
        green := NewColorValue(gPositive, green, step);
        gPositive := ChangeDirection(gPositive, offset, green, defaultGreen);
      } else if draw == 2 {
        blue := NewColorValue(bPositive, blue, step);
        bPositive := ChangeDirection(bPositive, offset, blue, defaultBlue);
      }
      c := Rgb(red, green, blue);
    }

    /** `change_nyance`: unless the commanded colour is black, take one dwell
        step (drawing a new pixel from `r8` when the counter is spent), one
        flicker step from `draw`, and show the result on that pixel alone. */
    method ChangeNyance(r8: int, draw: int)
      requires Valid()
      requires 0 <= r8 < 256
      modifies this`counter, this`randomnum
      modifies this`red, this`green, this`blue, this`rPositive, this`gPositive, this`bPositive
      modifies strip, strip.pixels
      ensures Valid()
      ensures old(startvalues) == Black ==>
        && CurrentDwell() == old(CurrentDwell()) && CurrentDrift() == old(CurrentDrift())
        && strip.pixels[..] == old(strip.pixels[..]) && strip.shown == old(strip.shown)
      ensures old(startvalues) != Black ==>
        && CurrentDwell() == DwellStep(old(CurrentDwell()), r8)
        && CurrentDrift() == Flick(old(CurrentDrift()), Centers(), draw, Step, Offset)
        && 0 <= randomnum < StripLength
        && strip.pixels[..] == old(strip.pixels[..])[randomnum := Current()]
        && strip.shown == old(strip.shown) + [strip.pixels[..]]
    {
      if startvalues != Black {
        if counter == 0 {
          randomnum := r8 / 52;
          counter := DwellTicks;
        }
        var c := UpdateLedColor(Step, Offset, draw);
        strip.pixels[randomnum] := c;
        strip.Write();
        counter := counter - 1;
      }
    }
  }
}
