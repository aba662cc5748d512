/** The Home Assistant client (class `HA_Client`): applies decoded state
    messages to its fields, and runs one tick of the render loop that hands
    those fields to the LED engine and picks the render mode. */
module HomeAssistant {
  import opened Pixels
  import Rainbow
  import opened Flicker

  datatype Option<T> = None | Some(value: T)

  /** The `color` object of a state message; any key may be missing. */
  datatype ColorJson = ColorJson(r: Option<int>, g: Option<int>, b: Option<int>)

  /** A decoded state message; any key may be missing. */
  datatype Payload = Payload(
    state: Option<string>,
    color: Option<ColorJson>,
    brightness: Option<int>,
    effect: Option<string>)

  /** The fields of `HA_Client`. `percentage` is the brightness fraction. */
  datatype ClientState = ClientState(
    percentage: real,
    ledstate: string,
    effect: string,
    updated: bool,
    rawRed: int, rawGreen: int, rawBlue: int,
    red: int, green: int, blue: int)

  /** The class defaults of `HA_Client`. */
  const Initial := ClientState(1.0, "OFF", "None", false, 0, 0, 0, 0, 0, 0)

  /** Python's `int()` on a number: truncation toward zero. */
  function Trunc(x: real): (n: int)
    ensures 0.0 <= x ==> 0 <= n && n as real <= x < n as real + 1.0
    ensures x < 0.0 ==> n <= 0 && n as real - 1.0 < x <= n as real
  {
    if x >= 0.0 then x.Floor else -((-x).Floor)
  }

  /** A displayed channel: the raw channel scaled by the brightness fraction,
      truncated, and clamped below at 0 (there is no upper clamp). */
  function Derive(raw: int, percentage: real): (c: int)
    ensures c >= 0
    ensures 0.0 <= raw as real * percentage ==>
      c as real <= raw as real * percentage < c as real + 1.0
    ensures raw as real * percentage < 1.0 ==> c == 0
  {
    var v := Trunc(raw as real * percentage);
    if v < 0 then 0 else v
  }

  /** The brightness fraction `int(brightness) / 255`. */
  function Fraction(brightness: int): real
  {
    brightness as real / 255.0
  }

  /** The `color` block: red, then green, then blue; the first missing key
      ends the block, keeping whatever was already applied. */
  function ApplyColor(s: ClientState, c: ColorJson): ClientState
  {
    match c.r
    case None => s
    case Some(r) =>
      var s1 := s.(rawRed := r, red := Derive(r, s.percentage));
      match c.g
      case None => s1
      case Some(g) =>
        var s2 := s1.(rawGreen := g, green := Derive(g, s1.percentage));
        match c.b
        case None => s2
        case Some(b) => s2.(rawBlue := b, blue := Derive(b, s2.percentage))
  }

  /** The `brightness` block: a new fraction, and all three displayed channels
      re-derived from the raw ones. */
  function ApplyBrightness(s: ClientState, brightness: int): ClientState
  {
    var p := Fraction(brightness);
    s.(percentage := p,
       red := Derive(s.rawRed, p),
       green := Derive(s.rawGreen, p),
       blue := Derive(s.rawBlue, p))
  }

  /** `sub_callback` raises when the message cannot be split or decoded
      (`None`) or has no `state` key. */
  predicate Raises(msg: Option<Payload>)
  {
    msg.None? || msg.value.state.None?
  }

  /** The fields after `sub_callback(msg)`: `updated` is set first, so it is
      set even when the call raises; the other blocks each skip on a missing
      key. */
  function Receive(s: ClientState, msg: Option<Payload>): (r: ClientState)
    ensures r.updated
    ensures Raises(msg) ==> r == s.(updated := true)
    ensures !Raises(msg) ==> r.ledstate == msg.value.state.value
    ensures !Raises(msg) && msg.value.color.None? && msg.value.brightness.None? ==>
      r == s.(updated := true, ledstate := r.ledstate, effect := r.effect)
    ensures !Raises(msg) ==>
      r.effect == (if msg.value.effect.Some? then msg.value.effect.value else s.effect)
    ensures !Raises(msg) ==>
      r.percentage == (if msg.value.brightness.Some? then Fraction(msg.value.brightness.value) else s.percentage)
    ensures !Raises(msg) && msg.value.color.None? ==>
      r.rawRed == s.rawRed && r.rawGreen == s.rawGreen && r.rawBlue == s.rawBlue
    ensures !Raises(msg) && msg.value.color.Some? ==>
      var c := msg.value.color.value;
      && r.rawRed == (if c.r.Some? then c.r.value else s.rawRed)
      && r.rawGreen == (if c.r.Some? && c.g.Some? then c.g.value else s.rawGreen)
      && r.rawBlue == (if c.r.Some? && c.g.Some? && c.b.Some? then c.b.value else s.rawBlue)
    ensures !Raises(msg) && msg.value.brightness.Some? ==>
      && r.red == Derive(r.rawRed, r.percentage)
      && r.green == Derive(r.rawGreen, r.percentage)
      && r.blue == Derive(r.rawBlue, r.percentage)
    ensures s.red >= 0 && s.green >= 0 && s.blue >= 0 ==> r.red >= 0 && r.green >= 0 && r.blue >= 0
  {
    var s0 := s.(updated := true);
    if Raises(msg) then s0
    else
      var p := msg.value;
      var s1 := s0.(ledstate := p.state.value);
      var s2 := if p.color.Some? then ApplyColor(s1, p.color.value) else s1;
      var s3 := if p.brightness.Some? then ApplyBrightness(s2, p.brightness.value) else s2;
      if p.effect.Some? then s3.(effect := p.effect.value) else s3
  }

  /** Every displayed channel is its raw channel under the current brightness. */
  ghost predicate Consistent(s: ClientState)
  {
    && s.red == Derive(s.rawRed, s.percentage)
    && s.green == Derive(s.rawGreen, s.percentage)
    && s.blue == Derive(s.rawBlue, s.percentage)
  }

  /** Raw channels are bytes and the brightness fraction lies in [0, 1]. */
  ghost predicate Nominal(s: ClientState)
  {
    && 0 <= s.rawRed <= 255 && 0 <= s.rawGreen <= 255 && 0 <= s.rawBlue <= 255
    && 0.0 <= s.percentage <= 1.0
  }

  /** Every value a message carries is a byte. */
  ghost predicate NominalPayload(msg: Option<Payload>)
  {
    msg.Some? ==>
      && (msg.value.brightness.Some? ==> 0 <= msg.value.brightness.value <= 255)
      && (msg.value.color.Some? ==>
        var c := msg.value.color.value;
        && (c.r.Some? ==> 0 <= c.r.value <= 255)
        && (c.g.Some? ==> 0 <= c.g.value <= 255)
        && (c.b.Some? ==> 0 <= c.b.value <= 255))
  }

  lemma InitialIsConsistent()
    ensures Consistent(Initial) && Nominal(Initial) && Displayable(Initial)
  {
  }

  /** Each message, complete or partial, keeps the displayed channels derived
      from the raw ones under the current brightness. */
  lemma ReceiveKeepsConsistent(s: ClientState, msg: Option<Payload>)
    requires Consistent(s)
    ensures Consistent(Receive(s, msg))
  {
  }

  /** Displayed channels are bytes. */
  ghost predicate Displayable(s: ClientState)
  {
    0 <= s.red <= 255 && 0 <= s.green <= 255 && 0 <= s.blue <= 255
  }

  /** Without an upper clamp the displayed channels still stay bytes as long
      as every message carries bytes. */
  lemma NominalMessagesStayInRange(s: ClientState, msg: Option<Payload>)
    requires Nominal(s) && Displayable(s) && NominalPayload(msg)
    ensures Nominal(Receive(s, msg)) && Displayable(Receive(s, msg))
  {
    var r := Receive(s, msg);
    DeriveAtMostRaw(r.rawRed, r.percentage);
    DeriveAtMostRaw(r.rawGreen, r.percentage);
    DeriveAtMostRaw(r.rawBlue, r.percentage);
  }

  lemma DeriveAtMostRaw(raw: int, percentage: real)
    requires 0 <= raw && 0.0 <= percentage <= 1.0
    ensures Derive(raw, percentage) <= raw
  {
  }

  /** A colour block with `r` but no `g` still updates red, and leaves green
      and blue, raw and displayed, as they were. */
  lemma PartialColorUpdatesRed(s: ClientState, state: string, r: int, b: Option<int>, effect: Option<string>)
    ensures var t := Receive(s, Some(Payload(Some(state), Some(ColorJson(Some(r), None, b)), None, effect)));
      && t.rawRed == r && t.red == Derive(r, s.percentage)
      && t.rawGreen == s.rawGreen && t.green == s.green
      && t.rawBlue == s.rawBlue && t.blue == s.blue
  {
  }

  /** At full brightness (255) the displayed colour is the commanded one. */
  lemma FullBrightnessShowsRaw(s: ClientState, state: string, r: int, g: int, b: int)
    requires 0 <= r && 0 <= g && 0 <= b
    ensures var t := Receive(s, Some(Payload(Some(state), Some(ColorJson(Some(r), Some(g), Some(b))), Some(255), None)));
      t.red == r && t.green == g && t.blue == b
  {
  }

  /** Red at brightness 128 from the start-up state: raw (255, 0, 0), shown
      as (128, 0, 0) since 255 * (128 / 255) is exactly 128. */
  lemma HalfBrightnessRed()
    ensures var t := Receive(Initial, Some(Payload(Some("ON"), Some(ColorJson(Some(255), Some(0), Some(0))), Some(128), None)));
      && t.rawRed == 255 && t.rawGreen == 0 && t.rawBlue == 0
      && t.red == 128 && t.green == 0 && t.blue == 0
      && t.ledstate == "ON" && t.effect == "None" && t.updated
  {
  }

  /** The render modes of one loop iteration; `Show` carries the delay given
      to `show`. */
  datatype Mode = Off | Show(delay: int) | Nyance

  /** `ure.match(pattern, s)` with a pattern of plain characters: `s` starts
      with `pattern`. */
  predicate Matches(pattern: string, s: string)
  {
    pattern <= s
  }

  /** The mode chain of `run`: `OFF` first, then the three rainbow patterns in
      source order, else the flicker. */
  function SelectMode(ledstate: string, effect: string): (m: Mode)
    ensures m == Off <==> Matches("OFF", ledstate)
    ensures m.Show? <==> !Matches("OFF", ledstate) && Matches("rainbow", effect)
    ensures m.Show? ==> m.delay == 60
  {
    if Matches("OFF", ledstate) then Off
    else if Matches("rainbow", effect) then Show(60)
    else if Matches("rainbow_slow", effect) then Show(100)
    else if Matches("rainbow_fast", effect) then Show(30)
    else Nyance
  }

  /** Why the slow and fast branches never run: both names start with `rainbow`. */
  lemma RainbowVariantsMatchRainbow(effect: string)
    ensures Matches("rainbow_slow", effect) ==> Matches("rainbow", effect)
    ensures Matches("rainbow_fast", effect) ==> Matches("rainbow", effect)
  {
  }

  /** An accepted `OFF` message blanks the strip on the next tick whatever its
      effect; an `ON` message with effect `rainbow_fast` runs `show(60)`. */
  lemma MessageSelectsMode(s: ClientState, p: Payload)
    requires p.state.Some?
    ensures p.state.value == "OFF" ==>
      var t := Receive(s, Some(p)); SelectMode(t.ledstate, t.effect) == Off
    ensures p.state.value == "ON" && p.effect == Some("rainbow_fast") ==>
      var t := Receive(s, Some(p)); SelectMode(t.ledstate, t.effect) == Show(60)
  {
  }

  class HaClient {
    var percentage: real
    var ledstate: string
    var effect: string
    var updated: bool
    var rawRed: int
    var rawGreen: int
    var rawBlue: int
    var red: int
    var green: int
    var blue: int

    function State(): ClientState
      reads this
    {
      ClientState(percentage, ledstate, effect, updated, rawRed, rawGreen, rawBlue, red, green, blue)
    }

    constructor ()
      ensures State() == Initial
    {
      percentage := 1.0;
      ledstate := "OFF";
      effect := "None";
      updated := false;
      rawRed, rawGreen, rawBlue := 0, 0, 0;
      red, green, blue := 0, 0, 0;
    }

    /** `sub_callback(topic, msg)`: `msg` is the decoded JSON object, or `None`
        when splitting or decoding fails. Returns whether the call raised. */
    method SubCallback(msg: Option<Payload>) returns (raised: bool)
      modifies this
      ensures State() == Receive(old(State()), msg)
      ensures raised == Raises(msg)
    {
      updated := true;
      if msg.None? || msg.value.state.None? {
        return true;
      }
      raised := false;
      var json := msg.value;
      ledstate := json.state.value;
      if json.color.Some? {
        ApplyColorBlock(json.color.value);
      }
      if json.brightness.Some? {
        ApplyBrightnessBlock(json.brightness.value);
      }
      if json.effect.Some? {
        effect := json.effect.value;
      }
    }

    /** The first `try` block of `sub_callback`; a missing key is the `KeyError`
        that ends it. */
    method ApplyColorBlock(c: ColorJson)
      modifies this
      ensures State() == ApplyColor(old(State()), c)
    {
      if c.r.None? {
        return;
      }
      rawRed := c.r.value;
      red := Derive(rawRed, percentage);
      if c.g.None? {
        return;
      }
      rawGreen := c.g.value;
      green := Derive(rawGreen, percentage);
      if c.b.None? {
        return;
      }
      rawBlue := c.b.value;
      blue := Derive(rawBlue, percentage);
    }

    /** The second `try` block of `sub_callback`. */
    method ApplyBrightnessBlock(brightness: int)
      modifies this
      ensures State() == ApplyBrightness(old(State()), brightness)
    {
      percentage := brightness as real / 255.0;
      red := Derive(rawRed, percentage);
      green := Derive(rawGreen, percentage);
      blue := Derive(rawBlue, percentage);
    }

    /** One iteration of the `run` loop after `check_msg`: hand a pending
        update to the LED engine and clear the flag, then render the selected
        mode. `r8` and `draw` are the random draws a flicker tick consumes.
        `drift0`, `pixels0` and `shown0` are the walk state, the buffer and
        the flushed frames once the pending update is handed over. */
    method Tick(led: Led, r8: int, draw: int) returns (mode: Mode)
      requires led.Valid()
      requires 0 <= r8 < 256
      modifies this`updated, led, led.strip, led.strip.pixels
      ensures led.Valid()
      ensures !updated
      ensures mode == SelectMode(ledstate, effect)
      ensures old(updated) ==>
        led.startvalues == Rgb(red, green, blue) && led.Centers() == Rgb(red, green, blue)
      ensures !old(updated) ==>
        led.startvalues == old(led.startvalues) && led.Centers() == old(led.Centers())
      ensures var drift0 := if old(updated) then Recolored(old(led.CurrentDrift()), Rgb(red, green, blue))
            else old(led.CurrentDrift());
          var pixels0 := if old(updated) then Solid(Rgb(red, green, blue), StripLength)
            else old(led.strip.pixels[..]);
          var shown0 := old(led.strip.shown) + (if old(updated) then [pixels0] else []);
        && (mode != Nyance || led.startvalues == Black ==>
              led.CurrentDrift() == drift0 && led.CurrentDwell() == old(led.CurrentDwell()))
        && (mode == Off ==>
              && led.strip.pixels[..] == Solid(Black, StripLength)
              && led.strip.shown == shown0 + [Solid(Black, StripLength)])
        && (mode.Show? ==>
              && led.strip.pixels[..] == Rainbow.RainbowFrame(255)
              && led.strip.shown == shown0 + Rainbow.RainbowCycle())
        && (mode == Nyance && led.startvalues == Black ==>
              led.strip.pixels[..] == pixels0 && led.strip.shown == shown0)
        && (mode == Nyance && led.startvalues != Black ==>
              && led.CurrentDwell() == DwellStep(old(led.CurrentDwell()), r8)
              && led.CurrentDrift() == Flick(drift0, led.Centers(), draw, Step, Offset)
              && 0 <= led.randomnum < StripLength
              && led.strip.pixels[..] == pixels0[led.randomnum := led.Current()]
              && led.strip.shown == shown0 + [led.strip.pixels[..]])
    {
      if updated {
        led.UpdateColors(red, green, blue);
        updated := false;
      }
      mode := SelectMode(ledstate, effect);
      Render(led, mode, r8, draw);
    }

    /** The mode chain of `run` once the mode is selected: `turn_off`,
        `show(delay)` or `change_nyance`. */
    static method Render(led: Led, mode: Mode, r8: int, draw: int)
      requires led.Valid()
      requires 0 <= r8 < 256
      modifies led, led.strip, led.strip.pixels
      ensures led.Valid()
      ensures led.startvalues == old(led.startvalues) && led.Centers() == old(led.Centers())
      ensures mode != Nyance || led.startvalues == Black ==>
        led.CurrentDrift() == old(led.CurrentDrift()) && led.CurrentDwell() == old(led.CurrentDwell())
      ensures mode == Off ==>
        && led.strip.pixels[..] == Solid(Black, StripLength)
        && led.strip.shown == old(led.strip.shown) + [Solid(Black, StripLength)]
      ensures mode.Show? ==>
        && led.strip.pixels[..] == Rainbow.RainbowFrame(255)
        && led.strip.shown == old(led.strip.shown) + Rainbow.RainbowCycle()
      ensures mode == Nyance && led.startvalues == Black ==>
        led.strip.pixels[..] == old(led.strip.pixels[..]) && led.strip.shown == old(led.strip.shown)
      ensures mode == Nyance && led.startvalues != Black ==>
        && led.CurrentDwell() == DwellStep(old(led.CurrentDwell()), r8)
        && led.CurrentDrift() == Flick(old(led.CurrentDrift()), led.Centers(), draw, Step, Offset)
        && 0 <= led.randomnum < StripLength
        && led.strip.pixels[..] == old(led.strip.pixels[..])[led.randomnum := led.Current()]
        && led.strip.shown == old(led.strip.shown) + [led.strip.pixels[..]]
    {
      match mode
      case Off =>
        led.TurnOff();
      case Show(delay) =>
        Rainbow.Show(led.strip, delay);
      case Nyance =>
        led.ChangeNyance(r8, draw);
    }
  }
}
