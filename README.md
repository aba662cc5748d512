# homecloud LED controller — a Dafny model

A model of the LED side of the homecloud controller: a five-pixel NeoPixel
strip on pin 0 of a MicroPython board, driven by colour/brightness/effect
messages from Home Assistant. It covers

- the rainbow effect (`Rainbow.wheel`, `Rainbow.show`);
- the ambient flicker engine (`Led`): the solid colour, `turn_off`, and the
  bounded random walk of one channel at a time shown on one pixel for a
  30-tick dwell (`change_nyance`, `update_led_color`, `change_direction`,
  `new_color_value`);
- the Home Assistant client (`HA_Client`): how `sub_callback` applies a
  decoded state message field by field, and one iteration of the `run` loop
  (hand a pending update to the LEDs, clear the flag, pick the render mode);
- the boot helpers of `main.py`: `set_color` (24-bit colour to RGB) and the
  `demo` light show (cycle, bounce, fade, clear).

Files: `pixels.dfy` (module `Pixels`: the `Rgb` triple and the `Strip`
class, a single object standing for both pin-0 strips, `Rainbow.np` and
`Led.np`; see "Left out"), `rainbow.dfy` (module `Rainbow`), `led.dfy` (module
`Flicker`: pure channel and dwell functions and class `Led`), `ha_client.dfy`
(module `HomeAssistant`: the message as a datatype, the pure `Receive` and
`SelectMode`, and class `HaClient`), `boot.dfy` (module `Boot`).

How the model stands for the program:

- `np.write()` is `Strip.Write`, which appends the buffer to the ghost
  history `shown`; every animation is specified by the frames it flushes.
- Every random draw is a parameter: `r8` in 0..255 for `getrandbits(8)`,
  `draw` for `getrandbits(2)`.
- Direction flags are the source's integers (1 is up, anything else down).
- `sub_callback` receives the decoded JSON object as a `Payload` whose keys
  are all optional, or `None` when splitting or decoding the message fails.
  A missing key is the `KeyError` of the source: the `color` block stops at
  the first missing channel and keeps what it already applied; a missing
  `state` escapes the call after `updated` was set (`Raises`). That
  exception leaves `check_msg` and the `while True` loop of `run`
  (Homecloud.py:248-250, 268-269), and `main.py` then resets the board
  (main.py:141-144), so no loop iteration (`Tick`) ever follows a message
  for which `Raises` holds.
- `int()` on a float is `Trunc` (toward zero) on an exact `real`; the
  brightness fraction is `brightness / 255` as an exact `real`.
- `ure.match(p, s)` with the literal patterns used is "s starts with p".
  As a result any effect starting with `rainbow` runs `show(60)`, and the
  `rainbow_slow` (100 ms) and `rainbow_fast` (30 ms) branches can never be
  taken (`SelectMode`, `RainbowVariantsMatchRainbow`).

Behaviour of the code worth knowing:

- `update_colors` does not reset the direction flags or the dwell counter.
- The whole message, not the part after the first colon, is JSON-decoded.
- An effect named `rainbow_fast` or `rainbow_slow` runs at 60 ms per step,
  not at its own delay.
- In exact arithmetic, and in IEEE single or double precision, red 255 at
  brightness 128 is shown as 128: `255 * (128 / 255)` is 128 and `int()`
  keeps it (`HalfBrightnessRed`). A MicroPython build with reduced-precision
  floats can give 127 instead (see "Left out").

## Model

| member | source | states |
|---|---|---|
| Pixels.Strip.constructor | Homecloud.py:23 | a new strip owns a newly allocated buffer of all-black pixels and has shown nothing |
| Pixels.Strip.Fill | Homecloud.py:79-80 | every pixel of the buffer holds the given triple afterwards |
| Pixels.Strip.Write | Homecloud.py:82 | a flush appends exactly the current buffer to the frames shown |
| Rainbow.Wheel | Homecloud.py:39-51 | every channel is a byte, the channels sum to 255 and at least one of them is 0 |
| Rainbow.WheelDependsOnlyOnPhase | Homecloud.py:40 | the colour depends only on `(i + j) & 255` |
| Rainbow.WheelPeriodic | Homecloud.py:40-41 | the wheel has period 256 in its position |
| Rainbow.WheelContinuous | Homecloud.py:40-51 | one position further changes each channel by at most 3, including at band borders and at the wrap from 255 to 0 |
| Rainbow.WheelAlmostInjective | Homecloud.py:40-51 | two phases give the same colour only if they are equal or are 0 and 255 |
| Rainbow.RainbowFramePhase | Homecloud.py:29-34 | in step i pixel k shows the wheel at phase `(i + 11k) & 255` |
| Rainbow.RainbowPixelsDistinct | Homecloud.py:29-34 | within one step the five pixels show five different colours |
| Rainbow.Show | Homecloud.py:28-37 | 256 frames are flushed, frame i holding `wheel(i + 10k, k)` on pixel k, and the buffer ends on frame 255 |
| Rainbow.ShowStep | Homecloud.py:29-36 | one step writes the five wheel colours of step i and flushes exactly that frame |
| Flicker.NewColorValue | Homecloud.py:145-158 | the result is color+step when moving up and color-step otherwise unless clamped to 255 or 0; from a byte it stays a byte and moves at most one step in the flag's direction |
| Flicker.ChangeDirection | Homecloud.py:134-143 | the result is 0 or 1; moving up it is 0 exactly when current > default+offset or current >= 255; moving down it is 1 exactly when current < default-offset or current <= 0 |
| Flicker.Flick | Homecloud.py:103-131 | at most one channel (value and flag) changes, and a draw of 3 changes nothing |
| Flicker.CenterIsInBand | Homecloud.py:70-77 | a channel set to its own centre is inside its excursion band whatever its flag |
| Flicker.StepKeepsBand | Homecloud.py:134-158 | one step keeps a channel a byte and within one step of `center +- 30` |
| Flicker.FlickRunKeepsBand | Homecloud.py:90-131 | for every sequence of 2-bit draws the flicker keeps all three channels in their bands, hence in 0..255 |
| Flicker.DwellStep | Homecloud.py:91-100 | a spent counter is re-armed on pixel `r8 // 52`, which is in 0..4; otherwise the pixel is kept and the counter drops by one |
| Flicker.DwellKeepsPixel | Homecloud.py:92-100 | while ticks remain the pixel is unchanged and the counter counts down by the number of ticks |
| Flicker.DwellThirtyTicks | Homecloud.py:90-100 | from a spent counter the next 30 ticks all go to the pixel chosen by the first draw and the counter is spent again after them |
| Flicker.Led.constructor | Homecloud.py:53-68 | all colour fields 0, all directions up, counter 0 |
| Flicker.Led.UpdateColors | Homecloud.py:70-82 | start values, defaults and current colour become (r,g,b), the direction flags are kept (`Recolored`), and one frame with (r,g,b) on every pixel is shown |
| Flicker.Led.TurnOff | Homecloud.py:84-88 | one all-black frame is shown and no colour field changes |
| Flicker.Led.UpdateLedColor | Homecloud.py:103-131 | the walk state becomes `Flick` of the old one and the current colour is returned |
| Flicker.Led.ChangeNyance | Homecloud.py:90-100 | with black start values nothing changes; otherwise one dwell step and one flicker step, and only the selected pixel of the shown frame changes |
| HomeAssistant.Trunc | Homecloud.py:194 | `int()` truncates toward zero |
| HomeAssistant.Derive | Homecloud.py:193-206 | the displayed channel is never negative, is the integer part of raw times brightness when that is not negative, and is 0 below 1 |
| HomeAssistant.Receive | Homecloud.py:176-235 | `updated` is always set; a raising message changes nothing else; otherwise `ledstate` is the message's state, effect and brightness are replaced only when present; without a colour key the raw channels are kept, with one `r` sets raw red, `g` raw green only after `r`, `b` raw blue only after both, and later raw channels are kept; with a brightness key every displayed channel is its raw channel under the new fraction; no colour field changes without a colour or brightness key, and channels stay non-negative |
| HomeAssistant.InitialIsConsistent | Homecloud.py:161-171 | the start-up fields are consistent, nominal and displayable |
| HomeAssistant.ReceiveKeepsConsistent | Homecloud.py:191-229 | every message keeps each displayed channel equal to its raw channel under the current brightness |
| HomeAssistant.NominalMessagesStayInRange | Homecloud.py:191-229 | with byte raw channels, a brightness fraction in [0,1] and byte displayed channels, a message carrying only bytes keeps all three so, although only the lower bound is clamped |
| HomeAssistant.DeriveAtMostRaw | Homecloud.py:215-224 | for a non-negative raw channel at a brightness fraction in [0,1], the displayed channel never exceeds it (a negative raw channel is shown as 0, above it) |
| HomeAssistant.PartialColorUpdatesRed | Homecloud.py:192-210 | a colour with r but no g updates red and leaves green and blue untouched |
| HomeAssistant.FullBrightnessShowsRaw | Homecloud.py:213-224 | for non-negative commanded channels, brightness 255 shows the displayed colour equal to the commanded one (a negative channel is shown as 0) |
| HomeAssistant.HalfBrightnessRed | Homecloud.py:183-224 | from start-up, red 255 at brightness 128 gives raw (255,0,0), shown (128,0,0), state ON, effect unchanged |
| HomeAssistant.SelectMode | Homecloud.py:256-265 | Off exactly when the state starts with OFF; a rainbow mode exactly when not off and the effect starts with rainbow, always at 60 ms |
| HomeAssistant.RainbowVariantsMatchRainbow | Homecloud.py:258-263 | every effect matched by rainbow_slow or rainbow_fast is matched by rainbow first |
| HomeAssistant.MessageSelectsMode | Homecloud.py:189-263 | an accepted OFF message selects Off; ON with effect rainbow_fast selects `show(60)` |
| HomeAssistant.HaClient.constructor | Homecloud.py:161-171 | the fields start at the class defaults |
| HomeAssistant.HaClient.SubCallback | Homecloud.py:176-235 | the fields become `Receive` of the old fields and the call raises exactly when `Raises` holds |
| HomeAssistant.HaClient.ApplyColorBlock | Homecloud.py:191-210 | the fields become `ApplyColor` of the old fields |
| HomeAssistant.HaClient.ApplyBrightnessBlock | Homecloud.py:212-229 | the fields become `ApplyBrightness` of the old fields |
| HomeAssistant.HaClient.Tick | Homecloud.py:250-266 | the flag is cleared after a pending update is shown as a solid frame with the new centres and the direction flags kept; then Off shows one black frame and a rainbow mode the 256-frame cycle, both leaving the walk and the dwell as the hand-over left them, while the flicker takes one dwell step and one `Flick` of that walk and rewrites only the selected pixel of that buffer |
| HomeAssistant.HaClient.Render | Homecloud.py:256-266 | per selected mode: `turn_off`, `show` or `change_nyance`, with the walk, dwell, centres and start values kept outside the flicker step |
| Boot.Unpack | main.py:19 | every unpacked channel is a byte |
| Boot.PackUnpack | main.py:19 | `(r<<16)\|(g<<8)\|b` of the unpacked triple is `color & 0xFFFFFF` |
| Boot.UnpackPack | main.py:19 | every byte triple is recovered from its packed form |
| Boot.SetColor | main.py:12-22 | every pixel gets the unpacked triple and one such frame is shown |
| Boot.BounceDark | main.py:94-97 | the dark pixel index is within the strip |
| Boot.FadeLevel | main.py:104-107 | the fade level is a byte |
| Boot.DemoFrames | main.py:78-114 | the demo shows 8n+129 frames, the last one all black |
| Boot.CycleLightsEachPixelFourTimes | main.py:83-86 | in the 4n cycle frames pixel j is white exactly in frames j, j+n, j+2n, j+3n and black otherwise |
| Boot.BounceMovesByOne | main.py:91-97 | between consecutive bounce frames the dark pixel moves at most one place |
| Boot.FadeIsTriangle | main.py:102-108 | for `i` in 0..255 the level is `i` in the first block, `255 - i` in the second and fourth, and the third block repeats the first |
| Boot.FadePeriodic | main.py:102-108 | for every `i` the level repeats after 512 |
| Boot.FadeStepsSmall | main.py:102-108 | consecutive fade frames differ in red by at most 8 |
| Boot.Demo | main.py:78-114 | the frames shown are exactly `DemoFrames(n)` and the strip ends black |
| Boot.Cycle | main.py:82-88 | the 4n cycle frames are shown in order |
| Boot.Bounce | main.py:90-99 | the 4n bounce frames are shown in order |
| Boot.Fade | main.py:101-109 | the 128 fade frames for `i` in `range(0, 1024, 8)` are shown in order |
| Boot.StartupBlink | main.py:122-123 | a newly built five-pixel strip shows exactly `DemoFrames(5)` and ends dark |

## Left out

- The MQTT transport (connect, set_callback, subscribe, `check_msg`, and the
  `finally: disconnect`): network I/O. `Tick` starts after `check_msg` has
  delivered any message through `SubCallback`.
- `msg.split` and `ujson.loads`: a foreign library; the model receives their
  output as a `Payload`, or `None` when they raise. Values of a JSON type the
  source's `int()` would reject are not represented (channels and brightness
  are integers).
- HomeAssistant.Derive: brightness scaling uses exact rationals, not the
  board's floats, so products that round across an integer in floating point
  may differ by one. IEEE single and double precision give 128 for red 255 at
  brightness 128, as the model does, but MicroPython's reduced-precision
  floats (30-bit object representation, as on the ESP8266 named in
  `main.py`) can give 127.99997 and so 127.
- `time.sleep_ms` pacing and the never-ending `while True` of `run`: timing
  and liveness; the model gives one iteration (`Tick`), and `Show` takes its
  delay without using it.
- `urandom`: its draws are parameters of `ChangeNyance` and `Tick`.
- `custom_demo` (floating-point `math.sin`), `reboot` (`machine.reset`),
  `system_information` (filesystem and memory introspection), `webrepl.start`
  and the rest of the `__main__` start-up and exception handling of `main.py`
  (the start-up blink at main.py:122-123 is `StartupBlink`): hardware, floats
  and process control.
- Logging `print` calls.
- Rainbow.Show: `wheel` writing `np[j]` itself is folded into `Show`, which
  stores the value `Wheel` computes.
- Flicker.Led.constructor: `randomnum` has no class default in the source
  (it is first set by `change_nyance`); the model starts it at 0 and relies on
  it only while the dwell counter is non-zero.
- Pixels.Strip: `Rainbow.np` and `Led.np` are two `NeoPixel` objects on pin 0
  (Homecloud.py:23 and :54), each with its own buffer; the model merges them
  into one `Strip`. Within `run` the difference cannot be seen: every message
  sets `updated`, so `update_colors` rewrites all five pixels of `Led.np`
  before any flicker tick after a mode change, and a rainbow or off frame is
  never shown through `Led.np`'s stale buffer. Two separate buffers, and
  which object last drove the pin, are not modelled.
- A `state` or `effect` that is not a string (for example a JSON number)
  makes `ure.match` raise on the next loop iteration (Homecloud.py:256-258),
  ending `run`; the model types both as strings and does not capture this.
- A `color` value that is not an object (or a channel that `int()` rejects)
  raises `TypeError` or `ValueError` rather than `KeyError` out of
  `sub_callback` (Homecloud.py:193); the model types `color` as an object of
  optional integers and does not capture this escape.
- The neopixel driver's own handling of channel values outside 0..255 (which
  the client can pass on, having no upper clamp) is not part of this model.
