# EMS-Display drivers in Dafny

A model of the low-level drivers of the EMS-Display board, an RP2040 controller with an
800 x 480 SSD1963 graphics controller, a resistive touch panel read through an
ADS7843-style ADC (TI application note SBAA036), and a PWM-driven buzzer. The model
covers four drivers:

- **Current SSD1963 driver** (`ssd1963.dfy`): the class `Panel`. Each pin helper
  (`PulseWritePin`, `LCD_Write_Bus16/Bus8/COM/DATA16/DATA8/COM_DATA8`) appends one event
  to a bus trace. `SetXY`, `Init` and `Flush` are loops over those helpers. `Flush`
  clips the area, writes the window and streams the rows of the buffer. Within a row it
  pulses write alone for a pixel equal to the previous one.
- **Old SSD1963 driver** (`ssd1963_legacy.dfy`): the class `LegacyPanel`. It returns
  early for off-screen areas, sends the window as 16-bit writes, writes every pixel in
  full, and does not clear the screen in `Init`.
- **Touch panel** (`touch_serial.dfy`, `touch_denoise.dfy`, `touch_panel.dfy`):
  - the bit-banged command and data exchanges;
  - the ring-buffer denoiser `getTouchData`;
  - the class `TouchPanel`, holding the driver's file-static state: orientation,
    display size, scales, offsets and the `pressed` flag.
- **Buzzer** (`buzzer.dfy`): the PWM divider search of `Beep`, and the millisecond
  countdown of `Tick`. PWM and pin-function calls are recorded as events.

`lcd_bus.dfy` defines the bus events, plus a model of the controller's side of the bus.
`Run` folds a trace into a `Controller` value:
- the command log, with each command's parameter bytes;
- the pixel stream written after memory write start (0x2C);
- the last word on the bus, which a bare write strobe repeats;
- the chip-select state.

`ssd1963_facts.dfy` and `ssd1963_legacy_facts.dfy` use `Run` to prove what the display
receives from each driver. `bits.dfy` holds shared arithmetic: powers of two, right
shifts, and monotonicity of products.

Hardware inputs are parameters:
- the Dout samples of each touch exchange;
- the level of the touch IRQ line before and after sampling;
- `SystemCoreClock` for the buzzer.

`DisplayLowestDataPin` is 0 (src/Pins.h), so the latched low byte of a word is `w % 256`
and the driven high byte is `w / 256`.

Behaviour of the code worth noting:
- For a row `[C, C, C, X, C]`, the current `Flush` makes three full 16-bit writes (the
  first pixel, the change to X and the change back to C) and two bare strobes.
  `Ssd1963Facts.RowEventsExample` states this.
- Orienting a reading twice does not always give it back. SwapXY together with exactly
  one mirror flag sends a point to its reflection through the centre
  (`TouchPanel.OrientInvolution`). Adjusting the orientation flags twice by the same
  value does restore them (`TouchPanel.XorInverse`).
- `Read` reports nothing when either axis fails to settle. There is no best-effort value.
- The old `Flush` returns without signalling completion for an off-screen area.

## Model

| member | source | states |
|---|---|---|
| Ssd1963.Clip | src/Drivers/SSD1963.cpp:240-244 | the corners of the area clamped to the 800 x 480 panel lie on the panel |
| Ssd1963.ClipIsIntersection | src/Drivers/SSD1963.cpp:240-245 | a point is in the clipped area iff it is in the area and on the panel; the clipped area is non-empty iff the area and the panel share a point |
| Ssd1963.Panel.PulseWritePin | src/Drivers/SSD1963.cpp:33-41 | one bare write strobe, nothing else changes |
| Ssd1963.Panel.WriteBus16 | src/Drivers/SSD1963.cpp:43-62 | one latched-low, driven-high 16-bit write (a command byte when D/C is low); the latch is closed afterwards |
| Ssd1963.Panel.WriteBus8 | src/Drivers/SSD1963.cpp:64-74 | one 8-bit write, data or command by the D/C line; the latch is closed afterwards |
| Ssd1963.Panel.WriteCom | src/Drivers/SSD1963.cpp:76-80 | D/C low and one command byte |
| Ssd1963.Panel.WriteData16 | src/Drivers/SSD1963.cpp:82-86 | D/C high and one 16-bit data write |
| Ssd1963.Panel.WriteData8 | src/Drivers/SSD1963.cpp:88-92 | D/C high and one data byte |
| Ssd1963.Panel.WriteComData8 | src/Drivers/SSD1963.cpp:100-104 | a command byte followed by one data byte |
| Ssd1963.Panel.SendBytes | src/Drivers/SSD1963.cpp:146-230 | the parameter bytes of an Init command, one data byte each, in order |
| Ssd1963.Panel.WriteCommand | src/Drivers/SSD1963.cpp:146-230 | a command code followed by its parameter bytes |
| Ssd1963.Panel.WriteBareCommand | src/Drivers/SSD1963.cpp:159 | a command with no parameters |
| Ssd1963.Panel.SetXY | src/Drivers/SSD1963.cpp:106-117 | column address 0x2A with the four big-endian bytes of x1 and x2, then page address 0x2B with those of y1 and y2 |
| LcdBus.WindowParamsJoin | src/Drivers/SSD1963.cpp:106-117 | each high/low pair of the window bytes recombines to its 16-bit coordinate |
| LcdBus.Bus16Joins | src/Drivers/SSD1963.cpp:43-62 | (high << 8) \| low of a 16-bit write is the word written |
| LcdBus.RunSend | src/Drivers/SSD1963.cpp:76-104 | the controller logs a command with exactly the bytes sent after it, and receives no pixel |
| LcdBus.RunWords | src/SSD1963.cpp:233-241 | full 16-bit writes after memory write start append exactly those words to the pixel stream |
| LcdBus.RunStrobes | src/Drivers/SSD1963.cpp:274 | each bare strobe appends another copy of the last word on the bus |
| LcdBus.RunAppend | src/Drivers/SSD1963.cpp:238-288 | the controller replays a concatenated trace piece by piece |
| Ssd1963.Panel.Init | src/Drivers/SSD1963.cpp:119-236 | the trace of Init: reset, chip select, clock set-up, panel set-up, full-screen clear, display on, chip release, backlight |
| Ssd1963.Panel.ConfigureClocks | src/Drivers/SSD1963.cpp:146-160 | PLL 0xE2 (0x1D, 0x22, 0x04), 0xE0 enable then lock, soft reset 0x01, with their delays |
| Ssd1963.Panel.ConfigurePanel | src/Drivers/SSD1963.cpp:162-206 | the pixel clock, panel mode, horizontal and vertical timing and GPIO commands with their bytes |
| Ssd1963.Panel.ClearScreen | src/Drivers/SSD1963.cpp:209-217 | the full-screen window, 0x2C, one 16-bit write of 0 and 800 * 480 - 1 bare strobes |
| Ssd1963.Panel.ShowDisplay | src/Drivers/SSD1963.cpp:219-230 | display on 0x29, PWM 0xBE and DBC 0xD0 with their bytes |
| Ssd1963Facts.RunInit | src/Drivers/SSD1963.cpp:144-235 | the controller receives exactly the commands 0xE2 .. 0xF0, the full-screen window and 0x2C, then 0x29, 0xBE, 0xD0, and 384000 pixels of 0; chip select is released |
| Ssd1963Facts.RunClearPhase | src/Drivers/SSD1963.cpp:209-217 | the clear writes the whole-panel window and exactly 800 * 480 pixels of 0 |
| Ssd1963Facts.FullScreenParams | src/Drivers/SSD1963.cpp:209-210 | the clear's window bytes are those of columns 0 .. 799 and rows 0 .. 479 |
| Ssd1963.Panel.Flush | src/Drivers/SSD1963.cpp:238-288 | the trace of Flush: chip select, clipped window, 0x2C, the rows, chip release when something is on the panel; completion in every case |
| Ssd1963.Panel.WriteRow | src/Drivers/SSD1963.cpp:266-281 | one row with the run-skip shortcut: a full write for the first pixel and for each change, a bare strobe otherwise |
| Ssd1963Facts.RowEventsShape | src/Drivers/SSD1963.cpp:266-281 | one event per pixel of the row, each a full write or a bare strobe; 1 + (number of changes) full writes and the rest strobes |
| Ssd1963Facts.RowEventsExample | src/Drivers/SSD1963.cpp:266-281 | the row [C, C, C, X, C] costs 3 full writes and 2 strobes |
| Ssd1963Facts.RunRow | src/Drivers/SSD1963.cpp:266-281 | the controller decodes a row's events into exactly that row of pixels |
| Ssd1963Facts.SentPixelAt | src/Drivers/SSD1963.cpp:256-282 | pixel k of row r sent is buffer element r * full_w + k, with no offset for columns or rows clipped off the left or top |
| Ssd1963Facts.SentPixelsLength | src/Drivers/SSD1963.cpp:257-259 | n rows send n * act_w pixels |
| Ssd1963Facts.RunRows | src/Drivers/SSD1963.cpp:259-283 | the rows, in ascending order, append exactly their pixels to the stream and no command |
| Ssd1963Facts.FlushActivity | src/Drivers/SSD1963.cpp:241-287 | bus activity iff the area meets the panel: then it starts with chip select and ends with release and completion; otherwise only completion |
| Ssd1963Facts.FlushSignalsOnce | src/Drivers/SSD1963.cpp:287 | completion is signalled exactly once per Flush, as its last event |
| Ssd1963Facts.RunFlush | src/Drivers/SSD1963.cpp:238-288 | the controller receives the clipped window, 0x2C and exactly the sent rows, and is deselected; nothing at all when the area is off the panel |
| Ssd1963Legacy.LegacyPanel.WriteBus16 | src/SSD1963.cpp:38-56 | one latched-low, driven-high 16-bit write; the latch is closed afterwards |
| Ssd1963Legacy.LegacyPanel.WriteBus8 | src/SSD1963.cpp:58-67 | one 8-bit write that leaves the low-data latch open |
| Ssd1963Legacy.LegacyPanel.WriteCom | src/SSD1963.cpp:69-73 | D/C low and one command byte, latch left open |
| Ssd1963Legacy.LegacyPanel.WriteData16 | src/SSD1963.cpp:75-79 | D/C high and one 16-bit data write |
| Ssd1963Legacy.LegacyPanel.WriteData8 | src/SSD1963.cpp:81-85 | D/C high and one data byte, latch left open |
| Ssd1963Legacy.LegacyPanel.SendBytes | src/SSD1963.cpp:119-194 | the parameter bytes of an Init command, in order |
| Ssd1963Legacy.LegacyPanel.WriteCommand | src/SSD1963.cpp:119-194 | a command code followed by its parameter bytes |
| Ssd1963Legacy.LegacyPanel.WriteBareCommand | src/SSD1963.cpp:196 | a command with no parameters |
| Ssd1963Legacy.LegacyPanel.Init | src/SSD1963.cpp:93-199 | the trace of the old Init: reset, chip select, clocks, panel, display on, 0x2C last, chip release |
| Ssd1963Legacy.LegacyPanel.ConfigureClocks | src/SSD1963.cpp:119-132 | PLL 0xE2 with 0x1E, 0x02, 0x54, then 0xE0 enable and lock and soft reset |
| Ssd1963Legacy.LegacyPanel.ConfigurePanel | src/SSD1963.cpp:134-180 | the same panel set-up commands as the current driver |
| Ssd1963Legacy.LegacyPanel.ShowDisplay | src/SSD1963.cpp:183-194 | display on, PWM and DBC commands |
| Ssd1963LegacyFacts.RunLegacyInit | src/SSD1963.cpp:117-198 | the controller receives the old Init commands ending with 0x2C, no pixel, and is deselected in memory-write mode |
| Ssd1963LegacyFacts.LegacyInitShape | src/SSD1963.cpp:196-198 | the old Init ends with 0x2C then chip release, and clears no pixel for any controller |
| Ssd1963Legacy.LegacyPanel.WriteAddress | src/SSD1963.cpp:87-91 | an address command followed by four 16-bit writes of single bytes, high byte first |
| Ssd1963LegacyFacts.RunAddress | src/SSD1963.cpp:216-225 | the controller logs the address command with the big-endian bytes of start and end, the upper bytes of the 16-bit writes dropped, and receives no pixel |
| Ssd1963Legacy.OnScreenClips | src/SSD1963.cpp:204-213 | for an ordered area, passing the four early-return tests is the same as a non-empty clipped area |
| Ssd1963Legacy.LegacyPanel.Flush | src/SSD1963.cpp:201-245 | the trace of the old Flush: nothing for an off-screen area, otherwise chip select, window, 0x2C, rows, release, completion |
| Ssd1963Legacy.LegacyPanel.WriteRows | src/SSD1963.cpp:233-241 | act_y2 - act_y1 + 1 rows of act_w full writes, rows read with stride full_w |
| Ssd1963Legacy.LegacyPanel.WriteWords | src/SSD1963.cpp:236-239 | one full 16-bit write per pixel of a row |
| Ssd1963LegacyFacts.WordsShape | src/SSD1963.cpp:236-239 | every pixel is a full write; there is no bare strobe |
| Ssd1963LegacyFacts.LegacyRowsAreWords | src/SSD1963.cpp:228-241 | the rows send exactly the pixels the current driver would send, each as a full write |
| Ssd1963LegacyFacts.LegacyFlushActivity | src/SSD1963.cpp:204-244 | off-screen: no event at all, so no completion; on screen: chip select first, release and completion last |
| Ssd1963LegacyFacts.LegacyFlushSignalsOnce | src/SSD1963.cpp:242-244 | on the drawing path completion is signalled exactly once, as the last event |
| Ssd1963LegacyFacts.RunLegacyFlush | src/SSD1963.cpp:201-245 | the controller receives the clamped window, 0x2C and the rows; an off-screen area leaves it unchanged |
| Ssd1963LegacyFacts.FlushesAgree | src/SSD1963.cpp:201-245 | on screen, the old and the current Flush give the controller the same commands, the same pixels and the same chip-select state |
| TouchSerial.WriteCommand | src/Drivers/TouchPanel.cpp:21-33 | the 8 command bits, most significant first, each as Din then a clock cycle |
| TouchSerial.LatchedClocks | src/Drivers/TouchPanel.cpp:23-32 | the chip latches exactly the bits sent, in order |
| TouchSerial.MsbFirstRoundTrip | src/Drivers/TouchPanel.cpp:23-26 | the most-significant-first bits of an n-bit value reassemble to it |
| TouchSerial.FromBitsUnique | src/Drivers/TouchPanel.cpp:53-57 | a sample string is the encoding of the value it accumulates to |
| TouchSerial.FromBitsBound | src/Drivers/TouchPanel.cpp:50-58 | n accumulated samples give a value below 2^n |
| TouchSerial.ReadData | src/Drivers/TouchPanel.cpp:37-62 | as written: 16 clock cycles with Din low throughout, Dout sampled after the first 12; the result accumulates those samples most significant first and is below 4096 |
| TouchSerial.ReadDataSendsNothing | src/Drivers/TouchPanel.cpp:44 | as written, what the chip latches reads as 0, never the non-zero command |
| TouchSerial.ReadDataIntended | src/Drivers/TouchPanel.cpp:37-62 | with Din from the shifted 16-bit copy: the same result, and the Din levels are the command on 16 bits, most significant first |
| TouchSerial.ReadDataIntendedSendsCommand | src/Drivers/TouchPanel.cpp:39-45 | the intended levels are eight low bits then the command byte, and reassemble to the command |
| TouchSerial.LatchedAppend | src/Drivers/TouchPanel.cpp:41-59 | two wave forms latch together what they latch apart when the second does not start with a rising edge |
| TouchSerial.LatchedReadWave | src/Drivers/TouchPanel.cpp:41-59 | an exchange latches exactly the Din level of each of its cycles |
| TouchSerial.LatchedFrames | src/Drivers/TouchPanel.cpp:41-59 | n exchanges as written latch 16 * n low levels and start by driving Din |
| TouchSerial.ReadDataRoundTrip | src/Drivers/TouchPanel.cpp:50-58 | a 12-bit conversion shifted out most significant first reads back as itself |
| TouchDenoise.ChannelCommand | src/Drivers/TouchPanel.cpp:70 | the control byte has the start bit, channel 5 for Y and 1 for X, 12-bit mode, differential reference and power-down bits 11 (kept powered) |
| TouchDenoise.Diff | src/Drivers/TouchPanel.cpp:64 | the absolute difference: non-negative and one of a - b, b - a; below 2^16 for 16-bit inputs |
| TouchDenoise.PowerDown | src/Drivers/TouchPanel.cpp:122 | `command & 0xF8` clears the three low bits and nothing else |
| TouchDenoise.SamplesAreReadings | src/Drivers/TouchPanel.cpp:86-116 | every reading is below 4096 |
| TouchDenoise.AllWithin | src/Drivers/TouchPanel.cpp:100-108 | the inner check is true iff every ring entry lies within 40 of the average |
| TouchDenoise.FillRing | src/Drivers/TouchPanel.cpp:80-89 | the ring holds readings 1 .. 8 of the exchanges, and sum is their sum; the wires carry eight exchanges as written |
| TouchDenoise.Settle | src/Drivers/TouchPanel.cpp:94-120 | the retry loop (sum kept equal to the ring's sum, replacement index round robin) ends with the outcome, final ring and failure count that Denoise specifies; the wires carry one exchange per failure |
| TouchDenoise.Converge | src/Drivers/TouchPanel.cpp:97-120 | at most 16 failures; the outcome is ok iff fewer than 16 |
| TouchDenoise.Denoise | src/Drivers/TouchPanel.cpp:68-126 | getTouchData's outcome: ok iff fewer than 16 checks failed |
| TouchDenoise.RingStep | src/Drivers/TouchPanel.cpp:115-119 | replacing slot f % 8 by the next reading advances the closed form of the ring by one |
| TouchDenoise.DenoiseOutcome | src/Drivers/TouchPanel.cpp:94-125 | without the loop: the failures are the first settled attempt or 16; when ok, every ring entry lies within 40 of the reported value, which is the ring's sum / 8; when not ok, the value is the mean computed before the 16th replacement |
| TouchDenoise.DenoiseFirstTry | src/Drivers/TouchPanel.cpp:97-112 | readings that settle at once are averaged with no retry |
| TouchDenoise.DenoiseValueIsReading | src/Drivers/TouchPanel.cpp:99-124 | the reported value is a 12-bit reading, so the cast to 16 bits loses nothing |
| TouchDenoise.SumUpdate | src/Drivers/TouchPanel.cpp:115-118 | subtracting the old entry and adding the new one keeps sum equal to the ring's sum |
| TouchDenoise.GetTouchData | src/Drivers/TouchPanel.cpp:68-126 | ok and the reported value as Denoise specifies; 1 + 8 + failures + 2 exchanges; the wires carry the channel command's 8 cycles and then that many exchanges as written |
| TouchDenoise.GetTouchDataLatches | src/Drivers/TouchPanel.cpp:70-123 | over the whole of getTouchData the chip latches the channel command once, most significant first, and after it only low levels, 16 per exchange |
| TouchPanel.Xor | src/Drivers/TouchPanel.cpp:130 | toggling the result by the adjustment again gives the orientation back; the result is unchanged iff the adjustment is the default, and the default iff the adjustment equals the orientation |
| TouchPanel.XorInverse | src/Drivers/TouchPanel.cpp:128-131 | the same adjustment applied twice restores the orientation |
| TouchPanel.TouchPanel.AdjustOrientation | src/Drivers/TouchPanel.cpp:128-131 | the orientation becomes the old one toggled by the adjustment; nothing else changes |
| TouchPanel.Orient | src/Drivers/TouchPanel.cpp:180-193 | swap first, then mirror as 4095 - v; raw readings stay raw |
| TouchPanel.OrientInvolution | src/Drivers/TouchPanel.cpp:180-193 | orienting twice restores every reading iff the axes are not swapped or both or neither are mirrored |
| TouchPanel.ToInt16 | src/Drivers/TouchPanel.cpp:186-195 | the int16_t conversion: in range, congruent mod 2^16, identity in range |
| TouchPanel.MapAxis | src/Drivers/TouchPanel.cpp:186-187 | the mapped coordinate lies within the display |
| TouchPanel.ProductBound | src/Drivers/TouchPanel.cpp:186 | the uint32_t product does not wrap and its top half fits int16_t |
| TouchPanel.MapAxisMonotone | src/Drivers/TouchPanel.cpp:186-187 | a larger reading never maps to a smaller coordinate |
| TouchPanel.DefaultScale | src/Drivers/TouchPanel.cpp:144-146 | the default scale fits uint16_t |
| TouchPanel.DefaultMapSpan | src/Drivers/TouchPanel.cpp:144-146 | with the default scale, reading 0 maps to pixel 0 and 4095 to one of the last two pixels |
| TouchPanel.DefaultMapTopPixel | src/Drivers/TouchPanel.cpp:144-146 | on 800 x 480, full scale maps to pixels 798 and 478 |
| TouchPanel.CalScale | src/Drivers/TouchPanel.cpp:224-226 | the calibrated scale fits uint16_t |
| TouchPanel.CalOffset | src/Drivers/TouchPanel.cpp:225-227 | the calibrated offset fits int16_t |
| TouchPanel.CalibratedLowEdge | src/Drivers/TouchPanel.cpp:186-225 | after calibration the low reading maps exactly to the margin |
| TouchPanel.CalScaleQuotient | src/Drivers/TouchPanel.cpp:224 | when the reading span is wider than the display less its margins, the scale is the display span shifted left 16 divided by the reading span, rounded down, with no 32-bit or 16-bit truncation |
| TouchPanel.CalibratedHighEdge | src/Drivers/TouchPanel.cpp:186-225 | after calibration the high reading maps to the last pixel before the far margin or the one before it |
| TouchPanel.CalibratedExample | src/Drivers/TouchPanel.cpp:186-227 | 800 pixels, margin 10, readings 100 and 4000: scale 13090, offset 9, and the readings map to pixels 10 and 789 |
| TouchPanel.CalibratedHighEdgeWraps | src/Drivers/TouchPanel.cpp:186-187 | on a 65000-pixel axis with margin 32000 the high reading wraps past int16_t and is clamped to pixel 0 |
| TouchPanel.MapTouch | src/Drivers/TouchPanel.cpp:180-204 | px and py within the display, and the raw values are the oriented readings |
| TouchPanel.TouchPanel.SetDefaults | src/Drivers/TouchPanel.cpp:140-148 | orientation, size, default scales, zero offsets, not pressed |
| TouchPanel.TouchPanel.Init | src/Drivers/TouchPanel.cpp:138-159 | the field settings, so the first Read has no repeat, then one discarded X sampling |
| TouchPanel.TouchPanel.Calibrate | src/Drivers/TouchPanel.cpp:222-228 | scales and offsets set from the readings and margin; on each axis whose readings fit, the low reading then maps to the margin and the high one to the last pixel before the far margin or the one before; size, orientation and press state unchanged |
| TouchPanel.TouchPanel.Read | src/Drivers/TouchPanel.cpp:162-220 | a touch iff IRQ is active, X settles, Y settles and IRQ is still active; Y is not sampled after an X failure; the touch is the mapped settled readings; repeat iff this and the previous Read both reported a touch; pressed becomes the result |
| Buzzer.TotalDivisor | src/Drivers/Buzzer.cpp:38 | the number of whole half periods in the clock, with the doubled frequency wrapped to 32 bits, and the exact quotient by 2 * frequency when that does not wrap; a 32-bit quotient for a 32-bit clock |
| Buzzer.SearchShift | src/Drivers/Buzzer.cpp:50-54 | the largest shift at most 16 leaving at least 128 of the divisor |
| Buzzer.DividerOf | src/Drivers/Buzzer.cpp:38-58 | the slowest setting 65535/255/15 at or above 65536 * 256; otherwise top = 2^shift - 1, prescaler = divisor >> shift in 128 .. 255, prescaler * 16 + fraction = divisor >> (shift - 4), fraction < 16 |
| Buzzer.ShiftDivider | src/Drivers/Buzzer.cpp:55-57 | the wrap, prescaler and fraction for a found shift fit their types without truncation |
| Buzzer.PrescalerFits | src/Drivers/Buzzer.cpp:56 | the prescaler fits uint8_t |
| Buzzer.SelectDivider | src/Drivers/Buzzer.cpp:41-58 | the loop computes the divider DividerOf specifies |
| Buzzer.Buzzer.Beep | src/Drivers/Buzzer.cpp:35-70 | the PWM events for that divider, both levels top / 2, second output inverted; the countdown set to the duration |
| Buzzer.Buzzer.TurnOff | src/Drivers/Buzzer.cpp:18-23 | PWM stopped and both pins driven low |
| Buzzer.Buzzer.Init | src/Drivers/Buzzer.cpp:25-28 | the buzzer turned off |
| Buzzer.Buzzer.Tick | src/Drivers/Buzzer.cpp:72-81 | zero stays zero; otherwise one less, turning off exactly on the step from 1 to 0 |
| Buzzer.AfterTicks | src/Drivers/Buzzer.cpp:72-81 | after k ticks from t the counter is t - k, or 0 once k >= t |
| Buzzer.OffExactlyOnce | src/Drivers/Buzzer.cpp:69-81 | a beep of ms > 0 is turned off by tick number ms and no other; a beep of 0 ms is never turned off by Tick |

## Left out

- Timing: NOP padding, `delayNanoseconds`, `delayMicroseconds` and `delay` are not modelled. In the display drivers a delay is a `Delay(ms)` trace event, which the controller model ignores.
- Pin modes, drive strength and other electrical behaviour, of the latch chip, the ADC and the panel, are not modelled.
- The touch chip-select toggling of `Read` (src/Drivers/TouchPanel.cpp:170, 209) is not part of the model. Only the Din, clock and Dout events of each exchange are.
- The optional `rawX`/`rawY` outputs of `Read` are not separate pointers. They are the `raw` field of the reported `Touch`, which is written exactly when a touch is reported.
- `Buzzer::SetVolume` has an empty body (a TODO) and is not modelled.
- The PWM SDK calls of `Beep` and `TurnOff` are abstract events. `pwm_get_default_config`, the clock divider, phase correction and wrap are recorded as one configuration event.
- The numeric values of the `DisplayOrientation` enumeration are not part of this model. An orientation is its three flags, combined flag by flag.
- `TouchPanel.GetOrientation` returns the orientation field and has no contract beyond that.
- The header src/SSD1963.h that the old driver includes is not part of this model. Its resolution constants are taken as the signed values 800 and 480. If they were unsigned as in src/Drivers/SSD1963.h, the early-return tests at src/SSD1963.cpp:206-207 would compare a negative `x1` or `y1` as unsigned.
- TouchSerial.ReadData, TouchSerial.ReadDataIntended: the Dout samples are supplied as exactly 12 levels, the ones the code reads. The level sequence of the IRQ line is reduced to its two readings in `Read`.
- TouchDenoise.GetTouchData, TouchPanel.TouchPanel.Read, TouchPanel.TouchPanel.Init: the caller supplies enough exchanges for the worst case (`|douts| >= 27` per sampling, twice that for `Read`). This is a bound on the injected input, not on the driver.
- TouchDenoise.GetTouchData, TouchDenoise.FillRing, TouchDenoise.Settle call `ReadData` as written (see Findings). Their outcome depends only on the Dout samples, which `TouchSerial.ReadDataIntended` reads identically, so it holds for the corrected exchange as well. How the chip's conversion results depend on the commands it latches is not modelled: they are inputs.
- Ssd1963Legacy.LegacyPanel.Flush requires `x1 <= x2` and `y1 <= y2`, as LVGL guarantees. `act_w` at src/SSD1963.cpp:231 is an unsigned 16-bit difference.
- Ssd1963.Panel.Flush, Ssd1963Legacy.LegacyPanel.Flush: the buffer must hold every pixel the row loop reads (`Covers`). The code reads `color_p` without a bound, and LVGL supplies a buffer of the full area. The 16-bit `uint16_t`/`int16_t` row counters cannot overflow for areas on an 800 x 480 panel, so they are plain integers.
- Buzzer.Buzzer.Beep requires `2 * frequency` to be non-zero modulo 2^32 (the division at src/Drivers/Buzzer.cpp:38). It also requires a total divisor of at least 2048, so that the search loop stops with `shift - 4 >= 0`. Below that, the code would shift by a negative amount.
- TouchPanel.TouchPanel.Calibrate requires `xlow != xhigh` and `ylow != yhigh` (the division at src/Drivers/TouchPanel.cpp:224, 226).
- TouchPanel.DefaultMapSpan states the span only for displays narrower than 4096 pixels.
- TouchPanel.MapAxisMonotone requires an offset above 4096 - 32768, so the subtraction does not wrap in int16_t. With a wrapping offset, the mapping is not monotone.
- TouchPanel.CalibratedLowEdge requires a margin below the display size and a low reading below 4096, as for readings the denoiser reports.
- TouchPanel.CalibratedHighEdge requires `CalibrationFits`: low below high, both below 4096, a reading span wider than the display less its margins (otherwise the scale is truncated to 16 bits), and `size - 1 - margin` below 32768. Without the last bound the int16_t subtraction at src/Drivers/TouchPanel.cpp:186 wraps, as `TouchPanel.CalibratedHighEdgeWraps` shows.

## Findings

| source | as written | input that shows it | evidently intended | confidence | as-written member | corrected member |
|---|---|---|---|---|---|---|
| src/Drivers/TouchPanel.cpp:44 | Din is driven from `command & 0x8000`, where `command` is the `uint8_t` parameter, so Din is low in all 16 cycles. The shifted 16-bit copy `cmd` (lines 39, 45) is never read. | `ReadData(0x93)` from `getTouchData(false, ...)`: the chip latches 16 low bits. It never receives the start bit of 0x93, though the comment at line 72 says the same command is sent again. | `digitalWrite(TouchDinPin, cmd & 0x8000)`: the command clocked out on 16 bits, most significant first, so its 8 bits arrive in the last 8 cycles | not executed | TouchSerial.ReadData, TouchSerial.ReadDataSendsNothing | TouchSerial.ReadDataIntended, TouchSerial.ReadDataIntendedSendsCommand |
