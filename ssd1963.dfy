/** The current SSD1963 driver: pin-level helpers, the power-up sequence with
    a full-screen clear, and Flush, which clips the area to the panel and
    streams its pixels with the run-skip optimisation (a pixel equal to the
    previous one is sent as a bare write strobe). */
module Ssd1963 {
  import opened LcdBus

  function Max(a: int, b: int): int { if a < b then b else a }
  function Min(a: int, b: int): int { if a < b then a else b }

  /** The area truncated to the panel, act_x1 .. act_y2 of Flush. */
  function Clip(a: Area): (c: Area)
    ensures 0 <= c.x1 && 0 <= c.y1 && c.x2 < HorRes && c.y2 < VerRes
  {
    Area(Max(a.x1, 0), Max(a.y1, 0), Min(a.x2, HorRes - 1), Min(a.y2, VerRes - 1))
  }

  /** The clipped area is exactly the part of the area that lies on the
      panel, and it is empty exactly when the area misses the panel. */
  lemma ClipIsIntersection(a: Area)
    ensures forall x, y :: Inside(Clip(a), x, y) <==> Inside(a, x, y) && OnPanel(x, y)
    ensures NonEmpty(Clip(a)) <==> exists x, y :: Inside(a, x, y) && OnPanel(x, y)
  {
    var c := Clip(a);
    if NonEmpty(c) {
      assert Inside(a, c.x1, c.y1) && OnPanel(c.x1, c.y1);
    }
  }

  /** full_w: the width of the unclipped area, which is the row stride of the
      pixel buffer, truncated to 16 bits. */
  function FullWidth(a: Area): Word { (a.x2 - a.x1 + 1) % 65536 }

  /** act_w and the number of rows of the clipped area. */
  function ActWidth(c: Area): int { c.x2 - c.x1 + 1 }
  function RowCount(c: Area): int { c.y2 - c.y1 + 1 }

  /** The buffer holds every pixel Flush reads: row r starts r * full_w pixels
      in and is act_w pixels long. */
  predicate Covers(a: Area, n: nat)
  {
    NonEmpty(Clip(a)) ==> (RowCount(Clip(a)) - 1) * FullWidth(a) + ActWidth(Clip(a)) <= n
  }

  lemma RowInBuffer(a: Area, n: nat, r: int)
    requires Covers(a, n) && NonEmpty(Clip(a)) && 0 <= r < RowCount(Clip(a))
    ensures 0 <= r * FullWidth(a) && r * FullWidth(a) + ActWidth(Clip(a)) <= n
  {
    var c := Clip(a);
    MulStartBound(r, RowCount(c) - 1, FullWidth(a), ActWidth(c), n);
  }

  lemma MulStartBound(r: int, m: int, f: int, w: int, n: int)
    requires 0 <= r <= m && 0 <= f && m * f + w <= n
    ensures 0 <= r * f && r * f + w <= n
  {
    assert (m - r) * f >= 0;
  }

  lemma MulSucc(r: int, f: int)
    ensures (r + 1) * f == r * f + f
  {
  }

  /** Row r of the clipped area as Flush reads it: from r * full_w, with no
      offset for columns clipped off the left or rows clipped off the top. */
  function RowOf(buf: seq<Word>, a: Area, r: nat): (row: seq<Word>)
    requires Covers(a, |buf|) && NonEmpty(Clip(a)) && r < RowCount(Clip(a))
    ensures |row| == ActWidth(Clip(a)) > 0
  {
    RowInBuffer(a, |buf|, r);
    buf[r * FullWidth(a) .. r * FullWidth(a) + ActWidth(Clip(a))]
  }

  /** The events of one row: the first pixel as a full 16-bit write, then a
      bare strobe for each pixel equal to its predecessor and a full write for
      each pixel that differs. */
  function RowEvents(row: seq<Word>): seq<BusEvent>
    requires |row| > 0
    decreases |row|
  {
    if |row| == 1 then [Bus16(row[0])]
    else
      var n := |row|;
      RowEvents(row[..n - 1]) + [if row[n - 1] == row[n - 2] then Strobe else Bus16(row[n - 1])]
  }

  /** The bus after the first n rows of Flush, when it held `t` before. */
  function RowsTrace(t: seq<BusEvent>, buf: seq<Word>, a: Area, n: nat): seq<BusEvent>
    requires Covers(a, |buf|) && NonEmpty(Clip(a)) && n <= RowCount(Clip(a))
  {
    if n == 0 then t else RowsTrace(t, buf, a, n - 1) + RowEvents(RowOf(buf, a, n - 1))
  }

  /** The pixels of the first n rows, in the order they are read. */
  function SentPixels(buf: seq<Word>, a: Area, n: nat): seq<Word>
    requires Covers(a, |buf|) && NonEmpty(Clip(a)) && n <= RowCount(Clip(a))
  {
    if n == 0 then [] else SentPixels(buf, a, n - 1) + RowOf(buf, a, n - 1)
  }

  /** SetXY: column window then page window, each start/end pair big-endian. */
  function WindowEvents(x1: Word, x2: Word, y1: Word, y2: Word): seq<BusEvent>
  {
    Send(SetColumnAddress, WindowParams(x1, x2)) + Send(SetPageAddress, WindowParams(y1, y2))
  }

  /** The bus after one Flush call, when it held `t` before: if any of the
      area is on the panel, chip select, the window, the memory write and the
      rows; in every case the completion signal. */
  function FlushTrace(t: seq<BusEvent>, a: Area, buf: seq<Word>): seq<BusEvent>
    requires Covers(a, |buf|)
  {
    var c := Clip(a);
    if NonEmpty(c) then
      RowsTrace(t + [CsLow] + WindowEvents(c.x1, c.x2, c.y1, c.y2) + [Cmd(WriteMemoryStart)], buf, a, RowCount(c))
      + [CsHigh] + [FlushReady]
    else t + [FlushReady]
  }

  // ---------------------------------------------------------------------
  // The power-up sequence.
  // ---------------------------------------------------------------------

  /** The hardware reset, then chip select for the whole configuration. */
  function ResetTrace(t: seq<BusEvent>): seq<BusEvent>
  {
    t + [Delay(15)] + [ResetLow] + [Delay(15)] + [ResetHigh] + [Delay(15)] + [CsLow]
  }

  /** PLL multiplier, PLL enable, PLL as system clock, software reset. */
  function ClockTrace(t: seq<BusEvent>): seq<BusEvent>
  {
    t + Send(0xE2, [0x1D, 0x22, 0x04]) + Send(0xE0, [0x01]) + [Delay(10)]
    + Send(0xE0, [0x03]) + [Delay(10)]
    + Send(0x01, []) + [Delay(100)]
  }

  /** Pixel clock, panel mode and size, horizontal and vertical timing, GPIO,
      pixel interface format. */
  function PanelTrace(t: seq<BusEvent>): seq<BusEvent>
  {
    t + Send(0xE6, [0x03, 0xFF, 0xFF])
    + Send(0xB0, [0x20, 0x00, High(HorRes - 1), Low(HorRes - 1), High(VerRes - 1), Low(VerRes - 1), 0x00])
    + Send(0xB4, [0x03, 0xA0, 0x00, 0x2E, 0x30, 0x00, 0x0F, 0x00])
    + Send(0xB6, [0x02, 0x0D, 0x00, 0x10, 0x10, 0x00, 0x08])
    + Send(0xBA, [0x0F])
    + Send(0xB8, [0x07, 0x01])
    + Send(0xF0, [0x03])
    + [Delay(1)]
  }

  /** The full-screen clear: the whole panel as the window, one pixel of 0,
      then a bare strobe for each of the remaining 800 * 480 - 1 pixels. */
  function ClearTrace(t: seq<BusEvent>): seq<BusEvent>
  {
    t + WindowEvents(0, HorRes - 1, 0, VerRes - 1) + [Cmd(WriteMemoryStart)] + [Bus16(0)]
    + Strobes(HorRes * VerRes - 1)
  }

  /** Display on, backlight PWM, dynamic backlight control. */
  function DisplayOnTrace(t: seq<BusEvent>): seq<BusEvent>
  {
    t + Send(0x29, []) + Send(0xBE, [0x06, 0xF0, 0x01, 0xF0, 0x00, 0x00]) + Send(0xD0, [0x0D])
  }

  /** Chip select released, then the backlight after a second. */
  function BacklightTrace(t: seq<BusEvent>): seq<BusEvent>
  {
    t + [CsHigh] + [Delay(1000)] + [BacklightOn]
  }

  /** The bus after Init, when it held `t` before. */
  function InitTrace(t: seq<BusEvent>): seq<BusEvent>
  {
    BacklightTrace(DisplayOnTrace(ClearTrace(PanelTrace(ClockTrace(ResetTrace(t))))))
  }

  // ---------------------------------------------------------------------
  // The driver: the GPIO state it changes and the trace it produces.
  // ---------------------------------------------------------------------

  class Panel {
    /** Every event put on the bus so far. */
    var trace: seq<BusEvent>
    /** Level of the D/C pin: true selects data, false a command. */
    var dataMode: bool
    /** Level of DisplayLatchLowDataPin: true while the latch is transparent. */
    var latchOpen: bool

    /** The pins as Init's pin configuration leaves them: D/C high, latch
        closed, nothing sent yet. */
    constructor ()
      ensures trace == [] && dataMode && !latchOpen
    {
      trace := [];
      dataMode := true;
      latchOpen := false;
    }

    /** PulseWritePin: a bare write strobe. */
    method PulseWritePin()
      modifies this
      ensures trace == old(trace) + [Strobe]
      ensures dataMode == old(dataMode) && latchOpen == old(latchOpen)
    {
      trace := trace + [Strobe];
    }

    /** LCD_Write_Bus16: latch the low byte, drive the high byte, strobe. */
    method WriteBus16(w: Word)
      modifies this
      ensures trace == old(trace) + [if dataMode then Bus16(w) else Cmd(Low(w))]
      ensures dataMode == old(dataMode) && !latchOpen
    {
      latchOpen := true;   // the low byte goes through the latch
      latchOpen := false;  // and is held; the high byte goes onto the lines
      trace := trace + [if dataMode then Data16(Low(w), High(w)) else Cmd(Low(w))];
    }

    /** LCD_Write_Bus8: put the byte through the latch, close it, strobe. */
    method WriteBus8(b: Byte)
      modifies this
      ensures trace == old(trace) + [if dataMode then Data8(b) else Cmd(b)]
      ensures dataMode == old(dataMode) && !latchOpen
    {
      latchOpen := true;
      latchOpen := false;
      trace := trace + [if dataMode then Data8(b) else Cmd(b)];
    }

    /** LCD_Write_COM: D/C low, then one byte. */
    method WriteCom(b: Byte)
      modifies this
      ensures trace == old(trace) + [Cmd(b)]
      ensures !dataMode && !latchOpen
    {
      dataMode := false;
      WriteBus8(b);
    }

    /** LCD_Write_DATA16: D/C high, then one 16-bit word. */
    method WriteData16(w: Word)
      modifies this
      ensures trace == old(trace) + [Bus16(w)]
      ensures dataMode && !latchOpen
    {
      dataMode := true;
      WriteBus16(w);
    }

    /** LCD_Write_DATA8: D/C high, then one byte. */
    method WriteData8(b: Byte)
      modifies this
      ensures trace == old(trace) + [Data8(b)]
      ensures dataMode && !latchOpen
    {
      dataMode := true;
      WriteBus8(b);
    }

    /** LCD_Write_COM_DATA8. */
    method WriteComData8(code: Byte, b: Byte)
      modifies this
      ensures trace == old(trace) + [Cmd(code), Data8(b)]
      ensures dataMode && !latchOpen
    {
      WriteCom(code);
      WriteData8(b);
    }

    /** A command and its later 8-bit parameters written with LCD_Write_Bus8. */
    method SendBytes(params: seq<Byte>)
      requires dataMode
      modifies this
      ensures trace == old(trace) + Data8s(params)
      ensures dataMode && latchOpen == (if params == [] then old(latchOpen) else false)
    {
      var i := 0;
      while i < |params|
        invariant 0 <= i <= |params| && dataMode
        invariant trace == old(trace) + Data8s(params[..i])
        invariant latchOpen == (if i == 0 then old(latchOpen) else false)
      {
        assert params[..i + 1][..i] == params[..i];
        WriteBus8(params[i]);
        i := i + 1;
      }
      assert params[..i] == params;
    }

    /** SetXY: the column and page address windows, high byte first. */
    method SetXY(xLow: Word, xHigh: Word, yLow: Word, yHigh: Word)
      modifies this
      ensures trace == old(trace) + WindowEvents(xLow, xHigh, yLow, yHigh)
      ensures dataMode && !latchOpen
    {
      WriteComData8(SetColumnAddress, High(xLow));
      WriteBus8(Low(xLow));
      WriteBus8(High(xHigh));
      WriteBus8(Low(xHigh));
      WriteComData8(SetPageAddress, High(yLow));
      WriteBus8(Low(yLow));
      WriteBus8(High(yHigh));
      WriteBus8(Low(yHigh));
      assert Data8s(WindowParams(xLow, xHigh)) == [Data8(High(xLow)), Data8(Low(xLow)), Data8(High(xHigh)), Data8(Low(xHigh))];
      assert Data8s(WindowParams(yLow, yHigh)) == [Data8(High(yLow)), Data8(Low(yLow)), Data8(High(yHigh)), Data8(Low(yHigh))];
    }

    /** SSD1963::Init after the pin configuration: hardware reset, the
        configuration commands, the full-screen clear, display on, backlight. */
    method Init()
      modifies this
      ensures trace == InitTrace(old(trace))
    {
      trace := trace + [Delay(15)];
      trace := trace + [ResetLow];
      trace := trace + [Delay(15)];
      trace := trace + [ResetHigh];
      trace := trace + [Delay(15)];
      trace := trace + [CsLow];
      ConfigureClocks();
      ConfigurePanel();
      ClearScreen();
      ShowDisplay();
      trace := trace + [CsHigh];
      trace := trace + [Delay(1000)];
      trace := trace + [BacklightOn];
    }

    /** A command, its first parameter with LCD_Write_DATA8 and the rest with
        LCD_Write_Bus8. */
    method WriteCommand(code: Byte, params: seq<Byte>)
      requires |params| > 0
      modifies this
      ensures trace == old(trace) + Send(code, params)
      ensures dataMode && !latchOpen
    {
      WriteCom(code);
      WriteData8(params[0]);
      SendBytes(params[1..]);
      assert Data8s(params) == [Data8(params[0])] + Data8s(params[1..]);
    }

    /** LCD_Write_COM for a command without parameters. */
    method WriteBareCommand(code: Byte)
      modifies this
      ensures trace == old(trace) + Send(code, [])
      ensures !dataMode && !latchOpen
    {
      WriteCom(code);
      assert Data8s([]) == [];
    }

    /** The PLL set-up and the software reset. */
    method ConfigureClocks()
      modifies this
      ensures trace == ClockTrace(old(trace))
    {
      ghost var t0 := trace;
      WriteCom(0xE2); WriteData8(0x1D); WriteData8(0x22); WriteData8(0x04);
      assert Send(0xE2, [0x1D, 0x22, 0x04]) == [Cmd(0xE2), Data8(0x1D), Data8(0x22), Data8(0x04)];
      assert trace == t0 + Send(0xE2, [0x1D, 0x22, 0x04]);
      WriteCommand(0xE0, [0x01]);
      trace := trace + [Delay(10)];
      WriteCommand(0xE0, [0x03]);
      trace := trace + [Delay(10)];
      WriteBareCommand(0x01);
      trace := trace + [Delay(100)];
    }

    /** The pixel clock, panel timing, GPIO and pixel format commands. */
    method ConfigurePanel()
      modifies this
      ensures trace == PanelTrace(old(trace))
    {
      WriteCommand(0xE6, [0x03, 0xFF, 0xFF]);
      WriteCommand(0xB0, [0x20, 0x00, High(HorRes - 1), Low(HorRes - 1), High(VerRes - 1), Low(VerRes - 1), 0x00]);
      WriteCommand(0xB4, [0x03, 0xA0, 0x00, 0x2E, 0x30, 0x00, 0x0F, 0x00]);
      WriteCommand(0xB6, [0x02, 0x0D, 0x00, 0x10, 0x10, 0x00, 0x08]);
      WriteCommand(0xBA, [0x0F]);
      WriteCommand(0xB8, [0x07, 0x01]);
      WriteCommand(0xF0, [0x03]);
      trace := trace + [Delay(1)];
    }

    /** The clear: the whole panel as the window, the first pixel of 0 in full,
        then a bare strobe for each remaining pixel. */
    method ClearScreen()
      modifies this
      ensures trace == ClearTrace(old(trace))
    {
      SetXY(0, HorRes - 1, 0, VerRes - 1);
      WriteCom(WriteMemoryStart);
      WriteData16(0);
      ghost var t1 := trace;
      var i := 0;
      while i < HorRes * VerRes - 1
        invariant 0 <= i <= HorRes * VerRes - 1
        invariant trace == t1 + Strobes(i)
      {
        PulseWritePin();
        StrobesSnoc(i);
        i := i + 1;
      }
    }

    /** Display on, the backlight PWM and dynamic backlight commands. */
    method ShowDisplay()
      modifies this
      ensures trace == DisplayOnTrace(old(trace))
    {
      WriteBareCommand(0x29);
      WriteCommand(0xBE, [0x06, 0xF0, 0x01, 0xF0, 0x00, 0x00]);
      WriteCommand(0xD0, [0x0D]);
    }

    /** SSD1963::Flush: clip, then if anything is left select the chip, set
        the window, start the memory write and send the rows; LVGL is told the
        flush is complete in every case. */
    method Flush(a: Area, buf: seq<Word>)
      requires Covers(a, |buf|)
      modifies this
      ensures trace == FlushTrace(old(trace), a, buf)
    {
      var actX1 := Max(a.x1, 0);
      var actY1 := Max(a.y1, 0);
      var actX2 := Min(a.x2, HorRes - 1);
      var actY2 := Min(a.y2, VerRes - 1);
      if actX1 <= actX2 && actY1 <= actY2 {
        ghost var c := Clip(a);
        trace := trace + [CsLow];
        SetXY(actX1, actX2, actY1, actY2);
        WriteCom(WriteMemoryStart);
        dataMode := true;
        ghost var t1 := trace;
        var fullW: Word := (a.x2 - a.x1 + 1) % 65536;
        var actW := actX2 - actX1 + 1;
        var rowStart := 0;   // color_p, as an index into buf
        var i := actY1;
        ghost var r: nat := 0;   // rows written so far
        while i <= actY2
          invariant i == actY1 + r && r <= RowCount(c)
          invariant rowStart == r * fullW
          invariant dataMode
          invariant trace == RowsTrace(t1, buf, a, r)
        {
          RowInBuffer(a, |buf|, r);
          WriteRow(buf, rowStart, actW);
          assert buf[rowStart .. rowStart + actW] == RowOf(buf, a, r);
          MulSucc(r, fullW);
          rowStart := rowStart + fullW;
          i := i + 1;
          r := r + 1;
        }
        trace := trace + [CsHigh];
      }
      trace := trace + [FlushReady];
    }

    /** One row of Flush: the first pixel in full, then each further pixel as
        a bare strobe when it equals the last one written and in full when not. */
    method WriteRow(buf: seq<Word>, start: nat, len: nat)
      requires dataMode && 0 < len && start + len <= |buf|
      modifies this
      ensures trace == old(trace) + RowEvents(buf[start .. start + len])
      ensures dataMode
    {
      ghost var row := buf[start .. start + len];
      var p := start;
      var lastPixel := buf[p];
      p := p + 1;
      WriteBus16(lastPixel);
      var j := 1;
      while j < len
        invariant 1 <= j <= len && p == start + j
        invariant lastPixel == row[j - 1]
        invariant dataMode
        invariant trace == old(trace) + RowEvents(row[..j])
      {
        var newPixel := buf[p];
        p := p + 1;
        assert row[..j + 1][..j] == row[..j];
        if newPixel == lastPixel {
          PulseWritePin();
        } else {
          lastPixel := newPixel;
          WriteBus16(newPixel);
        }
        j := j + 1;
      }
      assert row[..j] == row;
    }
  }
}
