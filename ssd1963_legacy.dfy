/** The superseded SSD1963 driver: the same bus, but window coordinates go
    out as 16-bit writes of single bytes, every pixel is a full 16-bit write,
    an area entirely off the panel returns before anything is sent (and
    without telling LVGL the flush is complete), and Init does not clear the
    screen. */
module Ssd1963Legacy {
  import opened LcdBus
  import opened Ssd1963

  /** The early-return test of Flush: the area lies wholly to the left of,
      above, to the right of or below the panel. */
  predicate OffScreen(a: Area)
  {
    a.x2 < 0 || a.y2 < 0 || a.x1 > HorRes - 1 || a.y1 > VerRes - 1
  }

  /** One address command: the code, then start >> 8, start & 0xFF,
      end >> 8 and end & 0xFF, each as a 16-bit write whose upper byte is 0. */
  function AddressEvents(code: Byte, start: Word, end: Word): seq<BusEvent>
  {
    [Cmd(code), Bus16(High(start)), Bus16(Low(start)), Bus16(High(end)), Bus16(Low(end))]
  }

  function LegacyWindowEvents(x1: Word, x2: Word, y1: Word, y2: Word): seq<BusEvent>
  {
    AddressEvents(SetColumnAddress, x1, x2) + AddressEvents(SetPageAddress, y1, y2)
  }

  /** The bus after the first n rows, each pixel a full write. */
  function LegacyRowsTrace(t: seq<BusEvent>, buf: seq<Word>, a: Area, n: nat): seq<BusEvent>
    requires Covers(a, |buf|) && NonEmpty(Clip(a)) && n <= RowCount(Clip(a))
  {
    if n == 0 then t else LegacyRowsTrace(t, buf, a, n - 1) + Words(RowOf(buf, a, n - 1))
  }

  /** The bus after one Flush call, when it held `t` before. */
  function LegacyFlushTrace(t: seq<BusEvent>, a: Area, buf: seq<Word>): seq<BusEvent>
    requires NonEmpty(a) && Covers(a, |buf|)
  {
    if OffScreen(a) then t
    else
      var c := Clip(a);
      OnScreenClips(a);
      LegacyRowsTrace(t + [CsLow] + LegacyWindowEvents(c.x1, c.x2, c.y1, c.y2) + [Cmd(WriteMemoryStart)], buf, a, RowCount(c))
      + [CsHigh] + [FlushReady]
  }

  /** For a well-formed area the early return is taken exactly when clipping
      leaves nothing, the test the current driver makes instead. */
  lemma OnScreenClips(a: Area)
    requires NonEmpty(a)
    ensures !OffScreen(a) <==> NonEmpty(Clip(a))
  {
  }

  // ---------------------------------------------------------------------
  // The power-up sequence.
  // ---------------------------------------------------------------------

  /** Reset high, the hardware reset pulse, then chip select. */
  function LegacyResetTrace(t: seq<BusEvent>): seq<BusEvent>
  {
    t + [ResetHigh] + [Delay(5)] + [ResetLow] + [Delay(15)] + [ResetHigh] + [Delay(15)] + [CsLow]
  }

  /** The PLL set-up with multiplier bytes 0x1E, 0x02, 0x54, and the software
      reset. */
  function LegacyClockTrace(t: seq<BusEvent>): seq<BusEvent>
  {
    t + Send(0xE2, [0x1E, 0x02, 0x54]) + Send(0xE0, [0x01]) + [Delay(10)]
    + Send(0xE0, [0x03]) + [Delay(10)]
    + Send(0x01, []) + [Delay(100)]
  }

  /** The bus after Init: the panel and display commands are those of the
      current driver, there is no clear, and a memory write start is the last
      command before chip select is released. */
  function LegacyInitTrace(t: seq<BusEvent>): seq<BusEvent>
  {
    DisplayOnTrace(PanelTrace(LegacyClockTrace(LegacyResetTrace(t)))) + [Cmd(WriteMemoryStart)] + [CsHigh]
  }

  class LegacyPanel {
    /** Every event put on the bus so far. */
    var trace: seq<BusEvent>
    /** Level of the D/C pin: true selects data, false a command. */
    var dataMode: bool
    /** Level of DisplayLatchLowDataPin: true while the latch is transparent. */
    var latchOpen: bool

    /** The pins as Init's pin configuration leaves them. */
    constructor ()
      ensures trace == [] && dataMode && !latchOpen
    {
      trace := [];
      dataMode := true;
      latchOpen := false;
    }

    /** LCD_Write_Bus16: latch the low byte, drive the high byte, strobe. */
    method WriteBus16(w: Word)
      modifies this
      ensures trace == old(trace) + [if dataMode then Bus16(w) else Cmd(Low(w))]
      ensures dataMode == old(dataMode) && !latchOpen
    {
      latchOpen := true;
      latchOpen := false;
      trace := trace + [if dataMode then Data16(Low(w), High(w)) else Cmd(Low(w))];
    }

    /** LCD_Write_Bus8: the latch is opened and stays open through the strobe,
        so the byte reaches both halves of the bus. */
    method WriteBus8(b: Byte)
      modifies this
      ensures trace == old(trace) + [if dataMode then Data8(b) else Cmd(b)]
      ensures dataMode == old(dataMode) && latchOpen
    {
      latchOpen := true;
      trace := trace + [if dataMode then Data8(b) else Cmd(b)];
    }

    /** LCD_Write_COM. */
    method WriteCom(b: Byte)
      modifies this
      ensures trace == old(trace) + [Cmd(b)]
      ensures !dataMode && latchOpen
    {
      dataMode := false;
      WriteBus8(b);
    }

    /** LCD_Write_DATA16. */
    method WriteData16(w: Word)
      modifies this
      ensures trace == old(trace) + [Bus16(w)]
      ensures dataMode && !latchOpen
    {
      dataMode := true;
      WriteBus16(w);
    }

    /** LCD_Write_DATA8. */
    method WriteData8(b: Byte)
      modifies this
      ensures trace == old(trace) + [Data8(b)]
      ensures dataMode && latchOpen
    {
      dataMode := true;
      WriteBus8(b);
    }

    /** Later 8-bit parameters written with LCD_Write_Bus8. */
    method SendBytes(params: seq<Byte>)
      requires dataMode
      modifies this
      ensures trace == old(trace) + Data8s(params)
      ensures dataMode && latchOpen == (params != [] || old(latchOpen))
    {
      var i := 0;
      while i < |params|
        invariant 0 <= i <= |params| && dataMode
        invariant trace == old(trace) + Data8s(params[..i])
        invariant latchOpen == (i > 0 || old(latchOpen))
      {
        assert params[..i + 1][..i] == params[..i];
        WriteBus8(params[i]);
        i := i + 1;
      }
      assert params[..i] == params;
    }

    /** A command, its first parameter with LCD_Write_DATA8 and the rest with
        LCD_Write_Bus8. */
    method WriteCommand(code: Byte, params: seq<Byte>)
      requires |params| > 0
      modifies this
      ensures trace == old(trace) + Send(code, params)
      ensures dataMode && latchOpen
    {
      WriteCom(code);
      WriteData8(params[0]);
      SendBytes(params[1..]);
      assert Data8s(params) == [Data8(params[0])] + Data8s(params[1..]);
    }

    /** LCD_Write_COM for a command without parameters. */
    method WriteBareCommand(code: Byte)
      modifies this
      ensures trace == old(trace) + Send(code, [])
      ensures !dataMode && latchOpen
    {
      WriteCom(code);
      assert Data8s([]) == [];
    }

    /** SSD1963::Init after the pin configuration. */
    method Init()
      modifies this
      ensures trace == LegacyInitTrace(old(trace))
    {
      trace := trace + [ResetHigh];
      trace := trace + [Delay(5)];
      trace := trace + [ResetLow];
      trace := trace + [Delay(15)];
      trace := trace + [ResetHigh];
      trace := trace + [Delay(15)];
      trace := trace + [CsLow];
      ConfigureClocks();
      ConfigurePanel();
      ShowDisplay();
      WriteCom(WriteMemoryStart);
      trace := trace + [CsHigh];
    }

    method ConfigureClocks()
      modifies this
      ensures trace == LegacyClockTrace(old(trace))
    {
      WriteCommand(0xE2, [0x1E, 0x02, 0x54]);
      WriteCommand(0xE0, [0x01]);
      trace := trace + [Delay(10)];
      WriteCommand(0xE0, [0x03]);
      trace := trace + [Delay(10)];
      WriteBareCommand(0x01);
      trace := trace + [Delay(100)];
    }

    /** The pixel clock, panel timing, GPIO and pixel format commands, as in
        the current driver. */
    method ConfigurePanel()
      modifies this
      ensures trace == PanelTrace(old(trace))
    {
      WriteCommand(0xE6, [0x03, 0xFF, 0xFF]);
      WriteCommand(0xB0, [0x20, 0x00, High(HorRes - 1), Low(HorRes - 1), High(VerRes - 1), Low(VerRes - 1), 0x00]);
      WriteCommand(0xB4, [0x03, 0xA0, 0x00, 0x2E, 0x30, 0x00, 0x0F, 0x00]);
      WriteCommand(0xB6, [0x02, 0x0D, 0x00, 0x10, 0x10, 0x00, 0x08]);
      WriteCommand(0xBA, [0x0F]);
      WriteCommand(0xB8, [0x07, 0x01]);
      WriteCommand(0xF0, [0x03]);
      trace := trace + [Delay(1)];
    }

    method ShowDisplay()
      modifies this
      ensures trace == DisplayOnTrace(old(trace))
    {
      WriteBareCommand(0x29);
      WriteCommand(0xBE, [0x06, 0xF0, 0x01, 0xF0, 0x00, 0x00]);
      WriteCommand(0xD0, [0x0D]);
    }

    /** LCD_Write_COM_DATA16 with start >> 8, then three LCD_Write_Bus16. */
    method WriteAddress(code: Byte, start: Word, end: Word)
      modifies this
      ensures trace == old(trace) + AddressEvents(code, start, end)
      ensures dataMode && !latchOpen
    {
      WriteCom(code);
      WriteData16(High(start));
      WriteBus16(Low(start));
      WriteBus16(High(end));
      WriteBus16(Low(end));
    }

    /** SSD1963::Flush: an area wholly off the panel returns at once;
        otherwise the corners are clamped, the window and the memory write
        are sent, every pixel of every row follows as a full write, and LVGL
        is told the flush is complete. */
    method Flush(a: Area, buf: seq<Word>)
      requires NonEmpty(a) && Covers(a, |buf|)
      modifies this
      ensures trace == LegacyFlushTrace(old(trace), a, buf)
    {
      if a.x2 < 0 { return; }
      if a.y2 < 0 { return; }
      if a.x1 > HorRes - 1 { return; }
      if a.y1 > VerRes - 1 { return; }
      var actX1 := if a.x1 < 0 then 0 else a.x1;
      var actY1 := if a.y1 < 0 then 0 else a.y1;
      var actX2 := if a.x2 > HorRes - 1 then HorRes - 1 else a.x2;
      var actY2 := if a.y2 > VerRes - 1 then VerRes - 1 else a.y2;
      assert Clip(a) == Area(actX1, actY1, actX2, actY2);
      OnScreenClips(a);
      trace := trace + [CsLow];
      WriteAddress(SetColumnAddress, actX1, actX2);
      WriteAddress(SetPageAddress, actY1, actY2);
      AppendAssoc(old(trace) + [CsLow], AddressEvents(SetColumnAddress, actX1, actX2), AddressEvents(SetPageAddress, actY1, actY2));
      WriteCom(WriteMemoryStart);
      dataMode := true;
      WriteRows(a, buf);
      trace := trace + [CsHigh];
      trace := trace + [FlushReady];
    }

    /** The row loop of Flush: each row read from color_p, which advances by
        full_w per row. */
    method WriteRows(a: Area, buf: seq<Word>)
      requires dataMode && Covers(a, |buf|) && NonEmpty(Clip(a))
      modifies this
      ensures trace == LegacyRowsTrace(old(trace), buf, a, RowCount(Clip(a)))
    {
      var c := Clip(a);
      var fullW: Word := (a.x2 - a.x1 + 1) % 65536;
      var actW := c.x2 - c.x1 + 1;
      var rowStart := 0;   // color_p, as an index into buf
      var i := c.y1;
      ghost var r: nat := 0;   // rows written so far
      while i <= c.y2
        invariant i == c.y1 + r && r <= RowCount(c)
        invariant rowStart == r * fullW
        invariant dataMode
        invariant trace == LegacyRowsTrace(old(trace), buf, a, r)
      {
        RowInBuffer(a, |buf|, r);
        WriteWords(buf, rowStart, actW);
        assert buf[rowStart .. rowStart + actW] == RowOf(buf, a, r);
        MulSucc(r, fullW);
        rowStart := rowStart + fullW;
        i := i + 1;
        r := r + 1;
      }
    }

    /** The inner loop of Flush: len pixels from `start`, each a full write. */
    method WriteWords(buf: seq<Word>, start: nat, len: nat)
      requires dataMode && start + len <= |buf|
      modifies this
      ensures trace == old(trace) + Words(buf[start .. start + len])
      ensures dataMode
    {
      ghost var row := buf[start .. start + len];
      var p := start;
      var j := 0;
      while j < len
        invariant 0 <= j <= len && p == start + j
        invariant dataMode
        invariant trace == old(trace) + Words(row[..j])
      {
        assert row[..j + 1][..j] == row[..j];
        WriteBus16(buf[p]);
        p := p + 1;
        j := j + 1;
      }
      assert row[..j] == row;
    }
  }
}
