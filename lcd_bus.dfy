/** The parallel bus between the microcontroller and the SSD1963 display
    controller, as a trace of events, and a model of the controller that
    replays such a trace.

    Each pin-level helper of the drivers (write a command, write a byte,
    write a 16-bit word, pulse the write strobe) appends ONE event; the
    write strobe that ends a helper is part of its event.  The data bus is
    8 GPIO lines starting at GPIO 0 (DisplayLowestDataPin = 0) plus an
    external 74HC573 latch that holds the low byte, so `data & 0xFF` is
    `data % 256` and `data >> 8` is `data / 256` here. */
module LcdBus {

  type Byte = x: int | 0 <= x < 256
  type Word = x: int | 0 <= x < 65536
  /** LVGL's lv_coord_t, a signed 16-bit coordinate. */
  type Coord = x: int | -32768 <= x < 32768

  /** Panel resolution, SSD1963_HOR_RES and SSD1963_VER_RES. */
  const HorRes: int := 800
  const VerRes: int := 480

  /** SSD1963 command codes used by the drivers. */
  const SetColumnAddress: Byte := 0x2A
  const SetPageAddress: Byte := 0x2B
  const WriteMemoryStart: Byte := 0x2C

  datatype BusEvent =
    | Cmd(code: Byte)               // write strobe with D/C low: a command
    | Data8(value: Byte)            // write strobe with D/C high, the same byte latched and driven
    | Data16(low: Byte, high: Byte) // write strobe with D/C high: low byte latched, high byte driven
    | Strobe                        // bare write strobe: the bus is left as it was
    | CsLow | CsHigh                // chip select asserted / released
    | ResetLow | ResetHigh          // the controller's reset line
    | BacklightOn                   // the backlight enable line driven high
    | Delay(ms: nat)                // a millisecond delay
    | FlushReady                    // lv_disp_flush_ready: LVGL is told the flush is complete

  /** A rectangle of panel coordinates, LVGL's lv_area_t (corners inclusive). */
  datatype Area = Area(x1: Coord, y1: Coord, x2: Coord, y2: Coord)

  predicate Inside(a: Area, x: int, y: int)
  {
    a.x1 <= x <= a.x2 && a.y1 <= y <= a.y2
  }

  predicate OnPanel(x: int, y: int)
  {
    0 <= x < HorRes && 0 <= y < VerRes
  }

  predicate NonEmpty(a: Area)
  {
    a.x1 <= a.x2 && a.y1 <= a.y2
  }

  function Low(w: Word): Byte { w % 256 }
  function High(w: Word): Byte { w / 256 }

  /** The 16-bit word the controller reads from a high and a low byte. */
  function Join(high: Byte, low: Byte): Word { high * 256 + low }

  /** The event of LCD_Write_Bus16 with D/C high: the low byte goes to the
      latch, the high byte onto the GPIO lines, one strobe. */
  function Bus16(w: Word): BusEvent
  {
    Data16(Low(w), High(w))
  }

  /** The controller reassembles exactly the word that was written. */
  lemma Bus16Joins(w: Word)
    ensures Bus16(w).Data16? && Join(Bus16(w).high, Bus16(w).low) == w
  {
  }

  /** A byte driven on both halves of the bus reads back as that byte
      from bits 7..0. */
  lemma LowJoin(b: Byte)
    ensures Low(Join(b, b)) == b
  {
    var x: int := b * 256 + b;
    var q, r := x / 256, x % 256;
    assert x == 256 * q + r && 0 <= r < 256;
    assert 256 * (q - b) == b - r;
    assert q == b;
  }

  /** The four parameter bytes of a column or page address command:
      start high, start low, end high, end low (big-endian). */
  function WindowParams(start: Word, end: Word): seq<Byte>
  {
    [High(start), Low(start), High(end), Low(end)]
  }

  /** The controller reads back the start and end it was sent. */
  lemma WindowParamsJoin(start: Word, end: Word)
    ensures var ps := WindowParams(start, end);
      |ps| == 4 && Join(ps[0], ps[1]) == start && Join(ps[2], ps[3]) == end
  {
  }

  /** A command followed by its 8-bit parameters, as LCD_Write_COM followed by
      LCD_Write_DATA8 and LCD_Write_Bus8 calls emit it. */
  function Send(code: Byte, params: seq<Byte>): seq<BusEvent>
  {
    [Cmd(code)] + Data8s(params)
  }

  /** A non-empty sequence is its prefix followed by its last element. */
  lemma ButLastSnoc<T>(s: seq<T>)
    requires |s| > 0
    ensures s[..|s| - 1] + [s[|s| - 1]] == s
  {
  }

  lemma AppendAssoc<T>(a: seq<T>, b: seq<T>, c: seq<T>)
    ensures a + b + c == a + (b + c)
  {
  }

  function Data8s(ps: seq<Byte>): seq<BusEvent>
  {
    seq(|ps|, i requires 0 <= i < |ps| => Data8(ps[i]))
  }

  /** One Bus16 event per word. */
  function Words(ws: seq<Word>): seq<BusEvent>
    decreases |ws|
  {
    if ws == [] then [] else Words(ws[..|ws| - 1]) + [Bus16(ws[|ws| - 1])]
  }

  function Strobes(n: nat): seq<BusEvent>
  {
    seq(n, _ => Strobe)
  }

  lemma StrobesSnoc(n: nat)
    ensures Strobes(n + 1) == Strobes(n) + [Strobe]
  {
  }

  /** Number of occurrences of `e` in `es`. */
  function Occurrences(es: seq<BusEvent>, e: BusEvent): nat
    decreases |es|
  {
    if es == [] then 0
    else Occurrences(es[..|es| - 1], e) + (if es[|es| - 1] == e then 1 else 0)
  }

  lemma {:induction false} OccurrencesAppend(a: seq<BusEvent>, b: seq<BusEvent>, e: BusEvent)
    ensures Occurrences(a + b, e) == Occurrences(a, e) + Occurrences(b, e)
    decreases |b|
  {
    if b == [] {
      assert a + b == a;
    } else {
      assert (a + b)[..|a + b| - 1] == a + b[..|b| - 1];
      OccurrencesAppend(a, b[..|b| - 1], e);
    }
  }

  // ---------------------------------------------------------------------
  // The controller side: what the SSD1963 makes of a trace.
  // ---------------------------------------------------------------------

  /** A command as the controller received it, with the parameter bytes that
      followed it. */
  datatype Command = Command(code: Byte, params: seq<Byte>)

  /** The controller's view: whether it is selected, the word on the bus
      (latch output and high data lines), the commands received and the
      pixels written to frame memory. */
  datatype Controller = Controller(selected: bool, bus: Word, log: seq<Command>, pixels: seq<Word>)

  /** After 0x2C every data write is a pixel, until the next command. */
  predicate InMemoryWrite(c: Controller)
  {
    |c.log| > 0 && c.log[|c.log| - 1].code == WriteMemoryStart
  }

  /** A write strobe with D/C high while the word `w` is on the bus: a pixel
      during a memory write, otherwise a parameter byte (bits 7..0) of the
      last command. */
  function AcceptData(c: Controller, w: Word): Controller
  {
    if |c.log| == 0 then c
    else if InMemoryWrite(c) then c.(pixels := c.pixels + [w])
    else
      var last := c.log[|c.log| - 1];
      c.(log := c.log[..|c.log| - 1] + [Command(last.code, last.params + [Low(w)])])
  }

  function Step(c: Controller, e: BusEvent): Controller
  {
    match e
    case CsLow => c.(selected := true)
    case CsHigh => c.(selected := false)
    case Cmd(b) =>
      // Bus8 puts the byte on the lines and through the latch
      var c' := c.(bus := Join(b, b));
      if c.selected then c'.(log := c.log + [Command(b, [])]) else c'
    case Data8(b) =>
      var c' := c.(bus := Join(b, b));
      if c.selected then AcceptData(c', Join(b, b)) else c'
    case Data16(lo, hi) =>
      var c' := c.(bus := Join(hi, lo));
      if c.selected then AcceptData(c', Join(hi, lo)) else c'
    case Strobe =>
      if c.selected then AcceptData(c, c.bus) else c
    case _ => c
  }

  /** The controller after it has seen every event of `es`, in order. */
  function Run(c: Controller, es: seq<BusEvent>): Controller
    decreases |es|
  {
    if es == [] then c else Step(Run(c, es[..|es| - 1]), es[|es| - 1])
  }

  /** One more event is one more Step. */
  lemma RunSnoc(c: Controller, es: seq<BusEvent>, e: BusEvent)
    ensures Run(c, es + [e]) == Step(Run(c, es), e)
  {
    assert (es + [e])[..|es|] == es;
  }

  lemma {:induction false} RunAppend(c: Controller, a: seq<BusEvent>, b: seq<BusEvent>)
    ensures Run(c, a + b) == Run(Run(c, a), b)
    decreases |b|
  {
    if b == [] {
      assert a + b == a;
    } else {
      assert (a + b)[..|a + b| - 1] == a + b[..|b| - 1];
      RunAppend(c, a, b[..|b| - 1]);
    }
  }

  /** Events that carry no strobe and leave chip select alone do not change
      what the controller has received. */
  predicate Quiet(e: BusEvent)
  {
    e.ResetLow? || e.ResetHigh? || e.BacklightOn? || e.Delay? || e.FlushReady?
  }

  lemma {:induction false} RunQuiet(c: Controller, es: seq<BusEvent>)
    requires forall i :: 0 <= i < |es| ==> Quiet(es[i])
    ensures Run(c, es) == c
    decreases |es|
  {
    if es != [] {
      RunQuiet(c, es[..|es| - 1]);
    }
  }

  /** A command with its parameters reaches the controller's log as one
      entry, when the controller is selected. */
  lemma {:induction false} RunSend(c: Controller, code: Byte, params: seq<Byte>)
    requires c.selected
    requires code != WriteMemoryStart || params == []
    ensures Run(c, Send(code, params)).log == c.log + [Command(code, params)]
    ensures Run(c, Send(code, params)).pixels == c.pixels
    ensures Run(c, Send(code, params)).selected
    decreases |params|
  {
    if params == [] {
      assert Send(code, params) == [Cmd(code)];
      assert [Cmd(code)][..0] == [];
    } else {
      var init := params[..|params| - 1];
      var b := params[|params| - 1];
      assert init + [b] == params;
      assert Send(code, params) == Send(code, init) + [Data8(b)];
      RunSend(c, code, init);
      RunSnoc(c, Send(code, init), Data8(b));
      var c1 := Run(c, Send(code, init));
      assert c1.log == c.log + [Command(code, init)] && c1.selected;
      var c2 := c1.(bus := Join(b, b));
      LowJoin(b);
      assert !InMemoryWrite(c2) && |c2.log| > 0;
      assert c2.log[..|c2.log| - 1] == c.log && c2.log[|c2.log| - 1] == Command(code, init);
      assert Step(c1, Data8(b)) == AcceptData(c2, Join(b, b));
    }
  }

  /** During a memory write, each Bus16 event writes its word as a pixel. */
  lemma {:induction false} RunWords(c: Controller, ws: seq<Word>)
    requires c.selected && InMemoryWrite(c)
    ensures Run(c, Words(ws)).pixels == c.pixels + ws
    ensures Run(c, Words(ws)).log == c.log
    ensures Run(c, Words(ws)).selected
    ensures ws != [] ==> Run(c, Words(ws)).bus == ws[|ws| - 1]
    decreases |ws|
  {
    if ws == [] {
      assert c.pixels + ws == c.pixels;
    } else {
      var init := ws[..|ws| - 1];
      RunWords(c, init);
      assert Words(ws)[..|Words(ws)| - 1] == Words(init);
      assert init + [ws[|ws| - 1]] == ws;
    }
  }

  /** During a memory write, each bare strobe writes the word still on the
      bus once more. */
  lemma {:induction false} RunStrobes(c: Controller, n: nat)
    requires c.selected && InMemoryWrite(c)
    ensures Run(c, Strobes(n)) == c.(pixels := c.pixels + seq(n, _ => c.bus))
    decreases n
  {
    if n == 0 {
      assert c.pixels + seq(n, _ => c.bus) == c.pixels;
    } else {
      assert Strobes(n)[..n - 1] == Strobes(n - 1);
      RunStrobes(c, n - 1);
      assert c.pixels + seq(n - 1, _ => c.bus) + [c.bus] == c.pixels + seq(n, _ => c.bus);
    }
  }
}
