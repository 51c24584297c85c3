/** What the controller makes of the current driver's traces: the run-skip
    optimisation of Flush delivers exactly the buffer's rows, the window is
    received as sent, the completion signal comes once, and Init leaves the
    controller configured with a black frame. */
module Ssd1963Facts {
  import opened LcdBus
  import opened Ssd1963
  import opened Bits

  // ---------------------------------------------------------------------
  // One row of Flush.
  // ---------------------------------------------------------------------

  /** The positions where a row's pixel differs from the one before it. */
  function ChangeSet(row: seq<Word>): set<nat>
  {
    set j: nat | 1 <= j < |row| && ChangedAt(row, j)
  }

  predicate ChangedAt(row: seq<Word>, j: nat)
    requires 1 <= j < |row|
  {
    row[j] != row[j - 1]
  }

  function Changes(row: seq<Word>): nat
  {
    |ChangeSet(row)|
  }

  /** Number of full 16-bit writes among the events. */
  function FullWrites(es: seq<BusEvent>): nat
    decreases |es|
  {
    if es == [] then 0
    else FullWrites(es[..|es| - 1]) + (if es[|es| - 1].Data16? then 1 else 0)
  }

  lemma ChangeSetSnoc(row: seq<Word>)
    requires |row| >= 2
    ensures var n := |row|;
      ChangeSet(row) == ChangeSet(row[..n - 1]) + (if row[n - 1] != row[n - 2] then {n - 1} else {})
  {
  }

  /** A row of n pixels puts n write strobes on the bus, every one either a
      full 16-bit write or a bare strobe; there is one full write for the
      first pixel and one for each change of colour, and a bare strobe for
      every other pixel. */
  lemma {:induction false} RowEventsShape(row: seq<Word>)
    requires |row| > 0
    ensures |RowEvents(row)| == |row|
    ensures forall i :: 0 <= i < |row| ==> RowEvents(row)[i].Data16? || RowEvents(row)[i] == Strobe
    ensures FullWrites(RowEvents(row)) == 1 + Changes(row)
    ensures Occurrences(RowEvents(row), Strobe) == |row| - 1 - Changes(row)
  {
    RowEventsKinds(row);
    RowEventsCounts(row);
  }

  lemma {:induction false} RowEventsKinds(row: seq<Word>)
    requires |row| > 0
    ensures |RowEvents(row)| == |row|
    ensures forall i :: 0 <= i < |row| ==> RowEvents(row)[i].Data16? || RowEvents(row)[i] == Strobe
    decreases |row|
  {
    var n := |row|;
    if n > 1 {
      var init := row[..n - 1];
      var e := if row[n - 1] == row[n - 2] then Strobe else Bus16(row[n - 1]);
      RowEventsKinds(init);
      assert RowEvents(row) == RowEvents(init) + [e];
    }
  }

  lemma {:induction false} RowEventsCounts(row: seq<Word>)
    requires |row| > 0
    ensures FullWrites(RowEvents(row)) == 1 + Changes(row)
    ensures Occurrences(RowEvents(row), Strobe) == |row| - 1 - Changes(row)
    decreases |row|
  {
    var n := |row|;
    if n == 1 {
      assert ChangeSet(row) == {};
      assert [Bus16(row[0])][..0] == [];
    } else {
      var init := row[..n - 1];
      var e := if row[n - 1] == row[n - 2] then Strobe else Bus16(row[n - 1]);
      RowEventsCounts(init);
      RowEventsKinds(init);
      var es := RowEvents(init) + [e];
      assert RowEvents(row) == es;
      assert es[..n - 1] == RowEvents(init);
      ChangeSetSnoc(row);
      if row[n - 1] != row[n - 2] {
        assert n - 1 !in ChangeSet(init);
      }
    }
  }

  /** The row [C, C, C, X, C] with X != C: three full writes (the first
      pixel, C to X and X back to C) and two bare strobes. */
  lemma RowEventsExample(c: Word, x: Word)
    requires c != x
    ensures RowEvents([c, c, c, x, c]) == [Bus16(c), Strobe, Strobe, Bus16(x), Bus16(c)]
    ensures FullWrites(RowEvents([c, c, c, x, c])) == 3
    ensures Occurrences(RowEvents([c, c, c, x, c]), Strobe) == 2
  {
    var row := [c, c, c, x, c];
    assert row[..4] == [c, c, c, x];
    assert row[..4][..3] == [c, c, c];
    assert row[..4][..3][..2] == [c, c];
    assert row[..4][..3][..2][..1] == [c];
    assert RowEvents([c]) == [Bus16(c)];
    assert RowEvents([c, c]) == [Bus16(c), Strobe];
    assert RowEvents([c, c, c]) == [Bus16(c), Strobe, Strobe];
    assert RowEvents([c, c, c, x]) == [Bus16(c), Strobe, Strobe, Bus16(x)];
    RowEventsShape(row);
    assert ChangeSet(row) == {3, 4};
  }

  /** During a memory write a full write or a bare strobe stores the word it
      leaves on the bus as the next pixel. */
  lemma StepInMemoryWrite(c: Controller, e: BusEvent)
    requires c.selected && InMemoryWrite(c) && (e.Data16? || e == Strobe)
    ensures var w := if e.Data16? then Join(e.high, e.low) else c.bus;
      Step(c, e) == c.(bus := w, pixels := c.pixels + [w])
  {
  }

  /** During a memory write the controller stores exactly the row: each bare
      strobe repeats the word still on the bus, which is the previous pixel. */
  lemma {:induction false} RunRow(c: Controller, row: seq<Word>)
    requires |row| > 0 && c.selected && InMemoryWrite(c)
    ensures Run(c, RowEvents(row)) == c.(bus := row[|row| - 1], pixels := c.pixels + row)
    decreases |row|
  {
    var n := |row|;
    Bus16Joins(row[n - 1]);
    if n == 1 {
      RunSnoc(c, [], Bus16(row[0]));
      assert [] + [Bus16(row[0])] == RowEvents(row);
      StepInMemoryWrite(c, Bus16(row[0]));
      assert row == [row[0]];
    } else {
      var init := row[..n - 1];
      var e := if row[n - 1] == row[n - 2] then Strobe else Bus16(row[n - 1]);
      RunRow(c, init);
      assert RowEvents(row) == RowEvents(init) + [e];
      RunSnoc(c, RowEvents(init), e);
      var c1 := c.(bus := row[n - 2], pixels := c.pixels + init);
      StepInMemoryWrite(c1, e);
      assert c.pixels + init + [row[n - 1]] == c.pixels + row by {
        ButLastSnoc(row);
        AppendAssoc(c.pixels, init, [row[n - 1]]);
      }
    }
  }


  // ---------------------------------------------------------------------
  // The rows of Flush.
  // ---------------------------------------------------------------------

  lemma IndexBound(r: int, k: int, m: int, w: int)
    requires 0 <= r < m && 0 <= k < w
    ensures 0 <= r * w && 0 <= r * w + k < m * w
  {
    MulMono(0, r, w);
    MulSucc(r, w);
    MulMono(r + 1, m, w);
  }

  lemma {:induction false} SentPixelsLength(buf: seq<Word>, a: Area, n: nat)
    requires Covers(a, |buf|) && NonEmpty(Clip(a)) && n <= RowCount(Clip(a))
    ensures |SentPixels(buf, a, n)| == n * ActWidth(Clip(a))
    decreases n
  {
    if n > 0 {
      SentPixelsLength(buf, a, n - 1);
      MulSucc(n - 1, ActWidth(Clip(a)));
    }
  }

  /** The rows are written in ascending order, each act_w pixels long and read
      from r * full_w in the buffer: pixel k of row r is buffer element
      r * full_w + k, with no offset for columns clipped off the left or rows
      clipped off the top. */
  lemma {:induction false} SentPixelAt(buf: seq<Word>, a: Area, n: nat, r: nat, k: nat)
    requires Covers(a, |buf|) && NonEmpty(Clip(a)) && n <= RowCount(Clip(a))
    requires r < n && k < ActWidth(Clip(a))
    ensures 0 <= r * ActWidth(Clip(a)) + k < |SentPixels(buf, a, n)|
    ensures 0 <= r * FullWidth(a) + k < |buf|
    ensures SentPixels(buf, a, n)[r * ActWidth(Clip(a)) + k] == buf[r * FullWidth(a) + k]
    decreases n
  {
    var w := ActWidth(Clip(a));
    var prev := SentPixels(buf, a, n - 1);
    var row := RowOf(buf, a, n - 1);
    assert SentPixels(buf, a, n) == prev + row;
    SentPixelsLength(buf, a, n - 1);
    MulSucc(n - 1, w);
    IndexBound(r, k, n, w);
    RowInBuffer(a, |buf|, r);
    if r < n - 1 {
      IndexBound(r, k, n - 1, w);
      SentPixelAt(buf, a, n - 1, r, k);
      AppendLeft(prev, row, r * w + k);
    } else {
      assert r * w + k == |prev| + k;
      AppendRight(prev, row, k);
    }
  }

  lemma AppendLeft<T>(p: seq<T>, q: seq<T>, i: nat)
    requires i < |p|
    ensures (p + q)[i] == p[i]
  {
  }

  lemma AppendRight<T>(p: seq<T>, q: seq<T>, k: nat)
    requires k < |q|
    ensures (p + q)[|p| + k] == q[k]
  {
  }

  /** Rows trace building on any earlier trace: the earlier events are kept. */
  lemma {:induction false} RowsTraceExtends(t: seq<BusEvent>, buf: seq<Word>, a: Area, n: nat)
    requires Covers(a, |buf|) && NonEmpty(Clip(a)) && n <= RowCount(Clip(a))
    ensures RowsTrace(t, buf, a, n) == t + RowsTrace([], buf, a, n)
    decreases n
  {
    if n > 0 {
      RowsTraceExtends(t, buf, a, n - 1);
      AppendAssoc(t, RowsTrace([], buf, a, n - 1), RowEvents(RowOf(buf, a, n - 1)));
    }
  }

  /** The rows of a Flush reach frame memory as SentPixels. */
  lemma {:induction false} RunRows(c: Controller, t: seq<BusEvent>, buf: seq<Word>, a: Area, n: nat)
    requires Covers(a, |buf|) && NonEmpty(Clip(a)) && n <= RowCount(Clip(a))
    requires Run(c, t).selected && InMemoryWrite(Run(c, t))
    ensures Run(c, RowsTrace(t, buf, a, n)).pixels == Run(c, t).pixels + SentPixels(buf, a, n)
    ensures Run(c, RowsTrace(t, buf, a, n)).log == Run(c, t).log
    ensures Run(c, RowsTrace(t, buf, a, n)).selected
    decreases n
  {
    if n == 0 {
      assert Run(c, t).pixels + [] == Run(c, t).pixels;
    } else {
      RunRows(c, t, buf, a, n - 1);
      RunRowsStep(c, t, buf, a, n);
    }
  }

  /** One more row, decoded after the rows before it. */
  lemma RunRowsStep(c: Controller, t: seq<BusEvent>, buf: seq<Word>, a: Area, n: nat)
    requires Covers(a, |buf|) && NonEmpty(Clip(a)) && 0 < n <= RowCount(Clip(a))
    requires Run(c, t).selected && InMemoryWrite(Run(c, t))
    requires Run(c, RowsTrace(t, buf, a, n - 1)).pixels == Run(c, t).pixels + SentPixels(buf, a, n - 1)
    requires Run(c, RowsTrace(t, buf, a, n - 1)).log == Run(c, t).log
    requires Run(c, RowsTrace(t, buf, a, n - 1)).selected
    ensures Run(c, RowsTrace(t, buf, a, n)).pixels == Run(c, t).pixels + SentPixels(buf, a, n)
    ensures Run(c, RowsTrace(t, buf, a, n)).log == Run(c, t).log
    ensures Run(c, RowsTrace(t, buf, a, n)).selected
  {
    var before := RowsTrace(t, buf, a, n - 1);
    var row := RowOf(buf, a, n - 1);
    assert RowsTrace(t, buf, a, n) == before + RowEvents(row);
    assert SentPixels(buf, a, n) == SentPixels(buf, a, n - 1) + row;
    RunAppend(c, before, RowEvents(row));
    var c1 := Run(c, before);
    assert InMemoryWrite(c1);
    RunRow(c1, row);
    AppendAssoc(Run(c, t).pixels, SentPixels(buf, a, n - 1), row);
  }

  // ---------------------------------------------------------------------
  // Flush.
  // ---------------------------------------------------------------------

  lemma RunSendAfter(c: Controller, t: seq<BusEvent>, code: Byte, params: seq<Byte>)
    requires Run(c, t).selected
    requires code != WriteMemoryStart || params == []
    ensures Run(c, t + Send(code, params)).log == Run(c, t).log + [Command(code, params)]
    ensures Run(c, t + Send(code, params)).pixels == Run(c, t).pixels
    ensures Run(c, t + Send(code, params)).selected
  {
    RunAppend(c, t, Send(code, params));
    RunSend(Run(c, t), code, params);
  }

  /** SetXY as the controller receives it: a column and a page address
      command whose parameter pairs recombine to the coordinates sent. */
  lemma RunWindow(c: Controller, t: seq<BusEvent>, x1: Word, x2: Word, y1: Word, y2: Word)
    requires Run(c, t).selected
    ensures Run(c, t + WindowEvents(x1, x2, y1, y2)).log
      == Run(c, t).log + [Command(SetColumnAddress, WindowParams(x1, x2)), Command(SetPageAddress, WindowParams(y1, y2))]
    ensures Run(c, t + WindowEvents(x1, x2, y1, y2)).pixels == Run(c, t).pixels
    ensures Run(c, t + WindowEvents(x1, x2, y1, y2)).selected
  {
    var sx := Send(SetColumnAddress, WindowParams(x1, x2));
    var sy := Send(SetPageAddress, WindowParams(y1, y2));
    AppendAssoc(t, sx, sy);
    RunSendAfter(c, t, SetColumnAddress, WindowParams(x1, x2));
    RunSendAfter(c, t + sx, SetPageAddress, WindowParams(y1, y2));
    WindowParamsJoin(x1, x2);
    WindowParamsJoin(y1, y2);
  }

  /** Flush keeps what was on the bus before it. */
  lemma FlushTraceExtends(t: seq<BusEvent>, a: Area, buf: seq<Word>)
    requires Covers(a, |buf|)
    ensures FlushTrace(t, a, buf) == t + FlushTrace([], a, buf)
  {
    var c := Clip(a);
    if NonEmpty(c) {
      var head := [CsLow] + WindowEvents(c.x1, c.x2, c.y1, c.y2) + [Cmd(WriteMemoryStart)];
      assert t + [CsLow] + WindowEvents(c.x1, c.x2, c.y1, c.y2) + [Cmd(WriteMemoryStart)] == t + head;
      assert [] + [CsLow] == [CsLow];
      RowsTraceExtends(t + head, buf, a, RowCount(c));
      RowsTraceExtends(head, buf, a, RowCount(c));
      var rows := RowsTrace([], buf, a, RowCount(c));
      assert t + head + rows + [CsHigh] + [FlushReady] == t + (head + rows + [CsHigh] + [FlushReady]);
    }
  }

  /** Bus activity happens exactly when part of the area is on the panel: then
      the events start with chip select and end with its release and the
      completion signal; otherwise the completion signal is all there is. */
  lemma FlushActivity(t: seq<BusEvent>, a: Area, buf: seq<Word>)
    requires Covers(a, |buf|)
    ensures var es := FlushTrace([], a, buf);
      (NonEmpty(Clip(a)) <==> exists x, y :: Inside(a, x, y) && OnPanel(x, y)) &&
      (NonEmpty(Clip(a)) ==> |es| >= 3 && es[0] == CsLow && es[|es| - 2..] == [CsHigh, FlushReady]) &&
      (!NonEmpty(Clip(a)) ==> es == [FlushReady])
  {
    ClipIsIntersection(a);
    var c := Clip(a);
    if NonEmpty(c) {
      var head := [] + [CsLow] + WindowEvents(c.x1, c.x2, c.y1, c.y2) + [Cmd(WriteMemoryStart)];
      RowsTraceExtends(head, buf, a, RowCount(c));
      assert head[0] == CsLow;
    }
  }

  /** The completion signal is raised exactly once, as the last event. */
  lemma FlushSignalsOnce(t: seq<BusEvent>, a: Area, buf: seq<Word>)
    requires Covers(a, |buf|)
    ensures Occurrences(FlushTrace(t, a, buf), FlushReady) == Occurrences(t, FlushReady) + 1
    ensures FlushTrace(t, a, buf)[|FlushTrace(t, a, buf)| - 1] == FlushReady
  {
    var c := Clip(a);
    if NonEmpty(c) {
      var head := t + [CsLow] + WindowEvents(c.x1, c.x2, c.y1, c.y2) + [Cmd(WriteMemoryStart)];
      NoFlushReadyInHead(t, c.x1, c.x2, c.y1, c.y2);
      NoFlushReadyInRows(head, buf, a, RowCount(c));
      var rows := RowsTrace(head, buf, a, RowCount(c));
      OccurrencesAppend(rows + [CsHigh], [FlushReady], FlushReady);
      OccurrencesAppend(rows, [CsHigh], FlushReady);
      OccurrencesOne(CsHigh, FlushReady);
      OccurrencesOne(FlushReady, FlushReady);
    } else {
      OccurrencesAppend(t, [FlushReady], FlushReady);
      OccurrencesOne(FlushReady, FlushReady);
    }
  }

  lemma OccurrencesOne(e: BusEvent, f: BusEvent)
    ensures Occurrences([e], f) == if e == f then 1 else 0
  {
    assert [e][..0] == [];
  }

  lemma {:induction false} OccurrencesNone(es: seq<BusEvent>, e: BusEvent)
    requires forall i :: 0 <= i < |es| ==> es[i] != e
    ensures Occurrences(es, e) == 0
    decreases |es|
  {
    if es != [] {
      OccurrencesNone(es[..|es| - 1], e);
    }
  }

  lemma NoFlushReadyInHead(t: seq<BusEvent>, x1: Word, x2: Word, y1: Word, y2: Word)
    ensures Occurrences(t + [CsLow] + WindowEvents(x1, x2, y1, y2) + [Cmd(WriteMemoryStart)], FlushReady)
      == Occurrences(t, FlushReady)
  {
    var w := WindowEvents(x1, x2, y1, y2);
    OccurrencesAppend(t + [CsLow] + w, [Cmd(WriteMemoryStart)], FlushReady);
    OccurrencesAppend(t + [CsLow], w, FlushReady);
    OccurrencesAppend(t, [CsLow], FlushReady);
    OccurrencesOne(CsLow, FlushReady);
    OccurrencesOne(Cmd(WriteMemoryStart), FlushReady);
    assert forall i :: 0 <= i < |w| ==> w[i].Cmd? || w[i].Data8?;
    OccurrencesNone(w, FlushReady);
  }

  lemma {:induction false} NoFlushReadyInRows(t: seq<BusEvent>, buf: seq<Word>, a: Area, n: nat)
    requires Covers(a, |buf|) && NonEmpty(Clip(a)) && n <= RowCount(Clip(a))
    ensures Occurrences(RowsTrace(t, buf, a, n), FlushReady) == Occurrences(t, FlushReady)
    decreases n
  {
    if n > 0 {
      NoFlushReadyInRows(t, buf, a, n - 1);
      var row := RowOf(buf, a, n - 1);
      var prev := RowsTrace(t, buf, a, n - 1);
      assert RowsTrace(t, buf, a, n) == prev + RowEvents(row);
      NoFlushReadyInRow(row);
      OccurrencesAppend(prev, RowEvents(row), FlushReady);
    }
  }

  lemma {:induction false} NoFlushReadyInRow(row: seq<Word>)
    requires |row| > 0
    ensures Occurrences(RowEvents(row), FlushReady) == 0
    decreases |row|
  {
    var n := |row|;
    if n == 1 {
      OccurrencesOne(Bus16(row[0]), FlushReady);
    } else {
      var e := if row[n - 1] == row[n - 2] then Strobe else Bus16(row[n - 1]);
      NoFlushReadyInRow(row[..n - 1]);
      assert RowEvents(row) == RowEvents(row[..n - 1]) + [e];
      OccurrencesAppend(RowEvents(row[..n - 1]), [e], FlushReady);
      OccurrencesOne(e, FlushReady);
    }
  }

  /** Chip select, the window and the memory write start as the controller
      receives them. */
  lemma RunFlushHead(c: Controller, t: seq<BusEvent>, x1: Word, x2: Word, y1: Word, y2: Word)
    ensures var d := Run(c, t + [CsLow] + WindowEvents(x1, x2, y1, y2) + [Cmd(WriteMemoryStart)]);
      d.log == Run(c, t).log + [Command(SetColumnAddress, WindowParams(x1, x2)),
                                Command(SetPageAddress, WindowParams(y1, y2)),
                                Command(WriteMemoryStart, [])] &&
      d.pixels == Run(c, t).pixels && d.selected && InMemoryWrite(d)
  {
    var t1 := t + [CsLow];
    var t2 := t1 + WindowEvents(x1, x2, y1, y2);
    RunSnoc(c, t, CsLow);
    RunWindow(c, t1, x1, x2, y1, y2);
    RunSnoc(c, t2, Cmd(WriteMemoryStart));
  }

  /** Releasing chip select and signalling completion only deselect. */
  lemma RunFlushTail(c: Controller, rows: seq<BusEvent>)
    ensures Run(c, rows + [CsHigh] + [FlushReady]) == Run(c, rows).(selected := false)
  {
    RunSnoc(c, rows, CsHigh);
    RunSnoc(c, rows + [CsHigh], FlushReady);
  }

  /** What the controller receives from one Flush: when part of the area is on
      the panel, the clipped window (its coordinates recombine from the
      parameter bytes), the memory write start and exactly the rows read from
      the buffer, and chip select is released; otherwise nothing. */
  lemma RunFlush(c: Controller, t: seq<BusEvent>, a: Area, buf: seq<Word>)
    requires Covers(a, |buf|)
    ensures var cl := Clip(a); var d := Run(c, FlushTrace(t, a, buf));
      if NonEmpty(cl) then
        d.log == Run(c, t).log + [Command(SetColumnAddress, WindowParams(cl.x1, cl.x2)),
                                  Command(SetPageAddress, WindowParams(cl.y1, cl.y2)),
                                  Command(WriteMemoryStart, [])] &&
        d.pixels == Run(c, t).pixels + SentPixels(buf, a, RowCount(cl)) &&
        !d.selected
      else d == Run(c, t)
  {
    var cl := Clip(a);
    if NonEmpty(cl) {
      var head := t + [CsLow] + WindowEvents(cl.x1, cl.x2, cl.y1, cl.y2) + [Cmd(WriteMemoryStart)];
      var rows := RowsTrace(head, buf, a, RowCount(cl));
      assert FlushTrace(t, a, buf) == rows + [CsHigh] + [FlushReady];
      RunFlushHead(c, t, cl.x1, cl.x2, cl.y1, cl.y2);
      RunRows(c, head, buf, a, RowCount(cl));
      RunFlushTail(c, rows);
    } else {
      RunSnoc(c, t, FlushReady);
    }
  }

  // ---------------------------------------------------------------------
  // Init.
  // ---------------------------------------------------------------------

  /** The commands the controller receives from each phase of Init. */
  function ClockCommands(): seq<Command>
  {
    [Command(0xE2, [0x1D, 0x22, 0x04]), Command(0xE0, [0x01]), Command(0xE0, [0x03]), Command(0x01, [])]
  }

  function PanelCommands(): seq<Command>
  {
    [ Command(0xE6, [0x03, 0xFF, 0xFF]),
      Command(0xB0, [0x20, 0x00, High(HorRes - 1), Low(HorRes - 1), High(VerRes - 1), Low(VerRes - 1), 0x00]),
      Command(0xB4, [0x03, 0xA0, 0x00, 0x2E, 0x30, 0x00, 0x0F, 0x00]),
      Command(0xB6, [0x02, 0x0D, 0x00, 0x10, 0x10, 0x00, 0x08]),
      Command(0xBA, [0x0F]), Command(0xB8, [0x07, 0x01]), Command(0xF0, [0x03]) ]
  }

  /** The whole panel, 0 .. 799 by 0 .. 479, as the window of the clear. */
  function ClearCommands(): seq<Command>
  {
    [ Command(SetColumnAddress, [0x00, 0x00, 0x03, 0x1F]),
      Command(SetPageAddress, [0x00, 0x00, 0x01, 0xDF]),
      Command(WriteMemoryStart, []) ]
  }

  function DisplayCommands(): seq<Command>
  {
    [Command(0x29, []), Command(0xBE, [0x06, 0xF0, 0x01, 0xF0, 0x00, 0x00]), Command(0xD0, [0x0D])]
  }

  function InitCommands(): seq<Command>
  {
    ClockCommands() + PanelCommands() + ClearCommands() + DisplayCommands()
  }

  lemma Flatten3<T>(l: seq<T>, a: T, b: T, c: T)
    ensures l + [a] + [b] + [c] == l + [a, b, c]
  {
  }

  lemma Flatten4<T>(l: seq<T>, a: T, b: T, c: T, d: T)
    ensures l + [a] + [b] + [c] + [d] == l + [a, b, c, d]
  {
  }

  lemma RunQuietAfter(c: Controller, t: seq<BusEvent>, e: BusEvent)
    requires Quiet(e)
    ensures Run(c, t + [e]) == Run(c, t)
  {
    RunSnoc(c, t, e);
  }

  lemma RunResetPhase(c: Controller, t: seq<BusEvent>)
    ensures Run(c, ResetTrace(t)) == Run(c, t).(selected := true)
  {
    var t1 := t + [Delay(15)];
    var t2 := t1 + [ResetLow];
    var t3 := t2 + [Delay(15)];
    var t4 := t3 + [ResetHigh];
    var t5 := t4 + [Delay(15)];
    RunQuietAfter(c, t, Delay(15));
    RunQuietAfter(c, t1, ResetLow);
    RunQuietAfter(c, t2, Delay(15));
    RunQuietAfter(c, t3, ResetHigh);
    RunQuietAfter(c, t4, Delay(15));
    RunSnoc(c, t5, CsLow);
  }

  lemma RunClockPhase(c: Controller, t: seq<BusEvent>)
    requires Run(c, t).selected
    ensures Run(c, ClockTrace(t)).log == Run(c, t).log + ClockCommands()
    ensures Run(c, ClockTrace(t)).pixels == Run(c, t).pixels
    ensures Run(c, ClockTrace(t)).selected
  {
    var t1 := t + Send(0xE2, [0x1D, 0x22, 0x04]);
    var t2 := t1 + Send(0xE0, [0x01]);
    var t3 := t2 + [Delay(10)];
    var t4 := t3 + Send(0xE0, [0x03]);
    var t5 := t4 + [Delay(10)];
    var t6 := t5 + Send(0x01, []);
    RunSendAfter(c, t, 0xE2, [0x1D, 0x22, 0x04]);
    RunSendAfter(c, t1, 0xE0, [0x01]);
    RunQuietAfter(c, t2, Delay(10));
    RunSendAfter(c, t3, 0xE0, [0x03]);
    RunQuietAfter(c, t4, Delay(10));
    RunSendAfter(c, t5, 0x01, []);
    RunQuietAfter(c, t6, Delay(100));
    Flatten4(Run(c, t).log, Command(0xE2, [0x1D, 0x22, 0x04]), Command(0xE0, [0x01]), Command(0xE0, [0x03]), Command(0x01, []));
  }

  lemma RunPanelPhase(c: Controller, t: seq<BusEvent>)
    requires Run(c, t).selected
    ensures Run(c, PanelTrace(t)).log == Run(c, t).log + PanelCommands()
    ensures Run(c, PanelTrace(t)).pixels == Run(c, t).pixels
    ensures Run(c, PanelTrace(t)).selected
  {
    var t4 := t + Send(0xE6, [0x03, 0xFF, 0xFF])
      + Send(0xB0, [0x20, 0x00, High(HorRes - 1), Low(HorRes - 1), High(VerRes - 1), Low(VerRes - 1), 0x00])
      + Send(0xB4, [0x03, 0xA0, 0x00, 0x2E, 0x30, 0x00, 0x0F, 0x00])
      + Send(0xB6, [0x02, 0x0D, 0x00, 0x10, 0x10, 0x00, 0x08]);
    RunPanelTiming(c, t);
    RunPanelGpio(c, t4);
    var cs := PanelCommands();
    AppendAssoc(Run(c, t).log, [cs[0], cs[1], cs[2], cs[3]], [cs[4], cs[5], cs[6]]);
    assert [cs[0], cs[1], cs[2], cs[3]] + [cs[4], cs[5], cs[6]] == cs;
  }

  lemma RunPanelTiming(c: Controller, t: seq<BusEvent>)
    requires Run(c, t).selected
    ensures var t4 := t + Send(0xE6, [0x03, 0xFF, 0xFF])
        + Send(0xB0, [0x20, 0x00, High(HorRes - 1), Low(HorRes - 1), High(VerRes - 1), Low(VerRes - 1), 0x00])
        + Send(0xB4, [0x03, 0xA0, 0x00, 0x2E, 0x30, 0x00, 0x0F, 0x00])
        + Send(0xB6, [0x02, 0x0D, 0x00, 0x10, 0x10, 0x00, 0x08]);
      var cs := PanelCommands();
      Run(c, t4).log == Run(c, t).log + [cs[0], cs[1], cs[2], cs[3]] &&
      Run(c, t4).pixels == Run(c, t).pixels && Run(c, t4).selected
  {
    var cs := PanelCommands();
    var t1 := t + Send(0xE6, [0x03, 0xFF, 0xFF]);
    var t2 := t1 + Send(0xB0, [0x20, 0x00, High(HorRes - 1), Low(HorRes - 1), High(VerRes - 1), Low(VerRes - 1), 0x00]);
    var t3 := t2 + Send(0xB4, [0x03, 0xA0, 0x00, 0x2E, 0x30, 0x00, 0x0F, 0x00]);
    RunSendAfter(c, t, 0xE6, [0x03, 0xFF, 0xFF]);
    RunSendAfter(c, t1, 0xB0, [0x20, 0x00, High(HorRes - 1), Low(HorRes - 1), High(VerRes - 1), Low(VerRes - 1), 0x00]);
    RunSendAfter(c, t2, 0xB4, [0x03, 0xA0, 0x00, 0x2E, 0x30, 0x00, 0x0F, 0x00]);
    RunSendAfter(c, t3, 0xB6, [0x02, 0x0D, 0x00, 0x10, 0x10, 0x00, 0x08]);
    Flatten4(Run(c, t).log, cs[0], cs[1], cs[2], cs[3]);
  }

  lemma RunPanelGpio(c: Controller, t: seq<BusEvent>)
    requires Run(c, t).selected
    ensures var t4 := t + Send(0xBA, [0x0F]) + Send(0xB8, [0x07, 0x01]) + Send(0xF0, [0x03]) + [Delay(1)];
      var cs := PanelCommands();
      Run(c, t4).log == Run(c, t).log + [cs[4], cs[5], cs[6]] &&
      Run(c, t4).pixels == Run(c, t).pixels && Run(c, t4).selected
  {
    var cs := PanelCommands();
    var t1 := t + Send(0xBA, [0x0F]);
    var t2 := t1 + Send(0xB8, [0x07, 0x01]);
    var t3 := t2 + Send(0xF0, [0x03]);
    RunSendAfter(c, t, 0xBA, [0x0F]);
    RunSendAfter(c, t1, 0xB8, [0x07, 0x01]);
    RunSendAfter(c, t2, 0xF0, [0x03]);
    RunQuietAfter(c, t3, Delay(1));
    Flatten3(Run(c, t).log, cs[4], cs[5], cs[6]);
  }

  /** The clear writes 800 * 480 pixels of 0: one full write of 0, then a
      bare strobe for each remaining pixel, repeating the 0 on the bus. */
  lemma RunClearPhase(c: Controller, t: seq<BusEvent>)
    requires Run(c, t).selected
    ensures Run(c, ClearTrace(t)).log == Run(c, t).log + ClearCommands()
    ensures Run(c, ClearTrace(t)).pixels == Run(c, t).pixels + seq(HorRes * VerRes, _ => 0)
    ensures Run(c, ClearTrace(t)).selected
  {
    var t3 := t + WindowEvents(0, HorRes - 1, 0, VerRes - 1) + [Cmd(WriteMemoryStart)] + [Bus16(0)];
    RunClearHead(c, t);
    var c3 := Run(c, t3);
    RunAppend(c, t3, Strobes(HorRes * VerRes - 1));
    RunStrobes(c3, HorRes * VerRes - 1);
    ZerosSnoc(Run(c, t).pixels, HorRes * VerRes - 1);
  }

  /** The start of the clear: the full-screen window, the memory write start
      and the first black pixel. */
  lemma RunClearHead(c: Controller, t: seq<BusEvent>)
    requires Run(c, t).selected
    ensures var c3 := Run(c, t + WindowEvents(0, HorRes - 1, 0, VerRes - 1) + [Cmd(WriteMemoryStart)] + [Bus16(0)]);
      c3.log == Run(c, t).log + ClearCommands() && c3.pixels == Run(c, t).pixels + [0] &&
      c3.selected && c3.bus == 0 && InMemoryWrite(c3)
  {
    var t1 := t + WindowEvents(0, HorRes - 1, 0, VerRes - 1);
    RunWindow(c, t, 0, HorRes - 1, 0, VerRes - 1);
    RunWriteStart(c, t1, 0);
    FullScreenParams();
    var cs := ClearCommands();
    Flatten3(Run(c, t).log, cs[0], cs[1], cs[2]);
    AppendAssoc(Run(c, t).log, [cs[0], cs[1]], [cs[2]]);
  }

  lemma FullScreenParams()
    ensures WindowParams(0, HorRes - 1) == ClearCommands()[0].params
    ensures WindowParams(0, VerRes - 1) == ClearCommands()[1].params
  {
  }

  /** A memory write start followed by one full write: the word becomes the
      first pixel and stays on the bus. */
  lemma RunWriteStart(c: Controller, t: seq<BusEvent>, w: Word)
    requires Run(c, t).selected
    ensures var c2 := Run(c, t + [Cmd(WriteMemoryStart)] + [Bus16(w)]);
      c2.log == Run(c, t).log + [Command(WriteMemoryStart, [])] && c2.pixels == Run(c, t).pixels + [w] &&
      c2.selected && c2.bus == w && InMemoryWrite(c2)
  {
    var t1 := t + [Cmd(WriteMemoryStart)];
    RunSnoc(c, t, Cmd(WriteMemoryStart));
    RunSnoc(c, t1, Bus16(w));
    Bus16Joins(w);
  }

  lemma ZerosSnoc(p: seq<Word>, n: nat)
    ensures p + [0] + seq(n, _ => 0) == p + seq(n + 1, _ => 0)
  {
  }

  lemma RunDisplayPhase(c: Controller, t: seq<BusEvent>)
    requires Run(c, t).selected
    ensures Run(c, DisplayOnTrace(t)).log == Run(c, t).log + DisplayCommands()
    ensures Run(c, DisplayOnTrace(t)).pixels == Run(c, t).pixels
    ensures Run(c, DisplayOnTrace(t)).selected
  {
    var t1 := t + Send(0x29, []);
    var t2 := t1 + Send(0xBE, [0x06, 0xF0, 0x01, 0xF0, 0x00, 0x00]);
    RunSendAfter(c, t, 0x29, []);
    RunSendAfter(c, t1, 0xBE, [0x06, 0xF0, 0x01, 0xF0, 0x00, 0x00]);
    RunSendAfter(c, t2, 0xD0, [0x0D]);
    Flatten3(Run(c, t).log, Command(0x29, []), Command(0xBE, [0x06, 0xF0, 0x01, 0xF0, 0x00, 0x00]), Command(0xD0, [0x0D]));
  }

  lemma RunBacklightPhase(c: Controller, t: seq<BusEvent>)
    ensures Run(c, BacklightTrace(t)) == Run(c, t).(selected := false)
  {
    var t1 := t + [CsHigh];
    var t2 := t1 + [Delay(1000)];
    RunSnoc(c, t, CsHigh);
    RunQuietAfter(c, t1, Delay(1000));
    RunQuietAfter(c, t2, BacklightOn);
  }

  /** What the controller receives from Init: the configuration commands in
      order with their parameters, the full-screen window and memory write,
      display on and the backlight settings, all while selected; frame memory
      gains 800 * 480 pixels of 0; chip select is released at the end. */
  lemma RunInit(c: Controller, t: seq<BusEvent>)
    ensures Run(c, InitTrace(t)).log == Run(c, t).log + InitCommands()
    ensures Run(c, InitTrace(t)).pixels == Run(c, t).pixels + seq(HorRes * VerRes, _ => 0)
    ensures !Run(c, InitTrace(t)).selected
  {
    var t1 := ResetTrace(t);
    var t2 := ClockTrace(t1);
    var t3 := PanelTrace(t2);
    var t4 := ClearTrace(t3);
    var t5 := DisplayOnTrace(t4);
    RunResetPhase(c, t);
    RunClockPhase(c, t1);
    RunPanelPhase(c, t2);
    RunClearPhase(c, t3);
    RunDisplayPhase(c, t4);
    RunBacklightPhase(c, t5);
    var l := Run(c, t).log;
    AppendAssoc(l, ClockCommands(), PanelCommands());
    AppendAssoc(l, ClockCommands() + PanelCommands(), ClearCommands());
    AppendAssoc(l, ClockCommands() + PanelCommands() + ClearCommands(), DisplayCommands());
  }
}
