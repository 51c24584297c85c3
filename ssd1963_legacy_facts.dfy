/** What the superseded driver puts on the bus and what the controller makes
    of it, and how it compares with the current driver. */
module Ssd1963LegacyFacts {
  import opened LcdBus
  import opened Ssd1963
  import opened Ssd1963Facts
  import opened Ssd1963Legacy

  // ---------------------------------------------------------------------
  // Flush on the bus.
  // ---------------------------------------------------------------------

  /** Every pixel goes out as one full 16-bit write of that pixel: no bare
      strobes. */
  lemma WordsShape(ws: seq<Word>)
    ensures |Words(ws)| == |ws|
    ensures forall i :: 0 <= i < |ws| ==> Words(ws)[i] == Bus16(ws[i])
    ensures Occurrences(Words(ws), Strobe) == 0
  {
    WordsNoStrobe(ws);
    forall i | 0 <= i < |ws|
      ensures Words(ws)[i] == Bus16(ws[i])
    {
      WordAt(ws, i);
    }
  }

  /** The i-th event of the writes is the full write of the i-th word. */
  lemma {:induction false} WordAt(ws: seq<Word>, i: nat)
    requires i < |ws|
    ensures |Words(ws)| == |ws| && Words(ws)[i] == Bus16(ws[i])
    decreases |ws|
  {
    var init := ws[..|ws| - 1];
    if i < |init| {
      WordAt(init, i);
      assert ws[i] == init[i];
    } else {
      WordsLength(init);
    }
  }

  lemma {:induction false} WordsLength(ws: seq<Word>)
    ensures |Words(ws)| == |ws|
    decreases |ws|
  {
    if ws != [] {
      WordsLength(ws[..|ws| - 1]);
    }
  }

  lemma {:induction false} WordsNoStrobe(ws: seq<Word>)
    ensures |Words(ws)| == |ws| && Occurrences(Words(ws), Strobe) == 0
    decreases |ws|
  {
    if ws != [] {
      var es := Words(ws);
      var pre := Words(ws[..|ws| - 1]);
      WordsNoStrobe(ws[..|ws| - 1]);
      assert es[..|es| - 1] == pre;
    }
  }

  /** The rows of the old Flush are the full writes of exactly the pixels
      the current driver sends, in the same order. */
  lemma {:induction false} LegacyRowsAreWords(t: seq<BusEvent>, buf: seq<Word>, a: Area, n: nat)
    requires Covers(a, |buf|) && NonEmpty(Clip(a)) && n <= RowCount(Clip(a))
    ensures LegacyRowsTrace(t, buf, a, n) == t + Words(SentPixels(buf, a, n))
  {
    if n == 0 {
      assert Words([]) == [];
    } else {
      LegacyRowsAreWords(t, buf, a, n - 1);
      WordsAppend(SentPixels(buf, a, n - 1), RowOf(buf, a, n - 1));
      AppendAssoc(t, Words(SentPixels(buf, a, n - 1)), Words(RowOf(buf, a, n - 1)));
    }
  }

  lemma {:induction false} WordsAppend(a: seq<Word>, b: seq<Word>)
    ensures Words(a + b) == Words(a) + Words(b)
    decreases |b|
  {
    if b == [] {
      assert a + b == a;
    } else {
      var init := b[..|b| - 1];
      WordsAppend(a, init);
      assert (a + b)[..|a + b| - 1] == a + init;
    }
  }

  /** The old Flush followed by its completion signal: nothing at all for an
      area wholly off the panel; otherwise chip select first and the release
      of chip select and the completion signal last. */
  lemma LegacyFlushActivity(t: seq<BusEvent>, a: Area, buf: seq<Word>)
    requires NonEmpty(a) && Covers(a, |buf|)
    ensures OffScreen(a) ==> LegacyFlushTrace(t, a, buf) == t
    ensures OffScreen(a) ==> Occurrences(LegacyFlushTrace(t, a, buf), FlushReady) == Occurrences(t, FlushReady)
    ensures !OffScreen(a) ==> var es := LegacyFlushTrace([], a, buf);
      |es| >= 3 && es[0] == CsLow && es[|es| - 2..] == [CsHigh, FlushReady]
  {
    if !OffScreen(a) {
      OnScreenClips(a);
      var c := Clip(a);
      var head := [] + [CsLow] + LegacyWindowEvents(c.x1, c.x2, c.y1, c.y2) + [Cmd(WriteMemoryStart)];
      LegacyRowsAreWords(head, buf, a, RowCount(c));
      assert head[0] == CsLow;
    }
  }

  /** On the drawing path the completion signal is given exactly once, as
      the last event. */
  lemma LegacyFlushSignalsOnce(t: seq<BusEvent>, a: Area, buf: seq<Word>)
    requires NonEmpty(a) && Covers(a, |buf|) && !OffScreen(a)
    ensures Occurrences(LegacyFlushTrace(t, a, buf), FlushReady) == Occurrences(t, FlushReady) + 1
    ensures LegacyFlushTrace(t, a, buf)[|LegacyFlushTrace(t, a, buf)| - 1] == FlushReady
  {
    OnScreenClips(a);
    var c := Clip(a);
    var head := t + [CsLow] + LegacyWindowEvents(c.x1, c.x2, c.y1, c.y2) + [Cmd(WriteMemoryStart)];
    var ws := Words(SentPixels(buf, a, RowCount(c)));
    LegacyRowsAreWords(head, buf, a, RowCount(c));
    var rows := head + ws;
    NoFlushReadyInLegacyHead(t, c.x1, c.x2, c.y1, c.y2);
    WordsShape(SentPixels(buf, a, RowCount(c)));
    OccurrencesNone(ws, FlushReady);
    OccurrencesAppend(head, ws, FlushReady);
    OccurrencesAppend(rows, [CsHigh], FlushReady);
    OccurrencesAppend(rows + [CsHigh], [FlushReady], FlushReady);
    OccurrencesOne(CsHigh, FlushReady);
    OccurrencesOne(FlushReady, FlushReady);
  }

  lemma NoFlushReadyInLegacyHead(t: seq<BusEvent>, x1: Word, x2: Word, y1: Word, y2: Word)
    ensures Occurrences(t + [CsLow] + LegacyWindowEvents(x1, x2, y1, y2) + [Cmd(WriteMemoryStart)], FlushReady)
      == Occurrences(t, FlushReady)
  {
    var w := LegacyWindowEvents(x1, x2, y1, y2);
    OccurrencesAppend(t + [CsLow] + w, [Cmd(WriteMemoryStart)], FlushReady);
    OccurrencesAppend(t + [CsLow], w, FlushReady);
    OccurrencesAppend(t, [CsLow], FlushReady);
    OccurrencesOne(CsLow, FlushReady);
    OccurrencesOne(Cmd(WriteMemoryStart), FlushReady);
    assert forall i :: 0 <= i < |w| ==> w[i].Cmd? || w[i].Data16?;
    OccurrencesNone(w, FlushReady);
  }

  // ---------------------------------------------------------------------
  // Flush as the controller receives it.
  // ---------------------------------------------------------------------

  /** A single-byte 16-bit write after a command adds that byte to the
      command's parameters: the upper byte on the bus is 0, and the
      controller keeps the lower one. */
  lemma RunParamWord(c: Controller, t: seq<BusEvent>, l: seq<Command>, code: Byte, ps: seq<Byte>, b: Byte)
    requires Run(c, t).selected && Run(c, t).log == l + [Command(code, ps)] && code != WriteMemoryStart
    ensures var d := Run(c, t + [Bus16(b)]);
      d.log == l + [Command(code, ps + [b])] && d.pixels == Run(c, t).pixels && d.selected
  {
    RunSnoc(c, t, Bus16(b));
    StepParamWord(Run(c, t), l, code, ps, b);
  }

  lemma StepParamWord(d: Controller, l: seq<Command>, code: Byte, ps: seq<Byte>, b: Byte)
    requires d.selected && d.log == l + [Command(code, ps)] && code != WriteMemoryStart
    ensures Step(d, Bus16(b)) == d.(bus := b, log := l + [Command(code, ps + [b])])
  {
    assert Low(b) == b && High(b) == 0;
    assert Join(0, b) == b;
    assert d.log[..|d.log| - 1] == l;
  }

  /** One address command of the old driver reaches the controller as the
      same command and four parameter bytes as SetXY of the current one. */
  lemma RunAddress(c: Controller, t: seq<BusEvent>, code: Byte, start: Word, end: Word)
    requires Run(c, t).selected && code != WriteMemoryStart
    ensures var d := Run(c, t + AddressEvents(code, start, end));
      d.log == Run(c, t).log + [Command(code, WindowParams(start, end))] &&
      d.pixels == Run(c, t).pixels && d.selected
  {
    var ps := WindowParams(start, end);
    var l := Run(c, t).log;
    var t1 := t + [Cmd(code)];
    var t2 := t1 + [Bus16(ps[0])];
    var t3 := t2 + [Bus16(ps[1])];
    var t4 := t3 + [Bus16(ps[2])];
    assert t + AddressEvents(code, start, end) == t4 + [Bus16(ps[3])];
    RunSnoc(c, t, Cmd(code));
    RunParamWord(c, t1, l, code, [], ps[0]);
    RunParamWord(c, t2, l, code, [] + [ps[0]], ps[1]);
    RunParamWord(c, t3, l, code, [] + [ps[0]] + [ps[1]], ps[2]);
    RunParamWord(c, t4, l, code, [] + [ps[0]] + [ps[1]] + [ps[2]], ps[3]);
    assert [] + [ps[0]] + [ps[1]] + [ps[2]] + [ps[3]] == ps;
  }

  lemma RunLegacyHead(c: Controller, t: seq<BusEvent>, x1: Word, x2: Word, y1: Word, y2: Word)
    ensures var d := Run(c, t + [CsLow] + LegacyWindowEvents(x1, x2, y1, y2) + [Cmd(WriteMemoryStart)]);
      d.log == Run(c, t).log + [Command(SetColumnAddress, WindowParams(x1, x2))]
                             + [Command(SetPageAddress, WindowParams(y1, y2))]
                             + [Command(WriteMemoryStart, [])] &&
      d.pixels == Run(c, t).pixels && d.selected && InMemoryWrite(d)
  {
    var t1 := t + [CsLow];
    var sx := AddressEvents(SetColumnAddress, x1, x2);
    var sy := AddressEvents(SetPageAddress, y1, y2);
    AppendAssoc(t1, sx, sy);
    RunSnoc(c, t, CsLow);
    RunAddress(c, t1, SetColumnAddress, x1, x2);
    RunAddress(c, t1 + sx, SetPageAddress, y1, y2);
    RunSnoc(c, t1 + sx + sy, Cmd(WriteMemoryStart));
  }

  /** The old Flush as the controller receives it: nothing for an area off
      the panel; otherwise the window of the clipped area, the memory write
      start and the same pixels as the current driver's rows, and chip select
      released. */
  lemma RunLegacyFlush(c: Controller, t: seq<BusEvent>, a: Area, buf: seq<Word>)
    requires NonEmpty(a) && Covers(a, |buf|)
    ensures var cl := Clip(a); var d := Run(c, LegacyFlushTrace(t, a, buf));
      if OffScreen(a) then d == Run(c, t)
      else
        NonEmpty(cl) &&
        d.log == Run(c, t).log + [Command(SetColumnAddress, WindowParams(cl.x1, cl.x2))]
                               + [Command(SetPageAddress, WindowParams(cl.y1, cl.y2))]
                               + [Command(WriteMemoryStart, [])] &&
        d.pixels == Run(c, t).pixels + SentPixels(buf, a, RowCount(cl)) &&
        !d.selected
  {
    if !OffScreen(a) {
      OnScreenClips(a);
      var cl := Clip(a);
      var head := t + [CsLow] + LegacyWindowEvents(cl.x1, cl.x2, cl.y1, cl.y2) + [Cmd(WriteMemoryStart)];
      var ps := SentPixels(buf, a, RowCount(cl));
      LegacyRowsAreWords(head, buf, a, RowCount(cl));
      var rows := head + Words(ps);
      RunLegacyHead(c, t, cl.x1, cl.x2, cl.y1, cl.y2);
      RunAppend(c, head, Words(ps));
      RunWords(Run(c, head), ps);
      RunFlushTail(c, rows);
    }
  }

  /** For an area with some part on the panel, the controller ends up with
      the same commands, the same frame memory writes and chip select in the
      same state whichever driver flushed it: the bare-strobe optimisation of
      the current driver and its byte-wide window writes change nothing the
      controller receives. */
  lemma FlushesAgree(c: Controller, t: seq<BusEvent>, a: Area, buf: seq<Word>)
    requires NonEmpty(a) && Covers(a, |buf|) && !OffScreen(a)
    ensures var d := Run(c, LegacyFlushTrace(t, a, buf)); var e := Run(c, FlushTrace(t, a, buf));
      d.log == e.log && d.pixels == e.pixels && d.selected == e.selected
  {
    var cl := Clip(a);
    RunLegacyFlush(c, t, a, buf);
    RunFlush(c, t, a, buf);
    var l := Run(c, t).log;
    var cx := Command(SetColumnAddress, WindowParams(cl.x1, cl.x2));
    var cy := Command(SetPageAddress, WindowParams(cl.y1, cl.y2));
    Flatten3(l, cx, cy, Command(WriteMemoryStart, []));
  }

  // ---------------------------------------------------------------------
  // Init as the controller receives it.
  // ---------------------------------------------------------------------

  function LegacyClockCommands(): seq<Command>
  {
    [ Command(0xE2, [0x1E, 0x02, 0x54]),
      Command(0xE0, [0x01]),
      Command(0xE0, [0x03]),
      Command(0x01, []) ]
  }

  /** The commands the old Init sends: the clocks with its own PLL bytes,
      the panel and display commands of the current driver, no clear, and a
      memory write start last. */
  function LegacyInitCommands(): seq<Command>
  {
    LegacyClockCommands() + PanelCommands() + DisplayCommands() + [Command(WriteMemoryStart, [])]
  }

  lemma RunLegacyResetPhase(c: Controller, t: seq<BusEvent>)
    ensures Run(c, LegacyResetTrace(t)) == Run(c, t).(selected := true)
  {
    var t1 := t + [ResetHigh];
    var t2 := t1 + [Delay(5)];
    var t3 := t2 + [ResetLow];
    var t4 := t3 + [Delay(15)];
    var t5 := t4 + [ResetHigh];
    var t6 := t5 + [Delay(15)];
    RunQuietAfter(c, t, ResetHigh);
    RunQuietAfter(c, t1, Delay(5));
    RunQuietAfter(c, t2, ResetLow);
    RunQuietAfter(c, t3, Delay(15));
    RunQuietAfter(c, t4, ResetHigh);
    RunQuietAfter(c, t5, Delay(15));
    RunSnoc(c, t6, CsLow);
  }

  lemma RunLegacyClockPhase(c: Controller, t: seq<BusEvent>)
    requires Run(c, t).selected
    ensures Run(c, LegacyClockTrace(t)).log == Run(c, t).log + LegacyClockCommands()
    ensures Run(c, LegacyClockTrace(t)).pixels == Run(c, t).pixels
    ensures Run(c, LegacyClockTrace(t)).selected
  {
    var t1 := t + Send(0xE2, [0x1E, 0x02, 0x54]);
    var t2 := t1 + Send(0xE0, [0x01]);
    var t3 := t2 + [Delay(10)];
    var t4 := t3 + Send(0xE0, [0x03]);
    var t5 := t4 + [Delay(10)];
    var t6 := t5 + Send(0x01, []);
    RunSendAfter(c, t, 0xE2, [0x1E, 0x02, 0x54]);
    RunSendAfter(c, t1, 0xE0, [0x01]);
    RunQuietAfter(c, t2, Delay(10));
    RunSendAfter(c, t3, 0xE0, [0x03]);
    RunQuietAfter(c, t4, Delay(10));
    RunSendAfter(c, t5, 0x01, []);
    RunQuietAfter(c, t6, Delay(100));
    Flatten4(Run(c, t).log, Command(0xE2, [0x1E, 0x02, 0x54]), Command(0xE0, [0x01]), Command(0xE0, [0x03]), Command(0x01, []));
  }

  /** The old Init as the controller receives it: its command list in order,
      no pixel written, and chip select released with a memory write still
      open. */
  lemma RunLegacyInit(c: Controller, t: seq<BusEvent>)
    ensures Run(c, LegacyInitTrace(t)).log == Run(c, t).log + LegacyInitCommands()
    ensures Run(c, LegacyInitTrace(t)).pixels == Run(c, t).pixels
    ensures !Run(c, LegacyInitTrace(t)).selected && InMemoryWrite(Run(c, LegacyInitTrace(t)))
  {
    var t1 := LegacyResetTrace(t);
    var t2 := LegacyClockTrace(t1);
    var t3 := PanelTrace(t2);
    var t4 := DisplayOnTrace(t3);
    RunLegacyResetPhase(c, t);
    RunLegacyClockPhase(c, t1);
    RunPanelPhase(c, t2);
    RunDisplayPhase(c, t3);
    RunSnoc(c, t4, Cmd(WriteMemoryStart));
    RunSnoc(c, t4 + [Cmd(WriteMemoryStart)], CsHigh);
    var l := Run(c, t).log;
    AppendAssoc(l, LegacyClockCommands(), PanelCommands());
    AppendAssoc(l, LegacyClockCommands() + PanelCommands(), DisplayCommands());
    AppendAssoc(l, LegacyClockCommands() + PanelCommands() + DisplayCommands(), [Command(WriteMemoryStart, [])]);
  }

  /** The old Init ends with the memory write start and then the release of
      chip select, and never writes a pixel: there is no clear. */
  lemma LegacyInitShape(t: seq<BusEvent>)
    ensures var es := LegacyInitTrace(t);
      |es| >= 2 && es[|es| - 2..] == [Cmd(WriteMemoryStart), CsHigh]
    ensures forall c: Controller :: Run(c, LegacyInitTrace(t)).pixels == Run(c, t).pixels
  {
    forall c: Controller
      ensures Run(c, LegacyInitTrace(t)).pixels == Run(c, t).pixels
    {
      RunLegacyInit(c, t);
    }
  }
}
