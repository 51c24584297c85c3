/** The serial exchange with the resistive-touch ADC (an ADS7843-style chip,
    TI application note SBAA036): the microcontroller drives Din and the
    clock, and samples Dout after falling clock edges.  Each pin operation
    is one event; the level read from Dout is an input supplied by the
    caller. */
module TouchSerial {
  import opened Bits

  datatype WireEvent =
    | Din(level: bool)   // TouchDinPin driven to `level`
    | ClkHigh            // rising clock edge: the chip latches Din
    | ClkLow             // falling clock edge: the chip moves to its next output bit
    | SampleDout         // TouchDoutPin read

  type Byte = x: int | 0 <= x < 256
  type Reading = x: int | 0 <= x < 4096

  /** The value of a bit string sent most significant bit first: the
      accumulation `data <<= 1; if (bit) data++`. */
  function FromBits(bits: seq<bool>): nat
    decreases |bits|
  {
    if bits == [] then 0
    else 2 * FromBits(bits[..|bits| - 1]) + (if bits[|bits| - 1] then 1 else 0)
  }

  /** The n low bits of v, most significant first. */
  function MsbFirst(v: nat, n: nat): (bits: seq<bool>)
    ensures |bits| == n
  {
    if n == 0 then [] else MsbFirst(v / 2, n - 1) + [v % 2 == 1]
  }

  lemma {:induction false} FromBitsBound(bits: seq<bool>)
    ensures FromBits(bits) < Pow2(|bits|)
    decreases |bits|
  {
    if bits != [] {
      FromBitsBound(bits[..|bits| - 1]);
    }
  }

  /** Sending the n low bits of v most significant first and reassembling
      them gives v back. */
  lemma {:induction false} MsbFirstRoundTrip(v: nat, n: nat)
    requires v < Pow2(n)
    ensures FromBits(MsbFirst(v, n)) == v
    decreases n
  {
    if n > 0 {
      var bits := MsbFirst(v, n);
      assert bits[..n - 1] == MsbFirst(v / 2, n - 1);
      MsbFirstRoundTrip(v / 2, n - 1);
    }
  }

  /** A bit string is the most-significant-first encoding of the value it
      reassembles to, and of nothing else. */
  lemma {:induction false} FromBitsUnique(bits: seq<bool>)
    ensures bits == MsbFirst(FromBits(bits), |bits|)
    decreases |bits|
  {
    if bits != [] {
      var init := bits[..|bits| - 1];
      FromBitsUnique(init);
      var v := FromBits(bits);
      assert v / 2 == FromBits(init);
      assert (v % 2 == 1) == bits[|bits| - 1];
      assert init + [bits[|bits| - 1]] == bits;
    }
  }

  /** One clock cycle of WriteCommand: Din set, clock high, clock low. */
  function Cycle(level: bool): seq<WireEvent>
  {
    [Din(level), ClkHigh, ClkLow]
  }

  /** The wave form of WriteCommand for the Din levels `bits`. */
  function Clocks(bits: seq<bool>): seq<WireEvent>
    decreases |bits|
  {
    if bits == [] then [] else Clocks(bits[..|bits| - 1]) + Cycle(bits[|bits| - 1])
  }

  /** The levels the chip latches on the rising edges of a wave form. */
  function Latched(es: seq<WireEvent>): seq<bool>
    decreases |es|
  {
    if |es| < 2 then []
    else if es[|es| - 1].ClkHigh? && es[|es| - 2].Din? then Latched(es[..|es| - 1]) + [es[|es| - 2].level]
    else Latched(es[..|es| - 1])
  }

  /** The wave form of ReadData for the Din levels `dins`: one cycle per
      level, and Dout sampled after the falling edge of each of the first
      12 cycles. */
  function ReadWave(dins: seq<bool>): seq<WireEvent>
    decreases |dins|
  {
    if dins == [] then []
    else
      var k := |dins| - 1;
      ReadWave(dins[..k]) + Cycle(dins[k]) + (if k < 12 then [SampleDout] else [])
  }

  lemma ReadWaveSnoc(dins: seq<bool>, level: bool)
    ensures ReadWave(dins + [level]) == ReadWave(dins) + Cycle(level) + (if |dins| < 12 then [SampleDout] else [])
  {
    assert (dins + [level])[..|dins|] == dins;
  }

  lemma FromBitsSnoc(bits: seq<bool>, b: bool)
    ensures FromBits(bits + [b]) == 2 * FromBits(bits) + (if b then 1 else 0)
  {
    assert (bits + [b])[..|bits|] == bits;
  }

  /** The chip latches exactly the Din level of each clock cycle. */
  lemma {:induction false} LatchedClocks(bits: seq<bool>)
    ensures Latched(Clocks(bits)) == bits
    decreases |bits|
  {
    if bits != [] {
      var init := bits[..|bits| - 1];
      LatchedClocks(init);
      LatchedCycle(Clocks(init), bits[|bits| - 1]);
      assert init + [bits[|bits| - 1]] == bits;
    }
  }

  lemma LatchedCycle(p: seq<WireEvent>, b: bool)
    ensures Latched(p + Cycle(b)) == Latched(p) + [b]
  {
    var q := p + Cycle(b);
    var q2 := p + [Din(b), ClkHigh];
    var q1 := p + [Din(b)];
    assert q[..|q| - 1] == q2;
    assert Latched(q) == Latched(q2);
    assert q2[..|q2| - 1] == q1;
    assert Latched(q2) == Latched(q1) + [b];
    assert q1[..|q1| - 1] == p;
    assert Latched(q1) == Latched(p);
  }

  /** WriteCommand: the command byte shifted out most significant bit
      first, one clock cycle per bit. */
  method WriteCommand(command: Byte) returns (events: seq<WireEvent>)
    ensures events == Clocks(MsbFirst(command, 8))
  {
    var c: int := command;
    ghost var sent: seq<bool> := [];
    events := [];
    var count := 0;
    while count < 8
      invariant 0 <= count <= 8 && 0 <= c < 256 && |sent| == count
      invariant FromBits(sent) * 256 + c == command * Pow2(count)
      invariant events == Clocks(sent)
    {
      var level := c >= 0x80;     // command & 0x80
      ghost var b := if level then 1 else 0;
      ShiftStep(FromBits(sent), c, 256, b);
      MulPow2Succ(command, count);
      ghost var before := c;
      c := (c * 2) % 256;         // command <<= 1 on a uint8_t
      assert c == 2 * before - b * 256;
      assert (sent + [level])[..count] == sent;
      sent := sent + [level];
      events := events + Cycle(level);
      count := count + 1;
    }
    Pow2Table();
    ShiftEnd(FromBits(sent), c, 256, command);
    FromBitsUnique(sent);
  }

  /** ReadData as written: sixteen clock cycles with Din taken from
      `command & 0x8000`, where `command` is the 8-bit parameter, so Din is
      low throughout (the shifted 16-bit copy `cmd` is never used); the
      first twelve Dout samples are accumulated most significant first. */
  method ReadData(command: Byte, dout: seq<bool>) returns (data: nat, events: seq<WireEvent>)
    requires |dout| == 12
    ensures data == FromBits(dout) && data < 4096
    ensures events == ReadWave(seq(16, _ => false))
  {
    var cmd: int := command;
    data := 0;
    events := [];
    var count := 0;
    while count < 16
      invariant 0 <= count <= 16 && 0 <= cmd < 65536
      invariant data == FromBits(dout[..if count < 12 then count else 12])
      invariant events == ReadWave(seq(count, _ => false))
    {
      var level := false;         // command & 0x8000 on a uint8_t
      cmd := (cmd * 2) % 65536;   // cmd <<= 1, otherwise unused
      assert seq(count + 1, _ => false)[..count] == seq(count, _ => false);
      events := events + Cycle(level);
      if count < 12 {
        events := events + [SampleDout];
        assert dout[..count + 1][..count] == dout[..count];
        data := 2 * data + (if dout[count] then 1 else 0);
      }
      count := count + 1;
    }
    assert dout[..12] == dout;
    FromBitsBound(dout);
  }

  /** The wave form of one ReadData exchange as written. */
  function QuietFrame(): seq<WireEvent>
  {
    ReadWave(seq(16, _ => false))
  }

  /** n ReadData exchanges as written, one after another. */
  function Frames(n: nat): seq<WireEvent>
  {
    if n == 0 then [] else Frames(n - 1) + QuietFrame()
  }

  lemma FramesSucc(n: nat)
    ensures Frames(n + 1) == Frames(n) + QuietFrame()
  {
  }

  lemma {:induction false} FramesAppend(m: nat, n: nat)
    ensures Frames(m) + Frames(n) == Frames(m + n)
    decreases n
  {
    if n > 0 {
      FramesAppend(m, n - 1);
      assert Frames(m) + Frames(n) == (Frames(m) + Frames(n - 1)) + QuietFrame();
    }
  }

  /** Every wave form of an exchange starts by driving Din. */
  lemma {:induction false} ReadWaveStart(dins: seq<bool>)
    requires dins != []
    ensures |ReadWave(dins)| > 0 && ReadWave(dins)[0] == Din(dins[0])
    decreases |dins|
  {
    if |dins| > 1 {
      ReadWaveStart(dins[..|dins| - 1]);
    }
  }

  /** A rising edge at the seam is all that could make two wave forms
      latch more together than apart. */
  lemma {:induction false} LatchedAppend(p: seq<WireEvent>, q: seq<WireEvent>)
    requires q == [] || !q[0].ClkHigh?
    ensures Latched(p + q) == Latched(p) + Latched(q)
    decreases |q|
  {
    if q == [] {
      assert p + q == p;
    } else if |q| == 1 {
      assert (p + q)[..|p + q| - 1] == p;
    } else {
      var init := q[..|q| - 1];
      LatchedAppend(p, init);
      assert (p + q)[..|p + q| - 1] == p + init;
    }
  }

  /** An exchange latches exactly the Din levels it drives. */
  lemma {:induction false} LatchedReadWave(dins: seq<bool>)
    ensures Latched(ReadWave(dins)) == dins
    decreases |dins|
  {
    if dins != [] {
      var k := |dins| - 1;
      LatchedReadWave(dins[..k]);
      LatchedCycle(ReadWave(dins[..k]), dins[k]);
      var w := ReadWave(dins[..k]) + Cycle(dins[k]);
      if k < 12 {
        assert ReadWave(dins) == w + [SampleDout];
        assert (w + [SampleDout])[..|w|] == w;
      } else {
        assert ReadWave(dins) == w;
      }
      assert dins[..k] + [dins[k]] == dins;
    }
  }

  /** Exchanges as written latch nothing but low levels, sixteen each. */
  lemma {:induction false} LatchedFrames(n: nat)
    ensures Latched(Frames(n)) == seq(16 * n, _ => false)
    ensures n > 0 ==> |Frames(n)| > 0 && Frames(n)[0] == Din(false)
    decreases n
  {
    if n > 0 {
      LatchedFrames(n - 1);
      ReadWaveStart(seq(16, _ => false));
      LatchedAppend(Frames(n - 1), QuietFrame());
      LatchedReadWave(seq(16, _ => false));
      assert seq(16 * (n - 1), _ => false) + seq(16, _ => false) == seq(16 * n, _ => false);
    }
  }

  /** ReadData with Din taken from the shifted 16-bit copy `cmd`, as the
      variable it prepares and the comment at its call site ("send the same
      command again") intend. */
  method ReadDataIntended(command: Byte, dout: seq<bool>) returns (data: nat, events: seq<WireEvent>, dins: seq<bool>)
    requires |dout| == 12
    ensures data == FromBits(dout) && data < 4096
    ensures |dins| == 16 && events == ReadWave(dins)
    ensures dins == MsbFirst(command, 16)
  {
    var cmd: int := command;
    data := 0;
    events := [];
    dins := [];
    var count := 0;
    while count < 16
      invariant 0 <= count <= 16 && 0 <= cmd < 65536 && |dins| == count
      invariant FromBits(dins) * 65536 + cmd == command * Pow2(count)
      invariant data == FromBits(dout[..if count < 12 then count else 12])
      invariant events == ReadWave(dins)
    {
      var level := cmd >= 0x8000;   // cmd & 0x8000
      CommandShift(dins, cmd, command, count);
      ReadWaveSnoc(dins, level);
      cmd := (cmd * 2) % 65536;
      dins := dins + [level];
      events := events + Cycle(level);
      if count < 12 {
        events := events + [SampleDout];
        PrefixSnoc(dout, count);
        data := 2 * data + (if dout[count] then 1 else 0);
      }
      count := count + 1;
    }
    assert dout[..12] == dout;
    FromBitsBound(dout);
    Pow2Table();
    ShiftEnd(FromBits(dins), cmd, 65536, command);
    FromBitsUnique(dins);
  }

  /** The exchange as written sends the chip no start bit: every Din level
      is low, so what it latches reads as 0 whatever the command, and the
      channel-select command 0x93 never reaches it. */
  lemma ReadDataSendsNothing(command: Byte)
    ensures FromBits(seq(16, _ => false)) == 0
    ensures command != 0 ==> FromBits(seq(16, _ => false)) != command
  {
    ZerosFromBits(16);
  }

  lemma {:induction false} ZerosFromBits(n: nat)
    ensures FromBits(seq(n, _ => false)) == 0
    decreases n
  {
    if n > 0 {
      assert seq(n, _ => false)[..n - 1] == seq(n - 1, _ => false);
      ZerosFromBits(n - 1);
    }
  }

  /** The intended exchange clocks the command out as a 16-bit value, most
      significant bit first: eight low levels, then the command byte. */
  lemma ReadDataIntendedSendsCommand(command: Byte)
    ensures FromBits(MsbFirst(command, 16)) == command
    ensures MsbFirst(command, 16) == seq(8, _ => false) + MsbFirst(command, 8)
  {
    Pow2Table();
    MsbFirstRoundTrip(command, 16);
    MsbFirstHigh(command, 8, 8);
  }

  lemma {:induction false} ZerosMsbFirst(n: nat)
    ensures MsbFirst(0, n) == seq(n, _ => false)
    decreases n
  {
    if n > 0 {
      ZerosMsbFirst(n - 1);
    }
  }

  /** Encoding an n-bit value on m + n bits puts m low levels in front. */
  lemma {:induction false} MsbFirstHigh(v: nat, m: nat, n: nat)
    requires v < Pow2(n)
    ensures MsbFirst(v, m + n) == seq(m, _ => false) + MsbFirst(v, n)
    decreases n
  {
    if n == 0 {
      ZerosMsbFirst(m);
    } else {
      MsbFirstHigh(v / 2, m, n - 1);
      assert MsbFirst(v, m + n) == MsbFirst(v / 2, m + n - 1) + [v % 2 == 1];
    }
  }

  /** One step of shifting the 16-bit copy of the command out, most
      significant bit first, keeps sent bits and register in balance. */
  lemma CommandShift(dins: seq<bool>, cmd: int, command: nat, count: nat)
    requires 0 <= cmd < 65536 && FromBits(dins) * 65536 + cmd == command * Pow2(count)
    ensures FromBits(dins + [cmd >= 0x8000]) * 65536 + (cmd * 2) % 65536 == command * Pow2(count + 1)
  {
    var b := if cmd >= 0x8000 then 1 else 0;
    ShiftStep(FromBits(dins), cmd, 65536, b);
    MulPow2Succ(command, count);
    FromBitsSnoc(dins, cmd >= 0x8000);
    assert (cmd * 2) % 65536 == 2 * cmd - b * 65536;
  }

  /** One more sample of a prefix. */
  lemma PrefixSnoc(bits: seq<bool>, k: nat)
    requires k < |bits|
    ensures FromBits(bits[..k + 1]) == 2 * FromBits(bits[..k]) + (if bits[k] then 1 else 0)
  {
    assert bits[..k + 1] == bits[..k] + [bits[k]];
    FromBitsSnoc(bits[..k], bits[k]);
  }

  /** The step of a shift register of width w that moves its top bit b out:
      twice the bits sent and the register, as a sum. */
  lemma ShiftStep(x: int, c: int, w: int, b: int)
    ensures (2 * x + b) * w + (2 * c - b * w) == 2 * (x * w + c)
  {
  }

  lemma MulPow2Succ(v: nat, n: nat)
    ensures v * Pow2(n + 1) == 2 * (v * Pow2(n))
  {
  }

  lemma {:induction false} MulAtLeast(k: nat, d: nat)
    requires k >= 1
    ensures k * d >= d
    decreases k
  {
    if k > 1 {
      MulAtLeast(k - 1, d);
      assert k * d == (k - 1) * d + d;
    }
  }

  lemma {:induction false} MulAtMost(k: int, d: nat)
    requires k <= -1
    ensures k * d + d <= 0
    decreases -k
  {
    if k < -1 {
      MulAtMost(k + 1, d);
      assert k * d == (k + 1) * d - d;
    }
  }

  /** After w shifts of a value below w, the register is empty and the
      bits sent make up the value. */
  lemma ShiftEnd(x: int, c: int, w: int, v: nat)
    requires w > 0 && 0 <= c < w && 0 <= x && v < w && x * w + c == v * w
    ensures x == v && c == 0
  {
    assert (v - x) * w == c;
    if v - x >= 1 {
      MulAtLeast(v - x, w);
      assert false;
    } else if v - x <= -1 {
      MulAtMost(v - x, w);
      assert false;
    }
  }

  /** The chip shifting a 12-bit conversion result out on Dout most
      significant bit first is read back as exactly that result. */
  lemma ReadDataRoundTrip(v: Reading)
    ensures FromBits(MsbFirst(v, 12)) == v
  {
    Pow2Table();
    MsbFirstRoundTrip(v, 12);
  }
}
