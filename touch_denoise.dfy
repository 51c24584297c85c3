/** Reading one settled coordinate from the touch ADC (getTouchData): a
    first conversion is discarded, eight readings fill a ring buffer, and
    while some reading lies more than 40 away from the ring's average the
    oldest reading is replaced by a fresh one, up to sixteen attempts.  The
    conversion results are supplied by the caller as the Dout levels of
    each exchange. */
module TouchDenoise {
  import opened Bits
  import opened TouchSerial

  const NumReadings: nat := 8
  const MaxDiff: nat := 40
  const MaxAttempts: nat := 16

  /** The number of Dout exchanges GetTouchData may consume: the discarded
      first result, the eight that fill the ring, one per failed attempt and
      the two closing exchanges. */
  const MaxExchanges: nat := 1 + NumReadings + MaxAttempts + 2

  /** The channel-select command, read as the chip's control byte
      S A2 A1 A0 MODE SER/DFR PD1 PD0: start bit, channel 5 (Y) or 1 (X),
      12-bit conversion, differential reference, converter kept powered. */
  function ChannelCommand(wantY: bool): (r: Byte)
    ensures r / 128 == 1
    ensures r / 16 % 8 == (if wantY then 5 else 1)
    ensures r / 8 % 2 == 0 && r / 4 % 2 == 0
    ensures r % 4 == 3
  {
    if wantY then 0xD3 else 0x93
  }

  /** `command & 0xF8`: the same channel with the power-down bits cleared. */
  function PowerDown(command: Byte): (r: Byte)
    ensures r % 8 == 0 && command - 8 < r <= command
  {
    command - command % 8
  }

  /** The absolute difference of two 16-bit readings. */
  function Diff(a: int, b: int): (r: int)
    ensures 0 <= r && (r == a - b || r == b - a)
    ensures 0 <= a < 65536 && 0 <= b < 65536 ==> r < 65536
  {
    if a < b then b - a else a - b
  }

  function Sum(s: seq<int>): int
    decreases |s|
  {
    if s == [] then 0 else Sum(s[..|s| - 1]) + s[|s| - 1]
  }

  function Average(ring: seq<int>): int
  {
    Sum(ring) / NumReadings
  }

  /** Every reading of the ring lies within MaxDiff of `avg`. */
  predicate Settled(ring: seq<int>, avg: int)
  {
    forall j :: 0 <= j < |ring| ==> Diff(avg, ring[j]) <= MaxDiff
  }

  predicate IsReadings(vs: seq<int>)
  {
    forall k :: 0 <= k < |vs| ==> 0 <= vs[k] < 4096
  }

  /** The conversion results carried by a sequence of Dout sample strings. */
  function Samples(douts: seq<seq<bool>>): (vs: seq<int>)
    ensures |vs| == |douts|
    ensures forall k :: 0 <= k < |douts| ==> vs[k] == FromBits(douts[k])
  {
    seq(|douts|, k requires 0 <= k < |douts| => FromBits(douts[k]))
  }

  /** The outcome of getTouchData: whether the readings settled, the value it
      reports, the final ring and the number of failed attempts. */
  datatype Sampling = Sampling(ok: bool, value: int, ring: seq<int>, failures: nat)

  /** The retry loop from attempt `attempt` on, `more` holding the readings
      still to come.  After the sixteenth failure the reported value is the
      average computed before the last replacement. */
  function Converge(ring: seq<int>, attempt: nat, more: seq<int>): (s: Sampling)
    requires |ring| == NumReadings && attempt < MaxAttempts && |more| >= MaxAttempts - attempt
    ensures attempt <= s.failures <= MaxAttempts && (s.ok <==> s.failures < MaxAttempts)
    decreases MaxAttempts - attempt
  {
    var avg := Average(ring);
    if Settled(ring, avg) then Sampling(true, avg, ring, attempt)
    else
      var next := ring[attempt % NumReadings := more[0]];
      if attempt == MaxAttempts - 1 then Sampling(false, avg, next, MaxAttempts)
      else Converge(next, attempt + 1, more[1..])
  }

  /** getTouchData on the conversion results `vs`: vs[0] is discarded and
      vs[1..9] fill the ring. */
  function Denoise(vs: seq<int>): (s: Sampling)
    requires |vs| >= 1 + NumReadings + MaxAttempts
    ensures s.failures <= MaxAttempts && (s.ok <==> s.failures < MaxAttempts)
  {
    Converge(vs[1..1 + NumReadings], 0, vs[1 + NumReadings..])
  }

  /** The ring after f replacements, in closed form: slot j holds the reading
      of the last eight whose age matches the slot's turn in the round robin. */
  function Ring(vs: seq<int>, f: nat): (ring: seq<int>)
    requires |vs| >= 1 + NumReadings + f
    ensures |ring| == NumReadings
  {
    seq(NumReadings, j requires 0 <= j < NumReadings => vs[1 + f + (j - f) % NumReadings])
  }

  /** Replacing the slot `f % 8` by the next reading moves the closed form on
      by one. */
  lemma RingStep(vs: seq<int>, f: nat)
    requires |vs| >= 2 + NumReadings + f
    ensures Ring(vs, f)[f % NumReadings := vs[1 + NumReadings + f]] == Ring(vs, f + 1)
  {
    var a := Ring(vs, f)[f % NumReadings := vs[1 + NumReadings + f]];
    var b := Ring(vs, f + 1);
    forall j | 0 <= j < NumReadings
      ensures a[j] == b[j]
    {
      if j == f % NumReadings {
        assert (j - (f + 1)) % 8 == 7;
      } else {
        assert (j - (f + 1)) % 8 == (j - f) % 8 - 1;
      }
    }
  }

  /** None of the rings tested in attempts f .. g - 1 is settled. */
  predicate NoneSettled(vs: seq<int>, f: nat, g: nat)
    requires |vs| >= 1 + NumReadings + MaxAttempts
  {
    forall h :: f <= h < g && h < MaxAttempts ==> !Settled(Ring(vs, h), Average(Ring(vs, h)))
  }

  /** The outcome s of the retry loop started at attempt f, characterised
      without the loop: the number of failures is the first attempt from f
      on, below 16, whose ring is settled around its average, or 16 when
      there is none; a settled outcome reports that ring's average, an
      unsettled one the average of the last ring tested. */
  predicate Characterised(vs: seq<int>, f: nat, s: Sampling)
    requires |vs| >= 1 + NumReadings + MaxAttempts
  {
    && s.failures <= MaxAttempts
    && NoneSettled(vs, f, s.failures)
    && s.ring == Ring(vs, s.failures)
    && (s.ok ==> s.value == Average(s.ring) && Settled(s.ring, s.value))
    && (!s.ok ==> s.value == Average(Ring(vs, MaxAttempts - 1)))
  }

  /** A failed attempt replaces the slot `f % 8` by the next reading and
      either gives up (the sixteenth failure) or tries again. */
  lemma ConvergeUnfold(ring: seq<int>, f: nat, more: seq<int>)
    requires |ring| == NumReadings && f < MaxAttempts && |more| >= MaxAttempts - f
    requires !Settled(ring, Average(ring))
    ensures f == MaxAttempts - 1 ==>
      Converge(ring, f, more) == Sampling(false, Average(ring), ring[f % NumReadings := more[0]], MaxAttempts)
    ensures f < MaxAttempts - 1 ==>
      Converge(ring, f, more) == Converge(ring[f % NumReadings := more[0]], f + 1, more[1..])
  {
  }

  /** The retry loop started with the ring in closed form meets the
      characterisation. */
  lemma {:induction false} ConvergeRing(vs: seq<int>, f: nat)
    requires f < MaxAttempts && |vs| >= 1 + NumReadings + MaxAttempts
    ensures Characterised(vs, f, Converge(Ring(vs, f), f, vs[1 + NumReadings + f..]))
    decreases MaxAttempts - f
  {
    var ring := Ring(vs, f);
    if Settled(ring, Average(ring)) {
      assert NoneSettled(vs, f, f);
    } else if f < MaxAttempts - 1 {
      ConvergeRing(vs, f + 1);
      ConvergeRingStep(vs, f);
    } else {
      RingStep(vs, f);
      assert NoneSettled(vs, f, MaxAttempts);
    }
  }

  /** An unsettled attempt before the last passes the characterisation of
      the attempts after it back to itself. */
  lemma ConvergeRingStep(vs: seq<int>, f: nat)
    requires f < MaxAttempts - 1 && |vs| >= 1 + NumReadings + MaxAttempts
    requires !Settled(Ring(vs, f), Average(Ring(vs, f)))
    requires Characterised(vs, f + 1, Converge(Ring(vs, f + 1), f + 1, vs[1 + NumReadings + (f + 1)..]))
    ensures Characterised(vs, f, Converge(Ring(vs, f), f, vs[1 + NumReadings + f..]))
  {
    var more := vs[1 + NumReadings + f..];
    var ring := Ring(vs, f);
    RingStep(vs, f);
    ConvergeUnfold(ring, f, more);
    assert more[1..] == vs[1 + NumReadings + (f + 1)..];
    var s := Converge(Ring(vs, f + 1), f + 1, more[1..]);
    assert Converge(ring, f, more) == s;
    assert NoneSettled(vs, f + 1, s.failures);
    assert NoneSettled(vs, f, s.failures);
  }


  /** The outcome of getTouchData, stated without the retry loop. */
  lemma DenoiseOutcome(vs: seq<int>)
    requires |vs| >= 1 + NumReadings + MaxAttempts
    ensures Characterised(vs, 0, Denoise(vs))
  {
    assert Ring(vs, 0) == vs[1..1 + NumReadings];
    ConvergeRing(vs, 0);
  }

  /** Readings that settle at once are averaged without a retry. */
  lemma DenoiseFirstTry(vs: seq<int>)
    requires |vs| >= 1 + NumReadings + MaxAttempts
    requires Settled(vs[1..1 + NumReadings], Average(vs[1..1 + NumReadings]))
    ensures Denoise(vs) == Sampling(true, Average(vs[1..1 + NumReadings]), vs[1..1 + NumReadings], 0)
  {
  }

  lemma {:induction false} SumBounds(s: seq<int>)
    requires IsReadings(s)
    ensures 0 <= Sum(s) <= 4095 * |s|
    decreases |s|
  {
    if s != [] {
      SumBounds(s[..|s| - 1]);
    }
  }

  /** The reported value is a 12-bit reading, so the cast of the average to
      16 bits loses nothing. */
  lemma DenoiseValueIsReading(vs: seq<int>)
    requires |vs| >= 1 + NumReadings + MaxAttempts && IsReadings(vs)
    ensures 0 <= Denoise(vs).value < 4096
  {
    DenoiseOutcome(vs);
    var s := Denoise(vs);
    var last := Ring(vs, if s.ok then s.failures else MaxAttempts - 1);
    assert IsReadings(last);
    SumBounds(last);
  }

  lemma {:induction false} SumUpdate(s: seq<int>, k: nat, v: int)
    requires k < |s|
    ensures Sum(s[k := v]) == Sum(s) - s[k] + v
    decreases |s|
  {
    var t := s[k := v];
    if k < |s| - 1 {
      assert t[..|t| - 1] == s[..|s| - 1][k := v];
      SumUpdate(s[..|s| - 1], k, v);
    } else {
      assert t[..|t| - 1] == s[..|s| - 1];
    }
  }

  lemma SumSnoc(s: seq<int>, v: int)
    ensures Sum(s + [v]) == Sum(s) + v
  {
    assert (s + [v])[..|s|] == s;
  }

  /** Twelve Dout samples always make a 12-bit reading. */
  lemma SamplesAreReadings(douts: seq<seq<bool>>)
    requires forall k :: 0 <= k < |douts| ==> |douts[k]| == 12
    ensures IsReadings(Samples(douts))
  {
    Pow2Table();
    forall k | 0 <= k < |douts|
      ensures FromBits(douts[k]) < 4096
    {
      FromBitsBound(douts[k]);
    }
  }

  /** The inner loop of getTouchData: whether every reading of the ring lies
      within MaxDiff of the average. */
  method AllWithin(ring: array<int>, avg: int) returns (ok: bool)
    ensures ok == Settled(ring[..], avg)
  {
    ok := true;
    var i := 0;
    while ok && i < ring.Length
      invariant 0 <= i <= ring.Length && ok
      invariant forall j :: 0 <= j < i ==> Diff(avg, ring[j]) <= MaxDiff
    {
      if Diff(avg, ring[i]) > MaxDiff {
        ok := false;
        break;
      }
      i := i + 1;
    }
  }

  lemma ModSucc(a: nat)
    ensures (a % NumReadings + 1) % NumReadings == (a + 1) % NumReadings
  {
    var q := a / 8;
    assert a == 8 * q + a % 8;
    if a % 8 == 7 {
      assert a + 1 == 8 * (q + 1);
    } else {
      assert a + 1 == 8 * q + (a % 8 + 1);
    }
  }

  /** The wires after one more exchange as written. */
  method AppendFrame(wave: seq<WireEvent>, exchange: seq<WireEvent>, ghost n: nat) returns (longer: seq<WireEvent>)
    requires wave == Frames(n) && exchange == QuietFrame()
    ensures longer == Frames(n + 1)
  {
    longer := wave + exchange;
  }

  /** The first loop of getTouchData: eight readings, from the exchanges
      douts[1] .. douts[8], fill a new ring, and their sum is kept; `wave`
      is what the eight exchanges put on the wires. */
  method FillRing(command: Byte, douts: seq<seq<bool>>) returns (ring: array<int>, sum: int, wave: seq<WireEvent>)
    requires |douts| >= 1 + NumReadings
    requires forall k :: 1 <= k <= NumReadings ==> |douts[k]| == 12
    ensures fresh(ring) && ring[..] == Samples(douts)[1..1 + NumReadings] && sum == Sum(ring[..])
    ensures wave == Frames(NumReadings)
  {
    ghost var vs := Samples(douts);
    ring := new int[NumReadings];
    sum := 0;
    wave := [];
    for i := 0 to NumReadings
      invariant ring[..i] == vs[1..1 + i] && sum == Sum(ring[..i])
      invariant wave == Frames(i)
    {
      var v, exchange := ReadData(command, douts[1 + i]);
      wave := AppendFrame(wave, exchange, i);
      assert v == vs[1 + i];
      assert vs[1..1 + (i + 1)] == vs[1..1 + i] + [v];
      ghost var before := ring[..i];
      SumSnoc(before, v);
      ring[i] := v;
      assert ring[..i + 1] == before + [v];
      sum := sum + v;
    }
    assert ring[..] == ring[..NumReadings];
  }

  /** An unsettled attempt replaces the oldest reading by the next one and
      leaves the outcome to the following attempt, or fails at the last. */
  lemma SettleStep(vs: seq<int>, ring: seq<int>, attempt: nat)
    requires |vs| >= 1 + NumReadings + MaxAttempts && |ring| == NumReadings && attempt < MaxAttempts
    requires !Settled(ring, Average(ring))
    requires Converge(ring, attempt, vs[1 + NumReadings + attempt..]) == Denoise(vs)
    ensures var next := ring[attempt % NumReadings := vs[1 + NumReadings + attempt]];
      && (attempt + 1 < MaxAttempts ==> Converge(next, attempt + 1, vs[1 + NumReadings + attempt + 1..]) == Denoise(vs))
      && (attempt + 1 == MaxAttempts ==> Denoise(vs) == Sampling(false, Average(ring), next, MaxAttempts))
  {
    var more := vs[1 + NumReadings + attempt..];
    ConvergeUnfold(ring, attempt, more);
    assert more[0] == vs[1 + NumReadings + attempt];
    assert more[1..] == vs[1 + NumReadings + attempt + 1..];
  }

  /** A settled attempt ends the retry loop with that ring's average. */
  lemma SettleDone(vs: seq<int>, ring: seq<int>, attempt: nat)
    requires |vs| >= 1 + NumReadings + MaxAttempts && |ring| == NumReadings && attempt < MaxAttempts
    requires Settled(ring, Average(ring))
    requires Converge(ring, attempt, vs[1 + NumReadings + attempt..]) == Denoise(vs)
    ensures Denoise(vs) == Sampling(true, Average(ring), ring, attempt)
  {
  }

  /** The retry loop of getTouchData: while the ring is not settled around
      its average, the oldest reading is replaced by the next exchange's,
      for at most sixteen attempts.  Its outcome, together with the final
      ring, is the one Denoise specifies; `wave` is what the replacement
      exchanges put on the wires. */
  method Settle(command: Byte, douts: seq<seq<bool>>, ring: array<int>, sum0: int) returns (ok: bool, avg: int, failures: nat, wave: seq<WireEvent>)
    requires |douts| >= 1 + NumReadings + MaxAttempts
    requires forall k :: 0 <= k < |douts| ==> |douts[k]| == 12
    requires ring[..] == Samples(douts)[1..1 + NumReadings] && sum0 == Sum(ring[..])
    modifies ring
    ensures Denoise(Samples(douts)) == Sampling(ok, avg, ring[..], failures)
    ensures failures <= MaxAttempts && wave == Frames(failures)
  {
    ghost var vs := Samples(douts);
    var sum := sum0;
    var pos := 1 + NumReadings;
    avg := 0;
    var last := 0;
    ok := false;
    var attempt := 0;
    wave := [];
    while attempt < MaxAttempts
      invariant 0 <= attempt <= MaxAttempts && last == attempt % NumReadings && !ok
      invariant wave == Frames(attempt)
      invariant pos == 1 + NumReadings + attempt && sum == Sum(ring[..])
      invariant attempt < MaxAttempts ==> Converge(ring[..], attempt, vs[pos..]) == Denoise(vs)
      invariant attempt == MaxAttempts ==> Denoise(vs) == Sampling(false, avg, ring[..], MaxAttempts)
    {
      avg := sum / NumReadings;
      ok := AllWithin(ring, avg);
      if ok {
        SettleDone(vs, ring[..], attempt);
        break;
      }
      // take another reading in place of the oldest
      sum := sum - ring[last];
      var v, exchange := ReadData(command, douts[pos]);
      assert v == vs[pos];
      ghost var before := ring[..];
      SettleStep(vs, before, attempt);
      SumUpdate(before, last, v);
      ring[last] := v;
      assert ring[..] == before[last := v];
      sum := sum + v;
      ModSucc(attempt);
      last := (last + 1) % NumReadings;
      wave := AppendFrame(wave, exchange, attempt);
      pos := pos + 1;
      attempt := attempt + 1;
    }
    failures := attempt;
  }

  /** getTouchData: `douts[k]` holds the Dout levels of the k-th ReadData
      exchange.  Returns whether the readings settled, the reported value,
      the number of exchanges used and what went out on the wires: the
      command, then that many exchanges as written. */
  method GetTouchData(wantY: bool, douts: seq<seq<bool>>) returns (ok: bool, rslt: int, used: nat, wave: seq<WireEvent>)
    requires |douts| >= MaxExchanges
    requires forall k :: 0 <= k < |douts| ==> |douts[k]| == 12
    ensures var s := Denoise(Samples(douts));
      && ok == s.ok && rslt == s.value && used == 1 + NumReadings + s.failures + 2
    ensures wave == Clocks(MsbFirst(ChannelCommand(wantY), 8)) + Frames(used)
  {
    var command := ChannelCommand(wantY);
    var head := WriteCommand(command);
    var v, exchange := ReadData(command, douts[0]);    // discarded
    OneFrame();
    wave := head + exchange;
    var ring, sum, filling := FillRing(command, douts);
    MoreFrames(head, 1, NumReadings);
    wave := wave + filling;
    var failures, retries;
    ok, rslt, failures, retries := Settle(command, douts, ring, sum);
    var pos := 1 + NumReadings + failures;
    MoreFrames(head, 1 + NumReadings, failures);
    wave := wave + retries;
    v, exchange := ReadData(PowerDown(command), douts[pos]);   // power down between conversions
    MoreFrames(head, pos, 1);
    wave := wave + exchange;
    v, exchange := ReadData(0, douts[pos + 1]);                 // the final data
    MoreFrames(head, pos + 1, 1);
    wave := wave + exchange;
    used := pos + 2;
  }

  lemma OneFrame()
    ensures Frames(1) == QuietFrame()
  {
    assert Frames(1) == [] + QuietFrame();
  }

  lemma MoreFrames(head: seq<WireEvent>, m: nat, n: nat)
    ensures (head + Frames(m)) + Frames(n) == head + Frames(m + n)
  {
    FramesAppend(m, n);
  }

  /** What the chip latches during getTouchData: the channel-select command
      once, most significant bit first, and after it only low levels, so
      every exchange as written reads as the command 0. */
  lemma GetTouchDataLatches(wantY: bool, n: nat)
    ensures Latched(Clocks(MsbFirst(ChannelCommand(wantY), 8)) + Frames(n))
         == MsbFirst(ChannelCommand(wantY), 8) + seq(16 * n, _ => false)
    ensures FromBits(MsbFirst(ChannelCommand(wantY), 8)) == ChannelCommand(wantY)
  {
    LatchedFrames(n);
    LatchedAppend(Clocks(MsbFirst(ChannelCommand(wantY), 8)), Frames(n));
    LatchedClocks(MsbFirst(ChannelCommand(wantY), 8));
    Pow2Table();
    MsbFirstRoundTrip(ChannelCommand(wantY), 8);
  }
}
