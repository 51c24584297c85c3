/** The buzzer driver: a PWM slice drives the buzzer differentially at the
    requested frequency, and a millisecond tick turns it off again.  The
    PWM and pin-function calls are recorded as events. */
module Buzzer {
  import opened Bits

  datatype BuzzerPin = LowPin | HighPin

  datatype PwmEvent =
    | PwmEnabled(on: bool)                             // pwm_set_enabled
    | PinLow(pin: BuzzerPin)                           // pinMode(pin, OUTPUT_LOW)
    | PwmConfigure(prescaler: int, fraction: int, phaseCorrect: bool, top: int)
                                                       // default config, clock divider, phase correct, wrap, pwm_init (not started)
    | PwmLevels(a: int, b: int)                        // pwm_set_both_levels
    | PwmPolarity(invertA: bool, invertB: bool)        // pwm_set_output_polarity
    | PinToPwm(pin: BuzzerPin)                         // SetPinFunction(pin, Pwm)

  /** TurnOff: the slice stopped and both outputs driven low, so the buzzer
      sees no DC. */
  const TurnOffEvents: seq<PwmEvent> := [PwmEnabled(false), PinLow(LowPin), PinLow(HighPin)]

  const TwoTo32: int := 0x1_0000_0000

  /** At or above this total divisor the slowest setting is used. */
  const SlowestDivisor: nat := 65536 * 256

  /** The PWM settings for one frequency: wrap value, integer and
      fractional (sixteenths) parts of the clock divider. */
  datatype Divider = Divider(top: int, prescaler: int, fraction: int)

  /** `SystemCoreClock / (2 * frequency)` in 32-bit arithmetic: the number
      of whole half periods of the requested frequency in one second of the
      clock, where the doubled frequency wraps modulo 2^32.  A 32-bit clock
      gives a 32-bit quotient. */
  function TotalDivisor(clock: nat, frequency: nat): (r: nat)
    requires (2 * frequency) % TwoTo32 != 0
    ensures var half := (2 * frequency) % TwoTo32;
      r * half <= clock < r * half + half
    ensures 2 * frequency < TwoTo32 ==> r * (2 * frequency) <= clock < (r + 1) * (2 * frequency)
    ensures clock < TwoTo32 ==> r < TwoTo32
  {
    clock / ((2 * frequency) % TwoTo32)
  }

  /** The largest shift from s down to 5 that leaves at least 128 of the
      divisor, or 4 when there is none. */
  function SearchShift(d: nat, s: nat): (r: nat)
    requires 4 <= s <= 16
    ensures 4 <= r <= s && (r > 4 ==> Shr(d, r) >= 128)
    ensures forall t :: r < t <= s ==> Shr(d, t) < 128
    decreases s
  {
    if s == 4 || Shr(d, s) >= 128 then s else SearchShift(d, s - 1)
  }

  /** The divider Beep chooses for a total divisor: the slowest one when the
      divisor does not fit 16 bits of wrap and 8 bits of prescaler;
      otherwise, with the shift found by the search, a wrap of 2^shift - 1
      and a prescaler of 128 to 255 whose sixteenths come from the four bits
      below. */
  function DividerOf(d: nat): (r: Divider)
    requires d >= 2048
    ensures 0 <= r.top < 65536 && 0 <= r.prescaler < 256 && 0 <= r.fraction < 16
    ensures d >= SlowestDivisor ==> r == Divider(65535, 255, 15)
    ensures d < SlowestDivisor ==>
      var shift := SearchShift(d, 16);
      && 128 <= Shr(d, shift) == r.prescaler
      && r.top == Pow2(shift) - 1
      && r.prescaler * 16 + r.fraction == Shr(d, shift - 4)
  {
    if d >= SlowestDivisor then Divider(65535, 255, 15)
    else
      ShrFour(d);
      ShiftDivider(d, SearchShift(d, 16))
  }

  /** The divider for a shift that leaves 128 to 255 of the divisor. */
  function ShiftDivider(d: nat, shift: nat): (r: Divider)
    requires 4 <= shift <= 16 && d < SlowestDivisor && Shr(d, shift) >= 128
    requires shift < 16 ==> Shr(d, shift + 1) < 128
    ensures 0 <= r.top < 65536 && r.prescaler < 256 && 0 <= r.fraction < 16
    ensures r.top == Pow2(shift) - 1 && r.prescaler == Shr(d, shift)
    ensures r.prescaler * 16 + r.fraction == Shr(d, shift - 4)
  {
    Pow2Mono(shift, 16);
    Pow2Table();
    PrescalerFits(d, shift);
    ShrAdd(d, shift - 4, 4);
    ShrFour(Shr(d, shift - 4));
    Divider((Pow2(shift) - 1) % 65536, Shr(d, shift) % 256, Shr(d, shift - 4) % 16)
  }

  lemma {:induction false} Pow2Mono(m: nat, n: nat)
    requires m <= n
    ensures Pow2(m) <= Pow2(n)
    decreases n - m
  {
    if m < n {
      Pow2Mono(m, n - 1);
    }
  }

  /** The prescaler `totalDivisor >> shift` fits its uint8_t. */
  lemma PrescalerFits(d: nat, shift: nat)
    requires 4 <= shift <= 16 && d < SlowestDivisor
    requires shift < 16 ==> Shr(d, shift + 1) < 128
    ensures Shr(d, shift) < 256
  {
    if shift == 16 {
      Pow2Table();
      assert Pow2(24) == Pow2(16) * 256 by {
        assert Pow2(17) == Pow2(16) * 2;
        assert Pow2(18) == Pow2(16) * 4;
        assert Pow2(19) == Pow2(16) * 8;
        assert Pow2(20) == Pow2(16) * 16;
        assert Pow2(21) == Pow2(16) * 32;
        assert Pow2(22) == Pow2(16) * 64;
        assert Pow2(23) == Pow2(16) * 128;
      }
      ShrBelow(d, 8, 16);
    }
  }

  /** The divisor search of Beep: the shift starts at 16 and is lowered
      while fewer than 128 remain above it. */
  method SelectDivider(totalDivisor: nat) returns (top: int, prescaler: int, fraction: int)
    requires totalDivisor >= 2048
    ensures Divider(top, prescaler, fraction) == DividerOf(totalDivisor)
  {
    if totalDivisor >= SlowestDivisor {
      // lowest frequency we can generate
      top := 65535;
      prescaler := 255;
      fraction := 15;
    } else {
      assert Shr(totalDivisor, 4) >= 128 by {
        ShrFour(totalDivisor);
      }
      var shift: nat := 16;
      while Shr(totalDivisor, shift) < 128
        invariant 4 <= shift <= 16 && Shr(totalDivisor, 4) >= 128
        invariant SearchShift(totalDivisor, shift) == SearchShift(totalDivisor, 16)
        decreases shift
      {
        shift := shift - 1;
      }
      assert SearchShift(totalDivisor, shift) == shift;
      assert DividerOf(totalDivisor) == ShiftDivider(totalDivisor, shift);
      top := (Pow2(shift) - 1) % 65536;                  // (1ul << shift) - 1 as uint16_t
      prescaler := Shr(totalDivisor, shift) % 256;       // as uint8_t
      fraction := Shr(totalDivisor, shift - 4) % 16;     // & 0x0F
    }
  }

  /** The events of Beep once the divider is chosen: phase-correct PWM with
      that divider and wrap, both outputs at half the wrap, the second
      inverted so the buzzer is driven differentially, then started and
      routed to both pins. */
  function BeepEvents(div: Divider): seq<PwmEvent>
  {
    [PwmConfigure(div.prescaler, div.fraction, true, div.top),
     PwmLevels(div.top / 2, div.top / 2),
     PwmPolarity(false, true),
     PwmEnabled(true),
     PinToPwm(LowPin),
     PinToPwm(HighPin)]
  }

  /** The counter after one Tick. */
  function Countdown(t: nat): nat
  {
    if t == 0 then 0 else t - 1
  }

  /** Whether a Tick from counter t turns the buzzer off. */
  predicate TurnsOff(t: nat)
  {
    t == 1
  }

  /** The counter after k Ticks from t. */
  function After(t: nat, k: nat): nat
  {
    if k == 0 then t else Countdown(After(t, k - 1))
  }

  /** The number of Ticks among the first k from t that turn the buzzer off. */
  function Offs(t: nat, k: nat): nat
  {
    if k == 0 then 0 else Offs(t, k - 1) + (if TurnsOff(After(t, k - 1)) then 1 else 0)
  }

  lemma {:induction false} AfterTicks(t: nat, k: nat)
    ensures After(t, k) == if k >= t then 0 else t - k
    decreases k
  {
    if k > 0 {
      AfterTicks(t, k - 1);
    }
  }

  /** A beep of ms > 0 milliseconds is turned off by Tick number ms and by
      no other; a beep of 0 milliseconds is never turned off by Tick. */
  lemma {:induction false} OffExactlyOnce(ms: nat, k: nat)
    ensures Offs(ms, k) == if ms > 0 && k >= ms then 1 else 0
    ensures k >= 1 ==> (TurnsOff(After(ms, k - 1)) <==> ms > 0 && k == ms)
    decreases k
  {
    if k > 0 {
      AfterTicks(ms, k - 1);
      OffExactlyOnce(ms, k - 1);
    }
  }

  /** The driver's state: the static countdown, and the events issued so far. */
  class Buzzer {
    var ticksUntilOff: int
    var events: seq<PwmEvent>

    constructor()
      ensures ticksUntilOff == 0 && events == []
    {
      ticksUntilOff := 0;
      events := [];
    }

    method TurnOff()
      modifies this
      ensures events == old(events) + TurnOffEvents && ticksUntilOff == old(ticksUntilOff)
    {
      events := events + TurnOffEvents;
    }

    method Init()
      modifies this
      ensures events == old(events) + TurnOffEvents && ticksUntilOff == old(ticksUntilOff)
    {
      TurnOff();
    }

    /** Beep: `clock` is SystemCoreClock.  The total divisor must be at
        least 2048 for the search to stop at a shift of 4 or more. */
    method Beep(clock: nat, frequency: nat, milliseconds: nat)
      requires clock < TwoTo32 && frequency < TwoTo32 && milliseconds < TwoTo32
      requires (2 * frequency) % TwoTo32 != 0 && TotalDivisor(clock, frequency) >= 2048
      modifies this
      ensures events == old(events) + BeepEvents(DividerOf(TotalDivisor(clock, frequency)))
      ensures ticksUntilOff == milliseconds
    {
      var totalDivisor := clock / ((2 * frequency) % TwoTo32);
      var top, prescaler, fraction := SelectDivider(totalDivisor);
      events := events + [PwmConfigure(prescaler, fraction, true, top)];
      events := events + [PwmLevels(top / 2, top / 2)];
      events := events + [PwmPolarity(false, true)];
      events := events + [PwmEnabled(true)];
      events := events + [PinToPwm(LowPin), PinToPwm(HighPin)];
      ticksUntilOff := milliseconds;
    }

    /** Tick: counts a running beep down and turns the buzzer off when the
        count reaches zero; a zero count stays zero. */
    method Tick()
      requires ticksUntilOff >= 0
      modifies this
      ensures ticksUntilOff == Countdown(old(ticksUntilOff))
      ensures events == old(events) + (if TurnsOff(old(ticksUntilOff)) then TurnOffEvents else [])
    {
      if ticksUntilOff != 0 {
        ticksUntilOff := ticksUntilOff - 1;
        if ticksUntilOff == 0 {
          TurnOff();
        }
      }
    }
  }
}
