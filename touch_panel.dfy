/** The touch-panel driver: orientation adjustment, the mapping of settled
    12-bit readings to display coordinates with scale and offset, the
    calibration that sets them, and the press/repeat tracking of Read.  The
    driver's static variables are the fields of class TouchPanel; the levels
    of the IRQ pin and the Dout samples are inputs of its methods. */
module TouchPanel {
  import opened Bits
  import opened TouchSerial
  import opened TouchDenoise

  datatype Option<T> = None | Some(value: T)

  /** A display orientation as its three flags (the numeric values of the
      DisplayOrientation enumeration are not part of this model). */
  datatype Orientation = Orientation(swapXY: bool, reverseX: bool, reverseY: bool)

  const DefaultOrientation := Orientation(false, false, false)

  /** `orientAdjust ^ a`: each flag toggled where `a` has it.  Toggling
      the result by `a` once more gives `o` back; the result is `o` exactly
      when `a` is the default, and the default exactly when `a` is `o`. */
  function Xor(o: Orientation, a: Orientation): (r: Orientation)
    ensures Orientation(r.swapXY != a.swapXY, r.reverseX != a.reverseX, r.reverseY != a.reverseY) == o
    ensures r == o <==> a == DefaultOrientation
    ensures r == DefaultOrientation <==> a == o
  {
    Orientation(o.swapXY != a.swapXY, o.reverseX != a.reverseX, o.reverseY != a.reverseY)
  }

  /** Applying the same adjustment twice restores the orientation, and the
      default orientation adjusts nothing. */
  lemma XorInverse(o: Orientation, a: Orientation)
    ensures Xor(Xor(o, a), a) == o
    ensures Xor(o, DefaultOrientation) == o
    ensures Xor(o, o) == DefaultOrientation
  {
  }

  /** A raw or mapped touch position. */
  datatype Point = Point(x: int, y: int)

  predicate IsRaw(p: Point)
  {
    0 <= p.x < 4096 && 0 <= p.y < 4096
  }

  /** The readings seen through an orientation: swapped first, then each
      axis mirrored as `4095 - v` where its reverse flag is set. */
  function Orient(o: Orientation, p: Point): (q: Point)
    ensures IsRaw(p) ==> IsRaw(q)
  {
    var vx := if o.swapXY then p.y else p.x;
    var vy := if o.swapXY then p.x else p.y;
    Point(if o.reverseX then 4095 - vx else vx, if o.reverseY then 4095 - vy else vy)
  }

  /** Orienting twice gives every raw position back exactly when the axes
      are not swapped or are both mirrored or both kept.  With the swap and
      one mirror, the origin goes to (4095, 4095). */
  lemma OrientInvolution(o: Orientation)
    ensures (forall p :: IsRaw(p) ==> Orient(o, Orient(o, p)) == p) <==> (!o.swapXY || o.reverseX == o.reverseY)
  {
    if o.swapXY && o.reverseX != o.reverseY {
      var origin := Point(0, 0);
      assert IsRaw(origin);
      assert Orient(o, Orient(o, origin)) == Point(4095, 4095);
    }
  }

  /** Integer conversion to int16_t (two's complement wrap-around). */
  function ToInt16(v: int): (r: int)
    ensures -32768 <= r < 32768
    ensures (r - v) % 65536 == 0
    ensures -32768 <= v < 32768 ==> r == v
  {
    (v + 32768) % 65536 - 32768
  }

  const TwoTo32: int := 0x1_0000_0000

  /** The mapping of one axis: the oriented reading times the scale, shifted
      right 16, minus the offset, wrapped to int16_t, then clamped to the
      display (`disp_size - 1` itself taken as uint16_t). */
  function MapAxis(v: int, scale: int, offset: int, size: int): (px: int)
    requires 0 <= v < 4096 && 0 <= scale < 65536 && 0 <= size < 65536
    ensures 0 <= px < 65536
    ensures size >= 1 ==> px < size
  {
    var cx := ToInt16(ToInt16((v * scale) / 65536) - offset);
    if cx < 0 then 0 else if cx >= size then (size - 1) % 65536 else cx
  }

  /** The product of a 12-bit reading and a 16-bit scale fits the uint32
      product, and its top half fits an int16_t. */
  lemma ProductBound(v: int, scale: int)
    requires 0 <= v < 4096 && 0 <= scale < 65536
    ensures 0 <= v * scale < TwoTo32
    ensures 0 <= (v * scale) / 65536 < 4096
  {
    MulMono(0, v, scale);
    MulMono(v, 4095, scale);
    assert 4095 * scale < 4096 * 65536;
  }


  lemma DivMono(a: int, b: int)
    requires 0 <= a <= b
    ensures a / 65536 <= b / 65536
  {
  }

  /** A larger reading never maps to a smaller coordinate, as long as the
      offset keeps the difference inside int16_t. */
  lemma MapAxisMonotone(v1: int, v2: int, scale: int, offset: int, size: int)
    requires 0 <= v1 <= v2 < 4096 && 0 <= scale < 65536 && 0 <= size < 65536
    requires 4096 - 32768 <= offset < 32768
    ensures MapAxis(v1, scale, offset, size) <= MapAxis(v2, scale, offset, size)
  {
    ProductBound(v1, scale);
    ProductBound(v2, scale);
    MulMono(v1, v2, scale);
    DivMono(v1 * scale, v2 * scale);
  }

  /** `(uint16_t)(((uint32_t)(size - 1) << 16) / 4095)`. */
  function DefaultScale(size: int): (scale: int)
    ensures 0 <= scale < 65536
  {
    ((((size - 1) % TwoTo32) * 65536) % TwoTo32 / 4095) % 65536
  }

  /** For a display narrower than 4096 pixels, the default scale maps the
      reading 0 to pixel 0 and full scale 4095 to one of the two last
      pixels. */
  lemma DefaultMapSpan(size: int)
    requires 1 <= size < 4096
    ensures MapAxis(0, DefaultScale(size), 0, size) == 0
    ensures size - 2 <= MapAxis(4095, DefaultScale(size), 0, size) <= size - 1
  {
    var n := (size - 1) * 65536;
    assert 0 <= n < TwoTo32;
    assert ((size - 1) % TwoTo32) * 65536 == n;
    var s := n / 4095;
    assert s * 4095 <= n < s * 4095 + 4095;
    assert s < 65536;
    assert DefaultScale(size) == s;
    ProductBound(4095, s);
    var q := (4095 * s) / 65536;
    assert q * 65536 <= 4095 * s < q * 65536 + 65536;
    assert q <= size - 1;
    assert q >= size - 2;
  }

  /** The 800 x 480 panel: with the default scale, full scale maps to the
      last pixel but one on both axes. */
  lemma DefaultMapTopPixel()
    ensures MapAxis(4095, DefaultScale(800), 0, 800) == 798
    ensures MapAxis(4095, DefaultScale(480), 0, 480) == 478
  {
    assert DefaultScale(800) == 12787;
    assert DefaultScale(480) == 7665;
  }

  /** The calibrated scale: `(uint16_t)(((uint32_t)(size - 1 - 2 * margin) << 16)
      / (high - low))`, the divisor converted to uint32 as well. */
  function CalScale(size: int, low: int, high: int, margin: int): (scale: int)
    requires low != high && 0 <= low < 65536 && 0 <= high < 65536
    ensures 0 <= scale < 65536
  {
    ((((size - 1 - 2 * margin) % TwoTo32) * 65536) % TwoTo32 / ((high - low) % TwoTo32)) % 65536
  }

  /** The calibrated offset: the low reading's product, shifted, minus the
      margin, each step wrapped to int16_t. */
  function CalOffset(low: int, scale: int, margin: int): (offset: int)
    ensures -32768 <= offset < 32768
  {
    ToInt16(ToInt16((low * scale) / 65536) - ToInt16(margin))
  }

  /** After calibration, the low reading maps exactly to the margin. */
  lemma CalibratedLowEdge(size: int, low: int, high: int, margin: int)
    requires 0 <= low < 4096 && 0 <= high < 65536 && low != high && 0 <= size < 65536
    requires 0 <= margin < size && margin < 32768
    ensures MapAxis(low, CalScale(size, low, high, margin), CalOffset(low, CalScale(size, low, high, margin), margin), size) == margin
  {
    var s := CalScale(size, low, high, margin);
    ProductBound(low, s);
  }

  /** Calibration readings, low below high, whose span is wider than the
      display less its margins, on a display whose coordinates fit an
      int16_t. */
  predicate CalibrationFits(size: int, low: int, high: int, margin: int)
  {
    && 0 <= low < high < 4096 && 0 <= margin && 2 * margin + 2 <= size
    && size - 1 - 2 * margin < high - low && size - 1 - margin < 32768
  }

  /** The calibrated scale is the display span less the margins, shifted
      left 16 and divided by the reading span, rounded down. */
  lemma CalScaleQuotient(size: int, low: int, high: int, margin: int)
    requires CalibrationFits(size, low, high, margin)
    ensures var s := CalScale(size, low, high, margin);
      s * (high - low) <= (size - 1 - 2 * margin) * 65536 < s * (high - low) + (high - low)
  {
    var d := size - 1 - 2 * margin;
    var span := high - low;
    NoWrap(d, span);
    DivFits(d * 65536, span);
  }

  /** Neither the shifted display span nor the reading span wraps. */
  lemma NoWrap(d: int, span: int)
    requires 0 < d < span < 4096
    ensures ((d % TwoTo32) * 65536) % TwoTo32 == d * 65536
    ensures span % TwoTo32 == span
  {
    assert d % TwoTo32 == d;
    assert 0 < d * 65536 < TwoTo32;
  }

  /** A quotient of one span's worth of 65536ths below 65536 needs no
      truncation to 16 bits. */
  lemma DivFits(n: int, span: int)
    requires 0 < span && 0 <= n < span * 65536
    ensures n / span * span <= n < n / span * span + span
    ensures (n / span) % 65536 == n / span
  {
    var s := n / span;
    assert n == s * span + n % span;
    if s >= 65536 {
      MulMono(65536, s, span);
      assert false;
    }
  }

  /** Two products that differ by p, where p lies within one reading span
      below d * 65536, have top halves that differ by d or d - 1. */
  lemma TopHalfGap(hi: int, lo: int, p: int, span: int, d: int)
    requires 0 <= lo && hi - lo == p && 0 < span <= 65536
    requires p <= d * 65536 < p + span
    ensures d - 1 <= hi / 65536 - lo / 65536 <= d
  {
    var qh := hi / 65536;
    var ql := lo / 65536;
    assert qh * 65536 <= hi < qh * 65536 + 65536;
    assert ql * 65536 <= lo < ql * 65536 + 65536;
  }

  /** After calibration, the high reading maps to the last pixel before the
      far margin or to the one before it (the scale is rounded down). */
  lemma CalibratedHighEdge(size: int, low: int, high: int, margin: int)
    requires CalibrationFits(size, low, high, margin)
    ensures var s := CalScale(size, low, high, margin);
      size - 2 - margin <= MapAxis(high, s, CalOffset(low, s, margin), size) <= size - 1 - margin
  {
    var s := CalScale(size, low, high, margin);
    CalScaleQuotient(size, low, high, margin);
    ProductBound(high, s);
    ProductBound(low, s);
    assert high * s - low * s == s * (high - low);
    TopHalfGap(high * s, low * s, s * (high - low), high - low, size - 1 - 2 * margin);
    assert CalOffset(low, s, margin) == (low * s) / 65536 - margin;
  }

  /** The 800-pixel width calibrated with a margin of 10 on the readings 100
      and 4000: the low reading lands on pixel 10, the high one on 789. */
  lemma CalibratedExample()
    ensures CalScale(800, 100, 4000, 10) == 13090 && CalOffset(100, 13090, 10) == 9
    ensures MapAxis(100, 13090, 9, 800) == 10 && MapAxis(4000, 13090, 9, 800) == 789
  {
    assert ((779 % TwoTo32) * 65536) % TwoTo32 == 51052544;
    assert (4000 - 100) % TwoTo32 == 3900;
    assert 51052544 / 3900 == 13090;
    assert (100 * 13090) / 65536 == 19;
    assert (4000 * 13090) / 65536 == 798;
  }

  /** Without the int16_t bound on the display the high edge is lost: on a
      65000-pixel axis with a margin of 32000 the high reading wraps past
      32767 and is clamped to pixel 0. */
  lemma CalibratedHighEdgeWraps()
    ensures MapAxis(1000, CalScale(65000, 0, 1000, 32000), CalOffset(0, CalScale(65000, 0, 1000, 32000), 32000), 65000) == 0
  {
    assert ((999 % TwoTo32) * 65536) % TwoTo32 == 65470464;
    assert (1000 - 0) % TwoTo32 == 1000;
    assert 65470464 / 1000 == 65470;
    assert CalScale(65000, 0, 1000, 32000) == 65470;
    assert (1000 * 65470) / 65536 == 998;
  }

  datatype Touch = Touch(x: int, y: int, raw: Point)

  /** Settled readings of both axes mapped through the orientation, scale
      and offset of the driver. */
  function MapTouch(o: Orientation, scaleX: int, scaleY: int, offsetX: int, offsetY: int,
                    dispX: int, dispY: int, t: Point): (touch: Touch)
    requires IsRaw(t) && 0 <= scaleX < 65536 && 0 <= scaleY < 65536
    requires 0 <= dispX < 65536 && 0 <= dispY < 65536
    ensures IsRaw(touch.raw) && touch.raw == Orient(o, t)
    ensures dispX >= 1 ==> 0 <= touch.x < dispX
    ensures dispY >= 1 ==> 0 <= touch.y < dispY
  {
    var v := Orient(o, t);
    Touch(MapAxis(v.x, scaleX, offsetX, dispX), MapAxis(v.y, scaleY, offsetY, dispY), v)
  }

  /** The number of exchanges a call of getTouchData with outcome s uses. */
  function Exchanges(s: Sampling): nat
  {
    1 + NumReadings + s.failures + 2
  }

  /** The driver's state: the static variables of TouchPanel.cpp. */
  class TouchPanel {
    var orientAdjust: Orientation
    var dispX: int
    var dispY: int
    var scaleX: int
    var scaleY: int
    var offsetX: int
    var offsetY: int
    var pressed: bool

    /** Every field holds a value of its C type. */
    predicate Valid()
      reads this
    {
      && 0 <= dispX < 65536 && 0 <= dispY < 65536
      && 0 <= scaleX < 65536 && 0 <= scaleY < 65536
      && -32768 <= offsetX < 32768 && -32768 <= offsetY < 32768
    }

    /** Static storage: everything zero, no press seen. */
    constructor()
      ensures Valid() && !pressed && orientAdjust == DefaultOrientation
      ensures dispX == 0 && dispY == 0 && scaleX == 0 && scaleY == 0 && offsetX == 0 && offsetY == 0
    {
      orientAdjust := DefaultOrientation;
      dispX, dispY := 0, 0;
      scaleX, scaleY := 0, 0;
      offsetX, offsetY := 0, 0;
      pressed := false;
    }

    /** The field settings of Init: display size and orientation, default
        scales, zero offsets, no press. */
    method SetDefaults(xp: int, yp: int, orientationAdjust: Orientation)
      requires 0 <= xp < 65536 && 0 <= yp < 65536
      modifies this
      ensures Valid() && !pressed && orientAdjust == orientationAdjust
      ensures dispX == xp && dispY == yp && offsetX == 0 && offsetY == 0
      ensures scaleX == DefaultScale(xp) && scaleY == DefaultScale(yp)
    {
      orientAdjust := orientationAdjust;
      dispX := xp;
      dispY := yp;
      offsetX := 0;
      scaleX := DefaultScale(dispX);
      offsetY := 0;
      scaleY := DefaultScale(dispY);
      pressed := false;
    }

    /** Init: the field settings, then one throw-away X sample, whose
        exchange count it returns. */
    method Init(xp: int, yp: int, orientationAdjust: Orientation, douts: seq<seq<bool>>) returns (used: nat)
      requires 0 <= xp < 65536 && 0 <= yp < 65536
      requires |douts| >= MaxExchanges && forall k :: 0 <= k < |douts| ==> |douts[k]| == 12
      modifies this
      ensures Valid() && !pressed && orientAdjust == orientationAdjust
      ensures dispX == xp && dispY == yp && offsetX == 0 && offsetY == 0
      ensures scaleX == DefaultScale(xp) && scaleY == DefaultScale(yp)
      ensures used == Exchanges(Denoise(Samples(douts)))
    {
      SetDefaults(xp, yp, orientationAdjust);
      var ok, dummy, wave;
      ok, dummy, used, wave := GetTouchData(false, douts);
    }

    method AdjustOrientation(a: Orientation)
      modifies this
      ensures orientAdjust == Xor(old(orientAdjust), a)
      ensures dispX == old(dispX) && dispY == old(dispY) && pressed == old(pressed)
      ensures scaleX == old(scaleX) && scaleY == old(scaleY) && offsetX == old(offsetX) && offsetY == old(offsetY)
    {
      orientAdjust := Xor(orientAdjust, a);
    }

    function GetOrientation(): Orientation
      reads this
    {
      orientAdjust
    }

    /** Calibrate: the scale of each axis spreads the span between the low
        and high readings over the display less the margin on both sides,
        and the offset puts the low reading on the margin. */
    method Calibrate(xlow: int, xhigh: int, ylow: int, yhigh: int, margin: int)
      requires Valid()
      requires 0 <= xlow < 65536 && 0 <= xhigh < 65536 && 0 <= ylow < 65536 && 0 <= yhigh < 65536
      requires 0 <= margin < 65536
      requires xlow != xhigh && ylow != yhigh   // the division by the span
      modifies this
      ensures Valid()
      ensures scaleX == CalScale(dispX, xlow, xhigh, margin) && offsetX == CalOffset(xlow, scaleX, margin)
      ensures scaleY == CalScale(dispY, ylow, yhigh, margin) && offsetY == CalOffset(ylow, scaleY, margin)
      ensures CalibrationFits(dispX, xlow, xhigh, margin) ==>
        && MapAxis(xlow, scaleX, offsetX, dispX) == margin
        && dispX - 2 - margin <= MapAxis(xhigh, scaleX, offsetX, dispX) <= dispX - 1 - margin
      ensures CalibrationFits(dispY, ylow, yhigh, margin) ==>
        && MapAxis(ylow, scaleY, offsetY, dispY) == margin
        && dispY - 2 - margin <= MapAxis(yhigh, scaleY, offsetY, dispY) <= dispY - 1 - margin
      ensures dispX == old(dispX) && dispY == old(dispY)
      ensures orientAdjust == old(orientAdjust) && pressed == old(pressed)
    {
      scaleX := CalScale(dispX, xlow, xhigh, margin);
      offsetX := CalOffset(xlow, scaleX, margin);
      scaleY := CalScale(dispY, ylow, yhigh, margin);
      offsetY := CalOffset(ylow, scaleY, margin);
      if CalibrationFits(dispX, xlow, xhigh, margin) {
        CalibratedLowEdge(dispX, xlow, xhigh, margin);
        CalibratedHighEdge(dispX, xlow, xhigh, margin);
      }
      if CalibrationFits(dispY, ylow, yhigh, margin) {
        CalibratedLowEdge(dispY, ylow, yhigh, margin);
        CalibratedHighEdge(dispY, ylow, yhigh, margin);
      }
    }

    /** Read: `irqBefore` and `irqAfter` say whether the IRQ line is low
        (the screen touched) before sampling and after both axes settled;
        `douts` holds the Dout samples of the exchanges.  X is sampled
        first and Y only when X settled; a touch is reported only when both
        settled and the screen is still touched, and it is a repeat when
        the previous Read reported one too. */
    method Read(irqBefore: bool, douts: seq<seq<bool>>, irqAfter: bool) returns (touch: Option<Touch>, repeat: bool, used: nat)
      requires Valid()
      requires |douts| >= 2 * MaxExchanges && forall k :: 0 <= k < |douts| ==> |douts[k]| == 12
      modifies this
      ensures Valid()
      ensures var sx := Denoise(Samples(douts));
        var sy := Denoise(Samples(douts[Exchanges(sx)..]));
        && used == (if !irqBefore then 0 else if !sx.ok then Exchanges(sx) else Exchanges(sx) + Exchanges(sy))
        && (touch.Some? <==> irqBefore && sx.ok && sy.ok && irqAfter)
        && (touch.Some? ==> IsRaw(Point(sx.value, sy.value)) && touch.value == MapTouch(orientAdjust, scaleX, scaleY, offsetX, offsetY,
                                                    dispX, dispY, Point(sx.value, sy.value)))
      ensures repeat == (touch.Some? && old(pressed))
      ensures pressed == touch.Some?
      ensures orientAdjust == old(orientAdjust) && dispX == old(dispX) && dispY == old(dispY)
      ensures scaleX == old(scaleX) && scaleY == old(scaleY) && offsetX == old(offsetX) && offsetY == old(offsetY)
    {
      touch := None;
      repeat := false;
      used := 0;
      if irqBefore {
        var okX, tx, usedX, waveX := GetTouchData(false, douts);
        used := usedX;
        if okX {
          SamplesAreReadings(douts);
          DenoiseValueIsReading(Samples(douts));
          var rest := douts[usedX..];
          var okY, ty, usedY, waveY := GetTouchData(true, rest);
          used := usedX + usedY;
          if okY && irqAfter {
            SamplesAreReadings(rest);
            DenoiseValueIsReading(Samples(rest));
            touch := Some(MapTouch(orientAdjust, scaleX, scaleY, offsetX, offsetY, dispX, dispY, Point(tx, ty)));
          }
        }
      }
      if touch.Some? && pressed {
        repeat := true;
      }
      pressed := touch.Some?;
    }
  }
}
