/** The application loop's arithmetic and steps: the touch calibration
    that rescales raw touch coordinates onto the 240 x 320 screen, the
    signal-strength bar, and the receive, signal-strength and touch steps
    of one pass of the polling loop. */
module Terminal {
  import opened Numeric
  import opened Spi
  import Cc1101
  import Xpt2046

  /** A linear rescale of `x` from [inMin, inMax] onto [outMin, outMax],
      with Go's truncating division, clamped to the output range. Go
      panics on a zero divisor, so the input range may not be empty. */
  function MapRange(x: int, inMin: int, inMax: int, outMin: int, outMax: int): (r: int)
    requires inMin != inMax
    ensures outMin <= outMax ==> outMin <= r <= outMax
  {
    var val := Quot((x - inMin) * (outMax - outMin), inMax - inMin) + outMin;
    if val < outMin then outMin
    else if val > outMax then outMax
    else val
  }

  /** The ends of the input range land on the ends of the output range. */
  lemma MapRangeEnds(inMin: int, inMax: int, outMin: int, outMax: int)
    requires inMin < inMax && outMin <= outMax
    ensures MapRange(inMin, inMin, inMax, outMin, outMax) == outMin
    ensures MapRange(inMax, inMin, inMax, outMin, outMax) == outMax
  {
    var span := inMax - inMin;
    QuotOfMultiple(0, span);
    assert (inMin - inMin) * (outMax - outMin) == 0 * span;
    QuotOfMultiple(outMax - outMin, span);
    assert (inMax - inMin) * (outMax - outMin) == (outMax - outMin) * span;
  }

  /** A larger input never maps to a smaller output. */
  lemma MapRangeMonotone(x1: int, x2: int, inMin: int, inMax: int, outMin: int, outMax: int)
    requires inMin < inMax && outMin <= outMax && x1 <= x2
    ensures MapRange(x1, inMin, inMax, outMin, outMax) <= MapRange(x2, inMin, inMax, outMin, outMax)
  {
    var a1 := (x1 - inMin) * (outMax - outMin);
    var a2 := (x2 - inMin) * (outMax - outMin);
    if outMax == outMin {
      assert a1 == 0 && a2 == 0;
    } else {
      MulMonotone(x1 - inMin, x2 - inMin, outMax - outMin);
    }
    QuotMonotone(a1, a2, inMax - inMin);
  }

  /** With the output ends swapped, as one would to flip an axis, the
      clamp sends every raw X reading to one of the two ends: 0 up to 314
      and 240 from 315 on, a step rather than a reversed scale. */
  lemma MapRangeSwappedIsStep(x: int)
    ensures x <= 314 ==> MapRange(x, 300, 3800, 240, 0) == 0
    ensures x >= 315 ==> MapRange(x, 300, 3800, 240, 0) == 240
  {
    var a := (x - 300) * (0 - 240);
    if x <= 314 {
      assert a >= -3360;
      QuotMonotone(-3360, a, 3500);
      QuotByPositive(-3360, 3500);
    } else {
      assert a <= -3600;
      QuotMonotone(a, -3600, 3500);
      QuotByPositive(-3600, 3500);
    }
  }

  /** The rescale clamped to the interval between the two output ends
      whichever way round they are given, so that swapping them reverses
      the scale. */
  function MapRangeBetween(x: int, inMin: int, inMax: int, outMin: int, outMax: int): (r: int)
    requires inMin != inMax
    ensures Min(outMin, outMax) <= r <= Min(outMin, outMax) + Abs(outMax - outMin)
  {
    var val := Quot((x - inMin) * (outMax - outMin), inMax - inMin) + outMin;
    var lo, hi := Min(outMin, outMax), Min(outMin, outMax) + Abs(outMax - outMin);
    if val < lo then lo
    else if val > hi then hi
    else val
  }

  /** For output ends in increasing order, the clamped rescale is exactly
      the source's; every call the program makes is of this kind. */
  lemma MapRangeBetweenAgrees(x: int, inMin: int, inMax: int, outMin: int, outMax: int)
    requires inMin != inMax && outMin <= outMax
    ensures MapRangeBetween(x, inMin, inMax, outMin, outMax) == MapRange(x, inMin, inMax, outMin, outMax)
  {
  }

  /** With the output ends in either order, the clamped rescale sends
      the input ends to the output ends. */
  lemma MapRangeBetweenEnds(inMin: int, inMax: int, outMin: int, outMax: int)
    requires inMin < inMax
    ensures MapRangeBetween(inMin, inMin, inMax, outMin, outMax) == outMin
    ensures MapRangeBetween(inMax, inMin, inMax, outMin, outMax) == outMax
  {
    var span := inMax - inMin;
    QuotOfMultiple(0, span);
    assert (inMin - inMin) * (outMax - outMin) == 0 * span;
    QuotOfMultiple(outMax - outMin, span);
    assert (inMax - inMin) * (outMax - outMin) == (outMax - outMin) * span;
  }

  /** With the output ends swapped the clamped rescale is reversed: a
      larger input never maps to a larger output. */
  lemma MapRangeBetweenReverses(x1: int, x2: int, inMin: int, inMax: int, outMin: int, outMax: int)
    requires inMin < inMax && outMax <= outMin && x1 <= x2
    ensures MapRangeBetween(x1, inMin, inMax, outMin, outMax) >= MapRangeBetween(x2, inMin, inMax, outMin, outMax)
  {
    var a1 := (x1 - inMin) * (outMax - outMin);
    var a2 := (x2 - inMin) * (outMax - outMin);
    if outMax == outMin {
      assert a1 == 0 && a2 == 0;
    } else {
      MulMonotone(x1 - inMin, x2 - inMin, outMin - outMax);
    }
    QuotMonotone(a2, a1, inMax - inMin);
  }

  /** A swapped calibration reverses the X axis: the left raw edge lands
      on column 240 and the right one on column 0. */
  lemma SwappedCalibrationReverses()
    ensures MapRangeBetween(RawMinX, RawMinX, RawMaxX, 240, 0) == 240
    ensures MapRangeBetween(RawMaxX, RawMinX, RawMaxX, 240, 0) == 0
  {
    MapRangeBetweenEnds(RawMinX, RawMaxX, 240, 0);
  }

  // Raw touch readings at the edges of the panel.
  const RawMinX := 300
  const RawMaxX := 3800
  const RawMinY := 200
  const RawMaxY := 3700

  /** The screen column of a raw X reading. */
  function ScreenX(rawX: int): (sx: int)
    ensures 0 <= sx <= 240
  {
    MapRange(rawX, RawMinX, RawMaxX, 0, 240)
  }

  /** The screen row of a raw Y reading. */
  function ScreenY(rawY: int): (sy: int)
    ensures 0 <= sy <= 320
  {
    MapRange(rawY, RawMinY, RawMaxY, 0, 320)
  }

  /** The calibration corners land on the screen corners, and moving the
      finger right or down never moves the point left or up. */
  lemma CalibrationCorners(x1: int, x2: int, y1: int, y2: int)
    requires x1 <= x2 && y1 <= y2
    ensures ScreenX(RawMinX) == 0 && ScreenX(RawMaxX) == 240
    ensures ScreenY(RawMinY) == 0 && ScreenY(RawMaxY) == 320
    ensures ScreenX(x1) <= ScreenX(x2) && ScreenY(y1) <= ScreenY(y2)
  {
    MapRangeEnds(RawMinX, RawMaxX, 0, 240);
    MapRangeEnds(RawMinY, RawMaxY, 0, 320);
    MapRangeMonotone(x1, x2, RawMinX, RawMaxX, 0, 240);
    MapRangeMonotone(y1, y2, RawMinY, RawMaxY, 0, 320);
  }

  /** The number of bar segments for a signal strength in dBm: one per
      5 dB above -100 dBm (truncating), at most 15. */
  function BarLen(rssi: int): (n: int)
    ensures 0 <= n <= 15
  {
    var barLen := Quot(rssi + 100, 5);
    if barLen < 0 then 0
    else if barLen > 15 then 15
    else barLen
  }

  /** Between -100 and -21 dBm the bar grows by one segment every 5 dB;
      at and below -96 dBm it is empty, at and above -25 dBm it is full. */
  lemma BarLenScale(rssi: int)
    ensures 0 <= rssi + 100 < 80 ==> BarLen(rssi) == (rssi + 100) / 5
    ensures rssi <= -96 ==> BarLen(rssi) == 0
    ensures rssi >= -25 ==> BarLen(rssi) == 15
  {
    QuotByPositive(rssi + 100, 5);
  }

  /** A stronger signal never shows a shorter bar. */
  lemma BarLenMonotone(rssi1: int, rssi2: int)
    requires rssi1 <= rssi2
    ensures BarLen(rssi1) <= BarLen(rssi2)
  {
    QuotMonotone(rssi1 + 100, rssi2 + 100, 5);
  }

  /** The bar drawn for a signal strength: BarLen segments of '|'. */
  method RssiBar(rssi: int) returns (bar: string)
    ensures |bar| == BarLen(rssi)
    ensures forall i :: 0 <= i < |bar| ==> bar[i] == '|'
  {
    var barLen := Quot(rssi + 100, 5);
    if barLen < 0 {
      barLen := 0;
    }
    if barLen > 15 {
      barLen := 15;
    }
    bar := "";
    for i := 0 to barLen
      invariant |bar| == i
      invariant forall j :: 0 <= j < i ==> bar[j] == '|'
    {
      bar := bar + "|";
    }
  }

  /** Radio bring-up: configure, then enter receive mode. Configure
      always reports success, so the failure message is never shown. */
  method StartRadio(radio: Cc1101.Device)
    modifies radio.bus
    ensures radio.bus.trace == Cc1101.AfterConfigure(old(radio.bus.trace)) + Txn([Cc1101.SRX])
    ensures radio.bus.consumed == old(radio.bus.consumed)
  {
    var ok := radio.Configure();
    if ok {
      radio.Rx();
    }
  }

  /** The receive step: when GDO0 signals a packet, read it into a fresh
      64-byte buffer, and re-enter receive mode only when the read
      reported no error and a non-empty packet. */
  method ReceiveStep(radio: Cc1101.Device, gdo0: bool) returns (n: nat, err: Option<string>)
    modifies radio.bus
    ensures err == None
    ensures !gdo0 ==> n == 0 && radio.bus.trace == old(radio.bus.trace) && radio.bus.consumed == old(radio.bus.consumed)
    ensures gdo0 ==>
      var q, p := radio.bus.replies, old(radio.bus.consumed);
      && n == Cc1101.Received(q, p, 64)
      && radio.bus.trace == Cc1101.ReadTrace(old(radio.bus.trace), q, p) + (if n > 0 then Txn([Cc1101.SRX]) else [])
      && radio.bus.consumed == p + (if Cc1101.Rejected(Peek(q, p)) then 1 else Peek(q, p) as int + 3)
  {
    n, err := 0, None;
    if gdo0 {
      var data := new bv8[64];
      n, err := radio.Read(data);
      if err == None && n > 0 {
        radio.Rx();
      }
    }
  }

  /** The signal-strength step: read the RSSI and build its bar. */
  method RssiStep(radio: Cc1101.Device) returns (rssi: int, bar: string)
    modifies radio.bus
    ensures rssi == Cc1101.RssiDbm(Peek(radio.bus.replies, old(radio.bus.consumed)))
    ensures |bar| == BarLen(rssi) && forall i :: 0 <= i < |bar| ==> bar[i] == '|'
    ensures radio.bus.trace == old(radio.bus.trace) + Txn([Cc1101.RSSI | 0xC0, 0x00])
    ensures radio.bus.consumed == old(radio.bus.consumed) + 1
  {
    rssi := radio.ReadRSSI();
    bar := RssiBar(rssi);
  }

  /** The touch step: read a touch point and, when it shows pressure,
      map it onto the screen. */
  method TouchStep(touch: Xpt2046.Device) returns (touched: bool, sx: int, sy: int)
    modifies touch.bus
    ensures var p := Xpt2046.Reading(touch.bus.replies, old(touch.bus.consumed));
      && touched == (p.z > 0)
      && (touched ==> sx == ScreenX(p.x) && sy == ScreenY(p.y))
      && (touched ==> 0 <= sx <= 240 && 0 <= sy <= 320)
    ensures touch.bus.trace == Xpt2046.AfterTouch(old(touch.bus.trace), touched)
    ensures touch.bus.consumed == old(touch.bus.consumed) + (if touched then 8 else 4)
  {
    var p := touch.ReadTouchPoint();
    touched := p.z > 0;
    sx, sy := 0, 0;
    if touched {
      sx := MapRange(p.x, RawMinX, RawMaxX, 0, 240);
      sy := MapRange(p.y, RawMinY, RawMaxY, 0, 320);
    }
  }
}
