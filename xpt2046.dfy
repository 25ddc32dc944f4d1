/** Driver for the XPT2046 resistive touch controller on a shared SPI
    bus: 12-bit conversions read as 13-bit samples, a pressure estimate
    in 16-bit unsigned arithmetic, and a touch threshold. */
module Xpt2046 {
  import opened Spi

  /** A touch reading: raw X and Y conversions and the pressure Z. */
  datatype Point = Point(x: int, y: int, z: int)

  // Conversion commands: start bit, channel, 12-bit differential mode.
  const CmdZ1: bv8 := 0xB1
  const CmdZ2: bv8 := 0xC1
  const CmdX: bv8 := 0xD1
  const CmdY: bv8 := 0x91

  /** Pressures below this mean nothing is touching the panel. */
  const Threshold := 400

  /** The 16-bit value of a conversion result, `uint16` in the source. */
  type Word = x: int | 0 <= x < 0x1_0000

  /** The two reply bytes as one big-endian 16-bit word with its three
      padding bits dropped: `((b1 << 8) | b2) >> 3`, where the OR of the
      shifted high byte and the low byte is their sum. */
  function Sample(b1: bv8, b2: bv8): (v: Word)
    ensures v < 8192
  {
    (b1 as int * 256 + b2 as int) / 8
  }

  /** The arithmetic form agrees with the source's shift-and-OR form on
      16-bit words. */
  lemma SampleIsShift(b1: bv8, b2: bv8)
    ensures Sample(b1, b2) == ((((b1 as bv16) << 8) | (b2 as bv16)) >> 3) as int
  {
  }

  /** `z1 + 4095 - z2` on uint16 operands: the result wraps modulo 2^16
      and so can never be negative. */
  function Pressure(z1: Word, z2: Word): (z: Word)
    ensures (z - (z1 + 4095 - z2)) % 0x1_0000 == 0
  {
    (z1 + 4095 - z2) % 0x1_0000
  }

  /** Without wrap-around the pressure is the plain difference. */
  lemma PressureNoWrap(z1: Word, z2: Word)
    requires z2 <= z1 + 4095 < 0x1_0000
    ensures Pressure(z1, z2) == z1 + 4095 - z2
  {
  }

  /** With 13-bit samples the difference can go below zero, and the wrap
      turns it into a large pressure rather than the 0 the clamp expects. */
  lemma PressureWraps()
    ensures Pressure(0, 8191) == 61440 && Pressure(0, 8191) >= Threshold
  {
  }

  /** A well-formed reading: either no touch at all, or a touch whose
      pressure reached the threshold. */
  predicate Touch(p: Point)
  {
    (p.z == 0 && p.x == 0 && p.y == 0) || p.z >= Threshold
  }

  /** The timeline `t` followed by one conversion read with command `cmd`. */
  function Conversion(t: seq<Event>, cmd: bv8): seq<Event>
  {
    t + Txn([cmd, 0x00, 0x00])
  }

  /** The reading built from the reply queue `q`, from position `c` on:
      Z1 and Z2 from the first four replies, X and Y from the next four
      only when the pressure reaches the threshold. */
  function Reading(q: seq<bv8>, c: nat): (p: Point)
    ensures Touch(p)
    ensures 0 <= p.x < 8192 && 0 <= p.y < 8192 && 0 <= p.z < 0x1_0000
  {
    var z := Pressure(Sample(Peek(q, c), Peek(q, c + 1)), Sample(Peek(q, c + 2), Peek(q, c + 3)));
    if z < Threshold then Point(0, 0, 0)
    else Point(Sample(Peek(q, c + 4), Peek(q, c + 5)), Sample(Peek(q, c + 6), Peek(q, c + 7)), z)
  }

  /** The timeline of one touch read: the two pressure conversions, and
      the two position conversions when `touched`. */
  function AfterTouch(t: seq<Event>, touched: bool): seq<Event>
  {
    var pressure := Conversion(Conversion(t, CmdZ1), CmdZ2);
    if touched then Conversion(Conversion(pressure, CmdX), CmdY) else pressure
  }

  /** The frame list `fs` followed by the frames of one touch read: one
      three-byte transaction per command, Z1 and Z2, then X and Y when
      `touched`. */
  function ThenTouch(fs: seq<seq<bv8>>, touched: bool): seq<seq<bv8>>
  {
    var pressure := fs + [[CmdZ1, 0x00, 0x00]] + [[CmdZ2, 0x00, 0x00]];
    if touched then pressure + [[CmdX, 0x00, 0x00]] + [[CmdY, 0x00, 0x00]] else pressure
  }

  /** A touch read's timeline reads back as its conversion transactions. */
  lemma TouchParses(t: seq<Event>, touched: bool)
    requires Frames(t).Some?
    ensures Frames(AfterTouch(t, touched)) == Some(ThenTouch(Frames(t).value, touched))
  {
    var t1 := Conversion(t, CmdZ1);
    FramesSnocTxn(t, [CmdZ1, 0x00, 0x00]);
    var t2 := Conversion(t1, CmdZ2);
    FramesSnocTxn(t1, [CmdZ2, 0x00, 0x00]);
    if touched {
      var t3 := Conversion(t2, CmdX);
      FramesSnocTxn(t2, [CmdX, 0x00, 0x00]);
      FramesSnocTxn(t3, [CmdY, 0x00, 0x00]);
    }
  }

  class Device {
    /** The SPI bus the controller shares, with its chip-select line. */
    const bus: Bus

    /** `New`: takes the bus and drives chip-select high before any
        transaction. */
    constructor (bus: Bus)
      modifies bus
      ensures this.bus == bus
      ensures bus.trace == old(bus.trace) + [CsHigh] && bus.consumed == old(bus.consumed)
    {
      this.bus := bus;
      new;
      bus.Deselect();
    }

    /** One conversion: the command, then two dummy bytes whose replies
        carry the result, all in one transaction. */
    method ReadReg(cmd: bv8) returns (val: Word)
      modifies bus
      ensures bus.trace == Conversion(old(bus.trace), cmd)
      ensures val == Sample(Peek(bus.replies, old(bus.consumed)), Peek(bus.replies, old(bus.consumed) + 1))
      ensures bus.consumed == old(bus.consumed) + 2
    {
      bus.Select();
      bus.Write(cmd);
      var b1 := bus.Transfer(0x00);
      var b2 := bus.Transfer(0x00);
      bus.Deselect();
      assert Xfers([cmd, 0x00, 0x00]) == [Xfer(cmd), Xfer(0x00), Xfer(0x00)];
      val := (b1 as int * 256 + b2 as int) / 8;
    }

    /** Read the pressure; below the threshold report no touch without
        reading the position, otherwise read X and Y too. */
    method ReadTouchPoint() returns (p: Point)
      modifies bus
      ensures p == Reading(bus.replies, old(bus.consumed))
      ensures bus.trace == AfterTouch(old(bus.trace), p.z != 0)
      ensures bus.consumed == old(bus.consumed) + (if p.z != 0 then 8 else 4)
    {
      var z1 := ReadReg(CmdZ1);
      var z2 := ReadReg(CmdZ2);

      var z := Pressure(z1, z2);
      if z < 0 {
        z := 0;
      }

      if z < 400 {
        return Point(0, 0, 0);
      }

      var x := ReadReg(CmdX);
      var y := ReadReg(CmdY);
      return Point(x, y, z);
    }
  }
}
