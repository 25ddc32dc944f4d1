/** Driver for the CC1101 sub-GHz transceiver: five register-access
    primitives over the SPI bus, the fixed 433.92 MHz GFSK configuration,
    and length-prefixed packet framing through the chip's FIFO. */
module Cc1101 {
  import opened Spi
  import opened Numeric

  // Configuration registers the driver writes.
  const IOCFG2: bv8 := 0x00
  const IOCFG0: bv8 := 0x02
  const FIFOTHR: bv8 := 0x03
  const PKTCTRL1: bv8 := 0x07
  const PKTCTRL0: bv8 := 0x08
  const ADDR: bv8 := 0x09
  const CHANNR: bv8 := 0x0A
  const FSCTRL1: bv8 := 0x0B
  const FSCTRL0: bv8 := 0x0C
  const FREQ2: bv8 := 0x0D
  const FREQ1: bv8 := 0x0E
  const FREQ0: bv8 := 0x0F
  const MDMCFG4: bv8 := 0x10
  const MDMCFG3: bv8 := 0x11
  const MDMCFG2: bv8 := 0x12
  const MDMCFG1: bv8 := 0x13
  const MDMCFG0: bv8 := 0x14
  const DEVIATN: bv8 := 0x15
  const MCSM0: bv8 := 0x18
  const FOCCFG: bv8 := 0x19
  const BSCFG: bv8 := 0x1A
  const AGCCTRL2: bv8 := 0x1B
  const AGCCTRL1: bv8 := 0x1C
  const AGCCTRL0: bv8 := 0x1D
  const FREND1: bv8 := 0x21
  const FREND0: bv8 := 0x22
  const FSCAL3: bv8 := 0x23
  const FSCAL2: bv8 := 0x24
  const FSCAL1: bv8 := 0x25
  const FSCAL0: bv8 := 0x26
  const TEST0: bv8 := 0x2C
  const PATABLE: bv8 := 0x3E
  const FIFO: bv8 := 0x3F

  // Command strobes the driver issues.
  const SRES: bv8 := 0x30
  const SRX: bv8 := 0x34
  const STX: bv8 := 0x35
  const SIDLE: bv8 := 0x36
  const SFRX: bv8 := 0x3A
  const SFTX: bv8 := 0x3B

  // Status register holding the received signal strength.
  const RSSI: bv8 := 0x34

  /** The largest payload the receive framer accepts. */
  const MaxPacket := 64

  /** The power ramp burst-written to PATABLE (10 dBm). */
  const PaRamp: seq<bv8> := [0xC0, 0x00, 0x00, 0x00, 0x00, 0x00, 0x00, 0x00]

  /** The timeline `t` followed by the profile writes for packet handling, GDO pins, address and channel. */
  function AfterBasic(t: seq<Event>): seq<Event>
  {
    t
      + Txn([IOCFG2, 0x29])
      + Txn([IOCFG0, 0x06])
      + Txn([FIFOTHR, 0x47])
      + Txn([PKTCTRL1, 0x04])
      + Txn([PKTCTRL0, 0x05])
      + Txn([ADDR, 0x00])
      + Txn([CHANNR, 0x00])
  }

  /** The frame list `fs` followed by the frames of those writes. */
  function ThenBasic(fs: seq<seq<bv8>>): seq<seq<bv8>>
  {
    fs
      + [[IOCFG2, 0x29]]
      + [[IOCFG0, 0x06]]
      + [[FIFOTHR, 0x47]]
      + [[PKTCTRL1, 0x04]]
      + [[PKTCTRL0, 0x05]]
      + [[ADDR, 0x00]]
      + [[CHANNR, 0x00]]
  }

  lemma BasicParses(t: seq<Event>)
    requires Frames(t).Some?
    ensures Frames(AfterBasic(t)) == Some(ThenBasic(Frames(t).value))
  {
    FramesSnocTxn(t, [IOCFG2, 0x29]);
    var t1 := t + Txn([IOCFG2, 0x29]);
    FramesSnocTxn(t1, [IOCFG0, 0x06]);
    var t2 := t1 + Txn([IOCFG0, 0x06]);
    FramesSnocTxn(t2, [FIFOTHR, 0x47]);
    var t3 := t2 + Txn([FIFOTHR, 0x47]);
    FramesSnocTxn(t3, [PKTCTRL1, 0x04]);
    var t4 := t3 + Txn([PKTCTRL1, 0x04]);
    FramesSnocTxn(t4, [PKTCTRL0, 0x05]);
    var t5 := t4 + Txn([PKTCTRL0, 0x05]);
    FramesSnocTxn(t5, [ADDR, 0x00]);
    var t6 := t5 + Txn([ADDR, 0x00]);
    FramesSnocTxn(t6, [CHANNR, 0x00]);
  }

  /** The timeline `t` followed by the profile writes for the 433.92 MHz carrier and the IF. */
  function AfterFrequency(t: seq<Event>): seq<Event>
  {
    t
      + Txn([FSCTRL1, 0x06])
      + Txn([FSCTRL0, 0x00])
      + Txn([FREQ2, 0x10])
      + Txn([FREQ1, 0xB1])
      + Txn([FREQ0, 0x3B])
  }

  /** The frame list `fs` followed by the frames of those writes. */
  function ThenFrequency(fs: seq<seq<bv8>>): seq<seq<bv8>>
  {
    fs
      + [[FSCTRL1, 0x06]]
      + [[FSCTRL0, 0x00]]
      + [[FREQ2, 0x10]]
      + [[FREQ1, 0xB1]]
      + [[FREQ0, 0x3B]]
  }

  lemma FrequencyParses(t: seq<Event>)
    requires Frames(t).Some?
    ensures Frames(AfterFrequency(t)) == Some(ThenFrequency(Frames(t).value))
  {
    FramesSnocTxn(t, [FSCTRL1, 0x06]);
    var t1 := t + Txn([FSCTRL1, 0x06]);
    FramesSnocTxn(t1, [FSCTRL0, 0x00]);
    var t2 := t1 + Txn([FSCTRL0, 0x00]);
    FramesSnocTxn(t2, [FREQ2, 0x10]);
    var t3 := t2 + Txn([FREQ2, 0x10]);
    FramesSnocTxn(t3, [FREQ1, 0xB1]);
    var t4 := t3 + Txn([FREQ1, 0xB1]);
    FramesSnocTxn(t4, [FREQ0, 0x3B]);
  }

  /** The timeline `t` followed by the profile writes for GFSK at 1.2 kbps: data rate, sync mode, deviation. */
  function AfterModem(t: seq<Event>): seq<Event>
  {
    t
      + Txn([MDMCFG4, 0xF5])
      + Txn([MDMCFG3, 0x83])
      + Txn([MDMCFG2, 0x13])
      + Txn([MDMCFG1, 0x22])
      + Txn([MDMCFG0, 0xF8])
      + Txn([DEVIATN, 0x15])
  }

  /** The frame list `fs` followed by the frames of those writes. */
  function ThenModem(fs: seq<seq<bv8>>): seq<seq<bv8>>
  {
    fs
      + [[MDMCFG4, 0xF5]]
      + [[MDMCFG3, 0x83]]
      + [[MDMCFG2, 0x13]]
      + [[MDMCFG1, 0x22]]
      + [[MDMCFG0, 0xF8]]
      + [[DEVIATN, 0x15]]
  }

  lemma ModemParses(t: seq<Event>)
    requires Frames(t).Some?
    ensures Frames(AfterModem(t)) == Some(ThenModem(Frames(t).value))
  {
    FramesSnocTxn(t, [MDMCFG4, 0xF5]);
    var t1 := t + Txn([MDMCFG4, 0xF5]);
    FramesSnocTxn(t1, [MDMCFG3, 0x83]);
    var t2 := t1 + Txn([MDMCFG3, 0x83]);
    FramesSnocTxn(t2, [MDMCFG2, 0x13]);
    var t3 := t2 + Txn([MDMCFG2, 0x13]);
    FramesSnocTxn(t3, [MDMCFG1, 0x22]);
    var t4 := t3 + Txn([MDMCFG1, 0x22]);
    FramesSnocTxn(t4, [MDMCFG0, 0xF8]);
    var t5 := t4 + Txn([MDMCFG0, 0xF8]);
    FramesSnocTxn(t5, [DEVIATN, 0x15]);
  }

  /** The timeline `t` followed by the profile writes for auto-calibration, frequency-offset and bit-sync compensation, AGC, front end. */
  function AfterControl(t: seq<Event>): seq<Event>
  {
    t
      + Txn([MCSM0, 0x18])
      + Txn([FOCCFG, 0x16])
      + Txn([BSCFG, 0x6C])
      + Txn([AGCCTRL2, 0x03])
      + Txn([AGCCTRL1, 0x40])
      + Txn([AGCCTRL0, 0x91])
      + Txn([FREND1, 0x56])
      + Txn([FREND0, 0x10])
  }

  /** The frame list `fs` followed by the frames of those writes. */
  function ThenControl(fs: seq<seq<bv8>>): seq<seq<bv8>>
  {
    fs
      + [[MCSM0, 0x18]]
      + [[FOCCFG, 0x16]]
      + [[BSCFG, 0x6C]]
      + [[AGCCTRL2, 0x03]]
      + [[AGCCTRL1, 0x40]]
      + [[AGCCTRL0, 0x91]]
      + [[FREND1, 0x56]]
      + [[FREND0, 0x10]]
  }

  lemma ControlParses(t: seq<Event>)
    requires Frames(t).Some?
    ensures Frames(AfterControl(t)) == Some(ThenControl(Frames(t).value))
  {
    FramesSnocTxn(t, [MCSM0, 0x18]);
    var t1 := t + Txn([MCSM0, 0x18]);
    FramesSnocTxn(t1, [FOCCFG, 0x16]);
    var t2 := t1 + Txn([FOCCFG, 0x16]);
    FramesSnocTxn(t2, [BSCFG, 0x6C]);
    var t3 := t2 + Txn([BSCFG, 0x6C]);
    FramesSnocTxn(t3, [AGCCTRL2, 0x03]);
    var t4 := t3 + Txn([AGCCTRL2, 0x03]);
    FramesSnocTxn(t4, [AGCCTRL1, 0x40]);
    var t5 := t4 + Txn([AGCCTRL1, 0x40]);
    FramesSnocTxn(t5, [AGCCTRL0, 0x91]);
    var t6 := t5 + Txn([AGCCTRL0, 0x91]);
    FramesSnocTxn(t6, [FREND1, 0x56]);
    var t7 := t6 + Txn([FREND1, 0x56]);
    FramesSnocTxn(t7, [FREND0, 0x10]);
  }

  /** The timeline `t` followed by the profile writes for synthesizer calibration and the test register. */
  function AfterCalibration(t: seq<Event>): seq<Event>
  {
    t
      + Txn([FSCAL3, 0xE9])
      + Txn([FSCAL2, 0x2A])
      + Txn([FSCAL1, 0x00])
      + Txn([FSCAL0, 0x1F])
      + Txn([TEST0, 0x59])
  }

  /** The frame list `fs` followed by the frames of those writes. */
  function ThenCalibration(fs: seq<seq<bv8>>): seq<seq<bv8>>
  {
    fs
      + [[FSCAL3, 0xE9]]
      + [[FSCAL2, 0x2A]]
      + [[FSCAL1, 0x00]]
      + [[FSCAL0, 0x1F]]
      + [[TEST0, 0x59]]
  }

  lemma CalibrationParses(t: seq<Event>)
    requires Frames(t).Some?
    ensures Frames(AfterCalibration(t)) == Some(ThenCalibration(Frames(t).value))
  {
    FramesSnocTxn(t, [FSCAL3, 0xE9]);
    var t1 := t + Txn([FSCAL3, 0xE9]);
    FramesSnocTxn(t1, [FSCAL2, 0x2A]);
    var t2 := t1 + Txn([FSCAL2, 0x2A]);
    FramesSnocTxn(t2, [FSCAL1, 0x00]);
    var t3 := t2 + Txn([FSCAL1, 0x00]);
    FramesSnocTxn(t3, [FSCAL0, 0x1F]);
    var t4 := t3 + Txn([FSCAL0, 0x1F]);
    FramesSnocTxn(t4, [TEST0, 0x59]);
  }

  /** The timeline `t` followed by what Configure puts on the bus: reset,
      a 10 ms pause, the profile, the power-table burst. */
  function AfterConfigure(t: seq<Event>): seq<Event>
  {
    var reset := t + Txn([SRES]) + [Delay(10)];
    AfterCalibration(AfterControl(AfterModem(AfterFrequency(AfterBasic(reset)))))
      + Txn([PATABLE | 0x40] + PaRamp)
  }

  /** The frame list `fs` followed by the transactions of Configure: the
      reset strobe, the 31 profile writes, the power-table burst. */
  function ThenConfigure(fs: seq<seq<bv8>>): seq<seq<bv8>>
  {
    var reset := fs + [[SRES]];
    ThenCalibration(ThenControl(ThenModem(ThenFrequency(ThenBasic(reset)))))
      + [[PATABLE | 0x40] + PaRamp]
  }

  /** The timeline `t` followed by what Tx puts on the bus for `packet`. */
  function AfterTx(t: seq<Event>, packet: seq<bv8>): seq<Event>
  {
    t + Txn([SIDLE]) + Txn([SFTX]) + Txn([FIFO, (|packet| % 256) as bv8])
      + Txn([FIFO | 0x40] + packet) + Txn([STX]) + [Delay(100)]
  }

  /** The frame list `fs` followed by the transactions of Tx. */
  function ThenTx(fs: seq<seq<bv8>>, packet: seq<bv8>): seq<seq<bv8>>
  {
    fs + [[SIDLE]] + [[SFTX]] + [[FIFO, (|packet| % 256) as bv8]]
      + [[FIFO | 0x40] + packet] + [[STX]]
  }

  /** The timeline `t` followed by `k` single-byte reads of the FIFO. */
  function AfterReads(t: seq<Event>, k: nat): seq<Event>
  {
    if k == 0 then t else AfterReads(t, k - 1) + Txn([FIFO | 0x80, 0x00])
  }

  /** The frame list `fs` followed by `k` single-byte FIFO reads. */
  function ThenReads(fs: seq<seq<bv8>>, k: nat): (r: seq<seq<bv8>>)
    ensures |r| == |fs| + k
  {
    if k == 0 then fs else ThenReads(fs, k - 1) + [[FIFO | 0x80, 0x00]]
  }

  lemma {:induction false} ReadsCompose(t: seq<Event>, a: nat, b: nat)
    ensures AfterReads(AfterReads(t, a), b) == AfterReads(t, a + b)
  {
    if b > 0 {
      ReadsCompose(t, a, b - 1);
    }
  }

  /** The bytes a transaction puts into the TX FIFO: the value of a
      single write to FIFO, or the body of a burst write to FIFO. */
  function FifoPart(frame: seq<bv8>): seq<bv8>
  {
    if |frame| == 2 && frame[0] == FIFO then [frame[1]]
    else if |frame| >= 1 && frame[0] == FIFO | 0x40 then frame[1..]
    else []
  }

  /** Everything a list of transactions writes into the TX FIFO, in order. */
  function FifoWrites(frames: seq<seq<bv8>>): seq<bv8>
  {
    if frames == [] then [] else FifoPart(frames[0]) + FifoWrites(frames[1..])
  }

  /** Configure's timeline reads back as its transactions, after whatever
      came before. */
  lemma ConfigureParses(t: seq<Event>)
    requires Frames(t).Some?
    ensures Frames(AfterConfigure(t)) == Some(ThenConfigure(Frames(t).value))
  {
    var t0 := t + Txn([SRES]);
    FramesSnocTxn(t, [SRES]);
    var t1 := t0 + [Delay(10)];
    FramesSnocDelay(t0, 10);
    var t2 := AfterBasic(t1);
    BasicParses(t1);
    var t3 := AfterFrequency(t2);
    FrequencyParses(t2);
    var t4 := AfterModem(t3);
    ModemParses(t3);
    var t5 := AfterControl(t4);
    ControlParses(t4);
    var t6 := AfterCalibration(t5);
    CalibrationParses(t5);
    FramesSnocTxn(t6, [PATABLE | 0x40] + PaRamp);
  }

  /** Tx's timeline reads back as its five transactions. */
  lemma TxParses(t: seq<Event>, packet: seq<bv8>)
    requires Frames(t).Some?
    ensures Frames(AfterTx(t, packet)) == Some(ThenTx(Frames(t).value, packet))
  {
    var t1 := t + Txn([SIDLE]);
    FramesSnocTxn(t, [SIDLE]);
    var t2 := t1 + Txn([SFTX]);
    FramesSnocTxn(t1, [SFTX]);
    var t3 := t2 + Txn([FIFO, (|packet| % 256) as bv8]);
    FramesSnocTxn(t2, [FIFO, (|packet| % 256) as bv8]);
    var t4 := t3 + Txn([FIFO | 0x40] + packet);
    FramesSnocTxn(t3, [FIFO | 0x40] + packet);
    var t5 := t4 + Txn([STX]);
    FramesSnocTxn(t4, [STX]);
    FramesSnocDelay(t5, 100);
  }

  /** The FIFO bytes of two frame lists one after the other. */
  lemma {:induction false} FifoWritesAppend(a: seq<seq<bv8>>, b: seq<seq<bv8>>)
    ensures FifoWrites(a + b) == FifoWrites(a) + FifoWrites(b)
    decreases |a|
  {
    if a == [] {
      assert a + b == b;
    } else {
      assert (a + b)[1..] == a[1..] + b;
      FifoWritesAppend(a[1..], b);
    }
  }

  /** One more transaction adds its FIFO bytes at the end. */
  lemma FifoWritesSnoc(fs: seq<seq<bv8>>, f: seq<bv8>)
    ensures FifoWrites(fs + [f]) == FifoWrites(fs) + FifoPart(f)
  {
    FifoWritesAppend(fs, [f]);
    assert [f][1..] == [];
    assert FifoPart(f) + [] == FifoPart(f);
  }

  /** Tx puts into the FIFO exactly the length byte, then the payload: the
      frame format Read expects. */
  lemma TxFillsFifo(packet: seq<bv8>)
    ensures FifoWrites(ThenTx([], packet)) == [(|packet| % 256) as bv8] + packet
  {
    var len: bv8 := (|packet| % 256) as bv8;
    var f1 := [] + [[SIDLE]];
    var f2 := f1 + [[SFTX]];
    var f3 := f2 + [[FIFO, len]];
    var f4 := f3 + [[FIFO | 0x40] + packet];
    FifoWritesSnoc([], [SIDLE]);
    assert FifoWrites(f1) == [];
    FifoWritesSnoc(f1, [SFTX]);
    assert FifoWrites(f2) == [];
    FifoWritesSnoc(f2, [FIFO, len]);
    assert FifoWrites(f3) == [len];
    FifoWritesSnoc(f3, [FIFO | 0x40] + packet);
    assert ([FIFO | 0x40] + packet)[1..] == packet;
    assert FifoWrites(f4) == [len] + packet;
    FifoWritesSnoc(f4, [STX]);
    assert FifoWrites(f4 + [[STX]]) == [len] + packet + [];
  }

  /** `k` FIFO reads read back as `k` identical two-byte transactions. */
  lemma {:induction false} ReadsParse(t: seq<Event>, k: nat)
    requires Frames(t).Some?
    ensures Frames(AfterReads(t, k)) == Some(ThenReads(Frames(t).value, k))
  {
    if k > 0 {
      ReadsParse(t, k - 1);
      FramesSnocTxn(AfterReads(t, k - 1), [FIFO | 0x80, 0x00]);
    }
  }

  /** The raw RSSI status byte in dBm: a two's-complement half-dB count
      halved toward zero, less the 74 dB offset. */
  function RssiDbm(raw: bv8): (dbm: int)
    ensures -138 <= dbm <= -11
  {
    var rssiDec := raw as int;
    if rssiDec >= 128 then Quot(rssiDec - 256, 2) - 74 else Quot(rssiDec, 2) - 74
  }

  /** The raw byte read as a signed 8-bit number. */
  function Signed(raw: bv8): (s: int)
    ensures -128 <= s < 128 && (s - raw as int) % 256 == 0
  {
    if raw as int >= 128 then raw as int - 256 else raw as int
  }

  /** The decode is the signed half-dB count halved toward zero, less 74. */
  lemma RssiIsSignedHalf(raw: bv8)
    ensures RssiDbm(raw) == Quot(Signed(raw), 2) - 74
  {
  }

  /** Decoded values across both halves of the byte range; 128 decodes
      to -138 dBm, the weakest value. */
  lemma RssiSamples()
    ensures RssiDbm(0) == -74 && RssiDbm(50) == -49 && RssiDbm(100) == -24 && RssiDbm(127) == -11
    ensures RssiDbm(128) == -138 && RssiDbm(200) == -102 && RssiDbm(255) == -74
  {
    QuotByPositive(127, 2);
    QuotByPositive(-128, 2);
    QuotByPositive(-56, 2);
    QuotByPositive(-1, 2);
  }

  /** A stronger raw reading never decodes to fewer dBm, within each half
      of the byte range (0..127 and 128..255). */
  lemma RssiMonotone(raw1: bv8, raw2: bv8)
    requires raw1 as int <= raw2 as int
    requires raw2 as int < 128 || 128 <= raw1 as int
    ensures RssiDbm(raw1) <= RssiDbm(raw2)
  {
    var a, b := raw1 as int, raw2 as int;
    if b < 128 {
      QuotMonotone(a, b, 2);
    } else {
      QuotMonotone(a - 256, b - 256, 2);
    }
  }

  /** The half-ranges meet in a jump: the largest byte of the lower half
      decodes to the strongest value, the smallest of the upper half to the
      weakest. */
  lemma RssiWrapsAt128()
    ensures forall raw: bv8 :: RssiDbm(127) >= RssiDbm(raw) >= RssiDbm(128)
  {
    forall raw: bv8
      ensures RssiDbm(127) >= RssiDbm(raw) >= RssiDbm(128)
    {
      RssiSamples();
    }
  }

  /** A length byte the receive framer refuses: an empty packet, or one
      longer than the largest payload. */
  predicate Rejected(len: bv8)
  {
    len as int == 0 || len as int > MaxPacket
  }

  /** The CRC-OK flag, bit 7 of the LQI status byte. */
  predicate CrcOk(lqi: bv8)
  {
    lqi & 0x80 != 0
  }

  /** The timeline of one Read that finds the queue `q` at position `p`:
      the length read and a flush of the RX FIFO for a refused length,
      otherwise the length, payload and two status-byte reads. */
  function ReadTrace(t: seq<Event>, q: seq<bv8>, p: nat): seq<Event>
  {
    if Rejected(Peek(q, p)) then AfterReads(t, 1) + Txn([SFRX])
    else AfterReads(t, Peek(q, p) as int + 3)
  }

  /** The count Read reports for the queue `q` at position `p` and a
      buffer of `cap` bytes: the bytes copied when the length is accepted
      and the CRC flag is set, 0 otherwise. */
  function Received(q: seq<bv8>, p: nat, cap: nat): (n: nat)
    ensures n <= cap && n <= MaxPacket
    ensures n > 0 ==> !Rejected(Peek(q, p)) && CrcOk(Peek(q, p + Peek(q, p) as int + 2))
  {
    var len := Peek(q, p) as int;
    if Rejected(Peek(q, p)) || !CrcOk(Peek(q, p + len + 2)) then 0 else Min(len, cap)
  }

  /** Read's timeline reads back as its transactions: the length read and
      the RX FIFO flush for a refused length, otherwise one FIFO read per
      byte of length, payload and the two status bytes. */
  lemma ReadParses(t: seq<Event>, q: seq<bv8>, p: nat)
    requires Frames(t).Some?
    ensures Frames(ReadTrace(t, q, p)) == Some(
      if Rejected(Peek(q, p)) then ThenReads(Frames(t).value, 1) + [[SFRX]]
      else ThenReads(Frames(t).value, Peek(q, p) as int + 3))
  {
    var fs := Frames(t).value;
    if Rejected(Peek(q, p)) {
      var t1 := AfterReads(t, 1);
      assert ReadTrace(t, q, p) == t1 + Txn([SFRX]);
      assert Frames(t1) == Some(ThenReads(fs, 1)) by { ReadsParse(t, 1); }
      assert Frames(t1 + Txn([SFRX])) == Some(ThenReads(fs, 1) + [[SFRX]]) by {
        FramesSnocTxn(t1, [SFRX]);
      }
    } else {
      var k := Peek(q, p) as int + 3;
      assert ReadTrace(t, q, p) == AfterReads(t, k);
      ReadsParse(t, k);
    }
  }

  class Device {
    /** The SPI bus the chip is on, with its chip-select line. */
    const bus: Bus

    /** `New`: takes the bus and drives chip-select high (idle). */
    constructor (bus: Bus)
      modifies bus
      ensures this.bus == bus
      ensures bus.trace == old(bus.trace) + [CsHigh] && bus.consumed == old(bus.consumed)
    {
      this.bus := bus;
      new;
      bus.Deselect();
    }

    /** A command strobe: the single byte `cmd` in one transaction. */
    method Strobe(cmd: bv8)
      modifies bus
      ensures bus.trace == old(bus.trace) + Txn([cmd]) && bus.consumed == old(bus.consumed)
    {
      bus.Select();
      bus.Write(cmd);
      bus.Deselect();
      assert Xfers([cmd]) == [Xfer(cmd)];
    }

    /** Single-register read: header with the read bit (7) set, then a
        dummy byte whose reply is the register's value. */
    method ReadReg(addr: bv8) returns (val: bv8)
      modifies bus
      ensures bus.trace == old(bus.trace) + Txn([addr | 0x80, 0x00])
      ensures val == Peek(bus.replies, old(bus.consumed)) && bus.consumed == old(bus.consumed) + 1
    {
      bus.Select();
      bus.Write(addr | 0x80);
      val := bus.Transfer(0x00);
      bus.Deselect();
      assert Xfers([addr | 0x80, 0x00]) == [Xfer(addr | 0x80), Xfer(0x00)];
    }

    /** Status-register read: header with the read (7) and burst (6) bits set. */
    method ReadStatus(addr: bv8) returns (val: bv8)
      modifies bus
      ensures bus.trace == old(bus.trace) + Txn([addr | 0xC0, 0x00])
      ensures val == Peek(bus.replies, old(bus.consumed)) && bus.consumed == old(bus.consumed) + 1
    {
      bus.Select();
      bus.Write(addr | 0xC0);
      val := bus.Transfer(0x00);
      bus.Deselect();
      assert Xfers([addr | 0xC0, 0x00]) == [Xfer(addr | 0xC0), Xfer(0x00)];
    }

    /** Single-register write: the bare address, then the value. */
    method WriteReg(addr: bv8, val: bv8)
      modifies bus
      ensures bus.trace == old(bus.trace) + Txn([addr, val]) && bus.consumed == old(bus.consumed)
    {
      bus.Select();
      bus.Write(addr);
      bus.Write(val);
      bus.Deselect();
      assert Xfers([addr, val]) == [Xfer(addr), Xfer(val)];
    }

    /** Burst write: header with the burst bit (6) set, then every byte of
        `data` in order, all in one transaction. */
    method WriteBurst(addr: bv8, data: seq<bv8>)
      modifies bus
      ensures bus.trace == old(bus.trace) + Txn([addr | 0x40] + data)
      ensures bus.consumed == old(bus.consumed)
    {
      bus.Select();
      bus.Write(addr | 0x40);
      assert Xfers([addr | 0x40]) == [Xfer(addr | 0x40)];
      for i := 0 to |data|
        invariant bus.trace == old(bus.trace) + [CsLow] + Xfers([addr | 0x40] + data[..i])
        invariant bus.consumed == old(bus.consumed)
      {
        bus.Write(data[i]);
        assert [addr | 0x40] + data[..i + 1] == [addr | 0x40] + data[..i] + [data[i]];
        XfersSnoc([addr | 0x40] + data[..i], data[i]);
      }
      bus.Deselect();
      assert data[..|data|] == data;
    }

    /** Reset, then the fixed profile and power table; there is no
        read-back, so success is reported whatever the chip did. */
    method Configure() returns (ok: bool)
      modifies bus
      ensures ok
      ensures bus.trace == AfterConfigure(old(bus.trace)) && bus.consumed == old(bus.consumed)
    {
      Strobe(SRES);
      bus.Pause(10);

      WriteReg(IOCFG2, 0x29);
      WriteReg(IOCFG0, 0x06);
      WriteReg(FIFOTHR, 0x47);
      WriteReg(PKTCTRL1, 0x04);
      WriteReg(PKTCTRL0, 0x05);
      WriteReg(ADDR, 0x00);
      WriteReg(CHANNR, 0x00);

      WriteReg(FSCTRL1, 0x06);
      WriteReg(FSCTRL0, 0x00);
      WriteReg(FREQ2, 0x10);
      WriteReg(FREQ1, 0xB1);
      WriteReg(FREQ0, 0x3B);

      WriteReg(MDMCFG4, 0xF5);
      WriteReg(MDMCFG3, 0x83);
      WriteReg(MDMCFG2, 0x13);
      WriteReg(MDMCFG1, 0x22);
      WriteReg(MDMCFG0, 0xF8);
      WriteReg(DEVIATN, 0x15);

      WriteReg(MCSM0, 0x18);
      WriteReg(FOCCFG, 0x16);
      WriteReg(BSCFG, 0x6C);
      WriteReg(AGCCTRL2, 0x03);
      WriteReg(AGCCTRL1, 0x40);
      WriteReg(AGCCTRL0, 0x91);
      WriteReg(FREND1, 0x56);
      WriteReg(FREND0, 0x10);

      WriteReg(FSCAL3, 0xE9);
      WriteReg(FSCAL2, 0x2A);
      WriteReg(FSCAL1, 0x00);
      WriteReg(FSCAL0, 0x1F);
      WriteReg(TEST0, 0x59);

      WriteBurst(PATABLE, PaRamp);
      return true;
    }

    /** Enter receive mode. */
    method Rx()
      modifies bus
      ensures bus.trace == old(bus.trace) + Txn([SRX]) && bus.consumed == old(bus.consumed)
    {
      Strobe(SRX);
    }

    /** Send a packet: idle, flush the TX FIFO, write the length byte and
        the payload into the FIFO, start transmitting, then wait. The
        length is not checked; only its low byte goes on the wire. */
    method Tx(packet: seq<bv8>)
      modifies bus
      ensures bus.trace == AfterTx(old(bus.trace), packet) && bus.consumed == old(bus.consumed)
    {
      Strobe(SIDLE);
      Strobe(SFTX);
      WriteReg(FIFO, (|packet| % 256) as bv8);
      WriteBurst(FIFO, packet);
      Strobe(STX);
      bus.Pause(100);
    }

    /** The current signal strength in dBm, read from the RSSI status register. */
    method ReadRSSI() returns (dbm: int)
      modifies bus
      ensures bus.trace == old(bus.trace) + Txn([RSSI | 0xC0, 0x00])
      ensures bus.consumed == old(bus.consumed) + 1
      ensures dbm == RssiDbm(Peek(bus.replies, old(bus.consumed))) && -138 <= dbm <= -11
    {
      var raw := ReadStatus(RSSI);
      var rssiDec := raw as int;
      if rssiDec >= 128 {
        return Quot(rssiDec - 256, 2) - 74;
      }
      return Quot(rssiDec, 2) - 74;
    }

    /** The copy loop of Read: `count` single-byte FIFO reads into
        buf[0..count). */
    method ReadInto(buf: array<bv8>, count: nat)
      requires count <= buf.Length
      modifies bus, buf
      ensures bus.consumed == old(bus.consumed) + count
      ensures bus.trace == AfterReads(old(bus.trace), count)
      ensures forall j :: 0 <= j < count ==> buf[j] == Peek(bus.replies, old(bus.consumed) + j)
      ensures forall j :: count <= j < buf.Length ==> buf[j] == old(buf[j])
    {
      ghost var p := bus.consumed;
      ghost var t := bus.trace;
      for i := 0 to count
        invariant bus.consumed == p + i
        invariant bus.trace == AfterReads(t, i)
        invariant forall j :: 0 <= j < i ==> buf[j] == Peek(bus.replies, p + j)
        invariant forall j :: i <= j < buf.Length ==> buf[j] == old(buf[j])
      {
        buf[i] := ReadReg(FIFO);
      }
    }

    /** The drain loop of Read: `count` single-byte FIFO reads whose
        values are dropped. */
    method Discard(count: nat)
      modifies bus
      ensures bus.consumed == old(bus.consumed) + count
      ensures bus.trace == AfterReads(old(bus.trace), count)
    {
      ghost var p := bus.consumed;
      ghost var t := bus.trace;
      for i := 0 to count
        invariant bus.consumed == p + i
        invariant bus.trace == AfterReads(t, i)
      {
        var _ := ReadReg(FIFO);
      }
    }

    /** The accepted-length path of Read, after the length byte `len`
        has been taken: copy what fits, drain the rest of the payload,
        read the two status bytes, and gate the count on the CRC flag. */
    method ReadPayload(buf: array<bv8>, len: nat) returns (n: nat)
      modifies bus, buf
      ensures var p := old(bus.consumed);
        && n == (if CrcOk(Peek(bus.replies, p + len + 1)) then Min(len, buf.Length) else 0)
        && bus.consumed == p + len + 2
        && bus.trace == AfterReads(old(bus.trace), len + 2)
        && (forall i :: 0 <= i < Min(len, buf.Length) ==> buf[i] == Peek(bus.replies, p + i))
        && (forall i :: Min(len, buf.Length) <= i < buf.Length ==> buf[i] == old(buf[i]))
    {
      ghost var t := bus.trace;
      var readLen := len;
      if buf.Length < readLen {
        readLen := buf.Length;
      }
      ReadInto(buf, readLen);
      Discard(len - readLen);
      ReadsCompose(t, readLen, len - readLen);
      var _ := ReadReg(FIFO);
      assert bus.trace == AfterReads(t, len + 1);
      var lqi := ReadReg(FIFO);
      assert bus.trace == AfterReads(t, len + 2);
      if lqi & 0x80 == 0 {
        return 0;
      }
      return readLen;
    }

    /** Drain one packet from the RX FIFO into `buf`. The first FIFO byte
        is the payload length L. L == 0 or L > 64 flushes the RX FIFO and
        yields 0. Otherwise the first min(L, |buf|) payload bytes land in
        `buf`, the rest of the payload and the two status bytes (RSSI, then
        LQI with the CRC-OK flag in bit 7) are read, and the count of
        copied bytes is returned if the CRC flag is set, 0 if not; `buf`
        has been written either way. The error result is never set. */
    method Read(buf: array<bv8>) returns (n: nat, err: Option<string>)
      modifies bus, buf
      ensures err == None
      ensures n == Received(bus.replies, old(bus.consumed), buf.Length)
      ensures bus.trace == ReadTrace(old(bus.trace), bus.replies, old(bus.consumed))
      ensures Rejected(Peek(bus.replies, old(bus.consumed))) ==>
        && (forall i :: 0 <= i < buf.Length ==> buf[i] == old(buf[i]))
        && bus.consumed == old(bus.consumed) + 1
      ensures !Rejected(Peek(bus.replies, old(bus.consumed))) ==>
        var p := old(bus.consumed);
        var len := Peek(bus.replies, p) as int;
        && bus.consumed == p + len + 3
        && (forall i :: 0 <= i < Min(len, buf.Length) ==> buf[i] == Peek(bus.replies, p + 1 + i))
        && (forall i :: Min(len, buf.Length) <= i < buf.Length ==> buf[i] == old(buf[i]))
    {
      ghost var t := bus.trace;
      var pktLen := ReadReg(FIFO);
      if pktLen as int > MaxPacket || pktLen as int == 0 {
        Strobe(SFRX);
        assert bus.trace == AfterReads(t, 1) + Txn([SFRX]);
        return 0, None;
      }
      n := ReadPayload(buf, pktLen as int);
      ReadsCompose(t, 1, pktLen as int + 2);
      return n, None;
    }
  }

  /** From a freshly constructed device (chip-select released once), Tx
      leaves a well-bracketed timeline whose FIFO writes are the length
      byte and then the payload. */
  lemma TxFromIdle(packet: seq<bv8>)
    ensures Frames(AfterTx([CsHigh], packet)).Some?
    ensures FifoWrites(Frames(AfterTx([CsHigh], packet)).value) == [(|packet| % 256) as bv8] + packet
  {
    assert [CsHigh][1..] == [];
    assert Frames([CsHigh]) == Some([]);
    TxParses([CsHigh], packet);
    TxFillsFifo(packet);
  }

  /** The receive FIFO holding one frame: length byte, payload, RSSI and
      LQI status bytes. */
  function RxFifo(packet: seq<bv8>, rssi: bv8, lqi: bv8): seq<bv8>
  {
    [(|packet| % 256) as bv8] + packet + [rssi, lqi]
  }

  /** Where Read finds each part of a frame in the receive FIFO. */
  lemma RxFifoLayout(packet: seq<bv8>, rssi: bv8, lqi: bv8)
    requires 1 <= |packet| <= MaxPacket
    ensures var q := RxFifo(packet, rssi, lqi);
      && Peek(q, 0) as int == |packet| && !Rejected(Peek(q, 0))
      && (forall i :: 0 <= i < |packet| ==> Peek(q, 1 + i) == packet[i])
      && Peek(q, |packet| + 1) == rssi && Peek(q, |packet| + 2) == lqi
  {
    var q := RxFifo(packet, rssi, lqi);
    assert |q| == |packet| + 3;
    LengthByte(|packet|);
    assert q[0] == (|packet| % 256) as bv8;
    assert forall i :: 0 <= i < |packet| ==> q[1 + i] == packet[i];
  }

  /** A length below 256 survives the trip through its byte. */
  lemma LengthByte(n: nat)
    requires n < 256
    ensures (n % 256) as bv8 as int == n
  {
  }

  /** Framing round trip: the FIFO bytes one device's Tx writes, followed
      by the two status bytes the chip appends, are read back by another
      device's Read as the same packet, when it fits the receive buffer and
      the CRC flag is set. */
  method RoundTrip(packet: seq<bv8>, rssi: bv8, lqi: bv8, buf: array<bv8>)
    returns (n: nat, err: Option<string>)
    requires 1 <= |packet| <= MaxPacket && buf.Length >= |packet|
    requires CrcOk(lqi)
    modifies buf
    ensures err == None && n == |packet| && buf[..|packet|] == packet
  {
    var txBus := new Bus([]);
    var sender := new Device(txBus);
    assert txBus.trace == [CsHigh];
    sender.Tx(packet);
    TxFromIdle(packet);
    assert FifoWrites(Frames(txBus.trace).value) + [rssi, lqi] == RxFifo(packet, rssi, lqi);

    var rxBus := new Bus(FifoWrites(Frames(txBus.trace).value) + [rssi, lqi]);
    var receiver := new Device(rxBus);
    RxFifoLayout(packet, rssi, lqi);
    n, err := receiver.Read(buf);
  }
}
