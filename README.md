# CC1101 radio, XPT2046 touch and console log: a Dafny model

This project models the device-facing core of a small Raspberry Pi Pico
terminal written in TinyGo:

- a driver for the CC1101 sub-GHz transceiver;
- a driver for the XPT2046 touch controller;
- an on-screen log console;
- the arithmetic of the main polling loop.

Dafny proves the properties stated below about that model.

**The SPI bus** (module `Spi`) is a class with two parts:

- `trace`: an append-only timeline of events. The events are chip-select
  low (`CsLow`), chip-select high (`CsHigh`), one byte shifted out
  (`Xfer(b)`), and a pause (`Delay(ms)`) standing for `time.Sleep`.
- `replies`: the bytes the chip answers with, read in order through the
  read position `consumed`. This includes what the CC1101's RX FIFO holds.

Transfers whose answer the Go code discards are `Bus.Write`. Transfers
whose answer it keeps are `Bus.Transfer`.

`Frames` reads a timeline back as the byte strings of its chip-select
bracketed transactions. It is the partner of every bus operation: each
driver operation's timeline is proved to read back as exactly the
transactions the source issues.

**CC1101** (module `Cc1101`, class `Device`):

- **Register primitives**: strobe, register read, status read, register
  write and burst write. Each follows the chip's header convention: bit 7
  means read, bit 6 means burst.
- **`Configure`**: the reset strobe, a 10 ms pause, the 31 register writes
  in source order, and the PATABLE burst. It always returns `true`.
- **`Rx`** and **`Tx`**. `Tx` does length-prefixed framing through the TX
  FIFO, with the length taken modulo 256 and not checked against 64.
- **`ReadRSSI`**: the two's-complement half-dB decode, with Go's
  truncating division.
- **`Read`**: the receive framer. Its timeline reads back as its
  transactions too (`Cc1101.ReadParses`).

A round trip proves that what `Tx` writes into the FIFO is read back by
`Read` as the same packet.

**XPT2046** (module `Xpt2046`):

- the three-byte conversion read;
- the 13-bit sample extraction;
- the pressure `z1 + 4095 - z2` in `uint16` wrap-around arithmetic (so its
  `z < 0` clamp can never fire);
- the 400 threshold with its early return.

**Console** (module `Display`): the `int16` cursor that advances one line
height per message. When the next line would pass the bottom edge, it
clears the screen and returns to row 20.

**Main loop** (module `Terminal`):

- `mapRange` and the touch calibration;
- the RSSI bar length and bar string;
- the radio bring-up;
- the receive, signal-strength and touch steps of one loop pass.

Go integer semantics are written out:

- Go's truncating `/` is `Numeric.Quot`, not Dafny's Euclidean division.
- `int16` sums go through `Numeric.Wrap16`.
- `uint16` pressure arithmetic is taken modulo 2^16.
- `byte(len(packet))` is `len % 256`.

Two facts about the code:

- `Configure` issues 31 single-register writes.
- A raw RSSI byte of 128 decodes to -138 dBm, the weakest value
  (`Cc1101.RssiSamples`, `Cc1101.RssiWrapsAt128`).

## Model

| member | source | states |
|---|---|---|
| Numeric.Quot | cc1101/cc1101.go:165-167 | Go's `/` on signed integers: the remainder is smaller than the divisor and has the dividend's sign or is 0 |
| Numeric.Wrap16 | display/console.go:52-62 | Go's `int16` `+`: congruent to the exact sum modulo 2^16, and equal to it when it is in range |
| Spi.Bus.Transfer | cc1101/cc1101.go:224 | a kept transfer shifts its byte out and returns the next reply in order, taking exactly one |
| Spi.Bus.Select | cc1101/cc1101.go:216 | `cs.Low()`: chip-select low is appended to the timeline and no reply is taken |
| Spi.Bus.Deselect | cc1101/cc1101.go:218 | `cs.High()`: chip-select high is appended to the timeline and no reply is taken |
| Spi.Bus.Write | cc1101/cc1101.go:217 | a transfer whose answer is discarded shifts its byte out and takes no reply |
| Spi.Bus.Pause | cc1101/cc1101.go:90 | `time.Sleep` appends one pause of the given length and takes no reply |
| Spi.FramesSnocTxn | cc1101/cc1101.go:215-219 | one more chip-select bracketed transaction at the end of a well-bracketed timeline reads back as exactly one more frame holding its bytes |
| Spi.FramesAppend | cc1101/cc1101.go:215-251 | reading a timeline back distributes over concatenation: a well-bracketed prefix contributes its transactions first |
| Spi.FramesSnocDelay | cc1101/cc1101.go:90 | a pause adds no transaction |
| Cc1101.Device.constructor | cc1101/cc1101.go:75-84 | `New` releases chip-select once before any transaction and takes no reply |
| Cc1101.Device.Strobe | cc1101/cc1101.go:215-219 | the timeline grows by exactly one transaction carrying `[cmd]`; no reply is taken |
| Cc1101.Device.ReadReg | cc1101/cc1101.go:221-227 | exactly one transaction `[addr\|0x80, 0x00]`; the result is the reply to the second transfer; exactly one reply is taken |
| Cc1101.Device.ReadStatus | cc1101/cc1101.go:229-235 | exactly one transaction `[addr\|0xC0, 0x00]`; the result is the reply to the second transfer |
| Cc1101.Device.WriteReg | cc1101/cc1101.go:237-242 | exactly one transaction `[addr, val]`; no reply is taken |
| Cc1101.Device.WriteBurst | cc1101/cc1101.go:244-251 | exactly one transaction `[addr\|0x40] ++ data`, the data in order |
| Cc1101.Device.Configure | cc1101/cc1101.go:87-139 | returns true with no failure path; the timeline is the SRES strobe, a 10 ms pause, the 31 writes IOCFG2=0x29 ... TEST0=0x59 in source order, then the PATABLE burst |
| Cc1101.ConfigureParses | cc1101/cc1101.go:87-138 | Configure's timeline reads back as exactly the transactions [0x30], the 31 (address, value) pairs, and [0x7E, 0xC0, 0, 0, 0, 0, 0, 0, 0] |
| Cc1101.BasicParses | cc1101/cc1101.go:94-100 | the GDO, FIFO-threshold, packet-control, address and channel writes read back as their seven pairs in order |
| Cc1101.FrequencyParses | cc1101/cc1101.go:103-107 | the IF and carrier-frequency writes read back as their five pairs in order |
| Cc1101.ModemParses | cc1101/cc1101.go:110-115 | the modem and deviation writes read back as their six pairs in order |
| Cc1101.ControlParses | cc1101/cc1101.go:117-126 | the state-machine, offset, bit-sync, AGC and front-end writes read back as their eight pairs in order |
| Cc1101.CalibrationParses | cc1101/cc1101.go:128-133 | the synthesizer-calibration and test writes read back as their five pairs in order |
| Cc1101.Device.Rx | cc1101/cc1101.go:142-144 | exactly one transaction `[0x34]` and nothing else |
| Cc1101.Device.Tx | cc1101/cc1101.go:147-159 | strobes 0x36 and 0x3B, the write `[0x3F, len mod 256]`, the burst `[0x7F] ++ packet`, strobe 0x35, then a 100 ms pause; no length check |
| Cc1101.TxParses | cc1101/cc1101.go:147-155 | Tx's timeline reads back as exactly its five transactions in order |
| Cc1101.FifoWritesAppend | cc1101/cc1101.go:152-153 | the TX FIFO bytes written by two runs of transactions are those of the first followed by those of the second |
| Cc1101.TxFillsFifo | cc1101/cc1101.go:152-153 | Tx puts exactly the length byte and then the payload into the TX FIFO |
| Cc1101.TxFromIdle | cc1101/cc1101.go:147-155 | from a freshly constructed device, Tx leaves a well-bracketed timeline whose FIFO bytes are `[len] ++ packet` |
| Cc1101.RssiDbm | cc1101/cc1101.go:162-168 | every raw byte decodes into [-138, -11] dBm |
| Cc1101.Signed | cc1101/cc1101.go:164-165 | the byte read as a signed 8-bit number: in [-128, 127] and congruent to the raw value mod 256 |
| Cc1101.RssiIsSignedHalf | cc1101/cc1101.go:164-167 | the decode is the signed value halved toward zero, less 74 |
| Cc1101.RssiSamples | cc1101/cc1101.go:164-167 | 0 -> -74, 50 -> -49, 100 -> -24, 127 -> -11, 128 -> -138, 200 -> -102, 255 -> -74 |
| Cc1101.RssiMonotone | cc1101/cc1101.go:164-167 | within each half of the byte range a larger raw byte never decodes to fewer dBm |
| Cc1101.RssiWrapsAt128 | cc1101/cc1101.go:164-167 | 127 decodes to the strongest value of all bytes and 128 to the weakest |
| Cc1101.Device.ReadRSSI | cc1101/cc1101.go:162-168 | sends header 0xF4, takes one reply, returns its decode, which lies in [-138, -11] |
| Cc1101.ReadsCompose | cc1101/cc1101.go:190-202 | a FIFO reads followed by b more are the same timeline as a+b FIFO reads |
| Cc1101.ReadsParse | cc1101/cc1101.go:221-227 | k FIFO reads read back as k transactions `[0xBF, 0x00]` |
| Cc1101.Device.ReadInto | cc1101/cc1101.go:190-192 | `count` FIFO reads; buf[i] is the i-th reply for i < count, the rest of buf is unchanged |
| Cc1101.Device.Discard | cc1101/cc1101.go:195-197 | `count` FIFO reads whose values are dropped; exactly `count` replies taken |
| Cc1101.Device.ReadPayload | cc1101/cc1101.go:184-210 | copies min(L, len(buf)) payload bytes, drains the rest, reads both status bytes (L+2 replies whatever the buffer size) and returns the copied count only if the CRC flag is set |
| Cc1101.Received | cc1101/cc1101.go:177-210 | Read's count is at most the buffer size and at most 64, and non-zero only when the length was accepted and the CRC flag set |
| Cc1101.ReadParses | cc1101/cc1101.go:171-211 | Read's timeline reads back as one FIFO read then the 0x3A strobe for a refused length, and otherwise as L+3 FIFO reads `[0xBF, 0x00]` |
| Cc1101.Device.Read | cc1101/cc1101.go:171-211 | never an error. A length of 0 or over 64: one 0x3A strobe, no further FIFO read, buf unchanged, count 0. Otherwise: exactly L+3 FIFO bytes taken, buf[i] = payload byte i for i < min(L, len(buf)) and other indices unchanged, count min(L, len(buf)) if LQI bit 7 is set else 0 |
| Cc1101.RxFifoLayout | cc1101/cc1101.go:177-202 | in a FIFO holding `[L] ++ p ++ [rssi, lqi]`, Read finds the length L, the payload, and LQI at offset L+2 |
| Cc1101.RoundTrip | cc1101/cc1101.go:147-211 | for 1 <= \|p\| <= 64, the bytes Tx writes plus the two status bytes with the CRC flag set are read by Read into a large enough buffer as \|p\| bytes equal to p, with no error |
| Xpt2046.Device.constructor | xpt2046/xpt2046.go:21-33 | `New` drives chip-select high before any transaction |
| Xpt2046.Device.ReadReg | xpt2046/xpt2046.go:67-86 | exactly one transaction `[cmd, 0x00, 0x00]`; two replies taken; returns their 16-bit word shifted right by 3 |
| Xpt2046.Sample | xpt2046/xpt2046.go:82-83 | a conversion result is always below 8192 |
| Xpt2046.SampleIsShift | xpt2046/xpt2046.go:82-83 | `(b1*256 + b2) / 8` equals `((b1 << 8) \| b2) >> 3` on 16-bit words |
| Xpt2046.Pressure | xpt2046/xpt2046.go:46 | the uint16 pressure is congruent to z1 + 4095 - z2 modulo 2^16 and lies in [0, 65535] |
| Xpt2046.PressureNoWrap | xpt2046/xpt2046.go:46 | when z2 <= z1 + 4095 the pressure is the plain difference z1 + 4095 - z2 |
| Xpt2046.PressureWraps | xpt2046/xpt2046.go:46-49 | the uint16 pressure wraps instead of going below zero (z1=0, z2=8191 gives 61440), so the clamp at 0 never fires |
| Xpt2046.Reading | xpt2046/xpt2046.go:37-64 | every reading has Z == 0 and X == Y == 0, or Z >= 400; X and Y lie below 8192 and Z below 65536 |
| Xpt2046.TouchParses | xpt2046/xpt2046.go:42-61 | a touch read reads back as the transactions for 0xB1 and 0xC1, followed by those for 0xD1 and 0x91 only when touched |
| Xpt2046.Device.ReadTouchPoint | xpt2046/xpt2046.go:37-64 | below the 400 threshold only 0xB1 and 0xC1 are issued and {0,0,0} returned; otherwise 0xB1, 0xC1, 0xD1, 0x91 in that order; the result is the reading of the replies |
| Display.Console.constructor | display/console.go:20-29 | `NewConsole` starts with no drawing, margin x=10, cursor y=20, line height 10, and the given colour |
| Display.Console.Log | display/console.go:47-63 | clears the screen once and returns to row 20 exactly when y + lineH > h (in int16); then draws msg at (x, post-reset y) and advances y by lineH |
| Display.Console.Println | display/console.go:32-34 | a logged line in the base colour |
| Display.Console.Warn | display/console.go:37-39 | a logged line in {255,255,0,255} |
| Display.Console.Error | display/console.go:42-44 | a logged line in {255,0,0,255} |
| Display.RowFits | display/console.go:52-59 | if h >= 20 + lineH, every drawn line satisfies y + lineH <= h in int16, and the cursor is only moved back when the line would not fit |
| Display.CursorStaysOnScreen | display/console.go:52-62 | a cursor at most h stays at most h after a line, and the line drawn ends on the screen with no int16 wrap |
| Display.AllRowsFit | display/console.go:52-62 | in any run of logged lines from such a cursor, every line drawn ends on the screen |
| Terminal.MapRange | main.go:156-165 | with outMin <= outMax the result lies in [outMin, outMax] |
| Terminal.MapRangeEnds | main.go:157 | inMin maps to outMin and inMax to outMax |
| Terminal.MapRangeMonotone | main.go:157-164 | with inMin < inMax and outMin <= outMax the map is non-decreasing in x |
| Terminal.MapRangeSwappedIsStep | main.go:138-142 | with the output ends swapped to (240, 0), raw X up to 314 maps to 0 and from 315 on maps to 240 |
| Terminal.MapRangeBetween | main.go:156-165 | the rescale clamped between the two output ends in either order lies between them |
| Terminal.MapRangeBetweenAgrees | main.go:156-165 | for output ends in increasing order the clamped rescale equals `mapRange` |
| Terminal.MapRangeBetweenEnds | main.go:138-139 | with the output ends in either order, inMin maps to outMin and inMax to outMax, so swapped ends give swapped end points |
| Terminal.MapRangeBetweenReverses | main.go:138-139 | with swapped output ends the map is non-increasing in x |
| Terminal.SwappedCalibrationReverses | main.go:138-142 | a swapped X calibration sends the left raw edge to column 240 and the right one to column 0 |
| Terminal.ScreenX | main.go:142 | for any raw X the screen column lies in [0, 240] |
| Terminal.ScreenY | main.go:143 | for any raw Y the screen row lies in [0, 320] |
| Terminal.CalibrationCorners | main.go:129-143 | the raw calibration corners map onto the screen corners and the mapping is monotone on both axes |
| Terminal.BarLen | main.go:105-111 | the bar length lies in [0, 15] |
| Terminal.BarLenScale | main.go:105-111 | one segment per 5 dB above -100 dBm, truncated; empty at and below -96 dBm, full at and above -25 dBm |
| Terminal.BarLenMonotone | main.go:105-111 | a stronger signal never gives a shorter bar |
| Terminal.RssiBar | main.go:105-115 | the bar is exactly BarLen characters, all '\|' |
| Terminal.StartRadio | main.go:65-72 | bring-up issues Configure's timeline followed by exactly one Rx |
| Terminal.ReceiveStep | main.go:85-97 | without GDO0 nothing happens; otherwise a Read into a 64-byte buffer, then Rx only when the read gave no error and a non-zero count; 1 reply taken for a refused length, L+3 otherwise |
| Terminal.RssiStep | main.go:100-115 | the RSSI read and decoded, and its bar of BarLen '\|' characters |
| Terminal.TouchStep | main.go:124-143 | a point is reported only when the pressure is non-zero, and then mapped to a screen position inside 240 x 320; the bus sees the touch read's 2 or 4 conversions and gives up 4 or 8 replies |

## Left out

- `time.Sleep`: only its place in the timeline is kept, as a `Delay` event; there is no timing.
- Pin configuration (`cs.Configure`, IRQ and GDO pins) and the SPI clock setup are not modelled. The CC1101 `gdo0`/`gdo2` fields and the XPT2046 `irq` and `rotation` fields have no behaviour. The GDO0 level is a parameter of `Terminal.ReceiveStep`.
- Errors returned by `bus.Transfer` are discarded by the Go code, so the modelled bus never fails. A reply queue that has run dry reads as 0x00; what the real chip returns then is not modelled.
- Unused constants (`PKTLEN`, `SFSTXON`, `SXOFF`, `SCAL`, `SNOP`, `MARCSTATE`) are not modelled, since no code uses them.
- The radio link between two chips is not modelled. `Cc1101.RoundTrip` connects a sender and a receiver through the FIFO contents.
- Cc1101.Device.ReadInto, Cc1101.Device.Discard, Cc1101.Device.ReadPayload: these are the copy loop, the drain loop and the accepted-length path of `Read`, split out as separate methods. The statement order is unchanged.
- Terminal.MapRange: Go's `int` is 32 bits wide on the RP2040, and overflow of the product `(x-inMin)*(outMax-outMin)` is not modelled. Integers are unbounded; with the calibration constants and 13-bit touch samples the product stays below 8192 * 320, far from 2^31.
- Display: the display height `h` is a parameter of `Log`, `Println`, `Warn` and `Error`, since it comes from `display.Size()`. The font pointer and the display pointer are not modelled. Font rendering and screen clearing are `WriteLine` and `FillScreen` events.
- Terminal.StartRadio: the "Init Failed!" console message on a false `Configure` result is not modelled, because `Configure` always returns true. The console messages of bring-up are not modelled either.
- The infinite polling loop is not modelled. Its `counter % 10` gating of the RSSI step, the `fmt.Sprintf` messages it logs and the `FillRectangle` dot are not modelled either. Each pass is covered by `Terminal.ReceiveStep`, `Terminal.RssiStep` and `Terminal.TouchStep`.
- display/display.go (hardware bring-up of the ILI9341 panel and backlight) is not part of this model.
- There is no concurrency and no interrupt handling in the source, so none is modelled.

## Findings

| source | as written | input that shows it | evidently intended | confidence | as-written member | corrected member |
|---|---|---|---|---|---|---|
| main.go:138-139, main.go:156-165 | the comment says that swapping `outMin` and `outMax` (0, 240 -> 240, 0) reverses an axis, but `mapRange` clamps with `val < outMin` and `val > outMax`, which with swapped ends sends every input to one end | `mapRange(300, 300, 3800, 240, 0)` is 0 and `mapRange(3800, 300, 3800, 240, 0)` is 240 | a reversed scale: 300 -> 240, 3800 -> 0, non-increasing between | high (not executed) | Terminal.MapRangeSwappedIsStep | Terminal.MapRangeBetween |

`Terminal.MapRangeBetween` is proved to reverse the scale with swapped ends
(`Terminal.MapRangeBetweenEnds`, `Terminal.MapRangeBetweenReverses`) and to equal `Terminal.MapRange` for
ends in increasing order (`Terminal.MapRangeBetweenAgrees`), which is the
only kind of call the program makes; `Terminal.ScreenX`,
`Terminal.ScreenY` and `Terminal.TouchStep` therefore behave the same
with either definition.
