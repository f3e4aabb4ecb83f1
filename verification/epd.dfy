/** The Waveshare 7.5" V2 panel driver (class `EPD`): its constants, its
    waveform tables, and every public operation as a pure function that
    produces the trace of bus events the operation emits. The busy pin is an
    input: an operation that waits for the panel takes the sequence of
    readings it will see and hands back the readings it did not consume. */
module Epd {
  import opened Base
  import opened Trace

  // ---------------------------------------------------------------------------
  // Geometry and command codes

  const EPD_WIDTH: nat := 800
  const EPD_HEIGHT: nat := 480

  const PANEL_SETTING: Byte := 0x00
  const POWER_SETTING: Byte := 0x01
  const POWER_OFF: Byte := 0x02
  const POWER_ON: Byte := 0x04
  const BOOSTER_SOFT_START: Byte := 0x06
  const DEEP_SLEEP: Byte := 0x07
  const DATA_START_TRANSMISSION_1: Byte := 0x10
  const DATA_STOP: Byte := 0x11
  const DISPLAY_REFRESH: Byte := 0x12
  const DATA_START_TRANSMISSION_2: Byte := 0x13
  const VCOM_AND_DATA_INTERVAL_SETTING: Byte := 0x50
  const TCON_SETTING: Byte := 0x60
  const RESOLUTION_SETTING: Byte := 0x61
  const GET_STATUS: Byte := 0x71
  const AUTO_MEASURE_VCOM: Byte := 0x80
  const VCOM_VALUE: Byte := 0x81
  const VCM_DC_SETTING: Byte := 0x82

  /** The unnamed codes `init` sends as literals: dual-SPI/display setting,
      and the resolution start offset ("gate/source start"). */
  const DUAL_SPI: Byte := 0x15
  const RESOLUTION_OFFSET: Byte := 0x65

  /** The five waveform-table registers, in the order both LUT loaders write
      them: VCOM, white-to-white, black-to-white, white-to-black,
      black-to-black. */
  const LUT_VCOM_REGISTER: Byte := 0x20
  const LUT_WW_REGISTER: Byte := 0x21
  const LUT_BW_REGISTER: Byte := 0x22
  const LUT_WB_REGISTER: Byte := 0x23
  const LUT_BB_REGISTER: Byte := 0x24

  /** The magic byte that must follow DEEP_SLEEP. */
  const DEEP_SLEEP_CHECK: Byte := 0xA5

  /** Bytes in one frame: one bit per pixel. */
  function FrameBytes(): nat
  {
    EPD_HEIGHT * EPD_WIDTH / 8
  }

  // ---------------------------------------------------------------------------
  // Waveform tables and the voltage profile

  /** A waveform table: always exactly 42 bytes, so every index the source's
      `for count in range(42)` loops read is in bounds. */
  type Lut = t: seq<Byte> | |t| == 42 witness Zeros(42)

  /** One complete set of the five tables a refresh mode needs. */
  datatype LutSet = LutSet(vcom: Lut, ww: Lut, bw: Lut, wb: Lut, bb: Lut)

  const LUT_VCOM: Lut := [
    0x0, 0xF, 0xF, 0x0, 0x0, 0x1,
    0x0, 0xF, 0x1, 0xF, 0x1, 0x2,
    0x0, 0xF, 0xF, 0x0, 0x0, 0x1,
    0x0, 0x0, 0x0, 0x0, 0x0, 0x0,
    0x0, 0x0, 0x0, 0x0, 0x0, 0x0,
    0x0, 0x0, 0x0, 0x0, 0x0, 0x0,
    0x0, 0x0, 0x0, 0x0, 0x0, 0x0]

  const LUT_WW: Lut := [
    0x10, 0xF, 0xF, 0x0, 0x0, 0x1,
    0x84, 0xF, 0x1, 0xF, 0x1, 0x2,
    0x20, 0xF, 0xF, 0x0, 0x0, 0x1,
    0x0, 0x0, 0x0, 0x0, 0x0, 0x0,
    0x0, 0x0, 0x0, 0x0, 0x0, 0x0,
    0x0, 0x0, 0x0, 0x0, 0x0, 0x0,
    0x0, 0x0, 0x0, 0x0, 0x0, 0x0]

  const LUT_BW: Lut := [
    0x10, 0xF, 0xF, 0x0, 0x0, 0x1,
    0x84, 0xF, 0x1, 0xF, 0x1, 0x2,
    0x20, 0xF, 0xF, 0x0, 0x0, 0x1,
    0x0, 0x0, 0x0, 0x0, 0x0, 0x0,
    0x0, 0x0, 0x0, 0x0, 0x0, 0x0,
    0x0, 0x0, 0x0, 0x0, 0x0, 0x0,
    0x0, 0x0, 0x0, 0x0, 0x0, 0x0]

  const LUT_WB: Lut := [
    0x80, 0xF, 0xF, 0x0, 0x0, 0x1,
    0x84, 0xF, 0x1, 0xF, 0x1, 0x2,
    0x40, 0xF, 0xF, 0x0, 0x0, 0x1,
    0x0, 0x0, 0x0, 0x0, 0x0, 0x0,
    0x0, 0x0, 0x0, 0x0, 0x0, 0x0,
    0x0, 0x0, 0x0, 0x0, 0x0, 0x0,
    0x0, 0x0, 0x0, 0x0, 0x0, 0x0]

  const LUT_BB: Lut := [
    0x80, 0xF, 0xF, 0x0, 0x0, 0x1,
    0x84, 0xF, 0x1, 0xF, 0x1, 0x2,
    0x40, 0xF, 0xF, 0x0, 0x0, 0x1,
    0x0, 0x0, 0x0, 0x0, 0x0, 0x0,
    0x0, 0x0, 0x0, 0x0, 0x0, 0x0,
    0x0, 0x0, 0x0, 0x0, 0x0, 0x0,
    0x0, 0x0, 0x0, 0x0, 0x0, 0x0]

  const QUICK_LUT_VCOM: Lut := [
    0x00, 0x0E, 0x0E, 0x00, 0x00, 0x01,
    0x00, 0x00, 0x00, 0x00, 0x00, 0x00,
    0x00, 0x00, 0x00, 0x00, 0x00, 0x00,
    0x00, 0x00, 0x00, 0x00, 0x00, 0x00,
    0x00, 0x00, 0x00, 0x00, 0x00, 0x00,
    0x00, 0x00, 0x00, 0x00, 0x00, 0x00,
    0x00, 0x00, 0x00, 0x00, 0x00, 0x00]

  const QUICK_LUT_WW: Lut := [
    0xA0, 0x0E, 0x0E, 0x00, 0x00, 0x01,
    0x00, 0x00, 0x00, 0x00, 0x00, 0x00,
    0x00, 0x00, 0x00, 0x00, 0x00, 0x00,
    0x00, 0x00, 0x00, 0x00, 0x00, 0x00,
    0x00, 0x00, 0x00, 0x00, 0x00, 0x00,
    0x00, 0x00, 0x00, 0x00, 0x00, 0x00,
    0x00, 0x00, 0x00, 0x00, 0x00, 0x00]

  const QUICK_LUT_BW: Lut := [
    0xA0, 0x0E, 0x0E, 0x00, 0x00, 0x01,
    0x00, 0x00, 0x00, 0x00, 0x00, 0x00,
    0x00, 0x00, 0x00, 0x00, 0x00, 0x00,
    0x00, 0x00, 0x00, 0x00, 0x00, 0x00,
    0x00, 0x00, 0x00, 0x00, 0x00, 0x00,
    0x00, 0x00, 0x00, 0x00, 0x00, 0x00,
    0x00, 0x00, 0x00, 0x00, 0x00, 0x00]

  const QUICK_LUT_WB: Lut := [
    0x50, 0x0E, 0x0E, 0x00, 0x00, 0x01,
    0x00, 0x00, 0x00, 0x00, 0x00, 0x00,
    0x00, 0x00, 0x00, 0x00, 0x00, 0x00,
    0x00, 0x00, 0x00, 0x00, 0x00, 0x00,
    0x00, 0x00, 0x00, 0x00, 0x00, 0x00,
    0x00, 0x00, 0x00, 0x00, 0x00, 0x00,
    0x00, 0x00, 0x00, 0x00, 0x00, 0x00]

  const QUICK_LUT_BB: Lut := [
    0x50, 0x0E, 0x0E, 0x00, 0x00, 0x01,
    0x00, 0x00, 0x00, 0x00, 0x00, 0x00,
    0x00, 0x00, 0x00, 0x00, 0x00, 0x00,
    0x00, 0x00, 0x00, 0x00, 0x00, 0x00,
    0x00, 0x00, 0x00, 0x00, 0x00, 0x00,
    0x00, 0x00, 0x00, 0x00, 0x00, 0x00,
    0x00, 0x00, 0x00, 0x00, 0x00, 0x00]

  /** The tables `set_lut` loads: the full, flash-heavy refresh. */
  const FULL: LutSet := LutSet(LUT_VCOM, LUT_WW, LUT_BW, LUT_WB, LUT_BB)

  /** The tables `set_quick_lut` loads: fewer flashes. */
  const QUICK: LutSet := LutSet(QUICK_LUT_VCOM, QUICK_LUT_WW, QUICK_LUT_BW, QUICK_LUT_WB, QUICK_LUT_BB)

  /** VGH/VGL, VSH, VSL, VSHR and VCOM selection bytes; `init` reads indices
      6, 1, 2, 3 and 4 of it. */
  const VOLTAGE_FRAME: seq<Byte> := [0x6, 0x3F, 0x3F, 0x11, 0x24, 0x7, 0x17]

  // ---------------------------------------------------------------------------
  // Waiting for the panel

  /** What an operation did: it ran to completion and left some busy-pin
      readings unread, or the readings ran out while the panel still
      reported busy, where the source would go on polling forever. */
  datatype Outcome =
    | Done(trace: seq<Event>, rest: seq<Bit>)
    | Hung(trace: seq<Event>)

  /** The number of readings, from the start, on which the panel is busy. */
  function LeadingBusy(busy: seq<Bit>): (n: nat)
    ensures n <= |busy|
    ensures forall i :: 0 <= i < n ==> busy[i] == 0
    ensures n < |busy| ==> busy[n] == 1
    decreases |busy|
  {
    if busy == [] || busy[0] == 1 then 0 else 1 + LeadingBusy(busy[1..])
  }

  /** The traffic of `n` turns of the busy loop: a status query and a 20 ms
      delay each. */
  function Polls(n: nat): (r: seq<Event>)
    decreases n
  {
    if n == 0 then [] else [Cmd(GET_STATUS), Delay(20)] + Polls(n - 1)
  }

  /** `wait_until_idle`: one status query and one 20 ms delay for each busy
      reading (0), stopping at the first idle reading (1), which it consumes. */
  function WaitUntilIdle(busy: seq<Bit>): (r: Outcome)
    ensures r.trace == Polls(LeadingBusy(busy))
    ensures r.Done? <==> 1 in busy
    ensures r.Done? ==> r.rest == busy[LeadingBusy(busy) + 1..]
    decreases |busy|
  {
    if busy == [] then Hung([])
    else if busy[0] == 1 then Done([], busy[1..])
    else
      match WaitUntilIdle(busy[1..])
      case Done(w, rest) => Done([Cmd(GET_STATUS), Delay(20)] + w, rest)
      case Hung(w) => Hung([Cmd(GET_STATUS), Delay(20)] + w)
  }

  /** Emits `before`, waits for the panel, then emits `after`. */
  function AroundIdle(before: seq<Event>, busy: seq<Bit>, after: seq<Event>): (r: Outcome)
    ensures r.Done? <==> 1 in busy
    ensures r.Done? ==> r.trace == before + Polls(LeadingBusy(busy)) + after
    ensures r.Done? ==> r.rest == busy[LeadingBusy(busy) + 1..]
    ensures r.Hung? ==> r.trace == before + Polls(|busy|)
  {
    match WaitUntilIdle(busy)
    case Done(w, rest) => Done(before + w + after, rest)
    case Hung(w) => Hung(before + w)
  }

  // ---------------------------------------------------------------------------
  // Operations

  /** `reset`: the reset line high, low, high again, with 20, 4 and 20 ms
      delays. */
  function HardwareReset(): (r: seq<Event>)
    ensures |r| == 6 && Commands(r) == [] && Payload(r) == []
    ensures r[0] == Rst(1) && r[2] == Rst(0) && r[4] == Rst(1)
    ensures r[1] == Delay(20) && r[3] == Delay(4) && r[5] == Delay(20)
  {
    [Rst(1), Delay(20), Rst(0), Delay(4), Rst(1), Delay(20)]
  }

  /** The five table loads shared by `set_lut` and `set_quick_lut`: each
      register command followed by its table, one byte per `send_data`. */
  function LoadLuts(s: LutSet): (r: seq<Event>)
    ensures |r| == 5 * (1 + 42)
  {
    Transaction(LUT_VCOM_REGISTER, s.vcom)
    + Transaction(LUT_WW_REGISTER, s.ww)
    + Transaction(LUT_BW_REGISTER, s.bw)
    + Transaction(LUT_WB_REGISTER, s.wb)
    + Transaction(LUT_BB_REGISTER, s.bb)
  }

  /** `set_lut`. */
  function SetLut(): seq<Event>
  {
    LoadLuts(FULL)
  }

  /** `set_quick_lut`. */
  function SetQuickLut(): seq<Event>
  {
    LoadLuts(QUICK)
  }

  /** The power-up commands `init` sends after the reset pulse. */
  function PowerUp(): seq<Event>
  {
    Transaction(POWER_SETTING,
                [0x17, VOLTAGE_FRAME[6], VOLTAGE_FRAME[1], VOLTAGE_FRAME[2], VOLTAGE_FRAME[3]])
    + Transaction(VCM_DC_SETTING, [VOLTAGE_FRAME[4]])
    + Transaction(BOOSTER_SOFT_START, [0x27, 0x27, 0x2F, 0x17])
    + Transaction(POWER_ON, [])
    + [Delay(100)]
  }

  /** The part of `init` before the power-on wait. */
  function InitPowerUp(): seq<Event>
  {
    HardwareReset() + PowerUp()
  }

  /** The panel configuration `init` sends after the power-on wait. */
  function InitPanel(): seq<Event>
  {
    Transaction(PANEL_SETTING, [0x3F])
    + Transaction(RESOLUTION_SETTING, [0x03, 0x20, 0x01, 0xE0])
    + Transaction(DUAL_SPI, [0x00])
    + Transaction(VCOM_AND_DATA_INTERVAL_SETTING, [0x10, 0x00])
    + Transaction(TCON_SETTING, [0x22])
    + Transaction(RESOLUTION_OFFSET, [0x00, 0x00, 0x00, 0x00])
  }

  /** `init`: reset, power up, wait, configure, then load the full tables.
      A completed run stands for the source's return value 0. */
  function Init(busy: seq<Bit>): Outcome
  {
    AroundIdle(InitPowerUp(), busy, InitPanel() + SetLut())
  }

  /** Streams a frame after DATA_START_TRANSMISSION_2 and starts the refresh. */
  function Transmit(frame: seq<Byte>): seq<Event>
  {
    Transaction(DATA_START_TRANSMISSION_2, frame) + [Cmd(DISPLAY_REFRESH), Delay(100)]
  }

  /** `display_frame`. Any buffer length is streamed as it is: the source
      does not compare it with the geometry. */
  function DisplayFrame(frame: seq<Byte>, busy: seq<Bit>): Outcome
  {
    AroundIdle(Transmit(frame), busy, [])
  }

  /** `display_frame_quick`: quick tables, the same transmission and
      refresh, then the full tables again. */
  function DisplayFrameQuick(frame: seq<Byte>, busy: seq<Bit>): Outcome
  {
    AroundIdle(SetQuickLut() + Transmit(frame), busy, SetLut())
  }

  /** `clear`: `height * width // 8` zero bytes through the transmission path. */
  function Clear(busy: seq<Bit>): Outcome
  {
    AroundIdle(Transaction(DATA_START_TRANSMISSION_2, Zeros(EPD_HEIGHT * EPD_WIDTH / 8))
               + [Cmd(DISPLAY_REFRESH), Delay(100)], busy, [])
  }

  /** `sleep`: power off, wait, deep sleep with its check byte. */
  function Sleep(busy: seq<Bit>): Outcome
  {
    AroundIdle([Cmd(POWER_OFF)], busy, Transaction(DEEP_SLEEP, [DEEP_SLEEP_CHECK]))
  }
}
