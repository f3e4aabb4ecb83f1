/** The driver as the source writes it: one event appended per `send_command`,
    `send_data`, pin write or delay, with the busy loop and the byte loops as
    loops. Each method computes exactly the trace of the matching function
    in `Epd`. */
module EpdLoops {
  import opened Base
  import opened Trace
  import opened Epd

  /** One more turn of the busy loop appends to the end of its traffic. */
  lemma {:induction false} PollsSnoc(n: nat)
    ensures Polls(n) + [Cmd(GET_STATUS), Delay(20)] == Polls(n + 1)
    decreases n
  {
    if n > 0 {
      PollsSnoc(n - 1);
      calc {
        Polls(n) + [Cmd(GET_STATUS), Delay(20)];
        ([Cmd(GET_STATUS), Delay(20)] + Polls(n - 1)) + [Cmd(GET_STATUS), Delay(20)];
        [Cmd(GET_STATUS), Delay(20)] + (Polls(n - 1) + [Cmd(GET_STATUS), Delay(20)]);
        [Cmd(GET_STATUS), Delay(20)] + Polls(n);
      }
    }
  }

  /** `wait_until_idle`: query the status and wait 20 ms while the pin reads
      busy. */
  method WaitUntilIdleLoop(busy: seq<Bit>) returns (o: Outcome)
    ensures o == WaitUntilIdle(busy)
  {
    var i := 0;
    var t: seq<Event> := [];
    while i < |busy| && busy[i] == 0
      invariant 0 <= i <= |busy|
      invariant forall j :: 0 <= j < i ==> busy[j] == 0
      invariant t == Polls(i)
      decreases |busy| - i
    {
      PollsSnoc(i);
      t := t + [Cmd(GET_STATUS), Delay(20)];
      i := i + 1;
    }
    assert i == LeadingBusy(busy);
    if i < |busy| {
      o := Done(t, busy[i + 1..]);
    } else {
      assert 1 !in busy;
      o := Hung(t);
    }
  }

  /** An operation that waits once, with the wait's outcome known. */
  lemma AroundWait(before: seq<Event>, busy: seq<Bit>, after: seq<Event>, w: Outcome)
    requires w == WaitUntilIdle(busy)
    ensures AroundIdle(before, busy, after)
         == if w.Done? then Done(before + w.trace + after, w.rest) else Hung(before + w.trace)
  {
  }

  /** `send_command(code)` and then one `send_data` per byte, in a loop. */
  method SendBytes(t: seq<Event>, code: Byte, bytes: seq<Byte>) returns (t': seq<Event>)
    ensures t' == t + Transaction(code, bytes)
  {
    t' := t + [Cmd(code)];
    var i := 0;
    while i < |bytes|
      invariant 0 <= i <= |bytes|
      invariant t' == t + [Cmd(code)] + Stream(bytes[..i])
    {
      assert Stream(bytes[..i + 1]) == Stream(bytes[..i]) + [Data(bytes[i])];
      t' := t' + [Data(bytes[i])];
      i := i + 1;
    }
    assert bytes[..i] == bytes;
  }

  /** The five register loads of `set_lut` and `set_quick_lut`. */
  method LoadLutsLoop(t: seq<Event>, s: LutSet) returns (t': seq<Event>)
    ensures t' == t + LoadLuts(s)
  {
    t' := SendBytes(t, LUT_VCOM_REGISTER, s.vcom);
    t' := SendBytes(t', LUT_WW_REGISTER, s.ww);
    t' := SendBytes(t', LUT_BW_REGISTER, s.bw);
    t' := SendBytes(t', LUT_WB_REGISTER, s.wb);
    t' := SendBytes(t', LUT_BB_REGISTER, s.bb);
  }

  /** The part of `init` before the power-on wait. */
  method InitPowerUpLoop() returns (t: seq<Event>)
    ensures t == InitPowerUp()
  {
    var reset := HardwareReset();
    t := SendBytes(reset, POWER_SETTING,
                   [0x17, VOLTAGE_FRAME[6], VOLTAGE_FRAME[1], VOLTAGE_FRAME[2], VOLTAGE_FRAME[3]]);
    t := SendBytes(t, VCM_DC_SETTING, [VOLTAGE_FRAME[4]]);
    t := SendBytes(t, BOOSTER_SOFT_START, [0x27, 0x27, 0x2F, 0x17]);
    t := SendBytes(t, POWER_ON, []);
    t := t + [Delay(100)];
    assert t == reset + PowerUp();
  }

  /** The panel configuration of `init`, after the wait. */
  method InitPanelLoop(start: seq<Event>) returns (t: seq<Event>)
    ensures t == start + InitPanel()
  {
    t := SendBytes(start, PANEL_SETTING, [0x3F]);
    t := SendBytes(t, RESOLUTION_SETTING, [0x03, 0x20, 0x01, 0xE0]);
    t := SendBytes(t, DUAL_SPI, [0x00]);
    t := SendBytes(t, VCOM_AND_DATA_INTERVAL_SETTING, [0x10, 0x00]);
    t := SendBytes(t, TCON_SETTING, [0x22]);
    t := SendBytes(t, RESOLUTION_OFFSET, [0x00, 0x00, 0x00, 0x00]);
  }

  /** `init` with the wait resolved, one branch per outcome. */
  lemma InitAfterWait(busy: seq<Bit>)
    ensures var w := WaitUntilIdle(busy);
      Init(busy) == if w.Done?
                    then Done(InitPowerUp() + w.trace + InitPanel() + SetLut(), w.rest)
                    else Hung(InitPowerUp() + w.trace)
  {
    var w := WaitUntilIdle(busy);
    if w.Done? {
      assert InitPowerUp() + w.trace + (InitPanel() + SetLut())
          == InitPowerUp() + w.trace + InitPanel() + SetLut();
    }
  }

  method InitLoop(busy: seq<Bit>) returns (o: Outcome)
    ensures o == Init(busy)
  {
    InitAfterWait(busy);
    var before := InitPowerUpLoop();
    var w := WaitUntilIdleLoop(busy);
    if w.Hung? {
      return Hung(before + w.trace);
    }
    var t := InitPanelLoop(before + w.trace);
    var luts := LoadLutsLoop([], FULL);
    assert luts == SetLut();
    o := Done(t + luts, w.rest);
  }

  /** The transmission and refresh shared by `display_frame` and
      `display_frame_quick`, before the wait. */
  method TransmitLoop(t: seq<Event>, frame: seq<Byte>) returns (t': seq<Event>)
    ensures t' == t + Transmit(frame)
  {
    t' := SendBytes(t, DATA_START_TRANSMISSION_2, frame);
    t' := t' + [Cmd(DISPLAY_REFRESH)];
    t' := t' + [Delay(100)];
  }

  method DisplayFrameLoop(frame: seq<Byte>, busy: seq<Bit>) returns (o: Outcome)
    ensures o == DisplayFrame(frame, busy)
  {
    var t := TransmitLoop([], frame);
    assert t == Transmit(frame);
    var w := WaitUntilIdleLoop(busy);
    AroundWait(t, busy, [], w);
    if w.Hung? {
      return Hung(t + w.trace);
    }
    assert t + w.trace + [] == t + w.trace;
    o := Done(t + w.trace, w.rest);
  }

  method DisplayFrameQuickLoop(frame: seq<Byte>, busy: seq<Bit>) returns (o: Outcome)
    ensures o == DisplayFrameQuick(frame, busy)
  {
    var quick := LoadLutsLoop([], QUICK);
    assert quick == SetQuickLut();
    var t := TransmitLoop(quick, frame);
    var w := WaitUntilIdleLoop(busy);
    AroundWait(t, busy, SetLut(), w);
    if w.Hung? {
      return Hung(t + w.trace);
    }
    var full := LoadLutsLoop([], FULL);
    assert full == SetLut();
    o := Done(t + w.trace + full, w.rest);
  }

  /** `n` zero data bytes after `send_command(code)`, counted out by a loop
      rather than read from a buffer. */
  method SendZeros(t: seq<Event>, code: Byte, n: nat) returns (t': seq<Event>)
    ensures t' == t + Transaction(code, Zeros(n))
  {
    t' := t + [Cmd(code)];
    var i := 0;
    while i < n
      invariant 0 <= i <= n
      invariant t' == t + [Cmd(code)] + Stream(Zeros(i))
    {
      assert Stream(Zeros(i + 1)) == Stream(Zeros(i)) + [Data(0)];
      t' := t' + [Data(0x00)];
      i := i + 1;
    }
  }

  /** `clear`. */
  method ClearLoop(busy: seq<Bit>) returns (o: Outcome)
    ensures o == Clear(busy)
  {
    var t := SendZeros([], DATA_START_TRANSMISSION_2, EPD_HEIGHT * EPD_WIDTH / 8);
    t := t + [Cmd(DISPLAY_REFRESH)];
    t := t + [Delay(100)];
    assert t == Transaction(DATA_START_TRANSMISSION_2, Zeros(EPD_HEIGHT * EPD_WIDTH / 8))
                + [Cmd(DISPLAY_REFRESH), Delay(100)];
    var w := WaitUntilIdleLoop(busy);
    AroundWait(t, busy, [], w);
    if w.Hung? {
      return Hung(t + w.trace);
    }
    assert t + w.trace + [] == t + w.trace;
    o := Done(t + w.trace, w.rest);
  }

  method SleepLoop(busy: seq<Bit>) returns (o: Outcome)
    ensures o == Sleep(busy)
  {
    var t := [Cmd(POWER_OFF)];
    var w := WaitUntilIdleLoop(busy);
    AroundWait(t, busy, Transaction(DEEP_SLEEP, [DEEP_SLEEP_CHECK]), w);
    if w.Hung? {
      return Hung(t + w.trace);
    }
    t := SendBytes(t + w.trace, DEEP_SLEEP, [DEEP_SLEEP_CHECK]);
    o := Done(t, w.rest);
  }
}
