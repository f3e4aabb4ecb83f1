/** The exact bus traffic of every driver operation, stated as the sequence
    of commands-with-payloads the trace decodes to, and read off as the
    command codes and data bytes it carries. */
module EpdShapes {
  import opened Base
  import opened Trace
  import opened Epd

  /** `n` turns of the busy loop as steps. */
  function PollSteps(n: nat): seq<Step>
    decreases n
  {
    if n == 0 then [] else [Command(GET_STATUS, []), Pause(20)] + PollSteps(n - 1)
  }

  /** One table load per register, in register order. */
  function LutScript(s: LutSet): seq<Step>
  {
    [Command(0x20, s.vcom), Command(0x21, s.ww), Command(0x22, s.bw),
     Command(0x23, s.wb), Command(0x24, s.bb)]
  }

  /** The reset pulse of `reset`. */
  const RESET_STEPS: seq<Step> :=
    [ResetLevel(1), Pause(20), ResetLevel(0), Pause(4), ResetLevel(1), Pause(20)]

  /** `init` between the reset pulse and the power-on wait, with the voltage
      bytes it reads. */
  const POWER_STEPS: seq<Step> := [
    Command(0x01, [0x17, 0x17, 0x3F, 0x3F, 0x11]),
    Command(0x82, [0x24]),
    Command(0x06, [0x27, 0x27, 0x2F, 0x17]),
    Command(0x04, []),
    Pause(100)]

  /** `init` up to the power-on wait. */
  const INIT_PROLOGUE: seq<Step> := RESET_STEPS + POWER_STEPS

  /** The configuration `init` sends after the power-on wait; the resolution
      payload is the panel geometry, big-endian. */
  function InitSetup(): seq<Step>
  {
    [Command(0x00, [0x3F]),
     Command(0x61, Be16(EPD_WIDTH) + Be16(EPD_HEIGHT)),
     Command(0x15, [0x00]),
     Command(0x50, [0x10, 0x00]),
     Command(0x60, [0x22]),
     Command(0x65, [0x00, 0x00, 0x00, 0x00])]
  }

  /** A frame transmission and the refresh that follows it. */
  function FrameSteps(frame: seq<Byte>): seq<Step>
  {
    [Command(0x13, frame), Command(0x12, []), Pause(100)]
  }

  // ---------------------------------------------------------------------------
  // General facts

  lemma FlattenCons(s: Step, rest: seq<Step>)
    ensures Flatten([s] + rest) == StepEvents(s) + Flatten(rest)
  {
    assert ([s] + rest)[1..] == rest;
  }

  lemma CodesCons(s: Step, rest: seq<Step>)
    ensures Codes([s] + rest) == (if s.Command? then [s.code] else []) + Codes(rest)
    ensures Payloads([s] + rest) == (if s.Command? then s.payload else []) + Payloads(rest)
  {
    assert ([s] + rest)[1..] == rest;
  }

  lemma {:induction false} CodesAppend(a: seq<Step>, b: seq<Step>)
    ensures Codes(a + b) == Codes(a) + Codes(b)
    ensures Payloads(a + b) == Payloads(a) + Payloads(b)
    decreases |a|
  {
    if a == [] {
      assert a + b == b;
    } else {
      assert (a + b)[0] == a[0];
      assert (a + b)[1..] == a[1..] + b;
      CodesCons(a[0], a[1..] + b);
      CodesCons(a[0], a[1..]);
      assert a == [a[0]] + a[1..];
      assert a + b == [a[0]] + (a[1..] + b);
      CodesAppend(a[1..], b);
    }
  }

  lemma {:induction false} PollStepsFlatten(n: nat)
    ensures Polls(n) == Flatten(PollSteps(n))
    ensures ResetLevel(0) !in PollSteps(n)
    decreases n
  {
    if n > 0 {
      PollStepsFlatten(n - 1);
      var one := [Command(GET_STATUS, []), Pause(20)];
      FlattenCons(Pause(20), []);
      assert [Pause(20)] + [] == [Pause(20)];
      FlattenCons(Command(GET_STATUS, []), [Pause(20)]);
      assert Flatten(one) == [Cmd(GET_STATUS), Delay(20)];
      FlattenAppend(one, PollSteps(n - 1));
    }
  }

  lemma {:induction false} PollStepsCodes(n: nat)
    ensures Codes(PollSteps(n)) == Repeat(GET_STATUS, n)
    ensures Payloads(PollSteps(n)) == []
    decreases n
  {
    if n > 0 {
      PollStepsCodes(n - 1);
      CodesCons(Command(GET_STATUS, []), [Pause(20)] + PollSteps(n - 1));
      CodesCons(Pause(20), PollSteps(n - 1));
      assert PollSteps(n) == [Command(GET_STATUS, [])] + ([Pause(20)] + PollSteps(n - 1));
      assert Repeat(GET_STATUS, n) == [GET_STATUS] + Repeat(GET_STATUS, n - 1);
    }
  }

  /** The busy loop: one status query and one 20 ms delay per busy reading,
      and no data at all. */
  lemma PollsShape(n: nat)
    ensures Polls(n) == Flatten(PollSteps(n))
    ensures Group(Polls(n)) == Some(PollSteps(n))
    ensures Commands(Polls(n)) == Repeat(GET_STATUS, n)
    ensures Payload(Polls(n)) == []
    ensures ResetLevel(0) !in PollSteps(n)
  {
    PollStepsFlatten(n);
    PollStepsCodes(n);
    FlattenProjections(PollSteps(n));
    GroupFlatten(PollSteps(n));
  }

  /** The trace of an operation that waits once, decoded: what it emits
      before the wait, one status query per busy reading, and, if the panel
      became idle, what it emits after. */
  lemma AroundSteps(before: seq<Step>, busy: seq<Bit>, after: seq<Step>)
    ensures var r := AroundIdle(Flatten(before), busy, Flatten(after));
      var n := LeadingBusy(busy);
      r.trace == Flatten(before + PollSteps(n) + (if r.Done? then after else []))
  {
    var n := LeadingBusy(busy);
    PollsShape(n);
    PollsShape(|busy|);
    FlattenAppend(before, PollSteps(n));
    FlattenAppend(before + PollSteps(n), after);
    FlattenAppend(before + PollSteps(n), []);
    assert before + PollSteps(n) + [] == before + PollSteps(n);
    if 1 !in busy {
      assert n == |busy|;
    }
  }

  // ---------------------------------------------------------------------------
  // Operations

  lemma LoadLutsFlatten(s: LutSet)
    ensures LoadLuts(s) == Flatten(LutScript(s))
  {
    var p := LutScript(s);
    assert p == [p[0]] + ([p[1]] + ([p[2]] + ([p[3]] + ([p[4]] + []))));
    FlattenCons(p[4], []);
    FlattenCons(p[3], [p[4]] + []);
    FlattenCons(p[2], [p[3]] + ([p[4]] + []));
    FlattenCons(p[1], [p[2]] + ([p[3]] + ([p[4]] + [])));
    FlattenCons(p[0], [p[1]] + ([p[2]] + ([p[3]] + ([p[4]] + []))));
  }

  lemma LutScriptCodes(s: LutSet)
    ensures Codes(LutScript(s)) == [0x20, 0x21, 0x22, 0x23, 0x24]
    ensures Payloads(LutScript(s)) == s.vcom + s.ww + s.bw + s.wb + s.bb
  {
    var p := LutScript(s);
    assert p == [p[0]] + ([p[1]] + ([p[2]] + ([p[3]] + ([p[4]] + []))));
    CodesCons(p[4], []);
    CodesCons(p[3], [p[4]] + []);
    CodesCons(p[2], [p[3]] + ([p[4]] + []));
    CodesCons(p[1], [p[2]] + ([p[3]] + ([p[4]] + [])));
    CodesCons(p[0], [p[1]] + ([p[2]] + ([p[3]] + ([p[4]] + []))));
  }

  /** `set_lut` and `set_quick_lut`: the five registers 0x20..0x24 in order,
      each followed by exactly its 42-byte table; 210 data bytes in all. */
  lemma LoadLutsShape(s: LutSet)
    ensures Group(LoadLuts(s)) == Some(LutScript(s))
    ensures Commands(LoadLuts(s)) == [0x20, 0x21, 0x22, 0x23, 0x24]
    ensures Payload(LoadLuts(s)) == s.vcom + s.ww + s.bw + s.wb + s.bb
    ensures |Payload(LoadLuts(s))| == 210
  {
    LoadLutsFlatten(s);
    GroupFlatten(LutScript(s));
    FlattenProjections(LutScript(s));
    LutScriptCodes(s);
  }

  lemma ResetSteps()
    ensures HardwareReset() == Flatten(RESET_STEPS)
  {
  }

  lemma PowerSteps()
    ensures PowerUp() == Flatten(POWER_STEPS)
  {
    var p := POWER_STEPS;
    assert p == [p[0]] + ([p[1]] + ([p[2]] + ([p[3]] + ([p[4]] + []))));
    FlattenCons(p[4], []);
    FlattenCons(p[3], [p[4]] + []);
    FlattenCons(p[2], [p[3]] + ([p[4]] + []));
    FlattenCons(p[1], [p[2]] + ([p[3]] + ([p[4]] + [])));
    FlattenCons(p[0], [p[1]] + ([p[2]] + ([p[3]] + ([p[4]] + []))));
  }

  lemma InitPowerUpSteps()
    ensures InitPowerUp() == Flatten(INIT_PROLOGUE)
  {
    ResetSteps();
    PowerSteps();
    FlattenAppend(RESET_STEPS, POWER_STEPS);
  }

  lemma InitPanelSteps()
    ensures InitPanel() == Flatten(InitSetup())
  {
    assert Be16(EPD_WIDTH) == [0x03, 0x20];
    assert Be16(EPD_HEIGHT) == [0x01, 0xE0];
    var p := InitSetup();
    assert p == [p[0]] + ([p[1]] + ([p[2]] + ([p[3]] + ([p[4]] + ([p[5]] + [])))));
    FlattenCons(p[5], []);
    FlattenCons(p[4], [p[5]] + []);
    FlattenCons(p[3], [p[4]] + ([p[5]] + []));
    FlattenCons(p[2], [p[3]] + ([p[4]] + ([p[5]] + [])));
    FlattenCons(p[1], [p[2]] + ([p[3]] + ([p[4]] + ([p[5]] + []))));
    FlattenCons(p[0], [p[1]] + ([p[2]] + ([p[3]] + ([p[4]] + ([p[5]] + [])))));
  }

  lemma InitTailSteps()
    ensures InitPanel() + SetLut() == Flatten(InitSetup() + LutScript(FULL))
  {
    InitPanelSteps();
    LoadLutsFlatten(FULL);
    FlattenAppend(InitSetup(), LutScript(FULL));
  }

  lemma EndsWith<T>(a: seq<T>, c: seq<T>)
    ensures (a + c)[|a + c| - |c|..] == c
  {
  }

  /** `init`: the reset pulse; POWER_SETTING with 0x17 and voltage bytes 6,
      1, 2, 3; VCM_DC_SETTING with voltage byte 4; booster; power on and
      wait; the panel configuration, whose resolution payload is 800 x 480
      big-endian; and last one load of the full tables. */
  lemma InitShape(busy: seq<Bit>)
    ensures var r := Init(busy);
      var steps := INIT_PROLOGUE + PollSteps(LeadingBusy(busy))
                   + (if r.Done? then InitSetup() + LutScript(FULL) else []);
      && (r.Done? <==> 1 in busy)
      && r.trace == Flatten(steps)
      && Group(r.trace) == Some(steps)
  {
    var r := Init(busy);
    InitTailSteps();
    InitPowerUpSteps();
    AroundSteps(INIT_PROLOGUE, busy, InitSetup() + LutScript(FULL));
    GroupFlatten(INIT_PROLOGUE + PollSteps(LeadingBusy(busy))
                 + (if r.Done? then InitSetup() + LutScript(FULL) else []));
  }

  /** The last 215 events of a completed `init` are one `set_lut`. */
  lemma InitEndsWithFullLuts(busy: seq<Bit>)
    ensures var r := Init(busy);
      r.Done? ==> r.trace[|r.trace| - 215..] == SetLut()
  {
    var r := Init(busy);
    if r.Done? {
      var n := LeadingBusy(busy);
      var a := InitPowerUp() + Polls(n) + InitPanel();
      assert r.trace == a + SetLut();
      EndsWith(a, SetLut());
    }
  }

  lemma TransmitSteps(frame: seq<Byte>)
    ensures Transmit(frame) == Flatten(FrameSteps(frame))
  {
    var steps := FrameSteps(frame);
    assert steps == [steps[0]] + ([steps[1]] + [steps[2]]);
    FlattenCons(steps[2], []);
    FlattenCons(steps[1], [steps[2]]);
    FlattenCons(steps[0], [steps[1], steps[2]]);
    assert [steps[1]] + [steps[2]] == [steps[1], steps[2]];
    assert Flatten([steps[1], steps[2]]) == [Cmd(DISPLAY_REFRESH), Delay(100)];
  }

  lemma DisplayFrameSteps(frame: seq<Byte>, busy: seq<Bit>)
    ensures var r := DisplayFrame(frame, busy);
      r.trace == Flatten(FrameSteps(frame) + PollSteps(LeadingBusy(busy)))
  {
    var steps := FrameSteps(frame);
    TransmitSteps(frame);
    assert Flatten([]) == [];
    AroundSteps(steps, busy, []);
    assert steps + PollSteps(LeadingBusy(busy)) + [] == steps + PollSteps(LeadingBusy(busy));
  }

  /** `display_frame`: DATA_START_TRANSMISSION_2 with exactly the buffer's
      bytes in order, DISPLAY_REFRESH, 100 ms, the wait; nothing else. */
  lemma DisplayFrameShape(frame: seq<Byte>, busy: seq<Bit>)
    ensures var r := DisplayFrame(frame, busy);
      var n := LeadingBusy(busy);
      && (r.Done? <==> 1 in busy)
      && Group(r.trace) == Some(FrameSteps(frame) + PollSteps(n))
      && Commands(r.trace) == [0x13, 0x12] + Repeat(GET_STATUS, n)
      && Payload(r.trace) == frame
  {
    var n := LeadingBusy(busy);
    var steps := FrameSteps(frame);
    var all := steps + PollSteps(n);
    DisplayFrameSteps(frame, busy);
    GroupFlatten(all);
    FlattenProjections(all);
    CodesAppend(steps, PollSteps(n));
    PollsShape(n);
    FlattenProjections(PollSteps(n));
    assert steps == [steps[0]] + [steps[1]] + [steps[2]];
    CodesCons(steps[2], []);
    CodesCons(steps[1], [steps[2]]);
    CodesCons(steps[0], [steps[1], steps[2]]);
    assert Codes(steps) == [0x13, 0x12];
    assert Payloads(steps) == frame;
  }

  lemma DisplayFrameQuickSteps(frame: seq<Byte>, busy: seq<Bit>)
    ensures var r := DisplayFrameQuick(frame, busy);
      r.trace == Flatten(LutScript(QUICK) + FrameSteps(frame) + PollSteps(LeadingBusy(busy))
                         + (if r.Done? then LutScript(FULL) else []))
  {
    LoadLutsFlatten(QUICK);
    LoadLutsFlatten(FULL);
    TransmitSteps(frame);
    FlattenAppend(LutScript(QUICK), FrameSteps(frame));
    AroundSteps(LutScript(QUICK) + FrameSteps(frame), busy, LutScript(FULL));
  }

  /** `display_frame_quick`: the quick tables, the same transmission and
      refresh as `display_frame`, then the full tables. */
  lemma DisplayFrameQuickShape(frame: seq<Byte>, busy: seq<Bit>)
    ensures var r := DisplayFrameQuick(frame, busy);
      var n := LeadingBusy(busy);
      && (r.Done? <==> 1 in busy)
      && Group(r.trace) == Some(LutScript(QUICK) + FrameSteps(frame) + PollSteps(n)
                                + (if r.Done? then LutScript(FULL) else []))
  {
    var n := LeadingBusy(busy);
    DisplayFrameQuickSteps(frame, busy);
    GroupFlatten(LutScript(QUICK) + FrameSteps(frame) + PollSteps(n)
                 + (if 1 in busy then LutScript(FULL) else []));
  }

  /** A completed `display_frame_quick` is `set_quick_lut`, then exactly
      what `display_frame` sends, then `set_lut`. */
  lemma DisplayFrameQuickIsFrameBetweenLoads(frame: seq<Byte>, busy: seq<Bit>)
    ensures var r := DisplayFrameQuick(frame, busy);
      r.Done? ==> r.trace == SetQuickLut() + DisplayFrame(frame, busy).trace + SetLut()
  {
  }

  /** The last 215 events of a completed `display_frame_quick` are one
      `set_lut`: the full tables are the last ones it loads. */
  lemma DisplayFrameQuickEndsWithFullLuts(frame: seq<Byte>, busy: seq<Bit>)
    ensures var r := DisplayFrameQuick(frame, busy);
      r.Done? ==> r.trace[|r.trace| - 215..] == SetLut()
  {
    var r := DisplayFrameQuick(frame, busy);
    if r.Done? {
      var a := SetQuickLut() + Transmit(frame) + Polls(LeadingBusy(busy));
      assert r.trace == a + SetLut();
      EndsWith(a, SetLut());
    }
  }

  /** `clear` sends exactly what `display_frame` sends for an all-zero
      buffer of `height * width // 8` = 48000 bytes. */
  lemma ClearIsBlankFrame(busy: seq<Bit>)
    ensures FrameBytes() == 48000
    ensures Clear(busy) == DisplayFrame(Zeros(FrameBytes()), busy)
    ensures Payload(Clear(busy).trace) == Zeros(48000)
  {
    DisplayFrameShape(Zeros(FrameBytes()), busy);
  }

  lemma SleepSteps(busy: seq<Bit>)
    ensures var r := Sleep(busy);
      r.trace == Flatten([Command(0x02, [])] + PollSteps(LeadingBusy(busy))
                         + (if r.Done? then [Command(0x07, [0xA5])] else []))
  {
    var before, after := [Command(0x02, [])], [Command(0x07, [0xA5])];
    assert Flatten(before) == [Cmd(POWER_OFF)];
    assert Flatten(after) == Transaction(DEEP_SLEEP, [DEEP_SLEEP_CHECK]);
    AroundSteps(before, busy, after);
  }

  /** `sleep`: POWER_OFF, the wait, DEEP_SLEEP with the single data byte 0xA5;
      no other data byte is ever sent. */
  lemma SleepShape(busy: seq<Bit>)
    ensures var r := Sleep(busy);
      var n := LeadingBusy(busy);
      && (r.Done? <==> 1 in busy)
      && Group(r.trace) == Some([Command(0x02, [])] + PollSteps(n)
                                + (if r.Done? then [Command(0x07, [0xA5])] else []))
      && Payload(r.trace) == (if r.Done? then [0xA5] else [])
      && (r.Done? ==> r.trace[|r.trace| - 2..] == [Cmd(0x07), Data(0xA5)])
  {
    var r := Sleep(busy);
    var n := LeadingBusy(busy);
    var before, after := [Command(0x02, [])], if r.Done? then [Command(0x07, [0xA5])] else [];
    var all := before + PollSteps(n) + after;
    SleepSteps(busy);
    GroupFlatten(all);
    FlattenProjections(all);
    CodesAppend(before + PollSteps(n), after);
    CodesAppend(before, PollSteps(n));
    PollStepsCodes(n);
    SleepEnds(busy);
  }

  lemma SleepEnds(busy: seq<Bit>)
    ensures var r := Sleep(busy);
      r.Done? ==> r.trace[|r.trace| - 2..] == [Cmd(0x07), Data(0xA5)]
  {
    var r := Sleep(busy);
    if r.Done? {
      var a := [Cmd(POWER_OFF)] + Polls(LeadingBusy(busy));
      assert r.trace == a + Transaction(DEEP_SLEEP, [DEEP_SLEEP_CHECK]);
      assert Transaction(DEEP_SLEEP, [DEEP_SLEEP_CHECK]) == [Cmd(0x07), Data(0xA5)];
      EndsWith(a, [Cmd(0x07), Data(0xA5)]);
    }
  }
}
