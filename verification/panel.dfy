/** What the panel controller holds after a trace: for each command code,
    the payload last written under it. A reset pulse (the line driven to 0)
    returns the controller to its power-on state, which holds none of them.
    The five waveform registers 0x20..0x24 decide which refresh waveform the
    next DISPLAY_REFRESH uses. */
module Panel {
  import opened Base
  import opened Trace
  import opened Epd
  import opened EpdShapes

  type Registers = map<Byte, seq<Byte>>

  function ApplyStep(m: Registers, s: Step): Registers
  {
    match s
    case Command(c, p) => m[c := p]
    case ResetLevel(l) => if l == 0 then map[] else m
    case Pause(_) => m
  }

  /** The registers after a sequence of steps, starting from `m`. */
  function Apply(m: Registers, steps: seq<Step>): Registers
    decreases |steps|
  {
    if steps == [] then m else Apply(ApplyStep(m, steps[0]), steps[1..])
  }

  /** The registers after a trace, starting from `m`; a trace that does not
      decode leaves them unknown. */
  function After(m: Registers, t: seq<Event>): Option<Registers>
  {
    match Group(t)
    case None => None
    case Some(steps) => Some(Apply(m, steps))
  }

  predicate IsLutRegister(c: Byte)
  {
    0x20 <= c <= 0x24
  }

  /** The waveform tables resident in the controller, when all five
      registers hold a 42-byte table. */
  function Resident(m: Registers): Option<LutSet>
  {
    if && 0x20 in m && |m[0x20]| == 42
       && 0x21 in m && |m[0x21]| == 42
       && 0x22 in m && |m[0x22]| == 42
       && 0x23 in m && |m[0x23]| == 42
       && 0x24 in m && |m[0x24]| == 42
    then Some(LutSet(m[0x20], m[0x21], m[0x22], m[0x23], m[0x24]))
    else None
  }

  /** The resident tables after a trace, starting from `m`. */
  function ResidentAfter(m: Registers, t: seq<Event>): Option<LutSet>
  {
    match After(m, t)
    case None => None
    case Some(m') => Resident(m')
  }

  /** Steps that neither write a waveform register nor pulse reset. */
  predicate KeepsLuts(steps: seq<Step>)
  {
    forall i :: 0 <= i < |steps| ==>
      !(steps[i].Command? && IsLutRegister(steps[i].code)) && steps[i] != ResetLevel(0)
  }

  // ---------------------------------------------------------------------------

  lemma {:induction false} ApplyAppend(m: Registers, a: seq<Step>, b: seq<Step>)
    ensures Apply(m, a + b) == Apply(Apply(m, a), b)
    decreases |a|
  {
    if a == [] {
      assert a + b == b;
    } else {
      assert (a + b)[0] == a[0];
      assert (a + b)[1..] == a[1..] + b;
      assert Apply(m, a + b) == Apply(ApplyStep(m, a[0]), a[1..] + b);
      ApplyAppend(ApplyStep(m, a[0]), a[1..], b);
    }
  }

  /** Running one trace after another moves the registers through both. */
  lemma AfterAppend(m: Registers, a: seq<Event>, b: seq<Event>)
    requires After(m, a).Some? && Group(b).Some?
    ensures After(m, a + b) == After(After(m, a).value, b)
  {
    GroupAppend(a, b);
    ApplyAppend(m, Group(a).value, Group(b).value);
  }

  /** Steps that keep the waveform registers leave every one of them as it
      was, present or absent. */
  lemma {:induction false} KeepsLutsPreserves(m: Registers, steps: seq<Step>)
    requires KeepsLuts(steps)
    ensures forall c :: IsLutRegister(c) ==>
      (c in Apply(m, steps) <==> c in m) && (c in m ==> Apply(m, steps)[c] == m[c])
    ensures Resident(Apply(m, steps)) == Resident(m)
    decreases |steps|
  {
    if steps != [] {
      assert !(steps[0].Command? && IsLutRegister(steps[0].code)) && steps[0] != ResetLevel(0);
      KeepsLutsPreserves(ApplyStep(m, steps[0]), steps[1..]);
    }
  }

  /** Loading a table set makes it resident, whatever was there before. */
  lemma LoadInstalls(m: Registers, s: LutSet)
    ensures Resident(Apply(m, LutScript(s))) == Some(s)
  {
    var script := LutScript(s);
    var m1 := ApplyStep(m, script[0]);
    var m2 := ApplyStep(m1, script[1]);
    var m3 := ApplyStep(m2, script[2]);
    var m4 := ApplyStep(m3, script[3]);
    var m5 := ApplyStep(m4, script[4]);
    assert Apply(m4, script[4..]) == m5;
    assert Apply(m3, script[3..]) == m5;
    assert Apply(m2, script[2..]) == m5;
    assert Apply(m1, script[1..]) == m5;
  }

  lemma {:induction false} PollStepsKeepLuts(n: nat)
    ensures KeepsLuts(PollSteps(n))
    decreases n
  {
    if n > 0 {
      PollStepsKeepLuts(n - 1);
      var one := [Command(GET_STATUS, []), Pause(20)];
      assert PollSteps(n) == one + PollSteps(n - 1);
      forall i | 0 <= i < |PollSteps(n)|
        ensures !(PollSteps(n)[i].Command? && IsLutRegister(PollSteps(n)[i].code))
        ensures PollSteps(n)[i] != ResetLevel(0)
      {
        if i >= 2 {
          assert PollSteps(n)[i] == PollSteps(n - 1)[i - 2];
        }
      }
    }
  }

  lemma KeepsLutsAppend(a: seq<Step>, b: seq<Step>)
    requires KeepsLuts(a) && KeepsLuts(b)
    ensures KeepsLuts(a + b)
  {
    forall i | 0 <= i < |a + b|
      ensures !((a + b)[i].Command? && IsLutRegister((a + b)[i].code)) && (a + b)[i] != ResetLevel(0)
    {
      if i >= |a| {
        assert (a + b)[i] == b[i - |a|];
      }
    }
  }

  lemma FrameStepsKeepLuts(frame: seq<Byte>, n: nat)
    ensures KeepsLuts(FrameSteps(frame) + PollSteps(n))
  {
    PollStepsKeepLuts(n);
    KeepsLutsAppend(FrameSteps(frame), PollSteps(n));
  }

  // ---------------------------------------------------------------------------
  // The waveform tables each operation leaves resident

  /** A completed `set_lut` leaves the full tables resident, and a completed
      `set_quick_lut` the quick ones, whatever came before. */
  lemma LutLoadsInstall(m: Registers)
    ensures ResidentAfter(m, SetLut()) == Some(FULL)
    ensures ResidentAfter(m, SetQuickLut()) == Some(QUICK)
  {
    LoadLutsShape(FULL);
    LoadLutsShape(QUICK);
    LoadInstalls(m, FULL);
    LoadInstalls(m, QUICK);
  }

  /** After a completed `init` the full tables are resident, whatever the
      controller held before. */
  lemma InitInstallsFull(m: Registers, busy: seq<Bit>)
    ensures Init(busy).Done? ==> ResidentAfter(m, Init(busy).trace) == Some(FULL)
  {
    var r := Init(busy);
    InitShape(busy);
    if r.Done? {
      var head := INIT_PROLOGUE + PollSteps(LeadingBusy(busy)) + InitSetup();
      assert head + LutScript(FULL)
        == INIT_PROLOGUE + PollSteps(LeadingBusy(busy)) + (InitSetup() + LutScript(FULL));
      ApplyAppend(m, head, LutScript(FULL));
      LoadInstalls(Apply(m, head), FULL);
    }
  }

  /** `display_frame` does not touch the waveform registers: the tables
      resident before it are resident after it, even if it never returns. */
  lemma DisplayFrameKeepsLuts(m: Registers, frame: seq<Byte>, busy: seq<Bit>)
    ensures ResidentAfter(m, DisplayFrame(frame, busy).trace) == Resident(m)
  {
    var n := LeadingBusy(busy);
    DisplayFrameShape(frame, busy);
    FrameStepsKeepLuts(frame, n);
    KeepsLutsPreserves(m, FrameSteps(frame) + PollSteps(n));
  }

  /** Nor does `clear`. */
  lemma ClearKeepsLuts(m: Registers, busy: seq<Bit>)
    ensures ResidentAfter(m, Clear(busy).trace) == Resident(m)
  {
    ClearIsBlankFrame(busy);
    DisplayFrameKeepsLuts(m, Zeros(FrameBytes()), busy);
  }

  /** Nor does `sleep`. */
  lemma SleepKeepsLuts(m: Registers, busy: seq<Bit>)
    ensures ResidentAfter(m, Sleep(busy).trace) == Resident(m)
  {
    var r := Sleep(busy);
    var n := LeadingBusy(busy);
    var after := if r.Done? then [Command(0x07, [0xA5])] else [];
    var steps := [Command(0x02, [])] + PollSteps(n) + after;
    SleepSteps(busy);
    GroupFlatten(steps);
    PollStepsKeepLuts(n);
    KeepsLutsAppend([Command(0x02, [])], PollSteps(n));
    KeepsLutsAppend([Command(0x02, [])] + PollSteps(n), after);
    KeepsLutsPreserves(m, steps);
  }

  /** A refresh right after loading a table set and transmitting a frame
      runs on that table set: DISPLAY_REFRESH is the seventh step, and the
      six before it leave the loaded tables resident. */
  lemma RefreshAfterLoad(m: Registers, s: LutSet, frame: seq<Byte>, rest: seq<Step>)
    ensures var steps := LutScript(s) + FrameSteps(frame) + rest;
      && |steps| >= 7
      && steps[6] == Command(DISPLAY_REFRESH, [])
      && Resident(Apply(m, steps[..7])) == Some(s)
  {
    var transmit := [Command(0x13, frame), Command(0x12, [])];
    assert (LutScript(s) + FrameSteps(frame) + rest)[..7] == LutScript(s) + transmit;
    ApplyAppend(m, LutScript(s), transmit);
    LoadInstalls(m, s);
    assert KeepsLuts(transmit);
    KeepsLutsPreserves(Apply(m, LutScript(s)), transmit);
  }

  /** `display_frame_quick` refreshes the panel with the quick tables
      resident: its DISPLAY_REFRESH is the seventh command it sends, and the
      six before it load the quick tables and transmit the frame. */
  lemma QuickRefreshUsesQuickLuts(m: Registers, frame: seq<Byte>, busy: seq<Bit>)
    ensures Group(DisplayFrameQuick(frame, busy).trace).Some?
    ensures var steps := Group(DisplayFrameQuick(frame, busy).trace).value;
      && |steps| >= 7
      && steps[6] == Command(DISPLAY_REFRESH, [])
      && Resident(Apply(m, steps[..7])) == Some(QUICK)
  {
    var r := DisplayFrameQuick(frame, busy);
    DisplayFrameQuickShape(frame, busy);
    var rest := PollSteps(LeadingBusy(busy)) + (if r.Done? then LutScript(FULL) else []);
    assert Group(r.trace).value == LutScript(QUICK) + FrameSteps(frame) + rest;
    RefreshAfterLoad(m, QUICK, frame, rest);
  }

  /** A completed `display_frame_quick` leaves the full tables resident,
      whatever the controller held before. */
  lemma QuickLeavesFullLuts(m: Registers, frame: seq<Byte>, busy: seq<Bit>)
    ensures DisplayFrameQuick(frame, busy).Done? ==>
      ResidentAfter(m, DisplayFrameQuick(frame, busy).trace) == Some(FULL)
  {
    var r := DisplayFrameQuick(frame, busy);
    DisplayFrameQuickShape(frame, busy);
    if r.Done? {
      var head := LutScript(QUICK) + FrameSteps(frame) + PollSteps(LeadingBusy(busy));
      ApplyAppend(m, head, LutScript(FULL));
      LoadInstalls(Apply(m, head), FULL);
    }
  }

  /** `display_frame` does not reload the full tables: after `set_quick_lut`
      it refreshes with the quick tables still resident. */
  lemma FrameAfterQuickLoadKeepsQuick(m: Registers, frame: seq<Byte>, busy: seq<Bit>)
    ensures ResidentAfter(m, SetQuickLut() + DisplayFrame(frame, busy).trace) == Some(QUICK)
  {
    var t := DisplayFrame(frame, busy).trace;
    LutLoadsInstall(m);
    DisplayFrameShape(frame, busy);
    AfterAppend(m, SetQuickLut(), t);
    DisplayFrameKeepsLuts(After(m, SetQuickLut()).value, frame, busy);
  }
}
