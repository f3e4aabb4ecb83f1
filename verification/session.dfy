/** A sequence of public calls on one driver, each reading the busy pin
    where the previous call stopped, and the waveform tables such a run
    leaves resident in the controller. */
module Session {
  import opened Base
  import opened Trace
  import Epd
  import opened EpdShapes
  import opened Panel

  /** One public call on an `EPD` instance. */
  datatype Call =
    | Reset
    | Init
    | SetLut
    | SetQuickLut
    | DisplayFrame(frame: seq<Byte>)
    | DisplayFrameQuick(frame: seq<Byte>)
    | Clear
    | Sleep

  /** The outcome of one call; the calls that do not wait read no busy pin. */
  function Perform(c: Call, busy: seq<Bit>): Epd.Outcome
  {
    match c
    case Reset => Epd.Done(Epd.HardwareReset(), busy)
    case Init => Epd.Init(busy)
    case SetLut => Epd.Done(Epd.SetLut(), busy)
    case SetQuickLut => Epd.Done(Epd.SetQuickLut(), busy)
    case DisplayFrame(frame) => Epd.DisplayFrame(frame, busy)
    case DisplayFrameQuick(frame) => Epd.DisplayFrameQuick(frame, busy)
    case Clear => Epd.Clear(busy)
    case Sleep => Epd.Sleep(busy)
  }

  /** The calls one after another; a call that never returns ends the run. */
  function Run(calls: seq<Call>, busy: seq<Bit>): Epd.Outcome
    decreases |calls|
  {
    if calls == [] then Epd.Done([], busy)
    else
      match Perform(calls[0], busy)
      case Hung(t) => Epd.Hung(t)
      case Done(t, rest) =>
        (match Run(calls[1..], rest)
         case Done(u, rest') => Epd.Done(t + u, rest')
         case Hung(u) => Epd.Hung(t + u))
  }

  /** Calls on an awake panel that never leave the quick tables resident:
      every call but `reset`, a bare `set_quick_lut` and `sleep`. */
  predicate KeepsFull(c: Call)
  {
    c.Init? || c.SetLut? || c.DisplayFrame? || c.DisplayFrameQuick? || c.Clear?
  }

  /** One `display_frame` per frame, in order. */
  function Frames(frames: seq<seq<Byte>>): (r: seq<Call>)
    ensures |r| == |frames|
    ensures forall i :: 0 <= i < |frames| ==> r[i] == DisplayFrame(frames[i])
  {
    seq(|frames|, i requires 0 <= i < |frames| => DisplayFrame(frames[i]))
  }

  // ---------------------------------------------------------------------------

  lemma ResetDecodes()
    ensures Group(Epd.HardwareReset()) == Some(RESET_STEPS)
  {
    ResetSteps();
    GroupFlatten(RESET_STEPS);
  }

  /** The trace of any call decodes into steps. */
  lemma PerformDecodes(c: Call, busy: seq<Bit>)
    ensures Group(Perform(c, busy).trace).Some?
  {
    match c
    case Reset => ResetDecodes();
    case Init => InitShape(busy);
    case SetLut => LoadLutsShape(Epd.FULL);
    case SetQuickLut => LoadLutsShape(Epd.QUICK);
    case DisplayFrame(frame) => DisplayFrameShape(frame, busy);
    case DisplayFrameQuick(frame) => DisplayFrameQuickShape(frame, busy);
    case Clear => ClearIsBlankFrame(busy); DisplayFrameShape(Zeros(Epd.FrameBytes()), busy);
    case Sleep => SleepShape(busy);
  }

  /** The trace of any run decodes into steps. */
  lemma {:induction false} RunDecodes(calls: seq<Call>, busy: seq<Bit>)
    ensures Group(Run(calls, busy).trace).Some?
    decreases |calls|
  {
    if calls != [] {
      PerformDecodes(calls[0], busy);
      var first := Perform(calls[0], busy);
      if first.Done? {
        RunDecodes(calls[1..], first.rest);
        GroupAppend(first.trace, Run(calls[1..], first.rest).trace);
      }
    }
  }

  /** One completed call that keeps the full tables, starting with the full
      tables resident or being `init`, leaves them resident. */
  lemma CallLeavesFull(m: Registers, c: Call, busy: seq<Bit>)
    requires KeepsFull(c)
    requires Resident(m) == Some(Epd.FULL) || c.Init?
    requires Perform(c, busy).Done?
    ensures ResidentAfter(m, Perform(c, busy).trace) == Some(Epd.FULL)
  {
    match c
    case Init => InitInstallsFull(m, busy);
    case SetLut => LutLoadsInstall(m);
    case DisplayFrame(frame) => DisplayFrameKeepsLuts(m, frame, busy);
    case DisplayFrameQuick(frame) => QuickLeavesFullLuts(m, frame, busy);
    case Clear => ClearKeepsLuts(m, busy);
  }

  /** A completed run of such calls, starting with the full tables resident
      or with `init`, leaves the full tables resident. */
  lemma {:induction false} RunLeavesFull(m: Registers, calls: seq<Call>, busy: seq<Bit>)
    requires forall i :: 0 <= i < |calls| ==> KeepsFull(calls[i])
    requires Resident(m) == Some(Epd.FULL) || (calls != [] && calls[0].Init?)
    requires Run(calls, busy).Done?
    ensures ResidentAfter(m, Run(calls, busy).trace) == Some(Epd.FULL)
    decreases |calls|
  {
    if calls != [] {
      var first := Perform(calls[0], busy);
      var t := first.trace;
      var u := Run(calls[1..], first.rest).trace;
      CallLeavesFull(m, calls[0], busy);
      var m' := After(m, t).value;
      RunDecodes(calls[1..], first.rest);
      AfterAppend(m, t, u);
      RunLeavesFull(m', calls[1..], first.rest);
    }
  }

  /** A run that starts with `reset` is the reset pulse followed by the
      run of the remaining calls. */
  lemma RunAfterReset(calls: seq<Call>, busy: seq<Bit>)
    ensures Run([Reset] + calls, busy).Done? == Run(calls, busy).Done?
    ensures Run([Reset] + calls, busy).trace == Epd.HardwareReset() + Run(calls, busy).trace
  {
    var all := [Reset] + calls;
    assert all[0] == Reset && all[1..] == calls;
  }

  /** The calls of `main.py` after `reset`: `init`, then one `display_frame`
      per frame; every one of them keeps the full tables. */
  lemma MainCalls(frames: seq<seq<Byte>>) returns (calls: seq<Call>)
    ensures [Reset, Init] + Frames(frames) == [Reset] + calls
    ensures calls != [] && calls[0].Init?
    ensures forall i :: 0 <= i < |calls| ==> KeepsFull(calls[i])
  {
    calls := [Init] + Frames(frames);
    forall i | 0 <= i < |calls|
      ensures KeepsFull(calls[i])
    {
      if i > 0 {
        assert calls[i] == Frames(frames)[i - 1];
      }
    }
  }

  /** A reset pulse returns the controller to its power-on state. */
  lemma ResetClearsRegisters(m: Registers)
    ensures After(m, Epd.HardwareReset()) == Some(map[])
  {
    ResetDecodes();
    var s := RESET_STEPS;
    assert Apply(m, s) == Apply(m, s[1..]);
    assert Apply(m, s[1..]) == Apply(m, s[2..]);
    assert Apply(m, s[2..]) == Apply(map[], s[3..]);
    assert Apply(map[], s[3..]) == Apply(map[], s[4..]);
    assert Apply(map[], s[4..]) == Apply(map[], s[5..]);
    assert Apply(map[], s[5..]) == Apply(map[], s[6..]);
  }

  /** `reset` and then a run of full-keeping calls that starts with `init`
      ends with the full tables resident. */
  lemma ResetThenRunLeavesFull(m: Registers, calls: seq<Call>, busy: seq<Bit>)
    requires calls != [] && calls[0].Init?
    requires forall i :: 0 <= i < |calls| ==> KeepsFull(calls[i])
    requires Run([Reset] + calls, busy).Done?
    ensures ResidentAfter(m, Run([Reset] + calls, busy).trace) == Some(Epd.FULL)
  {
    RunAfterReset(calls, busy);
    ResetClearsRegisters(m);
    RunDecodes(calls, busy);
    AfterAppend(m, Epd.HardwareReset(), Run(calls, busy).trace);
    RunLeavesFull(map[], calls, busy);
  }

  /** The session `main.py` drives: `reset`, `init`, then frames. A
      completed session ends with the full tables resident. */
  lemma MainLoopEndsWithFullLuts(m: Registers, frames: seq<seq<Byte>>, busy: seq<Bit>)
    requires Run([Reset, Init] + Frames(frames), busy).Done?
    ensures ResidentAfter(m, Run([Reset, Init] + Frames(frames), busy).trace) == Some(Epd.FULL)
  {
    var calls := MainCalls(frames);
    ResetThenRunLeavesFull(m, calls, busy);
  }
}
