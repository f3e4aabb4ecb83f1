/** The pin-level view of the bus primitives `spi_transfer`, `send_command`
    and `send_data`, and the lowering of protocol events to pin activity. */
module Wire {
  import opened Base
  import opened Trace

  /** One output action on the GPIO pins or the SPI peripheral. */
  datatype Signal =
    | Cs(level: Bit)            // chip-select pin
    | Dc(level: Bit)            // data/command pin: 0 command, 1 data
    | RstPin(level: Bit)        // reset pin
    | Write(bytes: seq<Byte>)   // one `spi.write` call
    | Sleep(ms: nat)            // `time.sleep_ms`

  /** The argument of `spi_transfer`: an `int`, or a `bytes`/`bytearray`. */
  datatype TransferArg = Int(v: int) | Buffer(bytes: seq<Byte>)

  /** A transfer either completes, or raises after having driven some pins
      (`bytes([v])` rejects an int outside 0..255 with `ValueError`). */
  datatype Transfer = Sent(wire: seq<Signal>) | Raised(wire: seq<Signal>)

  predicate Encodable(x: TransferArg)
  {
    x.Buffer? || 0 <= x.v < 256
  }

  /** The bytes `spi_transfer` hands to `spi.write` for an encodable payload. */
  function Encoded(x: TransferArg): seq<Byte>
    requires Encodable(x)
  {
    if x.Buffer? then x.bytes else [x.v]
  }

  /** The bytes written to the SPI peripheral by a pin-level trace. */
  function Written(w: seq<Signal>): seq<Byte>
    decreases |w|
  {
    if w == [] then []
    else (if w[0].Write? then w[0].bytes else []) + Written(w[1..])
  }

  /** `spi_transfer`: chip select low, one write, chip select high. An int
      that is not a byte raises after chip select has gone low, so chip
      select is left asserted and nothing is written. */
  function SpiTransfer(x: TransferArg): (r: Transfer)
    ensures |r.wire| >= 1 && r.wire[0] == Cs(0)
    ensures r.Sent? <==> Encodable(x)
    ensures r.Sent? ==> r.wire[|r.wire| - 1] == Cs(1) && Written(r.wire) == Encoded(x)
    ensures r.Raised? ==> r.wire[|r.wire| - 1] == Cs(0) && Written(r.wire) == []
  {
    assert Written([Cs(1)]) == [];
    if x.Buffer? then Sent([Cs(0), Write(x.bytes), Cs(1)])
    else if 0 <= x.v < 256 then Sent([Cs(0), Write([x.v]), Cs(1)])
    else Raised([Cs(0)])
  }

  function Prefixed(s: Signal, r: Transfer): (p: Transfer)
    ensures p.wire == [s] + r.wire && p.Sent? == r.Sent?
  {
    match r
    case Sent(w) => Sent([s] + w)
    case Raised(w) => Raised([s] + w)
  }

  /** `send_command`: the DC pin goes low before the transfer. */
  function SendCommand(x: TransferArg): (r: Transfer)
    ensures r.wire == [Dc(0)] + SpiTransfer(x).wire
    ensures r.Sent? <==> Encodable(x)
  {
    Prefixed(Dc(0), SpiTransfer(x))
  }

  /** `send_data`: the DC pin goes high before the transfer. */
  function SendData(x: TransferArg): (r: Transfer)
    ensures r.wire == [Dc(1)] + SpiTransfer(x).wire
    ensures r.Sent? <==> Encodable(x)
  {
    Prefixed(Dc(1), SpiTransfer(x))
  }

  /** The pins driven for one protocol event. */
  function LowerEvent(e: Event): seq<Signal>
  {
    match e
    case Cmd(b) => SendCommand(Int(b)).wire
    case Data(b) => SendData(Int(b)).wire
    case Rst(l) => [RstPin(l)]
    case Delay(ms) => [Sleep(ms)]
  }

  /** The pins driven for a whole trace. */
  function Lower(t: seq<Event>): seq<Signal>
    decreases |t|
  {
    if t == [] then [] else LowerEvent(t[0]) + Lower(t[1..])
  }

  /** Reads protocol events back from pin activity: a DC level, then one
      single-byte write bracketed by chip select, is a command or a data
      byte according to that level. */
  function Lift(w: seq<Signal>): Option<seq<Event>>
    decreases |w|
  {
    if w == [] then Some([])
    else
      match w[0]
      case Dc(d) =>
        if 4 <= |w| && w[1] == Cs(0) && w[2].Write? && |w[2].bytes| == 1 && w[3] == Cs(1) then
          var e := if d == 0 then Cmd(w[2].bytes[0]) else Data(w[2].bytes[0]);
          Cons(e, Lift(w[4..]))
        else None
      case RstPin(l) =>
        Cons(Rst(l), Lift(w[1..]))
      case Sleep(ms) =>
        Cons(Delay(ms), Lift(w[1..]))
      case Cs(_) => None
      case Write(_) => None
  }

  /** Prepends one event to a decoding, failure staying failure. */
  function Cons(e: Event, r: Option<seq<Event>>): Option<seq<Event>>
  {
    match r
    case None => None
    case Some(rest) => Some([e] + rest)
  }

  lemma LiftEvent(e: Event, rest: seq<Signal>)
    ensures Lift(LowerEvent(e) + rest) == Cons(e, Lift(rest))
  {
    var w := LowerEvent(e) + rest;
    match e
    case Cmd(b) =>
      assert w == [Dc(0), Cs(0), Write([b]), Cs(1)] + rest;
      assert w[4..] == rest;
    case Data(b) =>
      assert w == [Dc(1), Cs(0), Write([b]), Cs(1)] + rest;
      assert w[4..] == rest;
    case Rst(l) =>
      assert w[1..] == rest;
    case Delay(ms) =>
      assert w[1..] == rest;
  }

  /** Every byte event is a DC level followed by one chip-select-bracketed
      single-byte write, so pin activity determines the protocol trace. */
  lemma {:induction false} LiftLower(t: seq<Event>)
    ensures Lift(Lower(t)) == Some(t)
    decreases |t|
  {
    if t != [] {
      assert Lower(t) == LowerEvent(t[0]) + Lower(t[1..]);
      LiftLower(t[1..]);
      LiftEvent(t[0], Lower(t[1..]));
      assert Lift(Lower(t)) == Some([t[0]] + t[1..]);
      assert [t[0]] + t[1..] == t;
    }
  }

  /** An event whose pins open a pin-level trace, followed by events that
      lower to the rest of it, lowers to the whole trace. */
  lemma LowerRebuild(e: Event, events: seq<Event>, w: seq<Signal>, k: nat)
    requires k <= |w| && LowerEvent(e) == w[..k] && Lower(events) == w[k..]
    ensures Lower([e] + events) == w
  {
    var es := [e] + events;
    assert es[0] == e && es[1..] == events;
    assert Lower(es) == w[..k] + w[k..];
    assert w == w[..k] + w[k..];
  }

  /** The pins of a byte event, read back from a well-formed group of four. */
  lemma LowerByte(w: seq<Signal>)
    requires 4 <= |w| && w[0].Dc? && w[1] == Cs(0) && w[2].Write? && |w[2].bytes| == 1 && w[3] == Cs(1)
    ensures LowerEvent(if w[0].level == 0 then Cmd(w[2].bytes[0]) else Data(w[2].bytes[0])) == w[..4]
  {
    var b := w[2].bytes[0];
    assert w[2] == Write([b]);
    assert w[..4] == [w[0], Cs(0), Write([b]), Cs(1)];
  }

  /** Conversely, pin activity that reads as a trace is exactly that trace
      lowered. */
  lemma {:induction false} LowerLift(w: seq<Signal>)
    requires Lift(w).Some?
    ensures Lower(Lift(w).value) == w
    decreases |w|
  {
    if w != [] {
      match w[0]
      case Dc(d) =>
        var e := if d == 0 then Cmd(w[2].bytes[0]) else Data(w[2].bytes[0]);
        assert Lift(w) == Cons(e, Lift(w[4..]));
        LowerLift(w[4..]);
        LowerByte(w);
        LowerRebuild(e, Lift(w[4..]).value, w, 4);
      case RstPin(l) =>
        assert Lift(w) == Cons(Rst(l), Lift(w[1..]));
        LowerLift(w[1..]);
        assert LowerEvent(Rst(l)) == w[..1];
        LowerRebuild(Rst(l), Lift(w[1..]).value, w, 1);
      case Sleep(ms) =>
        assert Lift(w) == Cons(Delay(ms), Lift(w[1..]));
        LowerLift(w[1..]);
        assert LowerEvent(Delay(ms)) == w[..1];
        LowerRebuild(Delay(ms), Lift(w[1..]).value, w, 1);
    }
  }

  /** The byte a command or data event carries. */
  function ByteOf(e: Event): Byte
    requires e.Cmd? || e.Data?
  {
    if e.Cmd? then e.code else e.value
  }

  /** A byte event writes exactly its byte. */
  lemma WrittenEvent(e: Event)
    requires e.Cmd? || e.Data?
    ensures Written(LowerEvent(e)) == [ByteOf(e)]
  {
    var w := LowerEvent(e);
    assert w == [if e.Cmd? then Dc(0) else Dc(1), Cs(0), Write([ByteOf(e)]), Cs(1)];
    assert w[1..][1..][1..][1..] == [];
  }

  /** The SPI bytes of a lowered trace are its command and data bytes in
      bus order, each in a write of its own. */
  lemma {:induction false} WrittenLower(t: seq<Event>)
    requires forall i :: 0 <= i < |t| ==> t[i].Cmd? || t[i].Data?
    ensures |Written(Lower(t))| == |t|
    ensures forall i :: 0 <= i < |t| ==>
      Written(Lower(t))[i] == (if t[i].Cmd? then t[i].code else t[i].value)
    decreases |t|
  {
    if t != [] {
      WrittenLower(t[1..]);
      assert Lower(t) == LowerEvent(t[0]) + Lower(t[1..]);
      WrittenAppend(LowerEvent(t[0]), Lower(t[1..]));
      WrittenEvent(t[0]);
      var r := Written(Lower(t));
      assert r == [ByteOf(t[0])] + Written(Lower(t[1..]));
      forall i | 0 <= i < |t|
        ensures r[i] == (if t[i].Cmd? then t[i].code else t[i].value)
      {
        if i > 0 {
          assert r[i] == Written(Lower(t[1..]))[i - 1];
          assert t[i] == t[1..][i - 1];
        }
      }
    }
  }

  lemma {:induction false} WrittenAppend(a: seq<Signal>, b: seq<Signal>)
    ensures Written(a + b) == Written(a) + Written(b)
    decreases |a|
  {
    if a == [] {
      assert a + b == b;
    } else {
      var h := if a[0].Write? then a[0].bytes else [];
      assert (a + b)[0] == a[0];
      assert (a + b)[1..] == a[1..] + b;
      assert Written(a + b) == h + Written(a[1..] + b);
      WrittenAppend(a[1..], b);
      assert Written(a) == h + Written(a[1..]);
    }
  }
}
