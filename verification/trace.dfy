/** The driver's observable behaviour as an ordered trace of bus events, and a
    decoder that regroups a trace into commands with their payloads. */
module Trace {
  import opened Base

  /** One action of the driver, in program order. */
  datatype Event =
    | Cmd(code: Byte)    // send_command: DC low, one byte transferred
    | Data(value: Byte)  // send_data: DC high, one byte transferred
    | Rst(level: Bit)    // the reset pin driven to a level
    | Delay(ms: nat)     // delay_ms

  /** Streams a byte sequence with one `send_data` per byte, in order. */
  function Stream(bs: seq<Byte>): (r: seq<Event>)
    ensures |r| == |bs|
    ensures forall i :: 0 <= i < |bs| ==> r[i] == Data(bs[i])
  {
    seq(|bs|, i requires 0 <= i < |bs| => Data(bs[i]))
  }

  /** `send_command(code)` followed by one `send_data` per payload byte. */
  function Transaction(code: Byte, payload: seq<Byte>): seq<Event>
  {
    [Cmd(code)] + Stream(payload)
  }

  /** `n` copies of one byte. */
  function Repeat(b: Byte, n: nat): (r: seq<Byte>)
    ensures |r| == n
    ensures forall i :: 0 <= i < n ==> r[i] == b
  {
    seq(n, _ => b)
  }

  /** `n` zero bytes. */
  function Zeros(n: nat): (r: seq<Byte>)
    ensures |r| == n
    ensures forall i :: 0 <= i < n ==> r[i] == 0
  {
    Repeat(0, n)
  }

  lemma StreamAppend(a: seq<Byte>, b: seq<Byte>)
    ensures Stream(a + b) == Stream(a) + Stream(b)
  {
  }

  // ---------------------------------------------------------------------------
  // Projections

  /** The command codes of a trace, in order. */
  function Commands(t: seq<Event>): seq<Byte>
    decreases |t|
  {
    if t == [] then []
    else (if t[0].Cmd? then [t[0].code] else []) + Commands(t[1..])
  }

  /** The data bytes of a trace, in order. */
  function Payload(t: seq<Event>): seq<Byte>
    decreases |t|
  {
    if t == [] then []
    else (if t[0].Data? then [t[0].value] else []) + Payload(t[1..])
  }

  lemma {:induction false} CommandsAppend(a: seq<Event>, b: seq<Event>)
    ensures Commands(a + b) == Commands(a) + Commands(b)
    decreases |a|
  {
    if a == [] {
      assert a + b == b;
    } else {
      var h := if a[0].Cmd? then [a[0].code] else [];
      assert (a + b)[0] == a[0];
      assert (a + b)[1..] == a[1..] + b;
      assert Commands(a + b) == h + Commands(a[1..] + b);
      CommandsAppend(a[1..], b);
      assert Commands(a) == h + Commands(a[1..]);
    }
  }

  lemma {:induction false} PayloadAppend(a: seq<Event>, b: seq<Event>)
    ensures Payload(a + b) == Payload(a) + Payload(b)
    decreases |a|
  {
    if a == [] {
      assert a + b == b;
    } else {
      var h := if a[0].Data? then [a[0].value] else [];
      assert (a + b)[0] == a[0];
      assert (a + b)[1..] == a[1..] + b;
      assert Payload(a + b) == h + Payload(a[1..] + b);
      PayloadAppend(a[1..], b);
      assert Payload(a) == h + Payload(a[1..]);
    }
  }

  /** A streamed byte sequence carries no command and exactly its bytes. */
  lemma {:induction false} StreamProjections(bs: seq<Byte>)
    ensures Commands(Stream(bs)) == []
    ensures Payload(Stream(bs)) == bs
    decreases |bs|
  {
    if bs != [] {
      assert Stream(bs)[1..] == Stream(bs[1..]);
      StreamProjections(bs[1..]);
    }
  }

  // ---------------------------------------------------------------------------
  // Steps: a trace regrouped into commands with their payloads

  /** A command with the data bytes that follow it, a reset-pin level, or a
      pause. */
  datatype Step =
    | Command(code: Byte, payload: seq<Byte>)
    | ResetLevel(level: Bit)
    | Pause(ms: nat)

  function StepEvents(s: Step): seq<Event>
  {
    match s
    case Command(c, p) => Transaction(c, p)
    case ResetLevel(l) => [Rst(l)]
    case Pause(ms) => [Delay(ms)]
  }

  /** The events a sequence of steps puts on the bus. */
  function Flatten(steps: seq<Step>): seq<Event>
    decreases |steps|
  {
    if steps == [] then [] else StepEvents(steps[0]) + Flatten(steps[1..])
  }

  /** The data bytes at the head of a trace, up to its first non-data event. */
  function DataRun(t: seq<Event>): (p: seq<Byte>)
    ensures |p| <= |t|
    ensures t[..|p|] == Stream(p)
    ensures |p| < |t| ==> !t[|p|].Data?
    decreases |t|
  {
    if t == [] || !t[0].Data? then [] else [t[0].value] + DataRun(t[1..])
  }

  /** Prepends one step to a decoding, failure staying failure. */
  function Prepend(s: Step, r: Option<seq<Step>>): Option<seq<Step>>
  {
    match r
    case None => None
    case Some(rest) => Some([s] + rest)
  }

  /** Regroups a trace into steps: each command takes the data bytes that
      follow it. A data byte with no command before it has no reading. */
  function Group(t: seq<Event>): Option<seq<Step>>
    decreases |t|
  {
    if t == [] then Some([])
    else
      match t[0]
      case Data(_) => None
      case Cmd(c) =>
        var p := DataRun(t[1..]);
        Prepend(Command(c, p), Group(t[1 + |p|..]))
      case Rst(l) => Prepend(ResetLevel(l), Group(t[1..]))
      case Delay(ms) => Prepend(Pause(ms), Group(t[1..]))
  }

  lemma {:induction false} FlattenAppend(a: seq<Step>, b: seq<Step>)
    ensures Flatten(a + b) == Flatten(a) + Flatten(b)
    decreases |a|
  {
    if a == [] {
      assert a + b == b;
    } else {
      assert (a + b)[1..] == a[1..] + b;
      FlattenAppend(a[1..], b);
    }
  }

  /** A flattened step sequence never begins with a data byte. */
  lemma FlattenHead(steps: seq<Step>)
    ensures Flatten(steps) == [] || !Flatten(steps)[0].Data?
  {
  }

  lemma {:induction false} DataRunStream(p: seq<Byte>, rest: seq<Event>)
    requires rest == [] || !rest[0].Data?
    ensures DataRun(Stream(p) + rest) == p
    decreases |p|
  {
    if p == [] {
      assert Stream(p) + rest == rest;
    } else {
      assert (Stream(p) + rest)[1..] == Stream(p[1..]) + rest;
      DataRunStream(p[1..], rest);
    }
  }

  /** Where a transaction followed by more events splits. */
  lemma TransactionSplit(c: Byte, p: seq<Byte>, rest: seq<Event>)
    ensures var t := Transaction(c, p) + rest;
      t[0] == Cmd(c) && t[1..] == Stream(p) + rest && t[1 + |p|..] == rest
  {
  }

  lemma GroupCommand(c: Byte, p: seq<Byte>, rest: seq<Event>)
    requires rest == [] || !rest[0].Data?
    ensures Group(Transaction(c, p) + rest) == Prepend(Command(c, p), Group(rest))
  {
    TransactionSplit(c, p, rest);
    DataRunStream(p, rest);
  }

  /** Decoding a step's events followed by a trace that does not start with
      a data byte: the step comes first. */
  lemma GroupStep(s: Step, rest: seq<Event>)
    requires rest == [] || !rest[0].Data?
    ensures Group(StepEvents(s) + rest) == Prepend(s, Group(rest))
  {
    match s
    case Command(c, p) =>
      GroupCommand(c, p, rest);
    case ResetLevel(l) =>
      var t := [Rst(l)] + rest;
      assert t[0] == Rst(l) && t[1..] == rest;
    case Pause(ms) =>
      var t := [Delay(ms)] + rest;
      assert t[0] == Delay(ms) && t[1..] == rest;
  }

  /** Decoding the events of any step sequence gives back the steps. */
  lemma {:induction false} GroupFlatten(steps: seq<Step>)
    ensures Group(Flatten(steps)) == Some(steps)
    decreases |steps|
  {
    if steps != [] {
      GroupFlatten(steps[1..]);
      FlattenHead(steps[1..]);
      GroupStep(steps[0], Flatten(steps[1..]));
      assert steps == [steps[0]] + steps[1..];
    }
  }

  /** A trace that starts with a command begins with that command's
      transaction, the data run after it being the payload. */
  lemma CommandSplit(t: seq<Event>)
    requires t != [] && t[0].Cmd?
    ensures var p := DataRun(t[1..]);
      1 + |p| <= |t| && t[..1 + |p|] == Transaction(t[0].code, p)
  {
    var p := DataRun(t[1..]);
    assert t[..1 + |p|] == [t[0]] + t[1..][..|p|];
  }

  /** A step whose events open a trace, followed by steps that flatten to
      the rest of it, flattens to the whole trace. */
  lemma FlattenRebuild(s: Step, steps: seq<Step>, t: seq<Event>, k: nat)
    requires k <= |t| && StepEvents(s) == t[..k] && Flatten(steps) == t[k..]
    ensures Flatten([s] + steps) == t
  {
    assert ([s] + steps)[0] == s && ([s] + steps)[1..] == steps;
    assert t == t[..k] + t[k..];
  }

  /** Whatever a trace decodes to flattens back to that very trace. */
  lemma {:induction false} FlattenGroup(t: seq<Event>)
    requires Group(t).Some?
    ensures Flatten(Group(t).value) == t
    decreases |t|
  {
    if t != [] {
      match t[0]
      case Cmd(c) =>
        var p := DataRun(t[1..]);
        var rest := t[1 + |p|..];
        assert Group(t) == Prepend(Command(c, p), Group(rest));
        FlattenGroup(rest);
        CommandSplit(t);
        FlattenRebuild(Command(c, p), Group(rest).value, t, 1 + |p|);
      case Rst(l) =>
        assert Group(t) == Prepend(ResetLevel(l), Group(t[1..]));
        FlattenGroup(t[1..]);
        FlattenRebuild(ResetLevel(l), Group(t[1..]).value, t, 1);
      case Delay(ms) =>
        assert Group(t) == Prepend(Pause(ms), Group(t[1..]));
        FlattenGroup(t[1..]);
        FlattenRebuild(Pause(ms), Group(t[1..]).value, t, 1);
    }
  }

  /** Decoding distributes over the concatenation of two decodable traces. */
  lemma GroupAppend(a: seq<Event>, b: seq<Event>)
    requires Group(a).Some? && Group(b).Some?
    ensures Group(a + b) == Some(Group(a).value + Group(b).value)
  {
    FlattenGroup(a);
    FlattenGroup(b);
    FlattenAppend(Group(a).value, Group(b).value);
    GroupFlatten(Group(a).value + Group(b).value);
  }

  /** The command codes of a step sequence, in order. */
  function Codes(steps: seq<Step>): seq<Byte>
    decreases |steps|
  {
    if steps == [] then []
    else (if steps[0].Command? then [steps[0].code] else []) + Codes(steps[1..])
  }

  /** All payload bytes of a step sequence, concatenated in order. */
  function Payloads(steps: seq<Step>): seq<Byte>
    decreases |steps|
  {
    if steps == [] then []
    else (if steps[0].Command? then steps[0].payload else []) + Payloads(steps[1..])
  }

  /** The projections of a flattened trace are read off its steps. */
  lemma {:induction false} FlattenProjections(steps: seq<Step>)
    ensures Commands(Flatten(steps)) == Codes(steps)
    ensures Payload(Flatten(steps)) == Payloads(steps)
    decreases |steps|
  {
    if steps != [] {
      var s := steps[0];
      FlattenProjections(steps[1..]);
      CommandsAppend(StepEvents(s), Flatten(steps[1..]));
      PayloadAppend(StepEvents(s), Flatten(steps[1..]));
      match s
      case Command(c, p) =>
        StreamProjections(p);
        CommandsAppend([Cmd(c)], Stream(p));
        PayloadAppend([Cmd(c)], Stream(p));
      case ResetLevel(l) =>
      case Pause(ms) =>
    }
  }
}
