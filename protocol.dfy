/**
 * The line protocol shared by both motor-controller interfaces: the serial link to one controller
 * (an abstract responder with a queue of replies), the typed reading of a reply, the control
 * modes, the PID term naming and the exceptions the interfaces raise.
 */
module Protocol {
  import opened Wrappers
  import opened Numerals

  /** One answer line as it arrives on the port, or the port failing during the exchange (SerialException). */
  datatype Reply = Line(text: string) | Broken

  /**
   * The serial connection of one interface object: whether its port object is open, whether the
   * port can be opened at all, the replies the controller will give, and every line written so far.
   */
  datatype Link = Link(open: bool, available: bool, replies: seq<Reply>, sent: seq<string>)

  /** The next reply. An exhausted controller makes `readline` time out and return the empty line. */
  function NextReply(replies: seq<Reply>): Option<string> {
    if replies == [] then Some("")
    else match replies[0]
      case Line(t) => Some(t)
      case Broken => None
  }

  function Remaining(replies: seq<Reply>): (r: seq<Reply>)
    ensures |r| == if replies == [] then 0 else |replies| - 1
  {
    if replies == [] then [] else replies[1..]
  }

  /** The link after an exchange and the raw reply; `None` when the port raised SerialException. */
  datatype Answer = Answer(link: Link, reply: Option<string>)

  /** `ser.write(line)` then `ser.readline()`. Writing to a closed port raises before anything is sent. */
  function Transact(l: Link, line: string): Answer {
    if !l.open then Answer(l, None)
    else Answer(l.(replies := Remaining(l.replies), sent := l.sent + [line]), NextReply(l.replies))
  }

  /** `ser.open()`: raises SerialException when the port is missing or this port object is already open. */
  function OpenPort(l: Link): Option<Link> {
    if l.open || !l.available then None else Some(l.(open := true))
  }

  /** The physical controller behind one serial port. Several interface objects may talk to the same one. */
  class Device {
    const available: bool
    var replies: seq<Reply>
    ghost var sent: seq<string>

    constructor (available: bool, replies: seq<Reply>)
      ensures this.available == available && this.replies == replies && sent == []
    {
      this.available := available;
      this.replies := replies;
      sent := [];
    }

    /** Write one line and read one line back. */
    method WriteRead(line: string) returns (reply: Option<string>)
      modifies this
      ensures sent == old(sent) + [line]
      ensures replies == Remaining(old(replies))
      ensures reply == NextReply(old(replies))
    {
      sent := sent + [line];
      if replies == [] {
        reply := Some("");
      } else {
        reply := if replies[0].Line? then Some(replies[0].text) else None;
        replies := replies[1..];
      }
    }
  }

  /** The Python type a reply is converted with. */
  datatype Kind = IntKind | FloatKind | BoolKind | StrKind

  datatype Value = NoValue | IntValue(i: int) | FloatValue(x: real) | BoolValue(b: bool) | StrValue(s: string)

  predicate HasKind(v: Value, k: Kind) {
    match k
    case IntKind => v.IntValue?
    case FloatKind => v.FloatValue?
    case BoolKind => v.BoolValue?
    case StrKind => v.StrValue?
  }

  /** `return_type(text)`: `int`, `float`, `bool` or `str` applied to the stripped reply; None when it raises ValueError. */
  function ParseAs(c: Codec, k: Kind, text: string): (r: Option<Value>)
    ensures r.Some? ==> HasKind(r.value, k)
  {
    match k
    case IntKind => (match ParseInt(text) case Some(n) => Some(IntValue(n)) case None => None)
    case FloatKind => (match c.parse(text) case Some(x) => Some(FloatValue(x)) case None => None)
    case BoolKind => Some(BoolValue(text != ""))
    case StrKind => Some(StrValue(text))
  }

  /** `bool` and `str` accept every reply, and `bool` is true for every non-empty one, "0" included. */
  lemma BoolAndStrNeverRaise(c: Codec, text: string)
    ensures ParseAs(c, StrKind, text) == Some(StrValue(text))
    ensures ParseAs(c, BoolKind, text) == Some(BoolValue(text != ""))
    ensures ParseAs(c, BoolKind, "0") == Some(BoolValue(true))
  {
  }

  /** An integer echo is read back as the integer that was written. */
  lemma IntEchoReadsBack(c: Codec, n: int)
    ensures ParseAs(c, IntKind, IntToString(n)) == Some(IntValue(n))
  {
    IntRoundTrip(n);
  }

  datatype Mode = Torque | Velocity | Angle

  /** The literal naming a mode: 'torque', 'velocity' or 'angle'. */
  function ModeName(m: Mode): string {
    match m
    case Torque => "torque"
    case Velocity => "velocity"
    case Angle => "angle"
  }

  /** The digit of the `MC<d>` command for a mode. */
  function ModeDigit(m: Mode): char {
    match m
    case Torque => '0'
    case Velocity => '1'
    case Angle => '2'
  }

  function ModeCommand(m: Mode): string {
    "MC" + [ModeDigit(m)]
  }

  /** Python's `s[:3]`. */
  function Prefix3(s: string): (r: string)
    ensures |r| == if |s| < 3 then |s| else 3
    ensures r <= s
  {
    if |s| <= 3 then s else s[..3]
  }

  /** The mode commands are distinct, and so are the first three letters of the mode names. */
  lemma ModesDistinguished(m: Mode, n: Mode)
    ensures m != n ==> ModeCommand(m) != ModeCommand(n)
    ensures m != n ==> Prefix3(ModeName(m)) != Prefix3(ModeName(n))
  {
    assert ModeCommand(m)[2] == ModeDigit(m);
    assert ModeCommand(n)[2] == ModeDigit(n);
    assert Prefix3(ModeName(m))[0] == ModeName(m)[0];
    assert Prefix3(ModeName(n))[0] == ModeName(n)[0];
  }

  /** The PID stage letter: 'A' for the stage 'angle', 'V' for anything else. */
  function PidPrefix(stage: string): char {
    if stage == "angle" then 'A' else 'V'
  }

  const PidNames: seq<string> := ["P", "I", "D", "R", "L", "F"]

  /** Python's `zip(names, values)`: pairs up to the shorter of the two. */
  function Zip<A, B>(xs: seq<A>, ys: seq<B>): (r: seq<(A, B)>)
    ensures |r| == if |xs| < |ys| then |xs| else |ys|
    ensures forall i :: 0 <= i < |r| ==> r[i] == (xs[i], ys[i])
  {
    if xs == [] || ys == [] then [] else [(xs[0], ys[0])] + Zip(xs[1..], ys[1..])
  }

  /** The terms `set_PIDs` sends: the positional values named P, I, D, R, L, F in order, then the keyword terms. */
  function PidTerms(args: seq<real>, kwargs: seq<(string, real)>): (r: seq<(string, real)>)
    ensures |r| == (if |args| < 6 then |args| else 6) + |kwargs|
    ensures forall i :: 0 <= i < |args| && i < 6 ==> r[i] == (PidNames[i], args[i])
    ensures forall i :: 0 <= i < |kwargs| ==> r[(if |args| < 6 then |args| else 6) + i] == kwargs[i]
  {
    Zip(PidNames, args) + kwargs
  }

  /** `f'M{PIDType}{char}{arg}'`. */
  function PidCommand(c: Codec, prefix: char, term: (string, real)): string {
    "M" + [prefix] + term.0 + c.show(term.1)
  }

  /** The confirmation a setter checks; it names the step in the exception's message. */
  datatype Setting =
    | ComPrecision | Enable | Disable | Pids | CurrentLimit | VoltageLimit | VelocityLimit
    | ControlMode | TargetPosition

  /** What a mismatch message reports besides the step. */
  datatype Detail = NoDetail | Received(text: string) | ReceivedExpected(received: Value, expected: real)

  datatype MotorFailure =
    /** The reply could not be converted: "COM may be out of sync", with the command, the reply and the motor id. */
    | Desync(kind: Kind, command: string, response: string, motorId: int)
    /** The older interface's conversion failure, which carries only the type. */
    | LegacyDesync(kind: Kind)
    /** A well-formed reply that does not confirm the command. */
    | Mismatch(setting: Setting, detail: Detail)

  /** The Python exceptions the core raises. */
  datatype Fault =
    | MotorException(failure: MotorFailure)
    | EndEffectorException(message: string)
    | NotImplementedError(message: string)
    | SerialException
    | AssertionError(message: string)
    | KeyError(key: int)
    /** KeyError for a keyword argument that was not given. */
    | MissingKey(name: string)
    | AttributeError(name: string)
    | IndexError
    | ValueError
    | FileNotFoundError(path: string)

  const DisconnectedMessage := "Motor disconnected. Cannot reestablish connection."
  const InitializeMessage := "Failed to initialize motor: SerialException."
  const DisconnectMessage := "Failed to disconnect from motor: SerialException."
  const PrecisionMessage := "Decimal precision must be within the range [1,15]."
}
