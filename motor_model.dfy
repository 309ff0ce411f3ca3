/**
 * The motor-controller interface the arm uses (hardware/FOCMC_interface.py). Every operation sends
 * ASCII lines, reads one reply per line, checks the reply against what was sent, and changes the
 * motor's own fields only when the reply confirms.
 *
 * Each operation is a function over a `MotorState` value; the `Motor` class at the end holds the
 * same state in fields, and each of its methods is proved to do what the function says.
 */
module MotorModel {
  import opened Wrappers
  import opened Numerals
  import opened Text
  import opened Protocol

  /** `Motor.LOG_SIZE`. */
  const LogSize: nat := 100

  /** One exchange as `_log_entry` records it (the wall-clock timestamp is not modelled). */
  datatype LogEntry = LogEntry(command: string, response: string)

  /**
   * Everything an operation can read or change: the link, `m_id`, `offset`, `control_mode`, the
   * bounded `log`, and `history`, every exchange ever logged (a ghost view for stating properties).
   */
  datatype MotorState = MotorState(
    link: Link, mId: int, offset: real, mode: Mode, log: seq<LogEntry>, history: seq<LogEntry>)

  /** The state after an operation and what it returned or raised. */
  datatype Outcome<T> = Outcome(state: MotorState, result: Result<T, Fault>)

  /** A motor object just constructed over a controller, before `connect` runs. */
  function Fresh(available: bool, replies: seq<Reply>, sent: seq<string>): MotorState {
    MotorState(Link(false, available, replies, sent), -1, 0.0, Torque, [], [])
  }

  // ---------------------------------------------------------------------------------------------
  // The bounded log

  /** `_log_entry`: drop the oldest entry only when the log already exceeds LOG_SIZE, then append. */
  function AppendLog(log: seq<LogEntry>, e: LogEntry): seq<LogEntry> {
    (if |log| > LogSize then log[1..] else log) + [e]
  }

  /** The most recent LOG_SIZE + 1 entries of a history, in arrival order. */
  function Window(h: seq<LogEntry>): seq<LogEntry> {
    if |h| <= LogSize + 1 then h else h[|h| - (LogSize + 1)..]
  }

  /** Appending to the log keeps it equal to the window of the complete history. */
  lemma WindowAppend(h: seq<LogEntry>, e: LogEntry)
    ensures Window(h + [e]) == AppendLog(Window(h), e)
  {
    var h' := h + [e];
    if |h| == LogSize + 1 {
      assert Window(h') == h'[1..];
      assert h'[1..] == h[1..] + [e];
    } else if |h| > LogSize + 1 {
      assert Window(h) == h[|h| - (LogSize + 1)..];
      assert Window(h)[1..] == h[|h| - LogSize..];
      assert h'[|h'| - (LogSize + 1)..] == h[|h| - LogSize..] + [e];
    }
  }

  /** The log never holds more than LOG_SIZE + 1 entries, ends with the latest one, and keeps arrival order. */
  lemma LogBounded(h: seq<LogEntry>, e: LogEntry)
    ensures |Window(h)| <= LogSize + 1
    ensures |Window(h)| == if |h| <= LogSize + 1 then |h| else LogSize + 1
    ensures Window(h) == h[|h| - |Window(h)|..]
    ensures Window(h + [e])[|Window(h + [e])| - 1] == e
  {
  }

  predicate Consistent(s: MotorState) {
    s.log == Window(s.history)
  }

  // ---------------------------------------------------------------------------------------------
  // _send_command

  /**
   * `_send_command(cmd, return_type)`: write `cmd` and a newline, read and strip one reply, log the
   * exchange, then convert the reply when a type is requested. A serial failure becomes
   * NotImplementedError; a failed conversion becomes MotorException with the command, the reply and
   * the motor id; with no type the result is None.
   */
  function Send(c: Codec, s: MotorState, cmd: string, kind: Option<Kind>): (o: Outcome<Value>)
    ensures o.result.Success? && kind.Some? ==> HasKind(o.result.value, kind.value)
    ensures o.result.Success? && kind.None? ==> o.result.value == NoValue
  {
    var a := Transact(s.link, cmd + "\n");
    if a.reply.None? then Outcome(s.(link := a.link), Failure(NotImplementedError(DisconnectedMessage)))
    else
      var text := Strip(a.reply.value);
      var entry := LogEntry(cmd, text);
      var s' := s.(link := a.link, log := AppendLog(s.log, entry), history := s.history + [entry]);
      if kind.None? then Outcome(s', Success(NoValue))
      else match ParseAs(c, kind.value, text)
        case Some(v) => Outcome(s', Success(v))
        case None => Outcome(s', Failure(MotorException(Desync(kind.value, cmd, text, s.mId))))
  }

  /** How one exchange changes the state, whatever the reply. */
  lemma SendEffect(c: Codec, s: MotorState, cmd: string, kind: Option<Kind>)
    ensures var o := Send(c, s, cmd, kind);
      && o.state.mId == s.mId && o.state.offset == s.offset && o.state.mode == s.mode
      && o.state.link.open == s.link.open && o.state.link.available == s.link.available
      && (!s.link.open ==> o.state == s && o.result == Failure(NotImplementedError(DisconnectedMessage)))
      && (s.link.open ==>
            && o.state.link.sent == s.link.sent + [cmd + "\n"]
            && o.state.link.replies == Remaining(s.link.replies))
      && (s.link.open && NextReply(s.link.replies).None? ==>
            o.state.history == s.history && o.result == Failure(NotImplementedError(DisconnectedMessage)))
      && (s.link.open && NextReply(s.link.replies).Some? ==>
            var text := Strip(NextReply(s.link.replies).value);
            && o.state.history == s.history + [LogEntry(cmd, text)]
            && (kind.None? ==> o.result == Success(NoValue))
            && (kind.Some? && ParseAs(c, kind.value, text).None? ==>
                  o.result == Failure(MotorException(Desync(kind.value, cmd, text, s.mId))))
            && (kind.Some? && ParseAs(c, kind.value, text).Some? ==>
                  o.result == Success(ParseAs(c, kind.value, text).value)))
  {
  }

  /** Every exchange keeps the log equal to the window of the history. */
  lemma SendKeepsLog(c: Codec, s: MotorState, cmd: string, kind: Option<Kind>)
    requires Consistent(s)
    ensures Consistent(Send(c, s, cmd, kind).state)
  {
    var a := Transact(s.link, cmd + "\n");
    if a.reply.Some? {
      WindowAppend(s.history, LogEntry(cmd, Strip(a.reply.value)));
    }
  }

  /** The raw reply the next exchange reads, stripped; None when the port is closed or fails. */
  function NextText(l: Link): Option<string> {
    if !l.open then None
    else match NextReply(l.replies)
      case Some(t) => Some(Strip(t))
      case None => None
  }

  // ---------------------------------------------------------------------------------------------
  // Operations

  function Fail<T>(s: MotorState, e: Fault): Outcome<T> {
    Outcome(s, Failure(e))
  }

  /** Accept only the expected echo; otherwise MotorException naming the step. */
  function Confirm(o: Outcome<Value>, expected: Value, setting: Setting): Outcome<()> {
    if o.result.Failure? then Fail(o.state, o.result.error)
    else if o.result.value == expected then Outcome(o.state, Success(()))
    else Fail(o.state, MotorException(Mismatch(setting, NoDetail)))
  }

  /** `connect`: open the port (SerialException when that fails), then store the integer reply to `I` as `m_id`. */
  function Connect(c: Codec, s: MotorState): Outcome<()> {
    match OpenPort(s.link)
    case None => Fail(s, SerialException)
    case Some(l) =>
      var o := Send(c, s.(link := l), "I", Some(IntKind));
      if o.result.Failure? then Fail(o.state, o.result.error)
      else Outcome(o.state.(mId := o.result.value.i), Success(()))
  }

  /** `disconnect`: disable, then close the port. */
  function Disconnect(c: Codec, s: MotorState): Outcome<()> {
    var d := Disable(c, s);
    if d.result.Failure? then d
    else Outcome(d.state.(link := d.state.link.(open := false)), Success(()))
  }

  /** `COM_precision`. */
  function ComPrecision(c: Codec, s: MotorState): Outcome<int> {
    var o := Send(c, s, "#", Some(IntKind));
    if o.result.Failure? then Fail(o.state, o.result.error) else Outcome(o.state, Success(o.result.value.i))
  }

  /** `enabled`: the reply converted with `bool`. */
  function Enabled(c: Codec, s: MotorState): Outcome<bool> {
    var o := Send(c, s, "ME", Some(BoolKind));
    if o.result.Failure? then Fail(o.state, o.result.error) else Outcome(o.state, Success(o.result.value.b))
  }

  /** `position`: the `MMG6` reading minus `offset`. */
  function Position(c: Codec, s: MotorState): Outcome<real> {
    var o := Send(c, s, "MMG6", Some(FloatKind));
    if o.result.Failure? then Fail(o.state, o.result.error)
    else Outcome(o.state, Success(o.result.value.x - s.offset))
  }

  /** `velocity`: the raw `MMG5` reading. */
  function Velocity(c: Codec, s: MotorState): Outcome<real> {
    var o := Send(c, s, "MMG5", Some(FloatKind));
    if o.result.Failure? then Fail(o.state, o.result.error) else Outcome(o.state, Success(o.result.value.x))
  }

  /** `set_COM_precision`: assert 1 <= decimals <= 15, send `#<decimals>`, require the same number back. */
  function SetComPrecision(c: Codec, s: MotorState, decimals: int): Outcome<()> {
    if !(1 <= decimals <= 15) then Fail(s, AssertionError(PrecisionMessage))
    else Confirm(Send(c, s, "#" + IntToString(decimals), Some(FloatKind)), FloatValue(decimals as real), Setting.ComPrecision)
  }

  function Enable(c: Codec, s: MotorState): Outcome<()> {
    Confirm(Send(c, s, "ME1", Some(IntKind)), IntValue(1), Setting.Enable)
  }

  function Disable(c: Codec, s: MotorState): Outcome<()> {
    Confirm(Send(c, s, "ME0", Some(IntKind)), IntValue(0), Setting.Disable)
  }

  function SetCurrentLimit(c: Codec, s: MotorState, limit: real): Outcome<()> {
    Confirm(Send(c, s, "MLC" + c.show(limit), Some(FloatKind)), FloatValue(limit), Setting.CurrentLimit)
  }

  function SetVoltageLimit(c: Codec, s: MotorState, limit: real): Outcome<()> {
    Confirm(Send(c, s, "MLU" + c.show(limit), Some(FloatKind)), FloatValue(limit), Setting.VoltageLimit)
  }

  function SetVelocityLimit(c: Codec, s: MotorState, limit: real): Outcome<()> {
    Confirm(Send(c, s, "MLV" + c.show(limit), Some(FloatKind)), FloatValue(limit), Setting.VelocityLimit)
  }

  /** The loop of `set_PIDs`: one command per term, stopping at the first that is not echoed. */
  function PidLoop(c: Codec, s: MotorState, prefix: char, terms: seq<(string, real)>): Outcome<()>
    decreases |terms|
  {
    if terms == [] then Outcome(s, Success(()))
    else
      var o := Confirm(Send(c, s, PidCommand(c, prefix, terms[0]), Some(FloatKind)), FloatValue(terms[0].1), Setting.Pids);
      if o.result.Failure? then o else PidLoop(c, o.state, prefix, terms[1..])
  }

  /** `set_PIDs(stage, *args, **kwargs)`. */
  function SetPids(c: Codec, s: MotorState, stage: string, args: seq<real>, kwargs: seq<(string, real)>): Outcome<()> {
    PidLoop(c, s, PidPrefix(stage), PidTerms(args, kwargs))
  }

  /** `set_control_mode`: the first three characters of the reply must match the mode's name. */
  function SetControlMode(c: Codec, s: MotorState, mode: Mode): Outcome<()> {
    var o := Send(c, s, ModeCommand(mode), Some(StrKind));
    if o.result.Failure? then Fail(o.state, o.result.error)
    else
      var x := o.result.value.s;
      if Prefix3(x) != Prefix3(ModeName(mode)) then Fail(o.state, MotorException(Mismatch(ControlMode, Received(x))))
      else Outcome(o.state.(mode := mode), Success(()))
  }

  /** The position `move` actually commands: in angle mode the offset is added and the sum rounded to 3 places. */
  function MoveTarget(c: Codec, s: MotorState, pos: real): real {
    if s.mode == Angle then c.round3(pos + s.offset) else pos
  }

  /** `move`: send `M<target>` and require the target back. */
  function Move(c: Codec, s: MotorState, pos: real): Outcome<()> {
    var target := MoveTarget(c, s, pos);
    var o := Send(c, s, "M" + c.show(target), Some(FloatKind));
    if o.result.Failure? then Fail(o.state, o.result.error)
    else if o.result.value.x != target then
      Fail(o.state, MotorException(Mismatch(TargetPosition, ReceivedExpected(o.result.value, target))))
    else Outcome(o.state, Success(()))
  }

  // ---------------------------------------------------------------------------------------------
  // Properties of the operations

  /** The fields an operation may change besides the link and the log. */
  predicate SameSettings(s: MotorState, t: MotorState) {
    t.mId == s.mId && t.offset == s.offset && t.mode == s.mode && t.link.available == s.link.available
  }

  /** Whether the next reply, read as a float, is exactly `v`. */
  predicate Echoes(c: Codec, l: Link, v: real) {
    NextText(l).Some? && c.parse(NextText(l).value) == Some(v)
  }

  /** The link after one exchange on an open port. */
  function Step(l: Link, line: string): Link {
    Transact(l, line).link
  }

  /** `connect` takes the motor id from the reply to `I`; a port that cannot be opened sends nothing. */
  lemma ConnectSetsId(c: Codec, s: MotorState)
    ensures var o := Connect(c, s);
      && (OpenPort(s.link).None? ==> o == Fail(s, SerialException))
      && (OpenPort(s.link).Some? ==>
            && o.state.link.open && o.state.link.sent == s.link.sent + ["I\n"]
            && (o.result.Success? <==> NextText(OpenPort(s.link).value).Some? && ParseInt(NextText(OpenPort(s.link).value).value).Some?)
            && (o.result.Success? ==> o.state.mId == ParseInt(NextText(OpenPort(s.link).value).value).value)
            && (o.result.Failure? ==> o.state.mId == s.mId))
  {
    assert "I" + "\n" == "I\n";
  }

  /** `disconnect` closes the port exactly when `ME0` was echoed with 0; otherwise the port stays as it was. */
  lemma DisconnectCloses(c: Codec, s: MotorState)
    ensures var o := Disconnect(c, s);
      && (o.result.Success? <==> s.link.open && NextText(s.link).Some? && ParseInt(NextText(s.link).value) == Some(0))
      && (o.result.Success? ==> !o.state.link.open && o.state.link.sent == s.link.sent + ["ME0\n"])
      && (o.result.Failure? ==> o.state.link.open == s.link.open)
      && SameSettings(s, o.state)
  {
    assert "ME0" + "\n" == "ME0\n";
  }

  /** `enabled` is true exactly when the stripped reply is not empty: Python's `bool` of a string. */
  lemma EnabledIsNonEmptyReply(c: Codec, s: MotorState)
    ensures var o := Enabled(c, s);
      && (o.result.Success? <==> NextText(s.link).Some?)
      && (o.result.Success? ==> o.result.value == (NextText(s.link).value != ""))
      && SameSettings(s, o.state)
  {
  }

  /** `position` reports the reading relative to the offset; `velocity` reports it raw. */
  lemma ReadingsAndOffset(c: Codec, s: MotorState)
    ensures var p := Position(c, s); var v := Velocity(c, s);
      && (p.result.Success? <==> NextText(s.link).Some? && c.parse(NextText(s.link).value).Some?)
      && (p.result.Success? ==> p.result.value == c.parse(NextText(s.link).value).value - s.offset)
      && (v.result.Success? ==> v.result.value == c.parse(NextText(s.link).value).value)
      && p.state.link.sent == (if s.link.open then s.link.sent + ["MMG6\n"] else s.link.sent)
      && v.state.link.sent == (if s.link.open then s.link.sent + ["MMG5\n"] else s.link.sent)
      && SameSettings(s, p.state) && SameSettings(s, v.state)
  {
    assert "MMG6" + "\n" == "MMG6\n";
    assert "MMG5" + "\n" == "MMG5\n";
  }

  /** `set_COM_precision` rejects a precision outside 1..15 before sending anything, and otherwise needs the number echoed. */
  lemma PrecisionGuard(c: Codec, s: MotorState, decimals: int)
    ensures var o := SetComPrecision(c, s, decimals);
      && (!(1 <= decimals <= 15) ==> o == Fail(s, AssertionError(PrecisionMessage)))
      && (1 <= decimals <= 15 ==>
            (o.result.Success? <==> Echoes(c, s.link, decimals as real)))
      && SameSettings(s, o.state)
  {
  }

  /** The enable and disable commands succeed exactly on the echoes 1 and 0. */
  lemma EnableEchoes(c: Codec, s: MotorState)
    ensures Enable(c, s).result.Success? <==> NextText(s.link).Some? && ParseInt(NextText(s.link).value) == Some(1)
    ensures Disable(c, s).result.Success? <==> NextText(s.link).Some? && ParseInt(NextText(s.link).value) == Some(0)
    ensures Enable(c, s).result.Failure? && NextText(s.link).Some? && ParseInt(NextText(s.link).value).Some? ==>
      Enable(c, s).result.error == MotorException(Mismatch(Setting.Enable, NoDetail))
  {
  }

  /**
   * Each limit setter sends its own command and succeeds exactly when the limit comes back; on a
   * closed port nothing is sent.
   */
  lemma LimitsEcho(c: Codec, s: MotorState, limit: real)
    ensures s.link.open ==> SetCurrentLimit(c, s, limit).state.link.sent == s.link.sent + ["MLC" + c.show(limit) + "\n"]
    ensures s.link.open ==> SetVoltageLimit(c, s, limit).state.link.sent == s.link.sent + ["MLU" + c.show(limit) + "\n"]
    ensures s.link.open ==> SetVelocityLimit(c, s, limit).state.link.sent == s.link.sent + ["MLV" + c.show(limit) + "\n"]
    ensures !s.link.open ==> SetVoltageLimit(c, s, limit) == Fail(s, NotImplementedError(DisconnectedMessage))
    ensures !s.link.open ==> SetCurrentLimit(c, s, limit) == Fail(s, NotImplementedError(DisconnectedMessage))
    ensures !s.link.open ==> SetVelocityLimit(c, s, limit) == Fail(s, NotImplementedError(DisconnectedMessage))
    ensures SetCurrentLimit(c, s, limit).result.Success? <==> Echoes(c, s.link, limit)
    ensures SetVoltageLimit(c, s, limit).result.Success? <==> Echoes(c, s.link, limit)
    ensures SetVelocityLimit(c, s, limit).result.Success? <==> Echoes(c, s.link, limit)
  {
  }

  /** The control mode changes only when the reply's first three characters name the requested mode. */
  lemma ControlModeOnlyOnConfirm(c: Codec, s: MotorState, mode: Mode)
    ensures var o := SetControlMode(c, s, mode);
      && (o.result.Success? <==> NextText(s.link).Some? && Prefix3(NextText(s.link).value) == Prefix3(ModeName(mode)))
      && o.state.mode == (if o.result.Success? then mode else s.mode)
      && (o.result.Failure? && NextText(s.link).Some? ==>
            o.result.error == MotorException(Mismatch(ControlMode, Received(NextText(s.link).value))))
      && o.state.mId == s.mId && o.state.offset == s.offset
  {
  }

  /**
   * `move` commands the offset-adjusted, rounded position in angle mode and the raw position
   * otherwise, and succeeds only when that number comes back; a different number is reported
   * with both the number received and the one expected. On a closed port nothing is sent.
   */
  lemma MoveConfirms(c: Codec, s: MotorState, pos: real)
    ensures var o := Move(c, s, pos); var target := MoveTarget(c, s, pos);
      && (s.link.open ==> o.state.link.sent == s.link.sent + ["M" + c.show(target) + "\n"])
      && (!s.link.open ==> o == Fail(s, NotImplementedError(DisconnectedMessage)))
      && (o.result.Success? <==> Echoes(c, s.link, target))
      && (NextText(s.link).Some? && c.parse(NextText(s.link).value).Some? && !Echoes(c, s.link, target) ==>
            o.result.error ==
              MotorException(Mismatch(TargetPosition, ReceivedExpected(FloatValue(c.parse(NextText(s.link).value).value), target))))
      && SameSettings(s, o.state)
  {
  }

  /** The lines `set_PIDs` writes for a list of terms. */
  function PidLines(c: Codec, prefix: char, terms: seq<(string, real)>): (r: seq<string>)
    ensures |r| == |terms|
    ensures forall i :: 0 <= i < |terms| ==> r[i] == PidCommand(c, prefix, terms[i]) + "\n"
  {
    seq(|terms|, i requires 0 <= i < |terms| => PidCommand(c, prefix, terms[i]) + "\n")
  }

  /** The link after `k` exchanges. */
  function Steps(l: Link, lines: seq<string>): Link
    decreases |lines|
  {
    if lines == [] then l else Steps(Step(l, lines[0]), lines[1..])
  }

  /** A link whose next `k` replies echo the first `k` PID values. */
  predicate EchoesAll(c: Codec, l: Link, prefix: char, terms: seq<(string, real)>)
    decreases |terms|
  {
    terms == [] || (Echoes(c, l, terms[0].1) && EchoesAll(c, Step(l, PidCommand(c, prefix, terms[0]) + "\n"), prefix, terms[1..]))
  }

  /** One PID command: it always moves the link one exchange on, and it succeeds exactly on the echo. */
  lemma PidStep(c: Codec, s: MotorState, prefix: char, term: (string, real))
    ensures var o := Confirm(Send(c, s, PidCommand(c, prefix, term), Some(FloatKind)), FloatValue(term.1), Setting.Pids);
      && o.state.link == Step(s.link, PidCommand(c, prefix, term) + "\n")
      && (o.result.Success? <==> Echoes(c, s.link, term.1))
      && SameSettings(s, o.state)
  {
  }

  /** When every term is echoed, `set_PIDs` sends all of them in order and succeeds. */
  lemma {:induction false} PidsAllSent(c: Codec, s: MotorState, prefix: char, terms: seq<(string, real)>)
    requires EchoesAll(c, s.link, prefix, terms)
    ensures var o := PidLoop(c, s, prefix, terms);
      && o.result.Success?
      && o.state.link == Steps(s.link, PidLines(c, prefix, terms))
      && SameSettings(s, o.state)
    decreases |terms|
  {
    if terms != [] {
      var line := PidCommand(c, prefix, terms[0]) + "\n";
      var o := Confirm(Send(c, s, PidCommand(c, prefix, terms[0]), Some(FloatKind)), FloatValue(terms[0].1), Setting.Pids);
      PidStep(c, s, prefix, terms[0]);
      PidsAllSent(c, o.state, prefix, terms[1..]);
      assert PidLines(c, prefix, terms) == [line] + PidLines(c, prefix, terms[1..]);
    } else {
      assert PidLines(c, prefix, terms) == [];
    }
  }

  /** Exchanges on an open port write exactly the given lines, in order, and leave it open. */
  lemma {:induction false} StepsSend(l: Link, lines: seq<string>)
    requires l.open
    ensures Steps(l, lines).sent == l.sent + lines && Steps(l, lines).open
    decreases |lines|
  {
    if lines != [] {
      StepsSend(Step(l, lines[0]), lines[1..]);
      assert [lines[0]] + lines[1..] == lines;
    }
  }

  /** When term `k` is the first one not echoed, `set_PIDs` stops right after sending it. */
  lemma {:induction false} PidsStopAtMismatch(c: Codec, s: MotorState, prefix: char, terms: seq<(string, real)>, k: nat)
    requires k < |terms|
    requires EchoesAll(c, s.link, prefix, terms[..k])
    requires !Echoes(c, Steps(s.link, PidLines(c, prefix, terms[..k])), terms[k].1)
    ensures var o := PidLoop(c, s, prefix, terms);
      && o.result.Failure?
      && o.state.link == Steps(s.link, PidLines(c, prefix, terms[..k + 1]))
      && SameSettings(s, o.state)
    decreases k
  {
    var line := PidCommand(c, prefix, terms[0]) + "\n";
    var o := Confirm(Send(c, s, PidCommand(c, prefix, terms[0]), Some(FloatKind)), FloatValue(terms[0].1), Setting.Pids);
    PidStep(c, s, prefix, terms[0]);
    assert PidLines(c, prefix, terms[..k + 1]) == [line] + PidLines(c, prefix, terms[1..][..k]);
    if k == 0 {
      assert PidLines(c, prefix, terms[..0]) == [];
      assert PidLines(c, prefix, terms[1..][..0]) == [];
    } else {
      assert terms[..k][0] == terms[0] && terms[..k][1..] == terms[1..][..k - 1];
      assert PidLines(c, prefix, terms[..k]) == [line] + PidLines(c, prefix, terms[1..][..k - 1]);
      assert terms[1..][k - 1] == terms[k];
      PidsStopAtMismatch(c, o.state, prefix, terms[1..], k - 1);
      assert terms[1..][..k - 1 + 1] == terms[1..][..k];
    }
  }
}
