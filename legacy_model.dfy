/**
 * The older motor-controller interface (hardware/FOCMCInterface.py): the same commands and the
 * same confirmations as `MotorModel`, but it keeps no log, always converts the reply, lets serial
 * failures through as SerialException, and reports mismatches without details.
 */
module LegacyModel {
  import opened Wrappers
  import opened Numerals
  import opened Text
  import opened Protocol
  import MotorModel

  /** `port` is the link; `m_id`, `offset` and `controlMode` are the fields the methods update. */
  datatype LegacyState = LegacyState(link: Link, mId: int, offset: real, mode: Mode)

  datatype Outcome<T> = Outcome(state: LegacyState, result: Result<T, Fault>)

  function Fail<T>(s: LegacyState, e: Fault): Outcome<T> {
    Outcome(s, Failure(e))
  }

  /** The older state as seen from the current interface's state: everything but the log. */
  function Forget(s: MotorModel.MotorState): LegacyState {
    LegacyState(s.link, s.mId, s.offset, s.mode)
  }

  /** `_sendCommand(cmd, returnType)`: only a failed conversion is turned into MotorException. */
  function Send(c: Codec, s: LegacyState, cmd: string, kind: Kind): (o: Outcome<Value>)
    ensures o.result.Success? ==> HasKind(o.result.value, kind)
  {
    var a := Transact(s.link, cmd + "\n");
    if a.reply.None? then Fail(s.(link := a.link), SerialException)
    else match ParseAs(c, kind, Strip(a.reply.value))
      case Some(v) => Outcome(s.(link := a.link), Success(v))
      case None => Fail(s.(link := a.link), MotorException(LegacyDesync(kind)))
  }

  function Confirm(o: Outcome<Value>, expected: Value, setting: Setting): Outcome<()> {
    if o.result.Failure? then Fail(o.state, o.result.error)
    else if o.result.value == expected then Outcome(o.state, Success(()))
    else Fail(o.state, MotorException(Mismatch(setting, NoDetail)))
  }

  /** `connect`: SerialException from opening escapes; one from the `I` exchange becomes NotImplementedError. */
  function Connect(c: Codec, s: LegacyState): Outcome<()> {
    match OpenPort(s.link)
    case None => Fail(s, SerialException)
    case Some(l) =>
      var o := Send(c, s.(link := l), "I", IntKind);
      if o.result.Failure? then
        Fail(o.state, if o.result.error == SerialException then NotImplementedError(InitializeMessage) else o.result.error)
      else Outcome(o.state.(mId := o.result.value.i), Success(()))
  }

  /** `disconnect`: disable, then close; nothing is caught. */
  function Disconnect(c: Codec, s: LegacyState): Outcome<()> {
    var d := Disable(c, s);
    if d.result.Failure? then d
    else Outcome(d.state.(link := d.state.link.(open := false)), Success(()))
  }

  function ComPrecision(c: Codec, s: LegacyState): Outcome<int> {
    var o := Send(c, s, "#", IntKind);
    if o.result.Failure? then Fail(o.state, o.result.error) else Outcome(o.state, Success(o.result.value.i))
  }

  function Enabled(c: Codec, s: LegacyState): Outcome<bool> {
    var o := Send(c, s, "ME", BoolKind);
    if o.result.Failure? then Fail(o.state, o.result.error) else Outcome(o.state, Success(o.result.value.b))
  }

  function Position(c: Codec, s: LegacyState): Outcome<real> {
    var o := Send(c, s, "MMG6", FloatKind);
    if o.result.Failure? then Fail(o.state, o.result.error)
    else Outcome(o.state, Success(o.result.value.x - s.offset))
  }

  function Velocity(c: Codec, s: LegacyState): Outcome<real> {
    var o := Send(c, s, "MMG5", FloatKind);
    if o.result.Failure? then Fail(o.state, o.result.error) else Outcome(o.state, Success(o.result.value.x))
  }

  function SetComPrecision(c: Codec, s: LegacyState, decimals: int): Outcome<()> {
    if !(1 <= decimals <= 15) then Fail(s, AssertionError(PrecisionMessage))
    else Confirm(Send(c, s, "#" + IntToString(decimals), FloatKind), FloatValue(decimals as real), Setting.ComPrecision)
  }

  function Enable(c: Codec, s: LegacyState): Outcome<()> {
    Confirm(Send(c, s, "ME1", IntKind), IntValue(1), Setting.Enable)
  }

  function Disable(c: Codec, s: LegacyState): Outcome<()> {
    Confirm(Send(c, s, "ME0", IntKind), IntValue(0), Setting.Disable)
  }

  function SetCurrentLimit(c: Codec, s: LegacyState, limit: real): Outcome<()> {
    Confirm(Send(c, s, "MLC" + c.show(limit), FloatKind), FloatValue(limit), Setting.CurrentLimit)
  }

  function SetVoltageLimit(c: Codec, s: LegacyState, limit: real): Outcome<()> {
    Confirm(Send(c, s, "MLU" + c.show(limit), FloatKind), FloatValue(limit), Setting.VoltageLimit)
  }

  function SetVelocityLimit(c: Codec, s: LegacyState, limit: real): Outcome<()> {
    Confirm(Send(c, s, "MLV" + c.show(limit), FloatKind), FloatValue(limit), Setting.VelocityLimit)
  }

  function PidLoop(c: Codec, s: LegacyState, prefix: char, terms: seq<(string, real)>): Outcome<()>
    decreases |terms|
  {
    if terms == [] then Outcome(s, Success(()))
    else
      var o := Confirm(Send(c, s, PidCommand(c, prefix, terms[0]), FloatKind), FloatValue(terms[0].1), Setting.Pids);
      if o.result.Failure? then o else PidLoop(c, o.state, prefix, terms[1..])
  }

  function SetPids(c: Codec, s: LegacyState, stage: string, args: seq<real>, kwargs: seq<(string, real)>): Outcome<()> {
    PidLoop(c, s, PidPrefix(stage), PidTerms(args, kwargs))
  }

  function SetControlMode(c: Codec, s: LegacyState, mode: Mode): Outcome<()> {
    var o := Send(c, s, ModeCommand(mode), StrKind);
    if o.result.Failure? then Fail(o.state, o.result.error)
    else if Prefix3(o.result.value.s) != Prefix3(ModeName(mode)) then
      Fail(o.state, MotorException(Mismatch(ControlMode, NoDetail)))
    else Outcome(o.state.(mode := mode), Success(()))
  }

  function MoveTarget(c: Codec, s: LegacyState, pos: real): real {
    if s.mode == Angle then c.round3(pos + s.offset) else pos
  }

  function Move(c: Codec, s: LegacyState, pos: real): Outcome<()> {
    var target := MoveTarget(c, s, pos);
    Confirm(Send(c, s, "M" + c.show(target), FloatKind), FloatValue(target), TargetPosition)
  }

  // ---------------------------------------------------------------------------------------------
  // Properties

  /** The older `_sendCommand`: a write or read failure escapes as SerialException, a bad reply raises MotorException. */
  lemma SendFailures(c: Codec, s: LegacyState, cmd: string, kind: Kind)
    ensures var o := Send(c, s, cmd, kind);
      && (MotorModel.NextText(s.link).None? <==> o.result == Failure(SerialException))
      && (MotorModel.NextText(s.link).Some? && ParseAs(c, kind, MotorModel.NextText(s.link).value).None? <==>
            o.result == Failure(MotorException(LegacyDesync(kind))))
      && (o.result.Success? ==> Some(o.result.value) == ParseAs(c, kind, MotorModel.NextText(s.link).value))
      && o.state == s.(link := Transact(s.link, cmd + "\n").link)
  {
  }

  /**
   * `connect` turns only the SerialException of the `I` exchange into NotImplementedError: a reply
   * that is not an integer stays a MotorException. It succeeds exactly on an integer reply, which
   * becomes the motor id.
   */
  lemma ConnectSetsId(c: Codec, s: LegacyState)
    ensures var o := Connect(c, s);
      && (OpenPort(s.link).None? ==> o == Fail(s, SerialException))
      && (OpenPort(s.link).Some? ==>
            var reply := MotorModel.NextText(OpenPort(s.link).value);
            && o.state.link.open && o.state.link.sent == s.link.sent + ["I\n"]
            && (o.result.Success? <==> reply.Some? && ParseInt(reply.value).Some?)
            && (reply.None? ==> o.result == Failure(NotImplementedError(InitializeMessage)))
            && (reply.Some? && ParseInt(reply.value).None? ==> o.result == Failure(MotorException(LegacyDesync(IntKind))))
            && (o.result.Success? ==> o.state.mId == ParseInt(reply.value).value))
      && (o.result.Failure? ==> o.state.mId == s.mId)
  {
    assert "I" + "\n" == "I\n";
  }

  /** `disconnect` sends the disable command first and closes the port only once it was confirmed. */
  lemma DisconnectDisablesFirst(c: Codec, s: LegacyState)
    ensures var o := Disconnect(c, s);
      && (s.link.open ==> o.state.link.sent == s.link.sent + ["ME0\n"])
      && (o.result.Success? <==> Disable(c, s).result.Success?)
      && (o.result.Success? ==> !o.state.link.open)
      && (o.result.Failure? ==> o == Disable(c, s))
  {
    assert "ME0" + "\n" == "ME0\n";
  }

  /** The older interface writes the same lines, reads the same replies and ends in the same settings as the current one. */
  lemma {:induction false} PidsAgree(c: Codec, s: MotorModel.MotorState, prefix: char, terms: seq<(string, real)>)
    ensures var o := MotorModel.PidLoop(c, s, prefix, terms); var p := PidLoop(c, Forget(s), prefix, terms);
      p.state == Forget(o.state) && p.result.Success? == o.result.Success?
    decreases |terms|
  {
    if terms != [] {
      var o := MotorModel.Confirm(MotorModel.Send(c, s, PidCommand(c, prefix, terms[0]), Some(FloatKind)), FloatValue(terms[0].1), Setting.Pids);
      var p := Confirm(Send(c, Forget(s), PidCommand(c, prefix, terms[0]), FloatKind), FloatValue(terms[0].1), Setting.Pids);
      assert p.state == Forget(o.state) && p.result.Success? == o.result.Success?;
      if o.result.Success? {
        PidsAgree(c, o.state, prefix, terms[1..]);
      }
    }
  }

  /** One exchange: both versions move the link the same way and read the same value. */
  lemma SendAgrees(c: Codec, s: MotorModel.MotorState, cmd: string, kind: Kind)
    ensures var o := MotorModel.Send(c, s, cmd, Some(kind)); var p := Send(c, Forget(s), cmd, kind);
      && p.state == Forget(o.state) && p.result.Success? == o.result.Success?
      && (p.result.Success? ==> p.result.value == o.result.value)
  {
  }

  /** Both versions of `move` agree on the wire, on success and on the fields they set. */
  lemma MoveAgrees(c: Codec, s: MotorModel.MotorState, pos: real)
    ensures var o := MotorModel.Move(c, s, pos); var p := Move(c, Forget(s), pos);
      p.state == Forget(o.state) && p.result.Success? == o.result.Success?
  {
    SendAgrees(c, s, "M" + c.show(MotorModel.MoveTarget(c, s, pos)), FloatKind);
  }

  /** Both versions of the control-mode setter agree, the mode they store included. */
  lemma ControlModeAgrees(c: Codec, s: MotorModel.MotorState, mode: Mode)
    ensures var o := MotorModel.SetControlMode(c, s, mode); var p := SetControlMode(c, Forget(s), mode);
      p.state == Forget(o.state) && p.result.Success? == o.result.Success?
  {
    SendAgrees(c, s, ModeCommand(mode), StrKind);
  }

  /** Both versions of enable, disconnect and the precision setter agree; the precision guard fails identically. */
  lemma SettersAgree(c: Codec, s: MotorModel.MotorState, decimals: int)
    ensures var o := MotorModel.Enable(c, s); var p := Enable(c, Forget(s));
      p.state == Forget(o.state) && p.result.Success? == o.result.Success?
    ensures var o := MotorModel.Disconnect(c, s); var p := Disconnect(c, Forget(s));
      p.state == Forget(o.state) && p.result.Success? == o.result.Success?
    ensures var o := MotorModel.SetComPrecision(c, s, decimals); var p := SetComPrecision(c, Forget(s), decimals);
      p.state == Forget(o.state) && p.result.Success? == o.result.Success?
      && (!(1 <= decimals <= 15) ==> p.result == o.result)
  {
    SendAgrees(c, s, "ME1", IntKind);
    SendAgrees(c, s, "ME0", IntKind);
    SendAgrees(c, s, "#" + IntToString(decimals), FloatKind);
  }

  /** Both versions read the same position. */
  lemma PositionAgrees(c: Codec, s: MotorModel.MotorState)
    ensures var o := MotorModel.Position(c, s); var p := Position(c, Forget(s));
      p.state == Forget(o.state) && p.result.Success? == o.result.Success?
      && (p.result.Success? ==> p.result.value == o.result.value)
  {
    SendAgrees(c, s, "MMG6", FloatKind);
  }

  /** The older `move` in angle mode also commands the offset-adjusted, rounded position, and fails exactly on a different echo. */
  lemma MoveConfirms(c: Codec, s: LegacyState, pos: real)
    ensures var o := Move(c, s, pos);
      && (s.link.open ==> o.state.link.sent == s.link.sent + ["M" + c.show(MoveTarget(c, s, pos)) + "\n"])
      && (!s.link.open ==> o == Fail(s, SerialException))
      && (o.result.Success? <==> MotorModel.Echoes(c, s.link, MoveTarget(c, s, pos)))
      && (s.mode == Angle ==> MoveTarget(c, s, pos) == c.round3(pos + s.offset))
      && o.state.mode == s.mode && o.state.offset == s.offset
  {
  }

  /** The older `setControlMode` changes the mode exactly when the three-character prefix matches. */
  lemma ControlModeOnlyOnConfirm(c: Codec, s: LegacyState, mode: Mode)
    ensures var o := SetControlMode(c, s, mode);
      && (o.result.Success? <==> MotorModel.NextText(s.link).Some? && Prefix3(MotorModel.NextText(s.link).value) == Prefix3(ModeName(mode)))
      && o.state.mode == (if o.result.Success? then mode else s.mode)
  {
  }
}
