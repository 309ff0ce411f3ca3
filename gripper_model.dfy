/**
 * The motor-driven gripper (hardware/FOCBLDCEndEffector.py) as functions over the state of the
 * motor it drives: it accepts only the controller whose id is 5, maps 0..100 onto motor angles,
 * and rewraps motor errors as EndEffectorException.
 */
module GripperModel {
  import opened Wrappers
  import opened Numerals
  import opened Protocol
  import opened MotorModel

  const AscertainMessage := "Could not assertain motor ID."
  const ConformMessage := "Motor does not conform to ID protocol."
  const ConnectMessage := "Could not connect to end effector."
  const DisconnectMessage := "Could not disconnect from end effector."
  const MoveMessage := "Could not move end effector."

  /** The id a gripper controller reports. */
  const GripperId := 5

  /** `value_range`. */
  const ValueRange: (int, int) := (0, 100)

  /** The torque-limiting voltage the gripper sets. */
  const GripVoltage: real := 6.0

  /**
   * `FOCBLDC(port)`: connect the motor; a MotorException while connecting becomes "could not
   * ascertain", an id other than 5 is refused; then angle mode and a voltage limit of 6, whose
   * failures escape unchanged, as do serial failures while connecting.
   */
  function Init(c: Codec, s: MotorState): Outcome<()> {
    var o := Connect(c, s);
    if o.result.Failure? then
      Fail(o.state, if o.result.error.MotorException? then EndEffectorException(AscertainMessage) else o.result.error)
    else if o.state.mId != GripperId then Fail(o.state, EndEffectorException(ConformMessage))
    else
      var m := SetControlMode(c, o.state, Angle);
      if m.result.Failure? then m else SetVoltageLimit(c, m.state, GripVoltage)
  }

  /** `9*(target-50)/20`: the motor angle for a gripper position. */
  function MotorTarget(target: real): real {
    9.0 * (target - 50.0) / 20.0
  }

  /** `move`: only a MotorException is rewrapped. */
  function Move(c: Codec, s: MotorState, target: real): Outcome<()> {
    var o := MotorModel.Move(c, s, MotorTarget(target));
    if o.result.Failure? && o.result.error.MotorException? then Fail(o.state, EndEffectorException(MoveMessage)) else o
  }

  /** `connect` and `disconect`: every failure is rewrapped. */
  function Reconnect(c: Codec, s: MotorState): Outcome<()> {
    var o := Connect(c, s);
    if o.result.Failure? then Fail(o.state, EndEffectorException(ConnectMessage)) else o
  }

  function Disconnect(c: Codec, s: MotorState): Outcome<()> {
    var o := MotorModel.Disconnect(c, s);
    if o.result.Failure? then Fail(o.state, EndEffectorException(DisconnectMessage)) else o
  }

  // ---------------------------------------------------------------------------------------------
  // Properties

  /**
   * A gripper comes up only on a controller reporting id 5, having then set angle mode and a 6 V
   * limit, in that order. A port that cannot be opened raises SerialException with nothing sent.
   */
  lemma InitAcceptsOnlyId5(c: Codec, s: MotorState)
    ensures var o := Init(c, s);
      && (OpenPort(s.link).None? ==> o == Fail(s, SerialException))
      && (OpenPort(s.link).Some? ==>
            var l := OpenPort(s.link).value;
            && (o.result.Success? ==>
                  && NextText(l).Some? && ParseInt(NextText(l).value) == Some(GripperId)
                  && o.state.mId == GripperId && o.state.mode == Angle
                  && o.state.link.sent == s.link.sent + ["I\n", "MC2\n", "MLU" + c.show(GripVoltage) + "\n"])
            && (NextText(l).Some? && ParseInt(NextText(l).value).Some? && ParseInt(NextText(l).value) != Some(GripperId) ==>
                  o.result == Failure(EndEffectorException(ConformMessage)) && o.state.link.sent == s.link.sent + ["I\n"])
            && (NextText(l).Some? && ParseInt(NextText(l).value).None? ==>
                  o.result == Failure(EndEffectorException(AscertainMessage))))
  {
    ConnectSetsId(c, s);
    var o := Connect(c, s);
    if o.result.Success? && o.state.mId == GripperId {
      var m := SetControlMode(c, o.state, Angle);
      assert ModeCommand(Angle) + "\n" == "MC2\n";
      if m.result.Success? {
        LimitsEcho(c, m.state, GripVoltage);
      }
    }
  }

  /** The gripper mapping is strictly increasing and centred: 50 is angle 0, and 0 and 100 are -22.5 and 22.5. */
  lemma MotorTargetMonotone(a: real, b: real)
    ensures a < b ==> MotorTarget(a) < MotorTarget(b)
    ensures MotorTarget(50.0) == 0.0
    ensures MotorTarget(ValueRange.0 as real) == -22.5 && MotorTarget(ValueRange.1 as real) == 22.5
    ensures MotorTarget(100.0 - a) == -MotorTarget(a)
  {
  }

  /** `move` commands the mapped angle, with no clamping, and rewraps only motor errors. */
  lemma MoveWraps(c: Codec, s: MotorState, target: real)
    ensures var o := Move(c, s, target); var p := MotorModel.Move(c, s, MotorTarget(target));
      && o.state == p.state
      && o.result.Success? == p.result.Success?
      && (p.result.Failure? && p.result.error.MotorException? ==> o.result == Failure(EndEffectorException(MoveMessage)))
      && (p.result.Failure? && !p.result.error.MotorException? ==> o.result == p.result)
  {
  }

  /** `connect` and `disconect` succeed exactly when the motor's do and otherwise raise EndEffectorException. */
  lemma ConnectionWraps(c: Codec, s: MotorState)
    ensures Reconnect(c, s).result.Success? == Connect(c, s).result.Success?
    ensures Reconnect(c, s).result.Failure? ==> Reconnect(c, s).result.error == EndEffectorException(ConnectMessage)
    ensures Disconnect(c, s).result.Success? == MotorModel.Disconnect(c, s).result.Success?
    ensures Disconnect(c, s).result.Failure? ==> Disconnect(c, s).result.error == EndEffectorException(DisconnectMessage)
    ensures s.link.open ==> Reconnect(c, s) == Fail(s, EndEffectorException(ConnectMessage))
  {
  }
}
