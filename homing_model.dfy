/**
 * The arm's three homing procedures (`System.auto_calibrate`, `System.absolute_home` and
 * `System.single_ended_home` in lib/system.py) as functions over one motor's state. Each wait for
 * the motor to come to rest polls `velocity` until its magnitude is at most the threshold; the
 * one-second and tenth-of-a-second sleeps between polls are not modelled.
 */
module HomingModel {
  import opened Wrappers
  import opened Numerals
  import opened Text
  import opened Protocol
  import opened MotorModel
  import Kinematics

  const CalibrateMessage := "Failed to calibrate motor."
  const HomeMessage := "Failed to home motor."

  function Abs(x: real): real {
    if x < 0.0 then -x else x
  }

  /** Pass a failure on unchanged. */
  function Stop<T, U>(o: Outcome<T>): Outcome<U>
    requires o.result.Failure?
  {
    Fail(o.state, o.result.error)
  }

  /** `except MotorException: raise NotImplementedError(msg)` on a result: only motor exceptions are replaced. */
  function Rethrow<T>(r: Result<T, Fault>, msg: string): (w: Result<T, Fault>)
    ensures w.Failure? <==> r.Failure?
    ensures w.Success? ==> w == r
    ensures w.Failure? ==> !w.error.MotorException?
    ensures w.Failure? && !r.error.MotorException? ==> w == r
    ensures r.Failure? && r.error.MotorException? ==> w == Failure(NotImplementedError(msg))
  {
    if r.Failure? && r.error.MotorException? then Failure(NotImplementedError(msg)) else r
  }

  /** The same handler around an operation: the state it reached is kept. */
  function Wrap<T>(o: Outcome<T>, msg: string): Outcome<T> {
    Outcome(o.state, Rethrow(o.result, msg))
  }

  /** A velocity reading that succeeds has consumed one of the controller's replies. */
  lemma VelocityConsumes(c: Codec, s: MotorState)
    requires Sound(c)
    ensures MotorModel.Velocity(c, s).result.Success? ==> |MotorModel.Velocity(c, s).state.link.replies| < |s.link.replies|
  {
    ReadingsAndOffset(c, s);
    assert Strip("") == "";
  }

  /** `while abs(motor.velocity) > zeroSpeed`: poll until a reading is at most the threshold in magnitude, and return that reading. */
  function Settle(c: Codec, s: MotorState, zeroSpeed: real): (o: Outcome<real>)
    requires Sound(c)
    ensures o.result.Success? ==> Abs(o.result.value) <= zeroSpeed
    decreases |s.link.replies|
  {
    var v := MotorModel.Velocity(c, s);
    if v.result.Success? && Abs(v.result.value) > zeroSpeed then
      VelocityConsumes(c, s);
      Settle(c, v.state, zeroSpeed)
    else v
  }

  function Repeat(line: string, k: nat): (r: seq<string>)
    ensures |r| == k && forall i :: 0 <= i < k ==> r[i] == line
  {
    if k == 0 then [] else Repeat(line, k - 1) + [line]
  }

  /** Waiting for rest writes nothing but velocity queries, at least one, and keeps the motor's settings. */
  lemma {:induction false} SettlePolls(c: Codec, s: MotorState, zeroSpeed: real)
    requires Sound(c) && s.link.open
    ensures var o := Settle(c, s, zeroSpeed);
      && SameSettings(s, o.state) && o.state.link.open
      && exists k :: 1 <= k && o.state.link.sent == s.link.sent + Repeat("MMG5\n", k)
    decreases |s.link.replies|
  {
    var v := MotorModel.Velocity(c, s);
    ReadingsAndOffset(c, s);
    SendEffect(c, s, "MMG5", Some(FloatKind));
    assert s.link.sent + Repeat("MMG5\n", 1) == v.state.link.sent;
    if v.result.Success? && Abs(v.result.value) > zeroSpeed {
      VelocityConsumes(c, s);
      SettlePolls(c, v.state, zeroSpeed);
      var o := Settle(c, v.state, zeroSpeed);
      var k :| 1 <= k && o.state.link.sent == v.state.link.sent + Repeat("MMG5\n", k);
      assert Repeat("MMG5\n", 1) + Repeat("MMG5\n", k) == Repeat("MMG5\n", k + 1);
    }
  }

  /** `move` keeps the motor's settings and whether its port is open. */
  lemma MoveKeeps(c: Codec, s: MotorState, x: real)
    ensures SameSettings(s, Move(c, s, x).state) && Move(c, s, x).state.link.open == s.link.open
  {
    SendEffect(c, s, "M" + c.show(MoveTarget(c, s, x)), Some(FloatKind));
  }

  lemma EnableKeeps(c: Codec, s: MotorState)
    ensures SameSettings(s, MotorModel.Enable(c, s).state) && MotorModel.Enable(c, s).state.link.open == s.link.open
  {
    SendEffect(c, s, "ME1", Some(IntKind));
  }

  lemma DisableKeeps(c: Codec, s: MotorState)
    ensures SameSettings(s, MotorModel.Disable(c, s).state) && MotorModel.Disable(c, s).state.link.open == s.link.open
  {
    SendEffect(c, s, "ME0", Some(IntKind));
  }

  lemma PositionKeeps(c: Codec, s: MotorState)
    ensures SameSettings(s, Position(c, s).state) && Position(c, s).state.link.open == s.link.open
  {
    SendEffect(c, s, "MMG6", Some(FloatKind));
  }

  lemma VelocityKeeps(c: Codec, s: MotorState)
    ensures SameSettings(s, MotorModel.Velocity(c, s).state) && MotorModel.Velocity(c, s).state.link.open == s.link.open
  {
    SendEffect(c, s, "MMG5", Some(FloatKind));
  }

  lemma VoltageLimitKeeps(c: Codec, s: MotorState, x: real)
    ensures SameSettings(s, SetVoltageLimit(c, s, x).state) && SetVoltageLimit(c, s, x).state.link.open == s.link.open
  {
    SendEffect(c, s, "MLU" + c.show(x), Some(FloatKind));
  }

  /** Wait for rest, command 0, then read the position: the rest reading each homing procedure takes. */
  function Rest(c: Codec, s: MotorState, zeroSpeed: real): Outcome<real>
    requires Sound(c)
  {
    var o1 := Settle(c, s, zeroSpeed);
    if o1.result.Failure? then Stop(o1) else
    var o2 := Move(c, o1.state, 0.0);
    if o2.result.Failure? then Stop(o2) else
    Position(c, o2.state)
  }

  /** Taking a rest reading keeps the motor's settings. */
  lemma RestIsQuiet(c: Codec, s: MotorState, zeroSpeed: real)
    requires Sound(c)
    ensures SameSettings(s, Rest(c, s, zeroSpeed).state)
  {
    var o1 := Settle(c, s, zeroSpeed);
    SettleIsQuiet(c, s, zeroSpeed);
    MoveKeeps(c, o1.state, 0.0);
    PositionKeeps(c, Move(c, o1.state, 0.0).state);
  }

  /**
   * A rest reading that succeeds was taken on an open port after a velocity reading within the
   * threshold: it wrote velocity queries, at least one, then the move to 0, then one position query.
   */
  lemma RestEffect(c: Codec, s: MotorState, zeroSpeed: real)
    requires Sound(c)
    ensures var o := Rest(c, s, zeroSpeed);
      o.result.Success? ==>
        && s.link.open && o.state.link.open
        && Settle(c, s, zeroSpeed).result.Success? && Abs(Settle(c, s, zeroSpeed).result.value) <= zeroSpeed
        && exists k :: 1 <= k && o.state.link.sent ==
             s.link.sent + Repeat("MMG5\n", k) + ["M" + c.show(MoveTarget(c, s, 0.0)) + "\n", "MMG6\n"]
  {
    var o := Rest(c, s, zeroSpeed);
    if o.result.Success? {
      var o1 := Settle(c, s, zeroSpeed);
      VelocityKeeps(c, s);
      if !s.link.open {
        SendEffect(c, s, "MMG5", Some(FloatKind));
        assert false;
      }
      SettlePolls(c, s, zeroSpeed);
      var k :| 1 <= k && o1.state.link.sent == s.link.sent + Repeat("MMG5\n", k);
      var o2 := Move(c, o1.state, 0.0);
      MoveConfirms(c, o1.state, 0.0);
      SendEffect(c, o2.state, "MMG6", Some(FloatKind));
      assert "MMG6" + "\n" == "MMG6\n";
      var m := "M" + c.show(MoveTarget(c, s, 0.0)) + "\n";
      assert s.link.sent + Repeat("MMG5\n", k) + [m] + ["MMG6\n"] == s.link.sent + Repeat("MMG5\n", k) + [m, "MMG6\n"];
    }
  }

  // ---------------------------------------------------------------------------------------------
  // auto_calibrate

  /** Velocity mode under the voltage limit, commanded to `-speed`, then enabled: the start of the sweep. */
  function Drive(c: Codec, s: MotorState, voltage: real, speed: real): Outcome<()> {
    var o1 := SetVoltageLimit(c, s, voltage);
    if o1.result.Failure? then o1 else
    var o2 := SetControlMode(c, o1.state, Mode.Velocity);
    if o2.result.Failure? then o2 else
    var o3 := Move(c, o2.state, -speed);
    if o3.result.Failure? then o3 else
    MotorModel.Enable(c, o3.state)
  }

  /** Starting the sweep changes neither the motor id nor the offset. */
  lemma DriveKeepsOffset(c: Codec, s: MotorState, voltage: real, speed: real)
    ensures var o := Drive(c, s, voltage, speed);
      o.state.mId == s.mId && o.state.offset == s.offset
  {
    var o1 := SetVoltageLimit(c, s, voltage);
    VoltageLimitKeeps(c, s, voltage);
    var o2 := SetControlMode(c, o1.state, Mode.Velocity);
    ControlModeOnlyOnConfirm(c, o1.state, Mode.Velocity);
    var o3 := Move(c, o2.state, -speed);
    MoveKeeps(c, o2.state, -speed);
    EnableKeeps(c, o3.state);
  }

  /** The two rest positions after driving the motor at `-speed` and then at `speed` in velocity mode. */
  function Sweep(c: Codec, s: MotorState, voltage: real, speed: real, zeroSpeed: real): Outcome<(real, real)>
    requires Sound(c)
  {
    var o1 := Drive(c, s, voltage, speed);
    if o1.result.Failure? then Stop(o1) else
    var low := Rest(c, o1.state, zeroSpeed);
    if low.result.Failure? then Stop(low) else
    var o2 := Move(c, low.state, speed);
    if o2.result.Failure? then Stop(o2) else
    var high := Rest(c, o2.state, zeroSpeed);
    if high.result.Failure? then Stop(high) else
    Outcome(high.state, Success((low.result.value, high.result.value)))
  }

  /** The sweep changes neither the motor id nor the offset. */
  lemma SweepKeepsOffset(c: Codec, s: MotorState, voltage: real, speed: real, zeroSpeed: real)
    requires Sound(c)
    ensures var o := Sweep(c, s, voltage, speed, zeroSpeed);
      o.state.mId == s.mId && o.state.offset == s.offset
  {
    var o1 := Drive(c, s, voltage, speed);
    DriveKeepsOffset(c, s, voltage, speed);
    var low := Rest(c, o1.state, zeroSpeed);
    RestIsQuiet(c, o1.state, zeroSpeed);
    var o2 := Move(c, low.state, speed);
    MoveKeeps(c, low.state, speed);
    RestIsQuiet(c, o2.state, zeroSpeed);
  }

  /** The offset set to the centre of the two rest positions, then angle mode and `move(0)`. */
  function Centre(c: Codec, s: MotorState, low: real, high: real): Outcome<(real, real, real)> {
    var centre := (low + high) / 2.0;
    var o1 := SetControlMode(c, s.(offset := centre), Angle);
    if o1.result.Failure? then Stop(o1) else
    var o2 := Move(c, o1.state, 0.0);
    if o2.result.Failure? then Stop(o2) else
    Outcome(o2.state, Success((low, high, centre)))
  }

  /** Centring writes `MC2` and then the move to 0 relative to the new offset, and returns the two positions with their centre. */
  lemma CentreEffect(c: Codec, s: MotorState, low: real, high: real)
    ensures var o := Centre(c, s, low, high);
      && o.state.mId == s.mId
      && (o.result.Success? ==>
            && o.result.value == (low, high, (low + high) / 2.0)
            && o.state.offset == (low + high) / 2.0 && o.state.mode == Angle
            && o.state.link.sent == s.link.sent + ["MC2\n", "M" + c.show(MoveTarget(c, o.state, 0.0)) + "\n"])
  {
    var t := s.(offset := (low + high) / 2.0);
    var o1 := SetControlMode(c, t, Angle);
    ControlModeOnlyOnConfirm(c, t, Angle);
    SendEffect(c, t, "MC2", Some(StrKind));
    assert ModeCommand(Angle) == "MC2" && "MC2" + "\n" == "MC2\n";
    if o1.result.Success? {
      MoveConfirms(c, o1.state, 0.0);
      var m := "M" + c.show(MoveTarget(c, o1.state, 0.0)) + "\n";
      assert s.link.sent + ["MC2\n"] + [m] == s.link.sent + ["MC2\n", m];
    }
  }

  /** A sweep that succeeds returns the rest reading after the drive at `-speed`, then the one after the move to `speed`. */
  lemma SweepReadsRests(c: Codec, s: MotorState, voltage: real, speed: real, zeroSpeed: real)
    requires Sound(c)
    ensures var o := Sweep(c, s, voltage, speed, zeroSpeed);
      var drive := Drive(c, s, voltage, speed);
      var low := Rest(c, drive.state, zeroSpeed);
      var high := Rest(c, Move(c, low.state, speed).state, zeroSpeed);
      o.result.Success? ==>
        && drive.result.Success? && low.result.Success? && Move(c, low.state, speed).result.Success? && high.result.Success?
        && o == Outcome(high.state, Success((low.result.value, high.result.value)))
  {
  }

  /** The sweep, then centring on its two rest positions. */
  function Calibrate(c: Codec, s: MotorState, voltage: real, speed: real, zeroSpeed: real): Outcome<(real, real, real)>
    requires Sound(c)
  {
    var sweep := Sweep(c, s, voltage, speed, zeroSpeed);
    if sweep.result.Failure? then Stop(sweep) else
    Centre(c, sweep.state, sweep.result.value.0, sweep.result.value.1)
  }

  /** `auto_calibrate(motor, voltage, speed, zeroSpeed)`. */
  function AutoCalibrate(c: Codec, s: MotorState, voltage: real, speed: real, zeroSpeed: real): Outcome<(real, real, real)>
    requires Sound(c)
  {
    Wrap(Calibrate(c, s, voltage, speed, zeroSpeed), CalibrateMessage)
  }

  /**
   * A calibration that succeeds returns the sweep's two rest positions and leaves the motor in
   * angle mode with its offset at their centre, after writing `MC2` and the move to 0 relative to
   * that offset; it keeps the motor id. A motor exception never escapes: it becomes
   * NotImplementedError('Failed to calibrate motor.').
   */
  lemma CalibrationCentres(c: Codec, s: MotorState, voltage: real, speed: real, zeroSpeed: real)
    requires Sound(c)
    ensures var o := AutoCalibrate(c, s, voltage, speed, zeroSpeed);
      var sweep := Sweep(c, s, voltage, speed, zeroSpeed);
      && (o.result.Success? ==>
            && sweep.result.Success?
            && o.result.value.0 == sweep.result.value.0 && o.result.value.1 == sweep.result.value.1
            && o.result.value.2 == (o.result.value.0 + o.result.value.1) / 2.0
            && o.state.offset == o.result.value.2
            && o.state.link.sent == sweep.state.link.sent + ["MC2\n", "M" + c.show(MoveTarget(c, o.state, 0.0)) + "\n"]
            && o.state.mode == Angle && o.state.mId == s.mId)
      && (o.result.Failure? ==> !o.result.error.MotorException?)
      && (Calibrate(c, s, voltage, speed, zeroSpeed).result.Failure? &&
          Calibrate(c, s, voltage, speed, zeroSpeed).result.error.MotorException? ==>
            o.result.error == NotImplementedError(CalibrateMessage))
  {
    var sweep := Sweep(c, s, voltage, speed, zeroSpeed);
    SweepKeepsOffset(c, s, voltage, speed, zeroSpeed);
    if sweep.result.Success? {
      CentreEffect(c, sweep.state, sweep.result.value.0, sweep.result.value.1);
    }
  }

  /** Waiting for rest keeps the motor's settings. */
  lemma {:induction false} SettleIsQuiet(c: Codec, s: MotorState, zeroSpeed: real)
    requires Sound(c)
    ensures SameSettings(s, Settle(c, s, zeroSpeed).state)
    decreases |s.link.replies|
  {
    var v := MotorModel.Velocity(c, s);
    VelocityKeeps(c, s);
    if v.result.Success? && Abs(v.result.value) > zeroSpeed {
      VelocityConsumes(c, s);
      SettleIsQuiet(c, v.state, zeroSpeed);
    }
  }

  // ---------------------------------------------------------------------------------------------
  // absolute_home

  /** The offset `absolute_home` picks for a reading: the centre inside the calibrated range, else the centre a turn away on the reading's side. */
  function HomeOffset(p: real, low: real, high: real, center: real): real {
    if low <= p <= high then center
    else if p < low then center - 2.0 * Kinematics.Pi
    else center + 2.0 * Kinematics.Pi
  }

  /** Angle mode, `move(0)`, then enable: how `absolute_home` ends once the offset is chosen. */
  function Aim(c: Codec, s: MotorState): Outcome<()> {
    var o1 := SetControlMode(c, s, Angle);
    if o1.result.Failure? then o1 else
    var o2 := Move(c, o1.state, 0.0);
    if o2.result.Failure? then o2 else
    MotorModel.Enable(c, o2.state)
  }

  /** On an open port, a successful aim writes `MC2`, the move to the offset itself, and `ME1`, and ends in angle mode. */
  lemma AimSends(c: Codec, s: MotorState)
    requires s.link.open
    ensures var o := Aim(c, s);
      && o.state.offset == s.offset && o.state.mId == s.mId
      && (o.result.Success? ==>
            && o.state.mode == Angle
            && o.state.link.sent == s.link.sent + ["MC2\n", "M" + c.show(c.round3(0.0 + s.offset)) + "\n", "ME1\n"])
  {
    var o1 := SetControlMode(c, s, Angle);
    ControlModeOnlyOnConfirm(c, s, Angle);
    assert ModeCommand(Angle) == "MC2";
    SendEffect(c, s, "MC2", Some(StrKind));
    assert "MC2" + "\n" == "MC2\n";
    if o1.result.Success? {
      assert o1.state.link.sent == s.link.sent + ["MC2\n"];
      var o2 := Move(c, o1.state, 0.0);
      assert MoveTarget(c, o1.state, 0.0) == c.round3(0.0 + s.offset);
      MoveConfirms(c, o1.state, 0.0);
      if o2.result.Success? {
        SendEffect(c, o2.state, "ME1", Some(IntKind));
        assert "ME1" + "\n" == "ME1\n";
        var m := "M" + c.show(c.round3(0.0 + s.offset)) + "\n";
        assert o2.state.link.sent == s.link.sent + ["MC2\n"] + [m];
      }
    }
  }

  /**
   * On success the motor is in angle mode with its offset kept, after `MC2`, the move to the offset
   * itself, and `ME1`. On a closed port nothing is written and the motor reports itself disconnected.
   */
  lemma AimEffect(c: Codec, s: MotorState)
    ensures var o := Aim(c, s);
      && o.state.offset == s.offset && o.state.mId == s.mId
      && (!s.link.open ==> o.state == s && o.result == Failure(NotImplementedError(DisconnectedMessage)))
      && (o.result.Success? ==>
            && o.state.mode == Angle
            && o.state.link.sent == s.link.sent + ["MC2\n", "M" + c.show(c.round3(0.0 + s.offset)) + "\n", "ME1\n"])
  {
    if s.link.open {
      AimSends(c, s);
    } else {
      assert ModeCommand(Angle) == "MC2";
      SendEffect(c, s, "MC2", Some(StrKind));
    }
  }

  function Home(c: Codec, s: MotorState, low: real, high: real, center: real): Outcome<()> {
    var p := Position(c, s);
    if p.result.Failure? then Stop(p) else
    Aim(c, p.state.(offset := HomeOffset(p.result.value, low, high, center)))
  }

  /** `absolute_home(motor, low, high, center)`. */
  function AbsoluteHome(c: Codec, s: MotorState, low: real, high: real, center: real): Outcome<()> {
    Wrap(Home(c, s, low, high, center), HomeMessage)
  }

  /**
   * Absolute homing reads the position once, chooses the offset from it by the calibrated range,
   * then sets angle mode, moves to 0 and enables, in that order; on success the motor is in angle
   * mode with that offset. A motor exception becomes NotImplementedError('Failed to home motor.').
   */
  lemma HomeChoosesOffset(c: Codec, s: MotorState, low: real, high: real, center: real)
    ensures var o := AbsoluteHome(c, s, low, high, center);
      var p := Position(c, s).result;
      && (o.result.Success? ==>
            var offset := HomeOffset(p.value, low, high, center);
            && o.state.offset == offset && o.state.mode == Angle
            && o.state.link.sent == s.link.sent + ["MMG6\n", "MC2\n", "M" + c.show(c.round3(0.0 + offset)) + "\n", "ME1\n"])
      && (p.Failure? ==> o.result.Failure?)
      && (!s.link.open ==> o.state == s && o.result == Failure(NotImplementedError(DisconnectedMessage)))
      && (o.result.Failure? ==> !o.result.error.MotorException?)
      && (Home(c, s, low, high, center).result.Failure? && Home(c, s, low, high, center).result.error.MotorException? ==>
            o.result.error == NotImplementedError(HomeMessage))
  {
    var p := Position(c, s);
    ReadingsAndOffset(c, s);
    PositionKeeps(c, s);
    SendEffect(c, s, "MMG6", Some(FloatKind));
    if p.result.Success? {
      var offset := HomeOffset(p.result.value, low, high, center);
      var t := p.state.(offset := offset);
      AimEffect(c, t);
      var m := "M" + c.show(c.round3(0.0 + offset)) + "\n";
      assert s.link.sent + ["MMG6\n"] + ["MC2\n", m, "ME1\n"] == s.link.sent + ["MMG6\n", "MC2\n", m, "ME1\n"];
    }
  }

  /**
   * For a calibrated range narrower than one turn, a reading that is one turn away from a position
   * `q` inside the range (or is `q` itself) is homed as `q`: the reading less the chosen offset is
   * `q` less the centre. This is what lets the motor be homed whichever turn its encoder reports.
   */
  lemma HomeUndoesOneTurn(p: real, q: real, low: real, high: real, center: real)
    requires high - low < 2.0 * Kinematics.Pi
    requires low <= q <= high
    requires p == q || p == q - 2.0 * Kinematics.Pi || p == q + 2.0 * Kinematics.Pi
    ensures p - HomeOffset(p, low, high, center) == q - center
  {
  }

  // ---------------------------------------------------------------------------------------------
  // single_ended_home

  /** Torque mode, `move(voltage)`, then enable: the motor is driven against its end stop. */
  function Press(c: Codec, s: MotorState, voltage: real): Outcome<()> {
    var o1 := SetControlMode(c, s, Torque);
    if o1.result.Failure? then o1 else
    var o2 := Move(c, o1.state, voltage);
    if o2.result.Failure? then o2 else
    MotorModel.Enable(c, o2.state)
  }

  /** Pressing against the end stop changes neither the motor id nor the offset, and on success leaves torque mode. */
  lemma PressKeepsOffset(c: Codec, s: MotorState, voltage: real)
    ensures var o := Press(c, s, voltage);
      && o.state.mId == s.mId && o.state.offset == s.offset
      && (o.result.Success? ==> o.state.mode == Torque)
  {
    var o1 := SetControlMode(c, s, Torque);
    ControlModeOnlyOnConfirm(c, s, Torque);
    var o2 := Move(c, o1.state, voltage);
    MoveKeeps(c, o1.state, voltage);
    EnableKeeps(c, o2.state);
  }

  function EndHome(c: Codec, s: MotorState, centerOffset: real, voltage: real, zeroSpeed: real, active: bool): Outcome<real>
    requires Sound(c)
  {
    var o3 := Press(c, s, voltage);
    if o3.result.Failure? then Stop(o3) else
    var angle := Rest(c, o3.state, zeroSpeed);
    if angle.result.Failure? then angle else
    var o := Finish(c, angle.state, angle.result.value, centerOffset, active);
    if o.result.Failure? then Stop(o) else Outcome(o.state, angle.result)
  }

  /** What follows the rest reading: take it as the offset and move to `centerOffset` when active, else disable. */
  function Finish(c: Codec, s: MotorState, angle: real, centerOffset: real, active: bool): Outcome<()> {
    if active then
      var o7 := SetControlMode(c, s.(offset := angle), Angle);
      if o7.result.Failure? then o7 else
      Move(c, o7.state, centerOffset)
    else
      MotorModel.Disable(c, s)
  }

  /**
   * When active, the reading becomes the offset, `MC2` and the move to `centerOffset` relative to
   * it are written, and the motor ends in angle mode; otherwise only `ME0` is written and the
   * settings are kept.
   */
  lemma FinishEffect(c: Codec, s: MotorState, angle: real, centerOffset: real, active: bool)
    ensures var o := Finish(c, s, angle, centerOffset, active);
      && o.state.mId == s.mId
      && (o.result.Success? && active ==> o.state.link.sent == s.link.sent + ["MC2\n", "M" + c.show(MoveTarget(c, o.state, centerOffset)) + "\n"])
      && (o.result.Success? && !active ==> o.state.link.sent == s.link.sent + ["ME0\n"])
      && (o.result.Success? && active ==> o.state.offset == angle && o.state.mode == Angle)
      && (o.result.Success? && !active ==> o.state.offset == s.offset && o.state.mode == s.mode)
  {
    if active {
      var t := s.(offset := angle);
      var o7 := SetControlMode(c, t, Angle);
      ControlModeOnlyOnConfirm(c, t, Angle);
      SendEffect(c, t, "MC2", Some(StrKind));
      assert ModeCommand(Angle) == "MC2" && "MC2" + "\n" == "MC2\n";
      if o7.result.Success? {
        MoveConfirms(c, o7.state, centerOffset);
        var m := "M" + c.show(MoveTarget(c, o7.state, centerOffset)) + "\n";
        assert s.link.sent + ["MC2\n"] + [m] == s.link.sent + ["MC2\n", m];
      }
    } else {
      DisableKeeps(c, s);
      SendEffect(c, s, "ME0", Some(IntKind));
      assert "ME0" + "\n" == "ME0\n";
    }
  }

  /** `single_ended_home(motor, centerOffset, voltage, zeroSpeed, active)`. */
  function SingleEndedHome(c: Codec, s: MotorState, centerOffset: real, voltage: real, zeroSpeed: real, active: bool): Outcome<real>
    requires Sound(c)
  {
    Wrap(EndHome(c, s, centerOffset, voltage, zeroSpeed, active), HomeMessage)
  }

  /** A successful single-ended homing is a successful press, rest reading and finish, returning that reading. */
  lemma EndHomeSteps(c: Codec, s: MotorState, centerOffset: real, voltage: real, zeroSpeed: real, active: bool)
    requires Sound(c)
    ensures var o := EndHome(c, s, centerOffset, voltage, zeroSpeed, active);
      var press := Press(c, s, voltage);
      var angle := Rest(c, press.state, zeroSpeed);
      o.result.Success? ==>
        && press.result.Success? && angle.result.Success?
        && Finish(c, angle.state, angle.result.value, centerOffset, active).result.Success?
        && o == Outcome(Finish(c, angle.state, angle.result.value, centerOffset, active).state, angle.result)
  {
  }

  /**
   * Single-ended homing returns the rest reading taken after pressing against the end stop. When
   * active, it then writes `MC2` and the move to `centerOffset` relative to that reading; otherwise
   * it writes only `ME0`.
   */
  lemma EndHomeReturnsRest(c: Codec, s: MotorState, centerOffset: real, voltage: real, zeroSpeed: real, active: bool)
    requires Sound(c)
    ensures var o := SingleEndedHome(c, s, centerOffset, voltage, zeroSpeed, active);
      var press := Press(c, s, voltage);
      var angle := Rest(c, press.state, zeroSpeed);
      o.result.Success? ==>
        && press.result.Success? && angle.result.Success? && o.result == angle.result
        && (active ==> o.state.link.sent == angle.state.link.sent + ["MC2\n", "M" + c.show(MoveTarget(c, o.state, centerOffset)) + "\n"])
        && (!active ==> o.state.link.sent == angle.state.link.sent + ["ME0\n"])
  {
    var e := EndHome(c, s, centerOffset, voltage, zeroSpeed, active);
    if e.result.Success? {
      var press := Press(c, s, voltage);
      EndHomeSteps(c, s, centerOffset, voltage, zeroSpeed, active);
      var angle := Rest(c, press.state, zeroSpeed);
      FinishEffect(c, angle.state, angle.result.value, centerOffset, active);
    }
  }

  /**
   * When active, single-ended homing leaves the motor in angle mode with the returned reading as
   * its offset, so that the move to `centerOffset` is relative to it; otherwise the motor ends in
   * torque mode with its offset unchanged. A motor exception becomes
   * NotImplementedError('Failed to home motor.').
   */
  lemma EndHomeSetsOffset(c: Codec, s: MotorState, centerOffset: real, voltage: real, zeroSpeed: real, active: bool)
    requires Sound(c)
    ensures var o := SingleEndedHome(c, s, centerOffset, voltage, zeroSpeed, active);
      && (o.result.Success? && active ==> o.state.offset == o.result.value && o.state.mode == Angle)
      && (o.result.Success? && !active ==> o.state.offset == s.offset && o.state.mode == Torque)
      && (o.result.Success? ==> o.state.mId == s.mId)
      && (o.result.Failure? ==> !o.result.error.MotorException?)
      && (EndHome(c, s, centerOffset, voltage, zeroSpeed, active).result.Failure? &&
          EndHome(c, s, centerOffset, voltage, zeroSpeed, active).result.error.MotorException? ==>
            o.result.error == NotImplementedError(HomeMessage))
  {
    var e := EndHome(c, s, centerOffset, voltage, zeroSpeed, active);
    if e.result.Success? {
      var press := Press(c, s, voltage);
      EndHomeSteps(c, s, centerOffset, voltage, zeroSpeed, active);
      PressKeepsOffset(c, s, voltage);
      var angle := Rest(c, press.state, zeroSpeed);
      RestIsQuiet(c, press.state, zeroSpeed);
      FinishEffect(c, angle.state, angle.result.value, centerOffset, active);
    }
  }

  /** Active single-ended homing takes the returned reading as the offset and ends in angle mode. */
  lemma ActiveHomeTakesReading(c: Codec, s: MotorState, centerOffset: real, voltage: real, zeroSpeed: real)
    requires Sound(c)
    ensures var o := SingleEndedHome(c, s, centerOffset, voltage, zeroSpeed, true);
      o.result.Success? ==> o.state.offset == o.result.value && o.state.mode == Angle
  {
    EndHomeSetsOffset(c, s, centerOffset, voltage, zeroSpeed, true);
  }
}
