/**
 * The homing procedures of lib/system.py run against a `Motor` object: each method changes the
 * motor's fields and the controller's queue step by step and is proved to end where the matching
 * function of `HomingModel` says.
 */
module Homing {
  import opened Wrappers
  import opened Numerals
  import opened Protocol
  import opened MotorModel
  import opened Motors
  import HomingModel

  /** `while abs(motor.velocity) > zeroSpeed`: poll until a reading is within the threshold, and return it. */
  method WaitForRest(m: Motor, zeroSpeed: real) returns (r: Result<real, Fault>)
    requires m.Valid() && Sound(m.codec)
    modifies m, m.dev
    ensures m.Valid() && Outcome(m.State(), r) == HomingModel.Settle(m.codec, old(m.State()), zeroSpeed)
  {
    ghost var s0 := m.State();
    while true
      invariant m.Valid()
      invariant HomingModel.Settle(m.codec, s0, zeroSpeed) == HomingModel.Settle(m.codec, m.State(), zeroSpeed)
      decreases |m.dev.replies|
    {
      ghost var before := m.State();
      r := m.Velocity();
      if r.Failure? || HomingModel.Abs(r.value) <= zeroSpeed {
        return;
      }
      HomingModel.VelocityConsumes(m.codec, before);
    }
  }

  /** Wait for rest, `move(0)`, then read the position. */
  method Rest(m: Motor, zeroSpeed: real) returns (r: Result<real, Fault>)
    requires m.Valid() && Sound(m.codec)
    modifies m, m.dev
    ensures m.Valid() && Outcome(m.State(), r) == HomingModel.Rest(m.codec, old(m.State()), zeroSpeed)
  {
    var v := WaitForRest(m, zeroSpeed);
    if v.Failure? {
      return Failure(v.error);
    }
    var e := m.Move(0.0);
    if e.Failure? {
      return Failure(e.error);
    }
    r := m.Position();
  }

  /** The voltage limit, velocity mode, `move(-speed)` and `enable` that start the calibration sweep. */
  method Drive(m: Motor, voltage: real, speed: real) returns (r: Result<(), Fault>)
    requires m.Valid()
    modifies m, m.dev
    ensures m.Valid() && Outcome(m.State(), r) == HomingModel.Drive(m.codec, old(m.State()), voltage, speed)
  {
    r := m.SetVoltageLimit(voltage);
    if r.Failure? {
      return;
    }
    r := m.SetControlMode(Mode.Velocity);
    if r.Failure? {
      return;
    }
    r := m.Move(-speed);
    if r.Failure? {
      return;
    }
    r := m.Enable();
  }

  /** Drive one way and take the rest reading, then drive back and take the other. */
  method Sweep(m: Motor, voltage: real, speed: real, zeroSpeed: real) returns (r: Result<(real, real), Fault>)
    requires m.Valid() && Sound(m.codec)
    modifies m, m.dev
    ensures m.Valid() && Outcome(m.State(), r) == HomingModel.Sweep(m.codec, old(m.State()), voltage, speed, zeroSpeed)
  {
    var e := Drive(m, voltage, speed);
    if e.Failure? {
      return Failure(e.error);
    }
    var low := Rest(m, zeroSpeed);
    if low.Failure? {
      return Failure(low.error);
    }
    e := m.Move(speed);
    if e.Failure? {
      return Failure(e.error);
    }
    var high := Rest(m, zeroSpeed);
    if high.Failure? {
      return Failure(high.error);
    }
    r := Success((low.value, high.value));
  }

  /** Set the offset to the centre of the two rest positions, switch to angle mode and `move(0)`. */
  method Centre(m: Motor, low: real, high: real) returns (r: Result<(real, real, real), Fault>)
    requires m.Valid()
    modifies m, m.dev
    ensures m.Valid() && Outcome(m.State(), r) == HomingModel.Centre(m.codec, old(m.State()), low, high)
  {
    m.offset := (low + high) / 2.0;
    var e := m.SetControlMode(Angle);
    if e.Failure? {
      return Failure(e.error);
    }
    e := m.Move(0.0);
    if e.Failure? {
      return Failure(e.error);
    }
    r := Success((low, high, m.offset));
  }

  /** The body of `auto_calibrate`'s `try` block. */
  method Calibrate(m: Motor, voltage: real, speed: real, zeroSpeed: real) returns (r: Result<(real, real, real), Fault>)
    requires m.Valid() && Sound(m.codec)
    modifies m, m.dev
    ensures m.Valid() && Outcome(m.State(), r) == HomingModel.Calibrate(m.codec, old(m.State()), voltage, speed, zeroSpeed)
  {
    var sweep := Sweep(m, voltage, speed, zeroSpeed);
    if sweep.Failure? {
      return Failure(sweep.error);
    }
    r := Centre(m, sweep.value.0, sweep.value.1);
  }

  /** `System.auto_calibrate(motor, voltage, speed, zeroSpeed)`. */
  method AutoCalibrate(m: Motor, voltage: real, speed: real, zeroSpeed: real) returns (r: Result<(real, real, real), Fault>)
    requires m.Valid() && Sound(m.codec)
    modifies m, m.dev
    ensures m.Valid() && Outcome(m.State(), r) == HomingModel.AutoCalibrate(m.codec, old(m.State()), voltage, speed, zeroSpeed)
  {
    r := Calibrate(m, voltage, speed, zeroSpeed);
    r := HomingModel.Rethrow(r, HomingModel.CalibrateMessage);
  }

  /** `System.absolute_home(motor, low, high, center)`. */
  method AbsoluteHome(m: Motor, low: real, high: real, center: real) returns (r: Result<(), Fault>)
    requires m.Valid()
    modifies m, m.dev
    ensures m.Valid() && Outcome(m.State(), r) == HomingModel.AbsoluteHome(m.codec, old(m.State()), low, high, center)
  {
    var p := m.Position();
    if p.Failure? {
      r := HomingModel.Rethrow(Failure(p.error), HomingModel.HomeMessage);
      return;
    }
    m.offset := HomingModel.HomeOffset(p.value, low, high, center);
    r := m.SetControlMode(Angle);
    if r.Success? {
      r := m.Move(0.0);
      if r.Success? {
        r := m.Enable();
      }
    }
    r := HomingModel.Rethrow(r, HomingModel.HomeMessage);
  }

  /** The body of `single_ended_home`'s `try` block. */
  method EndHome(m: Motor, centerOffset: real, voltage: real, zeroSpeed: real, active: bool) returns (r: Result<real, Fault>)
    requires m.Valid() && Sound(m.codec)
    modifies m, m.dev
    ensures m.Valid() && Outcome(m.State(), r) == HomingModel.EndHome(m.codec, old(m.State()), centerOffset, voltage, zeroSpeed, active)
  {
    var e := m.SetControlMode(Torque);
    if e.Failure? {
      return Failure(e.error);
    }
    e := m.Move(voltage);
    if e.Failure? {
      return Failure(e.error);
    }
    e := m.Enable();
    if e.Failure? {
      return Failure(e.error);
    }
    r := Rest(m, zeroSpeed);
    if r.Failure? {
      return;
    }
    if active {
      m.offset := r.value;
      e := m.SetControlMode(Angle);
      if e.Failure? {
        return Failure(e.error);
      }
      e := m.Move(centerOffset);
    } else {
      e := m.Disable();
    }
    if e.Failure? {
      return Failure(e.error);
    }
  }

  /** `System.single_ended_home(motor, centerOffset, voltage, zeroSpeed, active)`. */
  method SingleEndedHome(m: Motor, centerOffset: real, voltage: real, zeroSpeed: real, active: bool) returns (r: Result<real, Fault>)
    requires m.Valid() && Sound(m.codec)
    modifies m, m.dev
    ensures m.Valid() && Outcome(m.State(), r) == HomingModel.SingleEndedHome(m.codec, old(m.State()), centerOffset, voltage, zeroSpeed, active)
  {
    r := EndHome(m, centerOffset, voltage, zeroSpeed, active);
    r := HomingModel.Rethrow(r, HomingModel.HomeMessage);
  }
}
