/**
 * The older `Motor` object of hardware/FOCMCInterface.py, with methods proved against `LegacyModel`.
 */
module LegacyMotors {
  import opened Wrappers
  import opened Text
  import opened Numerals
  import opened Protocol
  import opened LegacyModel

  class Motor {
    const dev: Device
    const codec: Codec
    var isOpen: bool
    var mId: int
    var offset: real
    var controlMode: Mode

    ghost function State(): LegacyState
      reads this, dev
    {
      LegacyState(Link(isOpen, dev.available, dev.replies, dev.sent), mId, offset, controlMode)
    }

    /** The object's class defaults before `connect`, which `__init__` calls next. */
    constructor (dev: Device, codec: Codec)
      ensures this.dev == dev && this.codec == codec
      ensures State() == LegacyState(Link(false, dev.available, dev.replies, dev.sent), -1, 0.0, Torque)
    {
      this.dev := dev;
      this.codec := codec;
      isOpen := false;
      mId := -1;
      offset := 0.0;
      controlMode := Torque;
    }

    /** `_sendCommand`. */
    method SendCommand(cmd: string, kind: Kind) returns (r: Result<Value, Fault>)
      modifies dev
      ensures Outcome(State(), r) == Send(codec, old(State()), cmd, kind)
    {
      if !isOpen {
        return Failure(SerialException);
      }
      var raw := dev.WriteRead(cmd + "\n");
      if raw.None? {
        return Failure(SerialException);
      }
      var v := ParseAs(codec, kind, Strip(raw.value));
      r := if v.None? then Failure(MotorException(LegacyDesync(kind))) else Success(v.value);
    }

    method SendConfirm(cmd: string, kind: Kind, expected: Value, setting: Setting) returns (r: Result<(), Fault>)
      modifies dev
      ensures Outcome(State(), r) == Confirm(Send(codec, old(State()), cmd, kind), expected, setting)
    {
      var v := SendCommand(cmd, kind);
      if v.Failure? {
        r := Failure(v.error);
      } else if v.value == expected {
        r := Success(());
      } else {
        r := Failure(MotorException(Mismatch(setting, NoDetail)));
      }
    }

    method Connect() returns (r: Result<(), Fault>)
      modifies this, dev
      ensures Outcome(State(), r) == LegacyModel.Connect(codec, old(State()))
    {
      if isOpen || !dev.available {
        return Failure(SerialException);
      }
      isOpen := true;
      var v := SendCommand("I", IntKind);
      if v.Failure? {
        return Failure(if v.error == SerialException then NotImplementedError(InitializeMessage) else v.error);
      }
      mId := v.value.i;
      r := Success(());
    }

    method Disconnect() returns (r: Result<(), Fault>)
      modifies this, dev
      ensures Outcome(State(), r) == LegacyModel.Disconnect(codec, old(State()))
    {
      r := Disable();
      if r.Success? {
        isOpen := false;
      }
    }

    method ComPrecision() returns (r: Result<int, Fault>)
      modifies dev
      ensures Outcome(State(), r) == LegacyModel.ComPrecision(codec, old(State()))
    {
      var v := SendCommand("#", IntKind);
      r := if v.Failure? then Failure(v.error) else Success(v.value.i);
    }

    method Enabled() returns (r: Result<bool, Fault>)
      modifies dev
      ensures Outcome(State(), r) == LegacyModel.Enabled(codec, old(State()))
    {
      var v := SendCommand("ME", BoolKind);
      r := if v.Failure? then Failure(v.error) else Success(v.value.b);
    }

    method Position() returns (r: Result<real, Fault>)
      modifies dev
      ensures Outcome(State(), r) == LegacyModel.Position(codec, old(State()))
    {
      var v := SendCommand("MMG6", FloatKind);
      r := if v.Failure? then Failure(v.error) else Success(v.value.x - offset);
    }

    method Velocity() returns (r: Result<real, Fault>)
      modifies dev
      ensures Outcome(State(), r) == LegacyModel.Velocity(codec, old(State()))
    {
      var v := SendCommand("MMG5", FloatKind);
      r := if v.Failure? then Failure(v.error) else Success(v.value.x);
    }

    method SetComPrecision(decimals: int) returns (r: Result<(), Fault>)
      modifies dev
      ensures Outcome(State(), r) == LegacyModel.SetComPrecision(codec, old(State()), decimals)
    {
      if !(1 <= decimals <= 15) {
        return Failure(AssertionError(PrecisionMessage));
      }
      r := SendConfirm("#" + IntToString(decimals), FloatKind, FloatValue(decimals as real), Setting.ComPrecision);
    }

    method Enable() returns (r: Result<(), Fault>)
      modifies dev
      ensures Outcome(State(), r) == LegacyModel.Enable(codec, old(State()))
    {
      r := SendConfirm("ME1", IntKind, IntValue(1), Setting.Enable);
    }

    method Disable() returns (r: Result<(), Fault>)
      modifies dev
      ensures Outcome(State(), r) == LegacyModel.Disable(codec, old(State()))
    {
      r := SendConfirm("ME0", IntKind, IntValue(0), Setting.Disable);
    }

    method SetPids(stage: string, args: seq<real>, kwargs: seq<(string, real)>) returns (r: Result<(), Fault>)
      modifies dev
      ensures Outcome(State(), r) == LegacyModel.SetPids(codec, old(State()), stage, args, kwargs)
    {
      var prefix := PidPrefix(stage);
      var terms := PidTerms(args, kwargs);
      var i := 0;
      r := Success(());
      while i < |terms|
        invariant 0 <= i <= |terms|
        invariant r.Success? ==> r == Success(())
        invariant r.Success? ==> PidLoop(codec, old(State()), prefix, terms) == PidLoop(codec, State(), prefix, terms[i..])
        invariant r.Failure? ==> Outcome(State(), r) == PidLoop(codec, old(State()), prefix, terms)
        invariant r.Failure? ==> i == |terms|
      {
        assert terms[i..][0] == terms[i] && terms[i..][1..] == terms[i + 1..];
        var step := SendConfirm(PidCommand(codec, prefix, terms[i]), FloatKind, FloatValue(terms[i].1), Setting.Pids);
        if step.Failure? {
          r := step;
          i := |terms|;
        } else {
          i := i + 1;
        }
      }
      assert r.Success? ==> terms[i..] == [];
    }

    method SetCurrentLimit(limit: real) returns (r: Result<(), Fault>)
      modifies dev
      ensures Outcome(State(), r) == LegacyModel.SetCurrentLimit(codec, old(State()), limit)
    {
      r := SendConfirm("MLC" + codec.show(limit), FloatKind, FloatValue(limit), Setting.CurrentLimit);
    }

    method SetVoltageLimit(limit: real) returns (r: Result<(), Fault>)
      modifies dev
      ensures Outcome(State(), r) == LegacyModel.SetVoltageLimit(codec, old(State()), limit)
    {
      r := SendConfirm("MLU" + codec.show(limit), FloatKind, FloatValue(limit), Setting.VoltageLimit);
    }

    method SetVelocityLimit(limit: real) returns (r: Result<(), Fault>)
      modifies dev
      ensures Outcome(State(), r) == LegacyModel.SetVelocityLimit(codec, old(State()), limit)
    {
      r := SendConfirm("MLV" + codec.show(limit), FloatKind, FloatValue(limit), Setting.VelocityLimit);
    }

    method SetControlMode(mode: Mode) returns (r: Result<(), Fault>)
      modifies this, dev
      ensures Outcome(State(), r) == LegacyModel.SetControlMode(codec, old(State()), mode)
    {
      var v := SendCommand(ModeCommand(mode), StrKind);
      if v.Failure? {
        return Failure(v.error);
      }
      if Prefix3(v.value.s) != Prefix3(ModeName(mode)) {
        return Failure(MotorException(Mismatch(ControlMode, NoDetail)));
      }
      controlMode := mode;
      r := Success(());
    }

    method Move(pos: real) returns (r: Result<(), Fault>)
      modifies dev
      ensures Outcome(State(), r) == LegacyModel.Move(codec, old(State()), pos)
    {
      var target := if controlMode == Angle then codec.round3(pos + offset) else pos;
      r := SendConfirm("M" + codec.show(target), FloatKind, FloatValue(target), TargetPosition);
    }
  }

  /** `Motor(port)`: construct, then `connect`. */
  method Open(dev: Device, codec: Codec) returns (m: Motor, r: Result<(), Fault>)
    modifies dev
    ensures fresh(m) && m.dev == dev && m.codec == codec
    ensures Outcome(m.State(), r) ==
      LegacyModel.Connect(codec, LegacyState(Link(false, dev.available, old(dev.replies), old(dev.sent)), -1, 0.0, Torque))
  {
    m := new Motor(dev, codec);
    r := m.Connect();
  }
}
