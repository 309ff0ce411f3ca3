/**
 * The `Motor` object of hardware/FOCMC_interface.py: its fields are updated in place by each
 * operation, and each method is proved to do exactly what the matching function of `MotorModel` says.
 */
module Motors {
  import opened Wrappers
  import opened Text
  import opened Numerals
  import opened Protocol
  import opened MotorModel

  class Motor {
    /** The controller at the other end of the serial port. */
    const dev: Device
    /** How this motor formats, reads and rounds floats. */
    const codec: Codec
    /** Whether this object's serial port is open. */
    var isOpen: bool
    var mId: int
    var offset: real
    var mode: Mode
    var log: seq<LogEntry>
    /** Every exchange this object has logged. */
    ghost var history: seq<LogEntry>

    ghost function State(): MotorState
      reads this, dev
    {
      MotorState(Link(isOpen, dev.available, dev.replies, dev.sent), mId, offset, mode, log, history)
    }

    ghost predicate Valid()
      reads this
    {
      log == Window(history)
    }

    /** The object before `connect`: class defaults, closed port. */
    constructor (dev: Device, codec: Codec)
      ensures Valid() && this.dev == dev && this.codec == codec
      ensures State() == Fresh(dev.available, dev.replies, dev.sent)
    {
      this.dev := dev;
      this.codec := codec;
      isOpen := false;
      mId := -1;
      offset := 0.0;
      mode := Torque;
      log := [];
      history := [];
    }

    /** `_log_entry`. */
    method AddLogEntry(e: LogEntry)
      requires Valid()
      modifies this
      ensures Valid()
      ensures log == AppendLog(old(log), e) && history == old(history) + [e]
      ensures isOpen == old(isOpen) && mId == old(mId) && offset == old(offset) && mode == old(mode)
    {
      WindowAppend(history, e);
      if |log| > LogSize {
        log := log[1..];
      }
      log := log + [e];
      history := history + [e];
    }

    /** `_send_command`. */
    method SendCommand(cmd: string, kind: Option<Kind>) returns (r: Result<Value, Fault>)
      requires Valid()
      modifies this, dev
      ensures Valid() && Outcome(State(), r) == Send(codec, old(State()), cmd, kind)
    {
      if !isOpen {
        return Failure(NotImplementedError(DisconnectedMessage));
      }
      var raw := dev.WriteRead(cmd + "\n");
      if raw.None? {
        return Failure(NotImplementedError(DisconnectedMessage));
      }
      var text := Strip(raw.value);
      AddLogEntry(LogEntry(cmd, text));
      if kind.None? {
        return Success(NoValue);
      }
      var v := ParseAs(codec, kind.value, text);
      if v.None? {
        r := Failure(MotorException(Desync(kind.value, cmd, text, mId)));
      } else {
        r := Success(v.value);
      }
    }

    /** Send a setter command and accept only the expected reply. */
    method SendConfirm(cmd: string, kind: Kind, expected: Value, setting: Setting) returns (r: Result<(), Fault>)
      requires Valid()
      modifies this, dev
      ensures Valid() && Outcome(State(), r) == Confirm(Send(codec, old(State()), cmd, Some(kind)), expected, setting)
    {
      var v := SendCommand(cmd, Some(kind));
      if v.Failure? {
        r := Failure(v.error);
      } else if v.value == expected {
        r := Success(());
      } else {
        r := Failure(MotorException(Mismatch(setting, NoDetail)));
      }
    }

    method Connect() returns (r: Result<(), Fault>)
      requires Valid()
      modifies this, dev
      ensures Valid() && Outcome(State(), r) == MotorModel.Connect(codec, old(State()))
    {
      if isOpen || !dev.available {
        return Failure(SerialException);
      }
      isOpen := true;
      var v := SendCommand("I", Some(IntKind));
      if v.Failure? {
        return Failure(v.error);
      }
      mId := v.value.i;
      r := Success(());
    }

    method Disconnect() returns (r: Result<(), Fault>)
      requires Valid()
      modifies this, dev
      ensures Valid() && Outcome(State(), r) == MotorModel.Disconnect(codec, old(State()))
    {
      r := Disable();
      if r.Success? {
        isOpen := false;
      }
    }

    method ComPrecision() returns (r: Result<int, Fault>)
      requires Valid()
      modifies this, dev
      ensures Valid() && Outcome(State(), r) == MotorModel.ComPrecision(codec, old(State()))
    {
      var v := SendCommand("#", Some(IntKind));
      r := if v.Failure? then Failure(v.error) else Success(v.value.i);
    }

    method Enabled() returns (r: Result<bool, Fault>)
      requires Valid()
      modifies this, dev
      ensures Valid() && Outcome(State(), r) == MotorModel.Enabled(codec, old(State()))
    {
      var v := SendCommand("ME", Some(BoolKind));
      r := if v.Failure? then Failure(v.error) else Success(v.value.b);
    }

    method Position() returns (r: Result<real, Fault>)
      requires Valid()
      modifies this, dev
      ensures Valid() && Outcome(State(), r) == MotorModel.Position(codec, old(State()))
    {
      var v := SendCommand("MMG6", Some(FloatKind));
      r := if v.Failure? then Failure(v.error) else Success(v.value.x - offset);
    }

    method Velocity() returns (r: Result<real, Fault>)
      requires Valid()
      modifies this, dev
      ensures Valid() && Outcome(State(), r) == MotorModel.Velocity(codec, old(State()))
    {
      var v := SendCommand("MMG5", Some(FloatKind));
      r := if v.Failure? then Failure(v.error) else Success(v.value.x);
    }

    method SetComPrecision(decimals: int) returns (r: Result<(), Fault>)
      requires Valid()
      modifies this, dev
      ensures Valid() && Outcome(State(), r) == MotorModel.SetComPrecision(codec, old(State()), decimals)
    {
      if !(1 <= decimals <= 15) {
        return Failure(AssertionError(PrecisionMessage));
      }
      r := SendConfirm("#" + IntToString(decimals), FloatKind, FloatValue(decimals as real), Setting.ComPrecision);
    }

    method Enable() returns (r: Result<(), Fault>)
      requires Valid()
      modifies this, dev
      ensures Valid() && Outcome(State(), r) == MotorModel.Enable(codec, old(State()))
    {
      r := SendConfirm("ME1", IntKind, IntValue(1), Setting.Enable);
    }

    method Disable() returns (r: Result<(), Fault>)
      requires Valid()
      modifies this, dev
      ensures Valid() && Outcome(State(), r) == MotorModel.Disable(codec, old(State()))
    {
      r := SendConfirm("ME0", IntKind, IntValue(0), Setting.Disable);
    }

    method SetPids(stage: string, args: seq<real>, kwargs: seq<(string, real)>) returns (r: Result<(), Fault>)
      requires Valid()
      modifies this, dev
      ensures Valid() && Outcome(State(), r) == MotorModel.SetPids(codec, old(State()), stage, args, kwargs)
    {
      var prefix := PidPrefix(stage);
      var terms := PidTerms(args, kwargs);
      var i := 0;
      r := Success(());
      while i < |terms|
        invariant 0 <= i <= |terms|
        invariant Valid()
        invariant r.Success? ==> PidLoop(codec, old(State()), prefix, terms) == PidLoop(codec, State(), prefix, terms[i..])
        invariant r.Failure? ==> Outcome(State(), r) == PidLoop(codec, old(State()), prefix, terms)
        invariant r.Success? ==> r == Success(())
        invariant r.Failure? ==> i == |terms|
      {
        ghost var before := State();
        assert terms[i..][0] == terms[i] && terms[i..][1..] == terms[i + 1..];
        var step := SendConfirm(PidCommand(codec, prefix, terms[i]), FloatKind, FloatValue(terms[i].1), Setting.Pids);
        if step.Failure? {
          r := step;
          i := |terms|;
        } else {
          i := i + 1;
        }
      }
      assert r.Success? ==> terms[i..] == [];
    }

    method SetCurrentLimit(limit: real) returns (r: Result<(), Fault>)
      requires Valid()
      modifies this, dev
      ensures Valid() && Outcome(State(), r) == MotorModel.SetCurrentLimit(codec, old(State()), limit)
    {
      r := SendConfirm("MLC" + codec.show(limit), FloatKind, FloatValue(limit), Setting.CurrentLimit);
    }

    method SetVoltageLimit(limit: real) returns (r: Result<(), Fault>)
      requires Valid()
      modifies this, dev
      ensures Valid() && Outcome(State(), r) == MotorModel.SetVoltageLimit(codec, old(State()), limit)
    {
      r := SendConfirm("MLU" + codec.show(limit), FloatKind, FloatValue(limit), Setting.VoltageLimit);
    }

    method SetVelocityLimit(limit: real) returns (r: Result<(), Fault>)
      requires Valid()
      modifies this, dev
      ensures Valid() && Outcome(State(), r) == MotorModel.SetVelocityLimit(codec, old(State()), limit)
    {
      r := SendConfirm("MLV" + codec.show(limit), FloatKind, FloatValue(limit), Setting.VelocityLimit);
    }

    method SetControlMode(m: Mode) returns (r: Result<(), Fault>)
      requires Valid()
      modifies this, dev
      ensures Valid() && Outcome(State(), r) == MotorModel.SetControlMode(codec, old(State()), m)
    {
      var v := SendCommand(ModeCommand(m), Some(StrKind));
      if v.Failure? {
        return Failure(v.error);
      }
      var x := v.value.s;
      if Prefix3(x) != Prefix3(ModeName(m)) {
        return Failure(MotorException(Mismatch(ControlMode, Received(x))));
      }
      mode := m;
      r := Success(());
    }

    method Move(pos: real) returns (r: Result<(), Fault>)
      requires Valid()
      modifies this, dev
      ensures Valid() && Outcome(State(), r) == MotorModel.Move(codec, old(State()), pos)
    {
      var target := if mode == Angle then codec.round3(pos + offset) else pos;
      var v := SendCommand("M" + codec.show(target), Some(FloatKind));
      if v.Failure? {
        return Failure(v.error);
      }
      if v.value.x != target {
        return Failure(MotorException(Mismatch(TargetPosition, ReceivedExpected(v.value, target))));
      }
      r := Success(());
    }
  }

  /** `Motor(port)`: construct, then `connect`. */
  method Open(dev: Device, codec: Codec) returns (m: Motor, r: Result<(), Fault>)
    modifies dev
    ensures fresh(m) && m.dev == dev && m.codec == codec && m.Valid()
    ensures Outcome(m.State(), r) == MotorModel.Connect(codec, Fresh(dev.available, old(dev.replies), old(dev.sent)))
  {
    m := new Motor(dev, codec);
    r := m.Connect();
  }
}
