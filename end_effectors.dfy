/**
 * The two end effectors: the motor-driven gripper of hardware/FOCBLDCEndEffector.py and the hobby
 * servo of hardware/ServoInterface.py.
 */
module EndEffectors {
  import opened Wrappers
  import opened Numerals
  import opened Protocol
  import opened MotorModel
  import GripperModel
  import Motors

  /** The gripper: a wrapper around one motor. */
  class Gripper {
    const m: Motors.Motor

    ghost predicate Valid()
      reads this, m
    {
      m.Valid()
    }

    constructor (m: Motors.Motor)
      ensures this.m == m
    {
      this.m := m;
    }

    method Reconnect() returns (r: Result<(), Fault>)
      requires Valid()
      modifies m, m.dev
      ensures Valid() && Outcome(m.State(), r) == GripperModel.Reconnect(m.codec, old(m.State()))
    {
      r := m.Connect();
      if r.Failure? {
        r := Failure(EndEffectorException(GripperModel.ConnectMessage));
      }
    }

    method Disconnect() returns (r: Result<(), Fault>)
      requires Valid()
      modifies m, m.dev
      ensures Valid() && Outcome(m.State(), r) == GripperModel.Disconnect(m.codec, old(m.State()))
    {
      r := m.Disconnect();
      if r.Failure? {
        r := Failure(EndEffectorException(GripperModel.DisconnectMessage));
      }
    }

    method Enable() returns (r: Result<(), Fault>)
      requires Valid()
      modifies m, m.dev
      ensures Valid() && Outcome(m.State(), r) == MotorModel.Enable(m.codec, old(m.State()))
    {
      r := m.Enable();
    }

    method Disable() returns (r: Result<(), Fault>)
      requires Valid()
      modifies m, m.dev
      ensures Valid() && Outcome(m.State(), r) == MotorModel.Disable(m.codec, old(m.State()))
    {
      r := m.Disable();
    }

    method Move(target: real) returns (r: Result<(), Fault>)
      requires Valid()
      modifies m, m.dev
      ensures Valid() && Outcome(m.State(), r) == GripperModel.Move(m.codec, old(m.State()), target)
    {
      r := m.Move(GripperModel.MotorTarget(target));
      if r.Failure? && r.error.MotorException? {
        r := Failure(EndEffectorException(GripperModel.MoveMessage));
      }
    }
  }

  /** `FOCBLDC(port)`. The motor object exists, port open or not, even when construction fails. */
  method OpenGripper(dev: Device, codec: Codec) returns (g: Gripper, r: Result<(), Fault>)
    modifies dev
    ensures fresh(g) && fresh(g.m) && g.m.dev == dev && g.m.codec == codec && g.Valid()
    ensures Outcome(g.m.State(), r) == GripperModel.Init(codec, Fresh(dev.available, old(dev.replies), old(dev.sent)))
  {
    var m;
    m, r := Motors.Open(dev, codec);
    g := new Gripper(m);
    if r.Failure? {
      if r.error.MotorException? {
        r := Failure(EndEffectorException(GripperModel.AscertainMessage));
      }
      return;
    }
    if m.mId != GripperModel.GripperId {
      r := Failure(EndEffectorException(GripperModel.ConformMessage));
      return;
    }
    r := m.SetControlMode(Angle);
    if r.Failure? {
      return;
    }
    r := m.SetVoltageLimit(GripperModel.GripVoltage);
  }

  // ---------------------------------------------------------------------------------------------
  // The servo

  /** `valueRange`. */
  const ServoRange: (int, int) := (10, 150)

  /** `min(150, max(target, 10))`. */
  function ServoTarget(target: int): (v: int)
    ensures ServoRange.0 <= v <= ServoRange.1
    ensures ServoRange.0 <= target <= ServoRange.1 ==> v == target
    ensures target < ServoRange.0 ==> v == ServoRange.0
    ensures target > ServoRange.1 ==> v == ServoRange.1
  {
    var low := if target > ServoRange.0 then target else ServoRange.0;
    if ServoRange.1 < low then ServoRange.1 else low
  }

  /** Clamping an already clamped target writes the same value. */
  lemma ServoTargetIdempotent(target: int)
    ensures ServoTarget(ServoTarget(target)) == ServoTarget(target)
  {
  }

  /** The line `move` writes: the decimal text of the clamped target and a newline. */
  function ServoLine(target: int): (line: string)
    ensures |line| >= 2 && line[|line| - 1] == '\n'
  {
    IntToString(ServoTarget(target)) + "\n"
  }

  /** The controller reads the clamped target back from the line, so distinct in-range targets give distinct lines. */
  lemma ServoLineReadsBack(target: int)
    ensures ParseInt(ServoLine(target)[..|ServoLine(target)| - 1]) == Some(ServoTarget(target))
  {
    var line := ServoLine(target);
    assert line[..|line| - 1] == IntToString(ServoTarget(target));
    IntRoundTrip(ServoTarget(target));
  }

  /** The servo: a serial port that is only ever written to. */
  class Servo {
    const available: bool
    var isOpen: bool
    /** Every line written to the port. */
    var output: seq<string>

    constructor (available: bool)
      ensures this.available == available && !isOpen && output == []
    {
      this.available := available;
      isOpen := false;
      output := [];
    }

    /** `connect`: `ser.open()`. */
    method Connect() returns (r: Result<(), Fault>)
      modifies this
      ensures output == old(output)
      ensures r.Success? <==> !old(isOpen) && available
      ensures r.Failure? ==> r.error == SerialException && isOpen == old(isOpen)
      ensures r.Success? ==> isOpen
    {
      if isOpen || !available {
        return Failure(SerialException);
      }
      isOpen := true;
      r := Success(());
    }

    /** `disconect`: `disable` (which does nothing), then close. */
    method Disconnect()
      modifies this
      ensures !isOpen && output == old(output)
    {
      var _ := Disable();
      isOpen := false;
    }

    /** `enable`: there is nothing to enable; it reports success. */
    method Enable() returns (ok: bool)
      ensures ok
    {
      ok := true;
    }

    method Disable() returns (ok: bool)
      ensures ok
    {
      ok := true;
    }

    /** `move`: write the clamped target; report True, since nothing is read back. A closed port raises. */
    method Move(target: int) returns (r: Result<bool, Fault>)
      modifies this
      ensures isOpen == old(isOpen)
      ensures old(isOpen) ==> r == Success(true) && output == old(output) + [ServoLine(target)]
      ensures !old(isOpen) ==> r == Failure(SerialException) && output == old(output)
    {
      if !isOpen {
        return Failure(SerialException);
      }
      output := output + [ServoLine(target)];
      r := Success(true);
    }
  }

  /** `Servo(port)`: construct, then `connect`. */
  method OpenServo(available: bool) returns (s: Servo, r: Result<(), Fault>)
    ensures fresh(s) && s.output == [] && s.isOpen == available
    ensures r.Success? <==> available
    ensures r.Failure? ==> r.error == SerialException
  {
    s := new Servo(available);
    r := s.Connect();
  }
}
