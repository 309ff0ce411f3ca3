/**
 * The `System` class of lib/system.py run against motor objects: its four joint motors and its
 * gripper, each operation proved to change the motors exactly as the matching function of
 * `SystemModel` says.
 */
module RobotSystem {
  import opened Wrappers
  import opened Numerals
  import opened Protocol
  import opened MotorModel
  import opened SystemModel
  import Motors
  import EndEffectors
  import Homing

  /** One motor call of a script, made on the given motor. */
  method Perform(m: Motors.Motor, cmd: Command) returns (r: Result<(), Fault>)
    requires m.Valid()
    modifies m, m.dev
    ensures m.Valid() && Outcome(m.State(), r) == Apply(m.codec, old(m.State()), cmd)
  {
    match cmd
    case MoveTo(p) => r := m.Move(p);
    case Power(on) =>
      if on {
        r := m.Enable();
      } else {
        r := m.Disable();
      }
    case VoltageCap(v) => r := m.SetVoltageLimit(v);
    case SpeedCap(v) => r := m.SetVelocityLimit(v);
    case Tune(stage, args, kwargs) => r := m.SetPids(stage, args, kwargs);
  }

  /** One more call of a script, from position i on. */
  lemma ScriptUnfolds(c: Codec, a: SystemModel.Arm, script: seq<(Joint, Command)>, i: nat)
    requires i < |script|
    ensures var o := SystemModel.Step(c, a, script[i]);
      SystemModel.RunScript(c, a, script[i..]) == if o.result.Failure? then o else SystemModel.RunScript(c, o.arm, script[i + 1..])
  {
    assert script[i..][0] == script[i];
    assert script[i..][1..] == script[i + 1..];
  }

  /** One more tick of the interpolation loop, from position i on. */
  lemma InterpolateUnfolds(c: Codec, a: SystemModel.Arm, start: Pose, target: map<string, real>, duration: real, ticks: seq<Tick>, i: nat)
    requires i < |ticks| && ticks[i].elapsed < duration
    ensures var w := Waypoint(start, target, ticks[i].root);
      SystemModel.Interpolate(c, a, start, target, duration, ticks[i..])
      == if w.Failure? then ArmOutcome(a, Failure(w.error))
         else
           var o := JogTo(c, a, w.value, None);
           if o.result.Failure? then o else SystemModel.Interpolate(c, o.arm, start, target, duration, ticks[i + 1..])
  {
    assert ticks[i..][0] == ticks[i];
    assert ticks[i..][1..] == ticks[i + 1..];
  }

  /** One more read of the polling loop. */
  lemma AwaitUnfolds(c: Codec, a: SystemModel.Arm, target: map<string, real>, epsilon: real, n: nat)
    requires n > 0
    ensures var p := SystemModel.Positions(c, a);
      SystemModel.AwaitTarget(c, a, target, epsilon, n)
      == if p.result.Failure? then ArmOutcome(p.arm, Failure(p.result.error))
         else
           var k := SystemModel.Converged(target, epsilon, p.result.value);
           if k.Failure? then ArmOutcome(p.arm, Failure(k.error))
           else if k.value then ArmOutcome(p.arm, Success(p.result.value))
           else SystemModel.AwaitTarget(c, p.arm, target, epsilon, SystemModel.OneFewer(n))
  {
  }

  class System {
    const vertical: Motors.Motor
    const innerRot: Motors.Motor
    const outerRot: Motors.Motor
    const endRot: Motors.Motor
    const effector: EndEffectors.Gripper
    /** The joints in the order of `self.motors`, which `motors_enabled` follows. */
    const order: seq<Joint>
    const codec: Codec

    function MotorAt(j: Joint): Motors.Motor {
      match j
      case Vertical => vertical
      case InnerRot => innerRot
      case OuterRot => outerRot
      case EndRot => endRot
    }

    /** The motor objects and the controllers behind them. */
    ghost function Repr(): set<object> {
      {vertical, vertical.dev, innerRot, innerRot.dev, outerRot, outerRot.dev, endRot, endRot.dev,
       effector.m, effector.m.dev}
    }

    /** Every motor is consistent, shares the arm's number format, and talks to a controller of its own. */
    ghost predicate Valid()
      reads this, effector, Repr()
    {
      && vertical.Valid() && innerRot.Valid() && outerRot.Valid() && endRot.Valid() && effector.Valid()
      && vertical.codec == codec && innerRot.codec == codec && outerRot.codec == codec
      && endRot.codec == codec && effector.m.codec == codec
      && vertical.dev != innerRot.dev && vertical.dev != outerRot.dev && vertical.dev != endRot.dev
      && innerRot.dev != outerRot.dev && innerRot.dev != endRot.dev && outerRot.dev != endRot.dev
      && effector.m.dev != vertical.dev && effector.m.dev != innerRot.dev
      && effector.m.dev != outerRot.dev && effector.m.dev != endRot.dev
    }

    ghost function State(): SystemModel.Arm
      reads this, effector, Repr()
    {
      SystemModel.Arm(vertical.State(), innerRot.State(), outerRot.State(), endRot.State(), effector.m.State())
    }

    constructor (vertical: Motors.Motor, innerRot: Motors.Motor, outerRot: Motors.Motor, endRot: Motors.Motor,
                 effector: EndEffectors.Gripper, order: seq<Joint>, codec: Codec)
      ensures this.vertical == vertical && this.innerRot == innerRot && this.outerRot == outerRot
      ensures this.endRot == endRot && this.effector == effector && this.order == order && this.codec == codec
    {
      this.vertical := vertical;
      this.innerRot := innerRot;
      this.outerRot := outerRot;
      this.endRot := endRot;
      this.effector := effector;
      this.order := order;
      this.codec := codec;
    }

    /** One call of a script, on its joint's motor; the other motors do not change. */
    method Step(call: (Joint, Command)) returns (r: Result<(), Fault>)
      requires Valid()
      modifies Repr()
      ensures Valid() && ArmOutcome(State(), r) == SystemModel.Step(codec, old(State()), call)
    {
      r := Perform(MotorAt(call.0), call.1);
    }

    /** Run a script of motor calls up to the first that raises. */
    method RunScript(script: seq<(Joint, Command)>) returns (r: Result<(), Fault>)
      requires Valid()
      modifies Repr()
      ensures Valid() && ArmOutcome(State(), r) == SystemModel.RunScript(codec, old(State()), script)
    {
      ghost var goal := SystemModel.RunScript(codec, State(), script);
      var i := 0;
      assert script[0..] == script;
      while i < |script|
        invariant 0 <= i <= |script| && Valid()
        invariant goal == SystemModel.RunScript(codec, State(), script[i..])
        decreases |script| - i
      {
        ghost var before := State();
        ScriptUnfolds(codec, before, script, i);
        r := Step(script[i]);
        if r.Failure? {
          return;
        }
        i := i + 1;
      }
      assert script[i..] == [];
      r := Success(());
    }

    /** `jog(t1, t2, r, z, e)`. */
    method Jog(t1: real, t2: real, r: real, z: real, e: Option<real>) returns (res: Result<(), Fault>)
      requires Valid()
      modifies Repr()
      ensures Valid() && ArmOutcome(State(), res) == SystemModel.Jog(codec, old(State()), t1, t2, r, z, e)
    {
      res := RunScript(JogScript(t1, t2, r, z));
      if res.Success? && e.Some? {
        res := effector.Move(e.value);
      }
    }

    /** `position` of one joint. */
    method ReadAt(j: Joint) returns (r: Result<real, Fault>)
      requires Valid()
      modifies Repr()
      ensures Valid() && ArmOutcome(State(), r) == SystemModel.ReadAt(codec, old(State()), j)
    {
      r := MotorAt(j).Position();
    }

    /** `get_all_pos()`: the positions of t1, t2, z and r. */
    method Positions() returns (r: Result<(real, real, real, real), Fault>)
      requires Valid()
      modifies Repr()
      ensures Valid() && ArmOutcome(State(), r) == SystemModel.Positions(codec, old(State()))
    {
      var p1 := ReadAt(JointOf(T1));
      if p1.Failure? {
        return Failure(p1.error);
      }
      var p2 := ReadAt(JointOf(T2));
      if p2.Failure? {
        return Failure(p2.error);
      }
      var p3 := ReadAt(JointOf(Z));
      if p3.Failure? {
        return Failure(p3.error);
      }
      var p4 := ReadAt(JointOf(R));
      if p4.Failure? {
        return Failure(p4.error);
      }
      r := Success((p1.value, p2.value, p3.value, p4.value));
    }

    /** `motors_enabled(value)`: enable or disable every motor of `self.motors`, in its order. */
    method MotorsEnabled(on: bool) returns (r: Result<(), Fault>)
      requires Valid()
      modifies Repr()
      ensures Valid() && ArmOutcome(State(), r) == SystemModel.MotorsEnabled(codec, old(State()), order, on)
    {
      r := RunScript(PowerScript(order, on));
    }

    /** The limits and PID gains `__init__` gives each joint. */
    method Configure() returns (r: Result<(), Fault>)
      requires Valid()
      modifies Repr()
      ensures Valid() && ArmOutcome(State(), r) == SystemModel.Configure(codec, old(State()))
    {
      r := RunScript(Configuration);
    }

    /** The homing and limits of `load_motors` that come before the calibration files. */
    method Prepare() returns (r: Result<(), Fault>)
      requires Valid() && Sound(codec)
      modifies Repr()
      ensures Valid() && ArmOutcome(State(), r) == SystemModel.Prepare(codec, old(State()))
    {
      var v := Homing.SingleEndedHome(vertical, 140.0 / 2.0, -4.0, 0.1, true);
      if v.Failure? {
        return Failure(v.error);
      }
      r := effector.Enable();
      if r.Failure? {
        return;
      }
      var cal := Homing.AutoCalibrate(effector.m, 2.0, 15.0, 10.0);
      if cal.Failure? {
        return Failure(cal.error);
      }
      r := effector.m.SetVoltageLimit(6.0);
      if r.Failure? {
        return;
      }
      r := effector.m.SetVelocityLimit(999.0);
    }

    /** `with open(path) as f: self.absolute_home(motor, *three numbers)`. */
    method HomeFromFile(files: map<string, seq<string>>, path: string, j: Joint) returns (r: Result<(), Fault>)
      requires Valid()
      modifies Repr()
      ensures Valid() && ArmOutcome(State(), r) == SystemModel.HomeFromFile(codec, old(State()), files, path, j)
    {
      if path !in files {
        return Failure(FileNotFoundError(path));
      }
      var cal := ReadCalibration(codec, files[path]);
      if cal.Failure? {
        return Failure(cal.error);
      }
      r := Homing.AbsoluteHome(MotorAt(j), cal.value.0, cal.value.1, cal.value.2);
    }

    /** `load_motors(onFail)`; the result says whether `onFail` was called. */
    method LoadMotors(files: map<string, seq<string>>, onFail: bool) returns (r: Result<bool, Fault>)
      requires Valid() && Sound(codec)
      modifies Repr()
      ensures Valid() && ArmOutcome(State(), r) == SystemModel.LoadMotors(codec, old(State()), files, onFail)
    {
      var p := Prepare();
      if p.Failure? {
        return Failure(p.error);
      }
      ghost var prepared := State();
      var h := HomeFromFile(files, InnerFile, InnerRot);
      if h.Success? {
        h := HomeFromFile(files, OuterFile, OuterRot);
        if h.Success? {
          h := HomeFromFile(files, EndFile, EndRot);
        }
      }
      assert ArmOutcome(State(), h) == HomeFromFiles(codec, prepared, files);
      if h.Success? {
        r := Success(false);
      } else if h.error.FileNotFoundError? || h.error.ValueError? {
        r := if onFail then Success(true) else Failure(NotImplementedError(""));
      } else {
        r := Failure(h.error);
      }
    }

    /** The interpolation loop of `smooth_move`: one jog per tick until the elapsed time reaches the duration. */
    method Interpolate(start: Pose, target: map<string, real>, duration: real, ticks: seq<Tick>) returns (r: Result<(), Fault>)
      requires Valid()
      modifies Repr()
      ensures Valid() && ArmOutcome(State(), r) == SystemModel.Interpolate(codec, old(State()), start, target, duration, ticks)
    {
      ghost var goal := SystemModel.Interpolate(codec, State(), start, target, duration, ticks);
      var i := 0;
      assert ticks[0..] == ticks;
      while i < |ticks| && ticks[i].elapsed < duration
        invariant 0 <= i <= |ticks| && Valid()
        invariant goal == SystemModel.Interpolate(codec, State(), start, target, duration, ticks[i..])
        decreases |ticks| - i
      {
        InterpolateUnfolds(codec, State(), start, target, duration, ticks, i);
        var w := Waypoint(start, target, ticks[i].root);
        if w.Failure? {
          return Failure(w.error);
        }
        r := Jog(w.value.t1, w.value.t2, w.value.r, w.value.z, None);
        if r.Failure? {
          return;
        }
        i := i + 1;
      }
      if i < |ticks| {
        assert ticks[i..][0] == ticks[i];
      }
      r := Success(());
    }

    /**
     * One pass of the polling loop, with `left` reads still allowed: read the four positions and
     * test them against the target. It ends the loop (with the reading or the exception) exactly
     * where the model's loop ends, and otherwise leaves one read fewer to make.
     */
    method Poll(target: map<string, real>, epsilon: real, left: nat) returns (done: bool, r: Result<(real, real, real, real), Fault>, rest: nat)
      requires Valid() && left > 0
      modifies Repr()
      ensures Valid() && rest == OneFewer(left)
      ensures done ==> ArmOutcome(State(), r) == SystemModel.AwaitTarget(codec, old(State()), target, epsilon, left)
      ensures !done ==> SystemModel.AwaitTarget(codec, old(State()), target, epsilon, left)
                        == SystemModel.AwaitTarget(codec, State(), target, epsilon, rest)
    {
      rest := OneFewer(left);
      AwaitUnfolds(codec, State(), target, epsilon, left);
      var p := Positions();
      if p.Failure? {
        return true, Failure(p.error), rest;
      }
      var k := Converged(target, epsilon, p.value);
      if k.Failure? {
        return true, Failure(k.error), rest;
      }
      if k.value {
        return true, Success(p.value), rest;
      }
      done, r := false, Success(p.value);
    }

    /** The polling loop of `smooth_move`, given how many reads fit into the timeout. */
    method AwaitTarget(target: map<string, real>, epsilon: real, polls: nat) returns (r: Result<(real, real, real, real), Fault>)
      requires Valid()
      modifies Repr()
      ensures Valid() && ArmOutcome(State(), r) == SystemModel.AwaitTarget(codec, old(State()), target, epsilon, polls)
    {
      ghost var goal := SystemModel.AwaitTarget(codec, State(), target, epsilon, polls);
      var n := polls;
      while n > 0
        invariant Valid()
        invariant goal == SystemModel.AwaitTarget(codec, State(), target, epsilon, n)
        decreases n
      {
        var done;
        done, r, n := Poll(target, epsilon, n);
        if done {
          return;
        }
      }
      r := Failure(NotImplementedError(TimeoutMessage));
    }

    /** The `try` block of `smooth_move`. */
    method SmoothMoveBody(duration: real, epsilon: real, target: map<string, real>, ticks: seq<Tick>, polls: nat)
      returns (r: Result<(), Fault>)
      requires Valid()
      modifies Repr()
      ensures Valid() && ArmOutcome(State(), r) == SystemModel.SmoothMoveBody(codec, old(State()), duration, epsilon, target, ticks, polls)
    {
      var p := Positions();
      if p.Failure? {
        return Failure(p.error);
      }
      var start := StartPose(p.value);
      var e := Lookup(target, "e");
      if e.Failure? {
        return Failure(e.error);
      }
      r := Jog(start.t1, start.t2, start.r, start.z, Some(e.value));
      if r.Failure? {
        return;
      }
      r := Interpolate(start, target, duration, ticks);
      if r.Failure? {
        return;
      }
      var w := AwaitTarget(target, epsilon, polls);
      r := if w.Failure? then Failure(w.error) else Success(());
    }

    /**
     * `smooth_move(duration, timeout, epsilon, **target)`. The clock is replaced by the ticks of the
     * interpolation loop and the number of reads the polling loop makes before the timeout.
     */
    method SmoothMove(duration: real, epsilon: real, target: map<string, real>, ticks: seq<Tick>, polls: nat)
      returns (r: Result<(), Fault>)
      requires Valid()
      modifies Repr()
      ensures Valid() && ArmOutcome(State(), r) == SystemModel.SmoothMove(codec, old(State()), duration, epsilon, target, ticks, polls)
    {
      r := SmoothMoveBody(duration, epsilon, target, ticks, polls);
      if r.Failure? && r.error.MotorException? {
        r := Failure(NotImplementedError(SmoothMoveMessage));
      }
    }
  }

  // ---------------------------------------------------------------------------------------------
  // `__init__`

  /** A controller's state as a value. */
  ghost function PortOf(d: Device): Port
    reads d
  {
    Port(d.available, d.replies, d.sent)
  }

  ghost predicate Distinct(ports: seq<Device>) {
    forall i, k :: 0 <= i < k < |ports| ==> ports[i] != ports[k]
  }

  /** A motor kept by discovery: it talks to the port that registered its id, as the probe left it. */
  ghost predicate Kept(m: Motors.Motor, codec: Codec, ports: seq<Device>, os: seq<ProbeOutcome>, k: nat)
    reads m, m.dev
  {
    k < |ports| && k < |os| && m.dev == ports[k] && m.codec == codec && m.Valid() && m.State() == os[k].state
  }

  /** `Motor(port)` and the id test for one port, with the call to `disconnect` for a motor that is not a joint. */
  method ProbeStep(port: Device, codec: Codec, ghost snap: seq<Port>, ghost os: seq<ProbeOutcome>, ghost i: nat)
    returns (m: Motors.Motor, r: Result<(), Fault>)
    requires ProbedAs(codec, snap, os) && i < |snap| && PortOf(port) == snap[i]
    modifies port
    ensures var o := os[i];
      && fresh(m) && m.dev == port && m.codec == codec && m.Valid()
      && m.State() == o.state && PortOf(port) == PortAfter(o)
      && (r.Failure? <==> o.probe.Aborted?)
      && (r.Failure? ==> r.error == o.probe.fault)
      && (r.Success? ==> (o.probe.Registered? <==> 0 < m.mId < 5))
      && (o.probe.Registered? ==> m.mId == o.probe.id)
  {
    assert os[i] == ProbeOf(codec, snap[i]);
    var cr;
    m, cr := Motors.Open(port, codec);
    r := Success(());
    if cr.Failure? {
      if !cr.error.MotorException? {
        r := Failure(cr.error);
      }
    } else if !(0 < m.mId < 5) {
      var d := m.Disconnect();
      if d.Failure? && !d.error.MotorException? {
        r := Failure(d.error);
      }
    }
  }

  /**
   * The discovery loop over the serial ports. `snap` is what each controller holds beforehand. It
   * returns `self.motors`, its keys in order and `ports_used`, or the exception that ended it.
   */
  method Discover(ports: seq<Device>, codec: Codec, ghost snap: seq<Port>, ghost os: seq<ProbeOutcome>)
    returns (found: map<int, Motors.Motor>, ids: seq<int>, used: set<nat>, r: Result<(), Fault>)
    requires Distinct(ports) && |snap| == |ports| && forall i :: 0 <= i < |ports| ==> PortOf(ports[i]) == snap[i]
    requires ProbedAs(codec, snap, os)
    modifies set i | 0 <= i < |ports| :: ports[i]
    ensures var probes := ProbesOf(os);
      && (r.Failure? <==> FirstAbort(probes, 0).Some?)
      && (r.Failure? ==> r.error == probes[FirstAbort(probes, 0).value].fault)
      && (r.Success? ==>
            && found.Keys == Register(probes).Keys && ids == Order(probes) && used == Used(probes)
            && (forall id :: id in found ==> fresh(found[id]))
            && (forall id :: id in found ==> Kept(found[id], codec, ports, os, Register(probes)[id]))
            && forall k :: 0 <= k < |ports| ==> PortOf(ports[k]) == PortAfter(os[k]))
  {
    ghost var probes := ProbesOf(os);
    found, ids, used := map[], [], {};
    var i := 0;
    while i < |ports|
      invariant 0 <= i <= |ports|
      invariant forall k :: 0 <= k < i ==> !probes[k].Aborted?
      invariant found.Keys == Register(probes[..i]).Keys && ids == Order(probes[..i]) && used == Used(probes[..i])
      invariant forall id :: id in found ==> fresh(found[id])
      invariant forall id :: id in found ==> Kept(found[id], codec, ports, os, Register(probes[..i])[id])
      invariant forall k :: 0 <= k < i ==> PortOf(ports[k]) == PortAfter(os[k])
      invariant forall k :: i <= k < |ports| ==> PortOf(ports[k]) == snap[k]
    {
      var m, pr := Visit(ports, codec, snap, os, i, found);
      if pr.Failure? {
        FirstAbortIsFirst(probes, 0, i);
        return found, ids, used, pr;
      }
      found, ids, used := Admit(codec, ports, os, i, found, ids, used, m);
      i := i + 1;
    }
    assert probes[..i] == probes;
    FirstAbortIsFirst(probes, 0, 0);
    r := Success(());
  }

  /** The probe of port `i` during discovery; the motors kept so far stay as they were. */
  method Visit(ports: seq<Device>, codec: Codec, ghost snap: seq<Port>, ghost os: seq<ProbeOutcome>, i: nat,
               ghost found: map<int, Motors.Motor>)
    returns (m: Motors.Motor, r: Result<(), Fault>)
    requires Distinct(ports) && |snap| == |ports| && ProbedAs(codec, snap, os) && i < |ports| && PortOf(ports[i]) == snap[i]
    requires var probes := ProbesOf(os)[..i];
      && found.Keys == Register(probes).Keys
      && forall id :: id in found ==> Kept(found[id], codec, ports, os, Register(probes)[id])
    modifies ports[i]
    ensures var o := os[i];
      && fresh(m) && m.dev == ports[i] && m.codec == codec && m.Valid()
      && m.State() == o.state && PortOf(ports[i]) == PortAfter(o)
      && (r.Failure? <==> o.probe.Aborted?)
      && (r.Failure? ==> r.error == o.probe.fault)
      && (r.Success? ==> (o.probe.Registered? <==> 0 < m.mId < 5))
      && (o.probe.Registered? ==> m.mId == o.probe.id)
    ensures var probes := ProbesOf(os)[..i];
      forall id :: id in found ==> Kept(found[id], codec, ports, os, Register(probes)[id])
    ensures forall k :: 0 <= k < |ports| && k != i ==> PortOf(ports[k]) == old(PortOf(ports[k]))
  {
    ghost var probes := ProbesOf(os)[..i];
    forall p | 0 <= p < |ports| && p != i
      ensures ports[p] != ports[i]
    {
      Apart(ports, p, i);
    }
    m, r := ProbeStep(ports[i], codec, snap, os, i);
    forall id | id in found
      ensures Kept(found[id], codec, ports, os, Register(probes)[id])
    {
      RegisterLastWins(probes, id);
      var k := Register(probes)[id];
      assert old(Kept(found[id], codec, ports, os, k));
    }
  }

  /**
   * The bookkeeping for the port `i` once its probe has not raised: a motor with a joint id goes
   * into `self.motors` under that id (replacing an earlier one), its id is appended to the keys
   * when new, and the port joins `ports_used`.
   */
  method Admit(codec: Codec, ports: seq<Device>, ghost os: seq<ProbeOutcome>, i: nat,
               found: map<int, Motors.Motor>, ids: seq<int>, used: set<nat>, m: Motors.Motor)
    returns (found': map<int, Motors.Motor>, ids': seq<int>, used': set<nat>)
    requires i < |ports| && |os| == |ports|
    requires var probes := ProbesOf(os)[..i];
      && found.Keys == Register(probes).Keys && ids == Order(probes) && used == Used(probes)
      && forall id :: id in found ==> Kept(found[id], codec, ports, os, Register(probes)[id])
    requires var o := os[i];
      && m.dev == ports[i] && m.codec == codec && m.Valid() && m.State() == o.state
      && !o.probe.Aborted? && (o.probe.Registered? <==> 0 < m.mId < 5) && (o.probe.Registered? ==> m.mId == o.probe.id)
    ensures var probes := ProbesOf(os)[..i + 1];
      && found'.Keys == Register(probes).Keys && ids' == Order(probes) && used' == Used(probes)
      && forall id :: id in found' ==> Kept(found'[id], codec, ports, os, Register(probes)[id])
    ensures forall id :: id in found' ==> found'[id] == m || (id in found && found'[id] == found[id])
  {
    PrefixStep(ProbesOf(os), i);
    found', ids', used' := found, ids, used;
    if 0 < m.mId < 5 {
      found' := found[m.mId := m];
      if m.mId !in ids {
        ids' := ids + [m.mId];
      }
      used' := used + {i};
    }
  }

  /** The controllers behind the ports, as values. */
  ghost function Snapshot(ports: seq<Device>): (r: seq<Port>)
    reads set i | 0 <= i < |ports| :: ports[i]
    ensures |r| == |ports| && forall i :: 0 <= i < |ports| ==> r[i] == PortOf(ports[i])
  {
    if ports == [] then [] else Snapshot(ports[..|ports| - 1]) + [PortOf(ports[|ports| - 1])]
  }

  /**
   * The search for the gripper over the ports discovery did not keep: the first on which
   * `FOCBLDC(port)` succeeds. The ports discovery kept are left alone.
   */
  method SearchGripper(ports: seq<Device>, codec: Codec, used: set<nat>, ghost os: seq<ProbeOutcome>)
    returns (g: EndEffectors.Gripper?, r: Result<(), Fault>)
    requires Distinct(ports) && |os| == |ports| && used == Used(ProbesOf(os))
    requires forall i :: 0 <= i < |ports| ==> PortOf(ports[i]) == PortAfter(os[i])
    modifies set i | 0 <= i < |ports| && i !in used :: ports[i]
    ensures var s := SearchFrom(TriesOf(codec, os), 0);
      && (r.Failure? <==> s.Halted?) && (r.Failure? ==> r.error == s.fault)
      && (r.Success? ==> (g != null <==> s.Found?))
      && (r.Success? && s.Found? ==>
            && g != null && fresh(g) && fresh(g.m) && g.Valid() && g.m.dev == ports[s.index] && g.m.codec == codec
            && g.m.State() == GripperModel.Init(codec, Opened(PortAfter(os[s.index]))).state)
  {
    ghost var tries := TriesOf(codec, os);
    g := null;
    var i := 0;
    while i < |ports|
      invariant 0 <= i <= |ports|
      invariant SearchFrom(tries, i) == SearchFrom(tries, 0)
      invariant forall p :: i <= p < |ports| ==> PortOf(ports[p]) == PortAfter(os[p])
    {
      TriesAt(codec, os, i);
      if i !in used {
        forall p | 0 <= p < |ports| && p != i
          ensures ports[p] != ports[i]
        {
          Apart(ports, p, i);
        }
        assert ProbesOf(os)[i] == os[i].probe;
        var e, er := TryPort(ports[i], codec, os[i]);
        assert tries[i] == Some(er);
        if er.Success? {
          return e, er;
        }
        if !er.error.EndEffectorException? {
          return null, er;
        }
      }
      i := i + 1;
    }
    r := Success(());
  }

  /** One port of the gripper search: `FOCBLDC(port)` on a port discovery did not keep. */
  method TryPort(port: Device, codec: Codec, ghost o: ProbeOutcome) returns (g: EndEffectors.Gripper, r: Result<(), Fault>)
    requires !o.probe.Registered? && PortOf(port) == PortAfter(o)
    modifies port
    ensures SystemModel.TryOn(codec, o) == Some(r)
    ensures fresh(g) && fresh(g.m) && g.Valid() && g.m.dev == port && g.m.codec == codec
    ensures g.m.State() == GripperModel.Init(codec, Opened(PortAfter(o))).state
  {
    g, r := EndEffectors.OpenGripper(port, codec);
  }

  /** Distinct ports at distinct indices. */
  lemma Apart(ports: seq<Device>, a: nat, b: nat)
    requires Distinct(ports) && a < |ports| && b < |ports| && a != b
    ensures ports[a] != ports[b]
  {
    if b < a {
      assert ports[b] != ports[a];
    }
  }

  /** A port discovery kept is not one the gripper search may touch. */
  lemma NotAmong(ports: seq<Device>, used: set<nat>, j: nat)
    requires Distinct(ports) && j < |ports| && j in used
    ensures ports[j] !in set i | 0 <= i < |ports| && i !in used :: ports[i]
  {
  }

  /**
   * The object `__init__` builds from the four joint motors discovery kept and the gripper found on
   * port `k`, configured: joint n is driven by the motor on the port `reg[n]` registered for id n.
   */
  method Assemble(ports: seq<Device>, codec: Codec, ghost snap: seq<Port>, ghost os: seq<ProbeOutcome>,
                  ghost reg: map<int, nat>, ghost k: nat,
                  m1: Motors.Motor, m2: Motors.Motor, m3: Motors.Motor, m4: Motors.Motor, g: EndEffectors.Gripper,
                  ids: seq<Joint>)
    returns (sys: System, r: Result<(), Fault>)
    requires Distinct(ports) && |snap| == |ports| && os == Outcomes(codec, snap) && reg == Register(ProbesOf(os))
    requires k < |ports|
    requires (forall j :: JointId(j) in reg) && forall id :: id in reg ==> reg[id] < |ports|
    requires 1 in reg && 2 in reg && 3 in reg && 4 in reg
    requires reg[1] != reg[2] && reg[1] != reg[3] && reg[1] != reg[4] && reg[2] != reg[3] && reg[2] != reg[4]
    requires reg[3] != reg[4] && k != reg[1] && k != reg[2] && k != reg[3] && k != reg[4]
    requires Kept(m1, codec, ports, os, reg[1]) && Kept(m2, codec, ports, os, reg[2])
    requires Kept(m3, codec, ports, os, reg[3]) && Kept(m4, codec, ports, os, reg[4])
    requires g.Valid() && g.m.codec == codec && g.m.dev == ports[k]
    requires g.m.State() == GripperModel.Init(codec, Opened(PortAfter(os[k]))).state
    modifies m1, m1.dev, m2, m2.dev, m3, m3.dev, m4, m4.dev, g.m, g.m.dev
    ensures fresh(sys) && sys.Valid() && sys.codec == codec && sys.order == ids
    ensures ArmOutcome(sys.State(), r) == Configure(codec, Assembled(codec, snap, k))
  {
    Apart(ports, reg[1], reg[2]);
    Apart(ports, reg[1], reg[3]);
    Apart(ports, reg[1], reg[4]);
    Apart(ports, reg[2], reg[3]);
    Apart(ports, reg[2], reg[4]);
    Apart(ports, reg[3], reg[4]);
    Apart(ports, k, reg[1]);
    Apart(ports, k, reg[2]);
    Apart(ports, k, reg[3]);
    Apart(ports, k, reg[4]);
    assert JointId(Vertical) == 1 && JointId(InnerRot) == 2 && JointId(OuterRot) == 3 && JointId(EndRot) == 4;
    assert Assembled(codec, snap, k) == SystemModel.Arm(m1.State(), m2.State(), m3.State(), m4.State(), g.m.State());
    sys := new System(m1, m2, m3, m4, g, ids, codec);
    r := sys.Configure();
  }

  /**
   * `System()`: discover the joint motors, find the gripper, bind the joints and configure them.
   * When it raises there is no object; otherwise the object holds the motors the ports reported
   * and the gripper the search found, configured.
   */
  method Start(ports: seq<Device>, codec: Codec) returns (sys: System?, r: Result<(), Fault>)
    requires Distinct(ports)
    modifies set i | 0 <= i < |ports| :: ports[i]
    ensures var plan := StartupPlan(codec, old(Snapshot(ports)));
      && (plan.Aborts? ==> sys == null && r == Failure(plan.fault))
      && (plan.Builds? ==>
            && sys != null && fresh(sys) && sys.Valid() && sys.codec == codec
            && sys.order == JointOrder(Order(Probes(codec, old(Snapshot(ports)))))
            && ArmOutcome(sys.State(), r) == Configure(codec, Assembled(codec, old(Snapshot(ports)), plan.k)))
  {
    ghost var snap := Snapshot(ports);
    ghost var os := Outcomes(codec, snap);
    OutcomesAreProbes(codec, snap, os);
    var found, ids, used, dr := Discover(ports, codec, snap, os);
    if dr.Failure? {
      return null, dr;
    }
    sys, r := StartWithMotors(ports, codec, snap, os, found, ids, used);
  }

  /** `__init__` once discovery has run to the end: the gripper search, then the binding. */
  method StartWithMotors(ports: seq<Device>, codec: Codec, ghost snap: seq<Port>, ghost os: seq<ProbeOutcome>,
                         found: map<int, Motors.Motor>, ids: seq<int>, used: set<nat>)
    returns (sys: System?, r: Result<(), Fault>)
    requires Distinct(ports) && |snap| == |ports| && os == Outcomes(codec, snap)
    requires var probes := ProbesOf(os);
      && FirstAbort(probes, 0).None?
      && found.Keys == Register(probes).Keys && ids == Order(probes) && used == Used(probes)
      && (forall id :: id in found ==> Kept(found[id], codec, ports, os, Register(probes)[id]))
      && forall k :: 0 <= k < |ports| ==> PortOf(ports[k]) == PortAfter(os[k])
    modifies (set i | 0 <= i < |ports| :: ports[i]), (set id | id in found :: found[id])
    ensures var plan := StartupPlan(codec, snap);
      && (plan.Aborts? ==> sys == null && r == Failure(plan.fault))
      && (plan.Builds? ==>
            && sys != null && fresh(sys) && sys.Valid() && sys.codec == codec
            && sys.order == JointOrder(Order(Probes(codec, snap)))
            && ArmOutcome(sys.State(), r) == Configure(codec, Assembled(codec, snap, plan.k)))
  {
    ghost var probes := ProbesOf(os);
    forall k | 0 <= k < |ports| && k in used
      ensures ports[k] !in set i | 0 <= i < |ports| && i !in used :: ports[i]
    {
      NotAmong(ports, used, k);
    }
    var g, gr := SearchGripper(ports, codec, used, os);
    if gr.Failure? {
      return null, gr;
    }
    forall id | id in found
      ensures Kept(found[id], codec, ports, os, Register(probes)[id])
    {
      RegisterLastWins(probes, id);
      var k := Register(probes)[id];
      assert k in used && old(Kept(found[id], codec, ports, os, k));
    }
    sys, r := StartWithGripper(ports, codec, snap, os, found, ids, g);
  }

  /** `__init__` once the gripper search has ended without raising: bind the joints and configure them. */
  method StartWithGripper(ports: seq<Device>, codec: Codec, ghost snap: seq<Port>, ghost os: seq<ProbeOutcome>,
                          found: map<int, Motors.Motor>, ids: seq<int>, g: EndEffectors.Gripper?)
    returns (sys: System?, r: Result<(), Fault>)
    requires Distinct(ports) && |snap| == |ports| && os == Outcomes(codec, snap)
    requires var probes := ProbesOf(os);
      && FirstAbort(probes, 0).None? && found.Keys == Register(probes).Keys && ids == Order(probes)
      && forall id :: id in found ==> Kept(found[id], codec, ports, os, Register(probes)[id])
    requires var s := SearchFrom(TriesOf(codec, os), 0);
      && !s.Halted? && (g != null <==> s.Found?)
      && (g != null ==>
            && g.Valid() && g.m.dev == ports[s.index] && g.m.codec == codec
            && g.m.State() == GripperModel.Init(codec, Opened(PortAfter(os[s.index]))).state)
    modifies (set i | 0 <= i < |ports| :: ports[i]), (set id | id in found :: found[id]), if g == null then {} else {g.m}
    ensures var plan := StartupPlan(codec, snap);
      && (plan.Aborts? ==> sys == null && r == Failure(plan.fault))
      && (plan.Builds? ==>
            && sys != null && fresh(sys) && sys.Valid() && sys.codec == codec
            && sys.order == JointOrder(Order(Probes(codec, snap)))
            && ArmOutcome(sys.State(), r) == Configure(codec, Assembled(codec, snap, plan.k)))
  {
    var b := Bind(found.Keys, g != null);
    if b.Failure? {
      return null, b;
    }
    BindNeedsEveryJoint(found.Keys, g != null);
    ghost var probes := ProbesOf(os);
    ghost var reg := Register(probes);
    ghost var k := StartupPlan(codec, snap).k;
    RegisterLastWins(probes, 1);
    RegisterLastWins(probes, 2);
    RegisterLastWins(probes, 3);
    RegisterLastWins(probes, 4);
    var s;
    s, r := Assemble(ports, codec, snap, os, reg, k, found[1], found[2], found[3], found[4], g, JointOrder(ids));
    sys := s;
  }
}
