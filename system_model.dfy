/**
 * The arm as a whole (class `System` of lib/system.py) as functions over the states of its five
 * motors: the four joints and the gripper's motor. Every call the system makes on a motor is one
 * of the `MotorModel` operations; a script of such calls runs in order and stops at the first
 * that raises, with the state reached so far.
 */
module SystemModel {
  import opened Wrappers
  import opened Numerals
  import opened Text
  import opened Protocol
  import opened MotorModel
  import HomingModel
  import GripperModel
  import Bezier

  /** The four joint motors, named as the arm's attributes are. */
  datatype Joint = Vertical | InnerRot | OuterRot | EndRot

  /** The id each joint's controller reports: `m_vertical` is motor 1, up to `m_end_rot`, motor 4. */
  function JointId(j: Joint): int {
    match j
    case Vertical => 1
    case InnerRot => 2
    case OuterRot => 3
    case EndRot => 4
  }

  /** The keys of `self.joints`. */
  datatype Axis = T1 | T2 | Z | R

  function AxisName(x: Axis): string {
    match x
    case T1 => "t1"
    case T2 => "t2"
    case Z => "z"
    case R => "r"
  }

  /** `self.joints`: t1 is the inner rotation, t2 the outer rotation, z the vertical motor, r the end rotation. */
  function JointOf(x: Axis): Joint {
    match x
    case T1 => InnerRot
    case T2 => OuterRot
    case Z => Vertical
    case R => EndRot
  }

  /** Each axis names a different joint and every joint has an axis; the ids are 1 to 4, one per joint. */
  lemma JointsMapIsBijective(x: Axis, y: Axis, j: Joint, k: Joint)
    ensures JointOf(x) == JointOf(y) ==> x == y
    ensures AxisName(x) == AxisName(y) ==> x == y
    ensures exists a :: JointOf(a) == j
    ensures 1 <= JointId(j) <= 4
    ensures JointId(j) == JointId(k) ==> j == k
  {
    match j
    case Vertical => assert JointOf(Z) == j;
    case InnerRot => assert JointOf(T1) == j;
    case OuterRot => assert JointOf(T2) == j;
    case EndRot => assert JointOf(R) == j;
  }

  // ---------------------------------------------------------------------------------------------
  // The arm's state and scripts of motor calls

  /** The four joint motors and the gripper's motor. */
  datatype Arm = Arm(
    vertical: MotorState, innerRot: MotorState, outerRot: MotorState, endRot: MotorState, effector: MotorState)

  function At(a: Arm, j: Joint): MotorState {
    match j
    case Vertical => a.vertical
    case InnerRot => a.innerRot
    case OuterRot => a.outerRot
    case EndRot => a.endRot
  }

  /** The arm with one joint's state replaced. */
  function With(a: Arm, j: Joint, s: MotorState): (b: Arm)
    ensures At(b, j) == s && b.effector == a.effector
    ensures forall k :: k != j ==> At(b, k) == At(a, k)
  {
    match j
    case Vertical => a.(vertical := s)
    case InnerRot => a.(innerRot := s)
    case OuterRot => a.(outerRot := s)
    case EndRot => a.(endRot := s)
  }

  /** The arm after an operation and what it returned or raised. */
  datatype ArmOutcome<T> = ArmOutcome(arm: Arm, result: Result<T, Fault>)

  /** A motor call the system makes on one joint. */
  datatype Command =
    | MoveTo(pos: real)
    | Power(on: bool)
    | VoltageCap(volts: real)
    | SpeedCap(limit: real)
    | Tune(stage: string, args: seq<real>, kwargs: seq<(string, real)>)

  function Apply(c: Codec, s: MotorState, cmd: Command): Outcome<()> {
    match cmd
    case MoveTo(p) => Move(c, s, p)
    case Power(on) => if on then MotorModel.Enable(c, s) else MotorModel.Disable(c, s)
    case VoltageCap(v) => SetVoltageLimit(c, s, v)
    case SpeedCap(v) => SetVelocityLimit(c, s, v)
    case Tune(stage, args, kwargs) => SetPids(c, s, stage, args, kwargs)
  }

  /** Calls on one motor, in order, up to the first that raises. */
  function RunOn(c: Codec, s: MotorState, cmds: seq<Command>): Outcome<()>
    decreases |cmds|
  {
    if cmds == [] then Outcome(s, Success(()))
    else
      var o := Apply(c, s, cmds[0]);
      if o.result.Failure? then o else RunOn(c, o.state, cmds[1..])
  }

  /** One call of a script. */
  function Step(c: Codec, a: Arm, call: (Joint, Command)): ArmOutcome<()> {
    var o := Apply(c, At(a, call.0), call.1);
    ArmOutcome(With(a, call.0, o.state), o.result)
  }

  /** Calls across the joints, in order, up to the first that raises. */
  function RunScript(c: Codec, a: Arm, script: seq<(Joint, Command)>): ArmOutcome<()>
    decreases |script|
  {
    if script == [] then ArmOutcome(a, Success(()))
    else
      var o := Step(c, a, script[0]);
      if o.result.Failure? then o else RunScript(c, o.arm, script[1..])
  }

  /** The calls a script makes on one joint, in order. */
  function CallsOn(script: seq<(Joint, Command)>, j: Joint): (r: seq<Command>)
    ensures |r| <= |script|
  {
    if script == [] then [] else (if script[0].0 == j then [script[0].1] else []) + CallsOn(script[1..], j)
  }

  /** The calls of a script made of two parts are the calls of the first, then those of the second. */
  lemma {:induction false} CallsOnConcat(p: seq<(Joint, Command)>, q: seq<(Joint, Command)>, j: Joint)
    ensures CallsOn(p + q, j) == CallsOn(p, j) + CallsOn(q, j)
    decreases |p|
  {
    if p == [] {
      assert p + q == q;
    } else {
      var h := if p[0].0 == j then [p[0].1] else [];
      assert (p + q)[0] == p[0];
      assert (p + q)[1..] == p[1..] + q;
      CallsOnConcat(p[1..], q, j);
      assert CallsOn(p + q, j) == h + (CallsOn(p[1..], j) + CallsOn(q, j));
      assert h + (CallsOn(p[1..], j) + CallsOn(q, j)) == (h + CallsOn(p[1..], j)) + CallsOn(q, j);
    }
  }

  /** A script of calls on a single joint. */
  function OnJoint(j: Joint, cmds: seq<Command>): (r: seq<(Joint, Command)>)
    ensures |r| == |cmds| && forall i :: 0 <= i < |cmds| ==> r[i] == (j, cmds[i])
  {
    if cmds == [] then [] else [(j, cmds[0])] + OnJoint(j, cmds[1..])
  }

  lemma {:induction false} CallsOnJoint(j: Joint, cmds: seq<Command>, k: Joint)
    ensures CallsOn(OnJoint(j, cmds), k) == if j == k then cmds else []
    decreases |cmds|
  {
    if cmds != [] {
      var rest := OnJoint(j, cmds[1..]);
      assert OnJoint(j, cmds) == [(j, cmds[0])] + rest;
      CallsOnConcat([(j, cmds[0])], rest, k);
      CallsOnJoint(j, cmds[1..], k);
      if j == k {
        assert [cmds[0]] + cmds[1..] == cmds;
      }
    }
  }

  /**
   * Motors never share state, so a script succeeds exactly when each joint's own calls succeed,
   * and then each joint ends where its own calls alone take it. The gripper is never touched.
   */
  lemma {:induction false} ScriptRunsPerJoint(c: Codec, a: Arm, script: seq<(Joint, Command)>)
    ensures RunScript(c, a, script).arm.effector == a.effector
    ensures RunScript(c, a, script).result.Success? <==>
      forall j :: RunOn(c, At(a, j), CallsOn(script, j)).result.Success?
    ensures RunScript(c, a, script).result.Success? ==>
      forall j :: At(RunScript(c, a, script).arm, j) == RunOn(c, At(a, j), CallsOn(script, j)).state
    decreases |script|
  {
    if script != [] {
      var j0 := script[0].0;
      var o := Apply(c, At(a, j0), script[0].1);
      var b := With(a, j0, o.state);
      assert CallsOn(script, j0) == [script[0].1] + CallsOn(script[1..], j0);
      forall j | j != j0
        ensures CallsOn(script, j) == CallsOn(script[1..], j)
      {
        assert CallsOn(script, j) == [] + CallsOn(script[1..], j);
      }
      if o.result.Failure? {
        assert !RunOn(c, At(a, j0), CallsOn(script, j0)).result.Success?;
      } else {
        ScriptRunsPerJoint(c, b, script[1..]);
        assert RunOn(c, At(a, j0), CallsOn(script, j0)) == RunOn(c, At(b, j0), CallsOn(script[1..], j0));
      }
    }
  }

  /** The script ran its first `k` calls successfully and the next one raised; nothing after it ran. */
  ghost predicate StopsAt(c: Codec, a: Arm, script: seq<(Joint, Command)>, k: nat) {
    && k < |script|
    && RunScript(c, a, script[..k]).result.Success?
    && Step(c, RunScript(c, a, script[..k]).arm, script[k]).result.Failure?
    && RunScript(c, a, script) == Step(c, RunScript(c, a, script[..k]).arm, script[k])
  }

  /** A script that raises has stopped at the call that raised: the calls after it were never made. */
  lemma {:induction false} ScriptStopsAtFirstFailure(c: Codec, a: Arm, script: seq<(Joint, Command)>)
    requires RunScript(c, a, script).result.Failure?
    ensures exists k :: StopsAt(c, a, script, k)
    decreases |script|
  {
    var o := Step(c, a, script[0]);
    assert script[..0] == [];
    if o.result.Failure? {
      assert StopsAt(c, a, script, 0);
    } else {
      ScriptStopsAtFirstFailure(c, o.arm, script[1..]);
      var k: nat :| StopsAt(c, o.arm, script[1..], k);
      assert script[..k + 1] == [script[0]] + script[1..][..k];
      assert script[..k + 1][0] == script[0] && script[..k + 1][1..] == script[1..][..k];
      assert script[k + 1] == script[1..][k];
      assert StopsAt(c, a, script, k + 1);
    }
  }

  // ---------------------------------------------------------------------------------------------
  // jog, get_all_pos and motors_enabled

  /** `jog`'s joint calls, in its order: t1, then `r - t1` on the end rotation, then t2, then z. */
  function JogScript(t1: real, t2: real, r: real, z: real): seq<(Joint, Command)> {
    OnJoint(JointOf(T1), [MoveTo(t1)]) + OnJoint(JointOf(R), [MoveTo(r - t1)])
    + OnJoint(JointOf(T2), [MoveTo(t2)]) + OnJoint(JointOf(Z), [MoveTo(z)])
  }

  /** The position a jog commands a joint to. */
  function JogTarget(j: Joint, t1: real, t2: real, r: real, z: real): real {
    match j
    case InnerRot => t1
    case EndRot => r - t1
    case OuterRot => t2
    case Vertical => z
  }

  /** Each joint gets exactly one call from a jog: the move to its target. */
  lemma JogCalls(t1: real, t2: real, r: real, z: real, j: Joint)
    ensures CallsOn(JogScript(t1, t2, r, z), j) == [MoveTo(JogTarget(j, t1, t2, r, z))]
  {
    CallsOnFour(InnerRot, [MoveTo(t1)], EndRot, [MoveTo(r - t1)], OuterRot, [MoveTo(t2)], Vertical, [MoveTo(z)], j);
  }

  /** `jog(t1, t2, r, z, e)`: the gripper moves last, and only when `e` is given. */
  function Jog(c: Codec, a: Arm, t1: real, t2: real, r: real, z: real, e: Option<real>): ArmOutcome<()> {
    var o := RunScript(c, a, JogScript(t1, t2, r, z));
    if o.result.Failure? || e.None? then o
    else
      var g := GripperModel.Move(c, o.arm.effector, e.value);
      ArmOutcome(o.arm.(effector := g.state), g.result)
  }

  /** Whether each joint accepts its move of a jog. */
  predicate JointsAccept(c: Codec, a: Arm, t1: real, t2: real, r: real, z: real) {
    && Move(c, a.innerRot, t1).result.Success?
    && Move(c, a.endRot, r - t1).result.Success?
    && Move(c, a.outerRot, t2).result.Success?
    && Move(c, a.vertical, z).result.Success?
  }

  /**
   * A jog moves each joint once, from its own state: the inner rotation to t1, the end rotation to
   * `r - t1` (so the gripper keeps the world orientation r), the outer rotation to t2 and the
   * vertical motor to z. It succeeds exactly when all of these do and, when `e` is given, the
   * gripper's move; the gripper is touched only after every joint has moved.
   */
  lemma JogMovesEachJointOnce(c: Codec, a: Arm, t1: real, t2: real, r: real, z: real, e: Option<real>)
    ensures var o := Jog(c, a, t1, t2, r, z, e);
      && (o.result.Success? <==>
            JointsAccept(c, a, t1, t2, r, z) && (e.Some? ==> GripperModel.Move(c, a.effector, e.value).result.Success?))
      && (JointsAccept(c, a, t1, t2, r, z) ==>
            && o.arm.innerRot == Move(c, a.innerRot, t1).state
            && o.arm.endRot == Move(c, a.endRot, r - t1).state
            && o.arm.outerRot == Move(c, a.outerRot, t2).state
            && o.arm.vertical == Move(c, a.vertical, z).state
            && o.arm.effector == (if e.None? then a.effector else GripperModel.Move(c, a.effector, e.value).state))
      && (!JointsAccept(c, a, t1, t2, r, z) ==> o.arm.effector == a.effector)
  {
    JogScriptRuns(c, a, t1, t2, r, z);
  }

  /** The joint calls of a jog succeed exactly when each joint accepts its move, and then each joint has made it. */
  lemma JogScriptRuns(c: Codec, a: Arm, t1: real, t2: real, r: real, z: real)
    ensures var o := RunScript(c, a, JogScript(t1, t2, r, z));
      && o.arm.effector == a.effector
      && (o.result.Success? <==> JointsAccept(c, a, t1, t2, r, z))
      && (o.result.Success? ==>
            && o.arm.innerRot == Move(c, a.innerRot, t1).state
            && o.arm.endRot == Move(c, a.endRot, r - t1).state
            && o.arm.outerRot == Move(c, a.outerRot, t2).state
            && o.arm.vertical == Move(c, a.vertical, z).state)
  {
    var script := JogScript(t1, t2, r, z);
    ScriptRunsPerJoint(c, a, script);
    forall j
      ensures RunOn(c, At(a, j), CallsOn(script, j)) == Move(c, At(a, j), JogTarget(j, t1, t2, r, z))
    {
      JogCalls(t1, t2, r, z, j);
      RunOnMove(c, At(a, j), JogTarget(j, t1, t2, r, z));
    }
    assert JointsAccept(c, a, t1, t2, r, z) <==>
      forall j :: Move(c, At(a, j), JogTarget(j, t1, t2, r, z)).result.Success? by {
      assert At(a, InnerRot) == a.innerRot && At(a, EndRot) == a.endRot;
      assert At(a, OuterRot) == a.outerRot && At(a, Vertical) == a.vertical;
    }
    var o := RunScript(c, a, script);
    if o.result.Success? {
      assert At(o.arm, InnerRot) == Move(c, At(a, InnerRot), t1).state;
      assert At(o.arm, EndRot) == Move(c, At(a, EndRot), r - t1).state;
      assert At(o.arm, OuterRot) == Move(c, At(a, OuterRot), t2).state;
      assert At(o.arm, Vertical) == Move(c, At(a, Vertical), z).state;
    }
  }

  /** Running a single move on one motor is that move. */
  lemma RunOnMove(c: Codec, s: MotorState, p: real)
    ensures RunOn(c, s, [MoveTo(p)]) == Move(c, s, p)
  {
    assert [MoveTo(p)][1..] == [];
  }

  /** One joint's `position`. */
  function ReadAt(c: Codec, a: Arm, j: Joint): ArmOutcome<real> {
    var o := Position(c, At(a, j));
    ArmOutcome(With(a, j, o.state), o.result)
  }

  /** `get_all_pos()` unpacked into four values: the positions of t1, t2, z and r, read in that order. */
  function Positions(c: Codec, a: Arm): ArmOutcome<(real, real, real, real)> {
    var p1 := ReadAt(c, a, JointOf(T1));
    if p1.result.Failure? then ArmOutcome(p1.arm, Failure(p1.result.error)) else
    var p2 := ReadAt(c, p1.arm, JointOf(T2));
    if p2.result.Failure? then ArmOutcome(p2.arm, Failure(p2.result.error)) else
    var p3 := ReadAt(c, p2.arm, JointOf(Z));
    if p3.result.Failure? then ArmOutcome(p3.arm, Failure(p3.result.error)) else
    var p4 := ReadAt(c, p3.arm, JointOf(R));
    if p4.result.Failure? then ArmOutcome(p4.arm, Failure(p4.result.error)) else
    ArmOutcome(p4.arm, Success((p1.result.value, p2.result.value, p3.result.value, p4.result.value)))
  }

  /** The four readings are each joint's own `position`, and they all succeed exactly when the whole read does. */
  lemma PositionsAreJointReadings(c: Codec, a: Arm)
    ensures var o := Positions(c, a);
      && o.arm.effector == a.effector
      && (o.result.Success? <==>
            && Position(c, a.innerRot).result.Success? && Position(c, a.outerRot).result.Success?
            && Position(c, a.vertical).result.Success? && Position(c, a.endRot).result.Success?)
      && (o.result.Success? ==>
            o.result.value == (Position(c, a.innerRot).result.value, Position(c, a.outerRot).result.value,
                               Position(c, a.vertical).result.value, Position(c, a.endRot).result.value))
  {
  }

  /** The script `motors_enabled` runs: the same call on every motor of `self.motors`, in the dict's order. */
  function PowerScript(order: seq<Joint>, on: bool): (r: seq<(Joint, Command)>)
    ensures |r| == |order| && forall i :: 0 <= i < |order| ==> r[i] == (order[i], Power(on))
  {
    if order == [] then [] else [(order[0], Power(on))] + PowerScript(order[1..], on)
  }

  /** `motors_enabled(value)`. */
  function MotorsEnabled(c: Codec, a: Arm, order: seq<Joint>, on: bool): ArmOutcome<()> {
    RunScript(c, a, PowerScript(order, on))
  }

  lemma {:induction false} PowerCalls(order: seq<Joint>, on: bool, j: Joint)
    requires forall p, q :: 0 <= p < q < |order| ==> order[p] != order[q]
    ensures CallsOn(PowerScript(order, on), j) == if j in order then [Power(on)] else []
    decreases |order|
  {
    if order != [] {
      PowerCalls(order[1..], on, j);
      assert PowerScript(order, on)[1..] == PowerScript(order[1..], on);
      assert j in order <==> j == order[0] || j in order[1..];
      if j == order[0] {
        assert j !in order[1..];
      }
    }
  }

  /**
   * For a dict order naming each joint at most once, `motors_enabled` succeeds exactly when every
   * listed motor accepts the enable (or disable) call, and then exactly those motors have taken it.
   */
  lemma MotorsEnabledEach(c: Codec, a: Arm, order: seq<Joint>, on: bool)
    requires forall p, q :: 0 <= p < q < |order| ==> order[p] != order[q]
    ensures var o := MotorsEnabled(c, a, order, on);
      && o.arm.effector == a.effector
      && (o.result.Success? <==> forall j :: j in order ==> Apply(c, At(a, j), Power(on)).result.Success?)
      && (o.result.Success? ==>
            forall j :: At(o.arm, j) == if j in order then Apply(c, At(a, j), Power(on)).state else At(a, j))
  {
    var script := PowerScript(order, on);
    ScriptRunsPerJoint(c, a, script);
    forall j
      ensures RunOn(c, At(a, j), CallsOn(script, j)) ==
        if j in order then Apply(c, At(a, j), Power(on)) else Outcome(At(a, j), Success(()))
    {
      PowerCalls(order, on, j);
    }
  }

  // ---------------------------------------------------------------------------------------------
  // The configuration `__init__` ends with

  /** The limits and PID terms `__init__` sets, in its order. */
  const VerticalSetup: seq<Command> := [VoltageCap(12.0), Tune("vel", [0.5, 20.0], []), Tune("angle", [10.0], [])]

  const InnerSetup: seq<Command> := [
    VoltageCap(12.0), SpeedCap(4.0),
    Tune("vel", [2.0, 20.0], [("R", 200.0), ("F", 0.01)]),
    Tune("angle", [20.0], [("D", 4.0), ("R", 125.0), ("F", 0.01)])]

  const OuterSetup: seq<Command> := [
    VoltageCap(12.0), SpeedCap(4.0),
    Tune("vel", [0.6, 20.0], [("F", 0.01)]),
    Tune("angle", [20.0], [("D", 3.0), ("R", 100.0), ("F", 0.01)])]

  const EndSetup: seq<Command> := [VoltageCap(12.0), SpeedCap(12.0)]

  /** The limits and PID terms `__init__` sets, in its order: vertical, inner, outer, then end rotation. */
  const Configuration: seq<(Joint, Command)> :=
    OnJoint(Vertical, VerticalSetup) + OnJoint(InnerRot, InnerSetup) + OnJoint(OuterRot, OuterSetup) + OnJoint(EndRot, EndSetup)

  /** The setup list of each joint. */
  function Setup(j: Joint): seq<Command> {
    match j
    case Vertical => VerticalSetup
    case InnerRot => InnerSetup
    case OuterRot => OuterSetup
    case EndRot => EndSetup
  }

  function Configure(c: Codec, a: Arm): ArmOutcome<()> {
    RunScript(c, a, Configuration)
  }

  /**
   * Every joint gets a 12 V limit first; the rotations then get velocity limits (4, 4 and 12);
   * the PID terms go to the 'vel' stage (prefix V) and then the 'angle' stage (prefix A), named
   * P, I, then the keyword terms. The configuration succeeds exactly when each joint accepts its
   * own calls, and it never touches the gripper.
   */
  /** Each joint's calls in the configuration are its own setup list, in order. */
  lemma ConfigurationCalls(j: Joint)
    ensures CallsOn(Configuration, j) == Setup(j)
  {
    CallsOnFour(Vertical, VerticalSetup, InnerRot, InnerSetup, OuterRot, OuterSetup, EndRot, EndSetup, j);
  }

  /** A script with no calls on a joint adds none when it runs after another. */
  lemma SkipSilentRight(p: seq<(Joint, Command)>, q: seq<(Joint, Command)>, j: Joint)
    requires CallsOn(q, j) == []
    ensures CallsOn(p + q, j) == CallsOn(p, j)
  {
    CallsOnConcat(p, q, j);
    assert CallsOn(p, j) + [] == CallsOn(p, j);
  }

  /** A script with no calls on a joint adds none when it runs before another. */
  lemma SkipSilentLeft(p: seq<(Joint, Command)>, q: seq<(Joint, Command)>, j: Joint)
    requires CallsOn(p, j) == []
    ensures CallsOn(p + q, j) == CallsOn(q, j)
  {
    CallsOnConcat(p, q, j);
    assert [] + CallsOn(q, j) == CallsOn(q, j);
  }

  /**
   * The calls on one joint of four scripts run one after the other, when each script calls only
   * its own joint and the four joints differ.
   */
  lemma CallsOnConcat4(p1: seq<(Joint, Command)>, p2: seq<(Joint, Command)>, p3: seq<(Joint, Command)>,
                       p4: seq<(Joint, Command)>, j1: Joint, s1: seq<Command>, j2: Joint, s2: seq<Command>,
                       j3: Joint, s3: seq<Command>, j4: Joint, s4: seq<Command>, j: Joint)
    requires j1 != j2 && j1 != j3 && j1 != j4 && j2 != j3 && j2 != j4 && j3 != j4
    requires CallsOn(p1, j) == (if j == j1 then s1 else []) && CallsOn(p2, j) == (if j == j2 then s2 else [])
    requires CallsOn(p3, j) == (if j == j3 then s3 else []) && CallsOn(p4, j) == (if j == j4 then s4 else [])
    ensures CallsOn(p1 + p2 + p3 + p4, j)
      == if j == j1 then s1 else if j == j2 then s2 else if j == j3 then s3 else if j == j4 then s4 else []
  {
    if j == j1 {
      SkipSilentRight(p1 + p2 + p3, p4, j);
      SkipSilentRight(p1 + p2, p3, j);
      SkipSilentRight(p1, p2, j);
    } else if j == j2 {
      SkipSilentRight(p1 + p2 + p3, p4, j);
      SkipSilentRight(p1 + p2, p3, j);
      SkipSilentLeft(p1, p2, j);
    } else if j == j3 {
      SkipSilentRight(p1 + p2 + p3, p4, j);
      SkipSilentLeft(p1, p2, j);
      SkipSilentLeft(p1 + p2, p3, j);
    } else {
      SkipSilentLeft(p1, p2, j);
      SkipSilentLeft(p1 + p2, p3, j);
      SkipSilentLeft(p1 + p2 + p3, p4, j);
    }
  }

  /** The calls on one joint of four single-joint scripts for four different joints, run one after the other. */
  lemma CallsOnFour(j1: Joint, s1: seq<Command>, j2: Joint, s2: seq<Command>, j3: Joint, s3: seq<Command>,
                    j4: Joint, s4: seq<Command>, j: Joint)
    requires j1 != j2 && j1 != j3 && j1 != j4 && j2 != j3 && j2 != j4 && j3 != j4
    ensures CallsOn(OnJoint(j1, s1) + OnJoint(j2, s2) + OnJoint(j3, s3) + OnJoint(j4, s4), j)
      == if j == j1 then s1 else if j == j2 then s2 else if j == j3 then s3 else if j == j4 then s4 else []
  {
    CallsOnJoint(j1, s1, j);
    CallsOnJoint(j2, s2, j);
    CallsOnJoint(j3, s3, j);
    CallsOnJoint(j4, s4, j);
    CallsOnConcat4(OnJoint(j1, s1), OnJoint(j2, s2), OnJoint(j3, s3), OnJoint(j4, s4), j1, s1, j2, s2, j3, s3, j4, s4, j);
  }

  /**
   * Every joint is limited to 12 V before anything else; the PID terms go to the 'vel' stage
   * (prefix V) and then the 'angle' stage (prefix A).
   */
  lemma ConfigurationTerms()
    ensures forall j :: Setup(j)[0] == VoltageCap(12.0)
    ensures PidPrefix("vel") == 'V' && PidPrefix("angle") == 'A'
  {
    forall j
      ensures Setup(j)[0] == VoltageCap(12.0)
    {
      match j
      case Vertical => assert VerticalSetup[0] == VoltageCap(12.0);
      case InnerRot => assert InnerSetup[0] == VoltageCap(12.0);
      case OuterRot => assert OuterSetup[0] == VoltageCap(12.0);
      case EndRot => assert EndSetup[0] == VoltageCap(12.0);
    }
  }

  /** The inner rotation's PID terms are named P, I (or P alone), then the keyword terms in their order. */
  lemma InnerRotationTerms()
    ensures PidTerms([2.0, 20.0], [("R", 200.0), ("F", 0.01)]) == [("P", 2.0), ("I", 20.0), ("R", 200.0), ("F", 0.01)]
    ensures PidTerms([20.0], [("D", 4.0), ("R", 125.0), ("F", 0.01)]) == [("P", 20.0), ("D", 4.0), ("R", 125.0), ("F", 0.01)]
  {
    assert Zip(PidNames, [2.0, 20.0]) == [("P", 2.0), ("I", 20.0)];
    assert Zip(PidNames, [20.0]) == [("P", 20.0)];
  }

  /**
   * The configuration succeeds exactly when each joint accepts its own setup list, leaves each
   * joint where that list alone takes it, and never touches the gripper.
   */
  lemma ConfigurationPerJoint(c: Codec, a: Arm)
    ensures Configure(c, a).arm.effector == a.effector
    ensures Configure(c, a).result.Success? <==> forall j :: RunOn(c, At(a, j), Setup(j)).result.Success?
    ensures Configure(c, a).result.Success? ==> forall j :: At(Configure(c, a).arm, j) == RunOn(c, At(a, j), Setup(j)).state
  {
    forall j
      ensures CallsOn(Configuration, j) == Setup(j)
    {
      ConfigurationCalls(j);
    }
    ScriptRunsPerJoint(c, a, Configuration);
  }

  // ---------------------------------------------------------------------------------------------
  // Discovery, the gripper search and binding (`__init__`)

  /** What motor discovery makes of one serial port. */
  datatype Probe = Registered(id: int) | Skipped | Aborted(fault: Fault)

  datatype ProbeOutcome = ProbeOutcome(state: MotorState, probe: Probe)

  /** `except MotorException: continue`: a motor exception skips the port, anything else ends `__init__`. */
  function Caught(f: Fault): Probe {
    if f.MotorException? then Skipped else Aborted(f)
  }

  /**
   * `Motor(port)`, then the test `0 < m_id < 5`: a motor with a joint id is kept, connected; any
   * other is disconnected.
   */
  function ProbePort(c: Codec, s: MotorState): ProbeOutcome {
    var o := Connect(c, s);
    if o.result.Failure? then ProbeOutcome(o.state, Caught(o.result.error))
    else if 0 < o.state.mId < 5 then ProbeOutcome(o.state, Registered(o.state.mId))
    else
      var d := MotorModel.Disconnect(c, o.state);
      ProbeOutcome(d.state, if d.result.Success? then Skipped else Caught(d.result.error))
  }

  /**
   * A port is registered exactly when its controller answers `I` with an id from 1 to 4, and then
   * under that id with its port left open; an answer that is not an integer only skips the port.
   */
  lemma ProbeRegistersJointIds(c: Codec, s: MotorState)
    requires OpenPort(s.link).Some?
    ensures var p := ProbePort(c, s); var l := OpenPort(s.link).value;
      && (p.probe.Registered? <==>
            NextText(l).Some? && ParseInt(NextText(l).value).Some? && 0 < ParseInt(NextText(l).value).value < 5)
      && (p.probe.Registered? ==> p.probe.id == ParseInt(NextText(l).value).value && p.state.mId == p.probe.id && p.state.link.open)
      && (NextText(l).Some? && ParseInt(NextText(l).value).None? ==> p.probe == Skipped)
  {
    ConnectSetsId(c, s);
  }

  /** `self.motors` as port indices: each id maps to the last port that registered it. */
  function Register(probes: seq<Probe>): map<int, nat>
    decreases |probes|
  {
    if probes == [] then map[]
    else
      var m := Register(probes[..|probes| - 1]);
      var p := probes[|probes| - 1];
      if p.Registered? then m[p.id := |probes| - 1] else m
  }

  /** An id is registered exactly when some port reported it, and it names the last such port. */
  lemma {:induction false} RegisterLastWins(probes: seq<Probe>, id: int)
    ensures id in Register(probes) <==> exists i :: 0 <= i < |probes| && probes[i] == Registered(id)
    ensures id in Register(probes) ==>
      && Register(probes)[id] < |probes| && probes[Register(probes)[id]] == Registered(id)
      && forall i :: Register(probes)[id] < i < |probes| ==> probes[i] != Registered(id)
    decreases |probes|
  {
    if probes != [] {
      var n := |probes| - 1;
      var init := probes[..n];
      RegisterLastWins(init, id);
      assert forall i :: 0 <= i < n ==> probes[i] == init[i];
      if probes[n] == Registered(id) {
        assert Register(probes)[id] == n;
      } else if id in Register(init) {
        var i := Register(init)[id];
        assert probes[i] == Registered(id);
      }
    }
  }

  /** The keys of `self.motors` in the dict's order: an id keeps the place of its first registration. */
  function Order(probes: seq<Probe>): (r: seq<int>)
    decreases |probes|
  {
    if probes == [] then []
    else
      var o := Order(probes[..|probes| - 1]);
      var p := probes[|probes| - 1];
      if p.Registered? && p.id !in o then o + [p.id] else o
  }

  /** The dict's order lists each registered id exactly once. */
  lemma {:induction false} OrderListsKeysOnce(probes: seq<Probe>)
    ensures forall id :: id in Order(probes) <==> id in Register(probes)
    ensures forall p, q :: 0 <= p < q < |Order(probes)| ==> Order(probes)[p] != Order(probes)[q]
    decreases |probes|
  {
    if probes != [] {
      OrderListsKeysOnce(probes[..|probes| - 1]);
    }
  }

  /** `ports_used`: the ports whose motor was kept. */
  function Used(probes: seq<Probe>): set<nat> {
    set i | 0 <= i < |probes| && probes[i].Registered?
  }

  /** How the search for the gripper ends. */
  datatype Search = Found(index: nat) | NotFound | Halted(fault: Fault)

  /**
   * The gripper search from port `i` on: `tries[i]` is None for a port in `ports_used`, else what
   * constructing a gripper there gives. The first success is kept; EndEffectorException moves on;
   * any other exception ends `__init__`.
   */
  function SearchFrom(tries: seq<Option<Result<(), Fault>>>, i: nat): (s: Search)
    ensures s.Found? ==> i <= s.index < |tries|
    decreases |tries| - i
  {
    if i >= |tries| then NotFound
    else match tries[i]
      case None => SearchFrom(tries, i + 1)
      case Some(r) =>
        if r.Success? then Found(i)
        else if r.error.EndEffectorException? then SearchFrom(tries, i + 1)
        else Halted(r.error)
  }

  /** A port the search passes over: used, or refusing with EndEffectorException. */
  predicate PassedOver(t: Option<Result<(), Fault>>) {
    t.None? || (t.value.Failure? && t.value.error.EndEffectorException?)
  }

  /** The gripper is on the first port where construction succeeds, every earlier port having been passed over. */
  lemma {:induction false} SearchFindsFirst(tries: seq<Option<Result<(), Fault>>>, i: nat, k: nat)
    requires i <= |tries|
    ensures SearchFrom(tries, i) == Found(k) <==>
      i <= k < |tries| && tries[k] == Some(Success(())) && forall p :: i <= p < k ==> PassedOver(tries[p])
    ensures SearchFrom(tries, i) == NotFound <==> forall p :: i <= p < |tries| ==> PassedOver(tries[p])
    decreases |tries| - i
  {
    if i < |tries| {
      SearchFindsFirst(tries, i + 1, k);
      if tries[i].Some? && tries[i].value.Success? {
        var u: () := tries[i].value.value;
        assert u == ();
        assert tries[i] == Some(Success(()));
        assert !PassedOver(tries[i]);
      }
    }
  }

  /**
   * `self.motors[1]` to `self.motors[4]`, then `self.end_effector`: KeyError for the first missing
   * id, and AttributeError when no gripper was found.
   */
  function Bind(ids: set<int>, gripper: bool): Result<(), Fault> {
    if 1 !in ids then Failure(KeyError(1))
    else if 2 !in ids then Failure(KeyError(2))
    else if 3 !in ids then Failure(KeyError(3))
    else if 4 !in ids then Failure(KeyError(4))
    else if !gripper then Failure(AttributeError("end_effector"))
    else Success(())
  }

  /** Binding succeeds exactly when every joint id was registered and a gripper found; a KeyError names the smallest missing id. */
  lemma BindNeedsEveryJoint(ids: set<int>, gripper: bool)
    ensures Bind(ids, gripper).Success? <==> (forall j :: JointId(j) in ids) && gripper
    ensures Bind(ids, gripper).Failure? && Bind(ids, gripper).error.KeyError? ==>
      var k := Bind(ids, gripper).error.key;
      && 1 <= k <= 4 && k !in ids && forall m :: 1 <= m < k ==> m in ids
    ensures Bind(ids, gripper).Failure? && !Bind(ids, gripper).error.KeyError? ==>
      Bind(ids, gripper) == Failure(AttributeError("end_effector")) && forall j :: JointId(j) in ids
  {
    assert JointId(Vertical) == 1 && JointId(InnerRot) == 2 && JointId(OuterRot) == 3 && JointId(EndRot) == 4;
    if 1 in ids && 2 in ids && 3 in ids && 4 in ids {
      forall j ensures JointId(j) in ids {
        assert 1 <= JointId(j) <= 4;
      }
    }
  }

  /** The first port from `i` on whose probe raised something other than a MotorException. */
  function FirstAbort(probes: seq<Probe>, i: nat): (r: Option<nat>)
    ensures r.Some? ==> i <= r.value < |probes| && probes[r.value].Aborted?
    decreases |probes| - i
  {
    if i >= |probes| then None
    else if probes[i].Aborted? then Some(i)
    else FirstAbort(probes, i + 1)
  }

  /** Discovery stops at the first port that aborts it, and runs to the end when none does. */
  lemma {:induction false} FirstAbortIsFirst(probes: seq<Probe>, i: nat, k: nat)
    requires i <= |probes|
    ensures FirstAbort(probes, i) == Some(k) <==>
      i <= k < |probes| && probes[k].Aborted? && forall p :: i <= p < k ==> !probes[p].Aborted?
    ensures FirstAbort(probes, i).None? <==> forall p :: i <= p < |probes| ==> !probes[p].Aborted?
    decreases |probes| - i
  {
    if i < |probes| {
      FirstAbortIsFirst(probes, i + 1, k);
    }
  }

  /** A serial port's controller as `__init__` finds it: whether it opens, the replies it will give, what it was sent. */
  datatype Port = Port(available: bool, replies: seq<Reply>, sent: seq<string>)

  /** A new motor object over a port, before `connect`. */
  function Opened(p: Port): MotorState {
    Fresh(p.available, p.replies, p.sent)
  }

  /** The probe of one port by discovery. */
  function ProbeOf(c: Codec, p: Port): ProbeOutcome {
    ProbePort(c, Opened(p))
  }

  /** What discovery makes of each port, were it to reach it, with the motor object it leaves behind. */
  function Outcomes(c: Codec, ports: seq<Port>): (r: seq<ProbeOutcome>)
    ensures |r| == |ports|
    decreases |ports|
  {
    if ports == [] then [] else Outcomes(c, ports[..|ports| - 1]) + [ProbeOf(c, ports[|ports| - 1])]
  }

  /** Each port's outcome is that of probing that port alone. */
  lemma {:induction false} OutcomesAt(c: Codec, ports: seq<Port>, i: nat)
    requires i < |ports|
    ensures Outcomes(c, ports)[i] == ProbeOf(c, ports[i])
    decreases |ports|
  {
    var n := |ports| - 1;
    if i < n {
      OutcomesAt(c, ports[..n], i);
    }
  }

  /**
   * `os` is what probing each port gives. The trigger keeps a port's probe out of view until a
   * proof names it.
   */
  predicate ProbedAs(c: Codec, ports: seq<Port>, os: seq<ProbeOutcome>) {
    |os| == |ports| && forall i {:trigger ProbeOf(c, ports[i])} :: 0 <= i < |ports| ==> os[i] == ProbeOf(c, ports[i])
  }

  /** The outcomes of the probes are exactly what probing each port gives. */
  lemma OutcomesAreProbes(c: Codec, ports: seq<Port>, os: seq<ProbeOutcome>)
    ensures ProbedAs(c, ports, os) <==> os == Outcomes(c, ports)
  {
    forall i | 0 <= i < |ports|
      ensures Outcomes(c, ports)[i] == ProbeOf(c, ports[i])
    {
      OutcomesAt(c, ports, i);
    }
  }

  /** The probes alone. */
  function ProbesOf(os: seq<ProbeOutcome>): (r: seq<Probe>)
    ensures |r| == |os| && forall i :: 0 <= i < |os| ==> r[i] == os[i].probe
  {
    seq(|os|, i requires 0 <= i < |os| => os[i].probe)
  }

  /** What discovery makes of each port, were it to reach it. */
  function Probes(c: Codec, ports: seq<Port>): (r: seq<Probe>)
    ensures |r| == |ports|
  {
    ProbesOf(Outcomes(c, ports))
  }

  /** Each port's probe is made on that port alone. */
  lemma ProbesAt(c: Codec, ports: seq<Port>, i: nat)
    requires i < |ports|
    ensures Probes(c, ports)[i] == ProbeOf(c, ports[i]).probe
  {
    OutcomesAt(c, ports, i);
  }

  /** The controller as a probe leaves it. */
  function PortAfter(o: ProbeOutcome): Port {
    Port(o.state.link.available, o.state.link.replies, o.state.link.sent)
  }

  /** Registering one more probe. */
  lemma PrefixStep(probes: seq<Probe>, i: nat)
    requires i < |probes|
    ensures Register(probes[..i + 1]) ==
      if probes[i].Registered? then Register(probes[..i])[probes[i].id := i] else Register(probes[..i])
    ensures Order(probes[..i + 1]) ==
      if probes[i].Registered? && probes[i].id !in Order(probes[..i]) then Order(probes[..i]) + [probes[i].id] else Order(probes[..i])
    ensures Used(probes[..i + 1]) == if probes[i].Registered? then Used(probes[..i]) + {i} else Used(probes[..i])
  {
    assert probes[..i + 1][..i] == probes[..i];
    assert probes[..i + 1][i] == probes[i];
  }

  /** Only ids 1 to 4 are ever registered, each by a motor that reports it. */
  lemma ProbesRegisterJointIds(c: Codec, ports: seq<Port>, i: nat)
    requires i < |ports|
    ensures Probes(c, ports)[i].Registered? ==> 1 <= Probes(c, ports)[i].id <= 4
    ensures Probes(c, ports)[i].Registered? ==> Outcomes(c, ports)[i].state.mId == Probes(c, ports)[i].id
  {
    OutcomesAt(c, ports, i);
  }

  /** What the gripper search finds at a port: nothing at a used port, else the result of `FOCBLDC(port)` there. */
  function TryOn(c: Codec, o: ProbeOutcome): Option<Result<(), Fault>> {
    if o.probe.Registered? then None else Some(GripperModel.Init(c, Opened(PortAfter(o))).result)
  }

  /** What the gripper search finds at each port. */
  function Tries(c: Codec, ports: seq<Port>): (r: seq<Option<Result<(), Fault>>>)
    ensures |r| == |ports|
  {
    TriesOf(c, Outcomes(c, ports))
  }

  function TriesOf(c: Codec, os: seq<ProbeOutcome>): (r: seq<Option<Result<(), Fault>>>)
    ensures |r| == |os|
    decreases |os|
  {
    if os == [] then [] else TriesOf(c, os[..|os| - 1]) + [TryOn(c, os[|os| - 1])]
  }

  /** Each port's gripper try is made on that port, as discovery left it. */
  lemma {:induction false} TriesAt(c: Codec, os: seq<ProbeOutcome>, i: nat)
    requires i < |os|
    ensures TriesOf(c, os)[i] == TryOn(c, os[i])
    decreases |os|
  {
    var n := |os| - 1;
    if i < n {
      TriesAt(c, os[..n], i);
    }
  }

  /** The joint whose controller reports the id. */
  function JointWithId(id: int): (j: Joint)
    requires 1 <= id <= 4
    ensures JointId(j) == id
  {
    if id == 1 then Vertical else if id == 2 then InnerRot else if id == 3 then OuterRot else EndRot
  }

  /** The joints in the order of `self.motors`, from its keys. */
  function JointOrder(ids: seq<int>): (r: seq<Joint>)
    requires forall i :: 0 <= i < |ids| ==> 1 <= ids[i] <= 4
    ensures |r| == |ids| && forall i :: 0 <= i < |ids| ==> JointId(r[i]) == ids[i]
  {
    seq(|ids|, i requires 0 <= i < |ids| && 1 <= ids[i] <= 4 => JointWithId(ids[i]))
  }

  /** The keys of `self.motors` are ids 1 to 4, each once; once all four are present they order the four joints, each once. */
  lemma {:induction false} OrderIsJointOrder(c: Codec, ports: seq<Port>)
    ensures var ids := Order(Probes(c, ports));
      && (forall i :: 0 <= i < |ids| ==> 1 <= ids[i] <= 4)
      && (forall p, q :: 0 <= p < q < |ids| ==> ids[p] != ids[q])
      && ((forall j :: JointId(j) in Register(Probes(c, ports))) ==>
            forall j :: j in JointOrder(ids) && multiset(JointOrder(ids))[j] == 1)
  {
    var probes := Probes(c, ports);
    var ids := Order(probes);
    OrderListsKeysOnce(probes);
    forall i | 0 <= i < |ids| ensures 1 <= ids[i] <= 4 {
      RegisterLastWins(probes, ids[i]);
      var k := Register(probes)[ids[i]];
      ProbesRegisterJointIds(c, ports, k);
    }
    if forall j :: JointId(j) in Register(probes) {
      var js := JointOrder(ids);
      forall j ensures j in js && multiset(js)[j] == 1 {
        assert JointId(j) in ids;
        var p :| 0 <= p < |ids| && ids[p] == JointId(j);
        assert js[p] == j by {
          JointsMapIsBijective(T1, T1, js[p], j);
        }
        OnlyOnce(js, p);
      }
    }
  }

  /** A sequence whose elements are pairwise distinct holds each of them once. */
  lemma {:induction false} OnlyOnce<T>(s: seq<T>, p: nat)
    requires p < |s| && forall i, k :: 0 <= i < k < |s| ==> s[i] != s[k]
    ensures multiset(s)[s[p]] == 1
    decreases |s|
  {
    var n := |s| - 1;
    assert s == s[..n] + [s[n]];
    if p < n {
      OnlyOnce(s[..n], p);
    } else {
      assert s[n] !in s[..n];
    }
  }

  /**
   * The arm `__init__` assembles: joint n is the motor of the last port that reported id n, and the
   * gripper is the one constructed on port `k`.
   */
  function Assembled(c: Codec, ports: seq<Port>, k: nat): Arm
    requires k < |ports| && forall j :: JointId(j) in Register(Probes(c, ports))
    requires forall id :: id in Register(Probes(c, ports)) ==> Register(Probes(c, ports))[id] < |ports|
  {
    var reg := Register(Probes(c, ports));
    assert JointId(Vertical) == 1 && JointId(InnerRot) == 2 && JointId(OuterRot) == 3 && JointId(EndRot) == 4;
    var os := Outcomes(c, ports);
    Arm(os[reg[1]].state, os[reg[2]].state, os[reg[3]].state, os[reg[4]].state, GripperModel.Init(c, Opened(PortAfter(os[k]))).state)
  }

  /** Each registered id names a port that reported it. */
  lemma RegisterIndices(probes: seq<Probe>)
    ensures forall id :: id in Register(probes) ==>
      Register(probes)[id] < |probes| && probes[Register(probes)[id]] == Registered(id)
  {
    forall id | id in Register(probes)
      ensures Register(probes)[id] < |probes| && probes[Register(probes)[id]] == Registered(id)
    {
      RegisterLastWins(probes, id);
    }
  }

  /** How `__init__` ends before the joints are configured: with an exception, or with the gripper on port `k`. */
  datatype Startup = Aborts(fault: Fault) | Builds(k: nat)

  /**
   * Discovery, the gripper search and the binding, in order: the first of them to raise ends
   * `__init__`. When it builds, every joint id was registered by some port and the gripper is on a
   * port discovery did not keep, where its construction succeeded.
   */
  function StartupPlan(c: Codec, ports: seq<Port>): (r: Startup)
    ensures r.Builds? ==>
      && r.k < |ports| && !Probes(c, ports)[r.k].Registered?
      && Tries(c, ports)[r.k] == Some(Success(()))
      && FirstAbort(Probes(c, ports), 0).None?
      && (forall j :: JointId(j) in Register(Probes(c, ports)))
      && (forall id :: id in Register(Probes(c, ports)) ==> Register(Probes(c, ports))[id] < |ports|)
    ensures forall i :: 0 <= i < |Order(Probes(c, ports))| ==> 1 <= Order(Probes(c, ports))[i] <= 4
  {
    var probes := Probes(c, ports);
    RegisterIndices(probes);
    OrderIsJointOrder(c, ports);
    match FirstAbort(probes, 0)
    case Some(i) => Aborts(probes[i].fault)
    case None =>
      var s := SearchFrom(Tries(c, ports), 0);
      SearchFindsFirst(Tries(c, ports), 0, if s.Found? then s.index else 0);
      if s.Halted? then Aborts(s.fault)
      else
        var b := Bind(Register(probes).Keys, s.Found?);
        BindNeedsEveryJoint(Register(probes).Keys, s.Found?);
        if b.Failure? then Aborts(b.error)
        else
          TriesAt(c, Outcomes(c, ports), s.index);
          Builds(s.index)
  }

  // ---------------------------------------------------------------------------------------------
  // load_motors

  /** `f.readline()`: the next line, or the empty string once the file is exhausted. */
  function ReadLine(lines: seq<string>, k: nat): string {
    if k < |lines| then lines[k] else ""
  }

  /** `float(f.readline().strip())`, ValueError when the text is not a number. */
  function ReadNumber(c: Codec, lines: seq<string>, k: nat): Result<real, Fault> {
    match c.parse(Strip(ReadLine(lines, k)))
    case Some(x) => Success(x)
    case None => Failure(ValueError)
  }

  /** The three numbers a calibration file holds: the low bound, the high bound and the centre. */
  function ReadCalibration(c: Codec, lines: seq<string>): Result<(real, real, real), Fault> {
    var low := ReadNumber(c, lines, 0);
    if low.Failure? then Failure(low.error) else
    var high := ReadNumber(c, lines, 1);
    if high.Failure? then Failure(high.error) else
    var center := ReadNumber(c, lines, 2);
    if center.Failure? then Failure(center.error) else
    Success((low.value, high.value, center.value))
  }

  /** A calibration file is read exactly when its first three lines are numbers; a file of fewer lines is a ValueError. */
  lemma CalibrationNeedsThreeNumbers(c: Codec, lines: seq<string>)
    requires Sound(c)
    ensures ReadCalibration(c, lines).Success? <==>
      forall k :: 0 <= k < 3 ==> c.parse(Strip(ReadLine(lines, k))).Some?
    ensures ReadCalibration(c, lines).Success? ==>
      ReadCalibration(c, lines).value == (c.parse(Strip(lines[0])).value, c.parse(Strip(lines[1])).value, c.parse(Strip(lines[2])).value)
    ensures ReadCalibration(c, lines).Failure? ==> ReadCalibration(c, lines).error == ValueError
    ensures |lines| < 3 ==> ReadCalibration(c, lines) == Failure(ValueError)
  {
    var x0, x1, x2 := c.parse(Strip(ReadLine(lines, 0))), c.parse(Strip(ReadLine(lines, 1))), c.parse(Strip(ReadLine(lines, 2)));
    assert ReadCalibration(c, lines) ==
      if x0.None? || x1.None? || x2.None? then Failure(ValueError) else Success((x0.value, x1.value, x2.value));
    if x0.Some? && x1.Some? && x2.Some? {
      forall k | 0 <= k < 3
        ensures c.parse(Strip(ReadLine(lines, k))).Some?
      {
        if k == 0 { assert ReadLine(lines, k) == ReadLine(lines, 0); }
        else if k == 1 { assert ReadLine(lines, k) == ReadLine(lines, 1); }
        else { assert ReadLine(lines, k) == ReadLine(lines, 2); }
      }
    }
  }

  /** Open a calibration file, read its three numbers and absolute-home the joint with them. */
  function HomeFromFile(c: Codec, a: Arm, files: map<string, seq<string>>, path: string, j: Joint): ArmOutcome<()> {
    if path !in files then ArmOutcome(a, Failure(FileNotFoundError(path))) else
    var cal := ReadCalibration(c, files[path]);
    if cal.Failure? then ArmOutcome(a, Failure(cal.error)) else
    var o := HomingModel.AbsoluteHome(c, At(a, j), cal.value.0, cal.value.1, cal.value.2);
    ArmOutcome(With(a, j, o.state), o.result)
  }

  const InnerFile := "config/inner_rot"
  const OuterFile := "config/outer_rot"
  const EndFile := "config/end_rot"

  /** The `try` block of `load_motors`: the inner, outer and end rotations, each from its own file. */
  function HomeFromFiles(c: Codec, a: Arm, files: map<string, seq<string>>): ArmOutcome<()> {
    var o1 := HomeFromFile(c, a, files, InnerFile, InnerRot);
    if o1.result.Failure? then o1 else
    var o2 := HomeFromFile(c, o1.arm, files, OuterFile, OuterRot);
    if o2.result.Failure? then o2 else
    HomeFromFile(c, o2.arm, files, EndFile, EndRot)
  }

  /**
   * What `load_motors` does before reading the files: single-ended homing of the vertical motor
   * (centre offset 70, voltage -4), then `enable` on the gripper, auto-calibration of its motor
   * (voltage 2, speed 15, zero speed 10), and its voltage and velocity limits set to 6 and 999.
   */
  function Prepare(c: Codec, a: Arm): ArmOutcome<()>
    requires Sound(c)
  {
    var v := HomingModel.SingleEndedHome(c, a.vertical, 140.0 / 2.0, -4.0, 0.1, true);
    var a1 := a.(vertical := v.state);
    if v.result.Failure? then ArmOutcome(a1, Failure(v.result.error)) else
    var e1 := MotorModel.Enable(c, a1.effector);
    if e1.result.Failure? then ArmOutcome(a1.(effector := e1.state), e1.result) else
    var e2 := HomingModel.AutoCalibrate(c, e1.state, 2.0, 15.0, 10.0);
    if e2.result.Failure? then ArmOutcome(a1.(effector := e2.state), Failure(e2.result.error)) else
    var e3 := SetVoltageLimit(c, e2.state, 6.0);
    if e3.result.Failure? then ArmOutcome(a1.(effector := e3.state), e3.result) else
    var e4 := SetVelocityLimit(c, e3.state, 999.0);
    ArmOutcome(a1.(effector := e4.state), e4.result)
  }

  /**
   * `load_motors(onFail)`. The result says whether `onFail` was called: a missing file or a bad
   * number calls it when given, and raises NotImplementedError() otherwise.
   */
  function LoadMotors(c: Codec, a: Arm, files: map<string, seq<string>>, onFail: bool): ArmOutcome<bool>
    requires Sound(c)
  {
    var p := Prepare(c, a);
    if p.result.Failure? then ArmOutcome(p.arm, Failure(p.result.error)) else
    var h := HomeFromFiles(c, p.arm, files);
    if h.result.Success? then ArmOutcome(h.arm, Success(false))
    else if h.result.error.FileNotFoundError? || h.result.error.ValueError? then
      ArmOutcome(h.arm, if onFail then Success(true) else Failure(NotImplementedError("")))
    else ArmOutcome(h.arm, Failure(h.result.error))
  }

  /** The preparation touches only the vertical motor and the gripper's motor. */
  lemma PrepareLeavesRotations(c: Codec, a: Arm)
    requires Sound(c)
    ensures var p := Prepare(c, a);
      p.arm.innerRot == a.innerRot && p.arm.outerRot == a.outerRot && p.arm.endRot == a.endRot
    ensures var p := Prepare(c, a); var v := HomingModel.SingleEndedHome(c, a.vertical, 70.0, -4.0, 0.1, true);
      && p.arm.vertical == v.state
      && (p.result.Success? ==> v.result.Success? && p.arm.vertical.offset == v.result.value && p.arm.vertical.mode == Angle)
  {
    var v := HomingModel.SingleEndedHome(c, a.vertical, 70.0, -4.0, 0.1, true);
    PrepareStartsWithVertical(c, a);
    HomingModel.ActiveHomeTakesReading(c, a.vertical, 70.0, -4.0, 0.1);
  }

  /** The first step of the preparation is the vertical motor's homing, and nothing after it touches that motor or a rotation. */
  lemma PrepareStartsWithVertical(c: Codec, a: Arm)
    requires Sound(c)
    ensures var p := Prepare(c, a); var v := HomingModel.SingleEndedHome(c, a.vertical, 70.0, -4.0, 0.1, true);
      && p.arm.innerRot == a.innerRot && p.arm.outerRot == a.outerRot && p.arm.endRot == a.endRot
      && p.arm.vertical == v.state && (p.result.Success? ==> v.result.Success?)
  {
    assert 140.0 / 2.0 == 70.0;
    var v := HomingModel.SingleEndedHome(c, a.vertical, 70.0, -4.0, 0.1, true);
    var a1 := a.(vertical := v.state);
    if v.result.Success? {
      var e1 := MotorModel.Enable(c, a1.effector);
      if e1.result.Success? {
        var e2 := HomingModel.AutoCalibrate(c, e1.state, 2.0, 15.0, 10.0);
        if e2.result.Success? {
          var e3 := SetVoltageLimit(c, e2.state, 6.0);
          if e3.result.Success? {
            assert Prepare(c, a).arm == a1.(effector := SetVelocityLimit(c, e3.state, 999.0).state);
          }
        }
      }
    }
  }

  /**
   * Once prepared, a missing calibration file or a bad number calls `onFail` if given and raises
   * NotImplementedError() if not; a homing failure escapes as it is. On success each rotation was
   * absolute-homed with the three numbers of its own file.
   */
  lemma LoadMotorsFallsBack(c: Codec, a: Arm, files: map<string, seq<string>>, onFail: bool)
    requires Sound(c)
    ensures var o := LoadMotors(c, a, files, onFail); var p := Prepare(c, a); var h := HomeFromFiles(c, p.arm, files);
      && (p.result.Failure? ==> o == ArmOutcome(p.arm, Failure(p.result.error)))
      && (p.result.Success? && h.result.Failure? && (h.result.error.FileNotFoundError? || h.result.error.ValueError?) ==>
            o.result == (if onFail then Success(true) else Failure(NotImplementedError(""))))
      && (o.result == Success(false) ==>
            && InnerFile in files && OuterFile in files && EndFile in files
            && ReadCalibration(c, files[InnerFile]).Success?
            && ReadCalibration(c, files[OuterFile]).Success?
            && ReadCalibration(c, files[EndFile]).Success?
            && var (l, m, n) := (ReadCalibration(c, files[InnerFile]).value, ReadCalibration(c, files[OuterFile]).value,
                                 ReadCalibration(c, files[EndFile]).value);
               && o.arm.innerRot == HomingModel.AbsoluteHome(c, a.innerRot, l.0, l.1, l.2).state
               && o.arm.outerRot == HomingModel.AbsoluteHome(c, a.outerRot, m.0, m.1, m.2).state
               && o.arm.endRot == HomingModel.AbsoluteHome(c, a.endRot, n.0, n.1, n.2).state)
      && (p.result.Success? && InnerFile !in files ==>
            o.arm == p.arm && o.result == (if onFail then Success(true) else Failure(NotImplementedError(""))))
  {
    PrepareLeavesRotations(c, a);
  }

  // ---------------------------------------------------------------------------------------------
  // smooth_move

  const TimeoutMessage := "Motors did not reach target position in the allotted time."
  const SmoothMoveMessage := "Failed to smooth move."

  /** `target[key]` for the keyword arguments of `smooth_move`. */
  function Lookup(target: map<string, real>, key: string): Result<real, Fault> {
    if key in target then Success(target[key]) else Failure(MissingKey(key))
  }

  /** A pose keyed as `jog` takes it; `r` is the end rotation in the world frame. */
  datatype Pose = Pose(t1: real, t2: real, z: real, r: real)

  /** `start`: the readings of t1, t2 and z, and the end reading turned into the world frame by adding t1. */
  function StartPose(p: (real, real, real, real)): Pose {
    Pose(p.0, p.1, p.2, p.3 + p.0)
  }

  function JogTo(c: Codec, a: Arm, p: Pose, e: Option<real>): ArmOutcome<()> {
    Jog(c, a, p.t1, p.t2, p.r, p.z, e)
  }

  /** The reading `get_all_pos` gives for a joint: t1, t2, z, r in that order. */
  function Reading(p: (real, real, real, real), j: Joint): real {
    match j
    case InnerRot => p.0
    case OuterRot => p.1
    case Vertical => p.2
    case EndRot => p.3
  }

  /** The first jog of a smooth move sends every joint to the position it has just reported: only the gripper moves. */
  lemma StartPoseHoldsStill(p: (real, real, real, real))
    ensures forall j :: JogTarget(j, StartPose(p).t1, StartPose(p).t2, StartPose(p).r, StartPose(p).z) == Reading(p, j)
  {
    assert (p.3 + p.0) - p.0 == p.3;
  }

  /** One pass of the interpolation loop: the elapsed time, and the parameter the root finder returns for it. */
  datatype Tick = Tick(elapsed: real, root: real)

  /** The dict comprehension: every axis of `start` eased towards `target[axis]`, looked up in the order t1, t2, z, r. */
  function Waypoint(start: Pose, target: map<string, real>, root: real): Result<Pose, Fault> {
    var g1 := Lookup(target, "t1");
    if g1.Failure? then Failure(g1.error) else
    var g2 := Lookup(target, "t2");
    if g2.Failure? then Failure(g2.error) else
    var g3 := Lookup(target, "z");
    if g3.Failure? then Failure(g3.error) else
    var g4 := Lookup(target, "r");
    if g4.Failure? then Failure(g4.error) else
    Success(Pose(Bezier.Ease(start.t1, g1.value, root), Bezier.Ease(start.t2, g2.value, root),
                 Bezier.Ease(start.z, g3.value, root), Bezier.Ease(start.r, g4.value, root)))
  }

  /** Value `v` lies between `s` and `g`, whichever is larger. */
  predicate Between(s: real, g: real, v: real) {
    (s <= g ==> s <= v <= g) && (g <= s ==> g <= v <= s)
  }

  predicate HasAxes(target: map<string, real>) {
    "t1" in target && "t2" in target && "z" in target && "r" in target
  }

  /**
   * While the elapsed time is within the duration, every waypoint lies between the start and the
   * target on each axis, equals the start when no time has passed, and is the target at the end.
   */
  lemma WaypointsStayBetween(start: Pose, target: map<string, real>, duration: real, t: Tick)
    requires HasAxes(target)
    requires duration > 0.0 && 0.0 <= t.elapsed <= duration
    requires Bezier.IsRoot(Bezier.EaseCubic(duration, t.elapsed), t.root)
    ensures var w := Waypoint(start, target, t.root);
      && w.Success?
      && Between(start.t1, target["t1"], w.value.t1) && Between(start.t2, target["t2"], w.value.t2)
      && Between(start.z, target["z"], w.value.z) && Between(start.r, target["r"], w.value.r)
      && (t.elapsed == 0.0 ==> w.value == start)
      && (t.elapsed == duration ==> w.value == Pose(target["t1"], target["t2"], target["z"], target["r"]))
  {
    Bezier.EaseRootInUnit(duration, t.elapsed, t.root);
    Bezier.EaseBetween(start.t1, target["t1"], t.root);
    Bezier.EaseBetween(start.t2, target["t2"], t.root);
    Bezier.EaseBetween(start.z, target["z"], t.root);
    Bezier.EaseBetween(start.r, target["r"], t.root);
  }

  /** A missing axis in the target fails the first waypoint with a KeyError for it, before any joint moves. */
  lemma WaypointNamesMissingAxis(start: Pose, target: map<string, real>, root: real)
    ensures Waypoint(start, target, root).Success? <==> HasAxes(target)
    ensures Waypoint(start, target, root).Failure? ==>
      Waypoint(start, target, root).error.MissingKey? && Waypoint(start, target, root).error.name !in target
  {
  }

  /** The interpolation loop: a jog to each waypoint until the elapsed time reaches the duration. */
  function Interpolate(c: Codec, a: Arm, start: Pose, target: map<string, real>, duration: real, ticks: seq<Tick>): ArmOutcome<()>
    decreases |ticks|
  {
    if ticks == [] || ticks[0].elapsed >= duration then ArmOutcome(a, Success(()))
    else
      var w := Waypoint(start, target, ticks[0].root);
      if w.Failure? then ArmOutcome(a, Failure(w.error)) else
      var o := JogTo(c, a, w.value, None);
      if o.result.Failure? then o else Interpolate(c, o.arm, start, target, duration, ticks[1..])
  }

  /** The test that ends the polling loop, taken left to right: a key is looked up only once every earlier axis is close. */
  function Converged(target: map<string, real>, epsilon: real, p: (real, real, real, real)): Result<bool, Fault> {
    var g1 := Lookup(target, "t1");
    if g1.Failure? then Failure(g1.error) else
    if !(HomingModel.Abs(g1.value - p.0) < epsilon) then Success(false) else
    var g2 := Lookup(target, "t2");
    if g2.Failure? then Failure(g2.error) else
    if !(HomingModel.Abs(g2.value - p.1) < epsilon) then Success(false) else
    var g3 := Lookup(target, "z");
    if g3.Failure? then Failure(g3.error) else
    if !(HomingModel.Abs(g3.value - p.2) < epsilon) then Success(false) else
    var g4 := Lookup(target, "r");
    if g4.Failure? then Failure(g4.error) else
    Success(HomingModel.Abs(g4.value - p.3 - p.0) < epsilon)
  }

  /** Every axis of the reading is within epsilon of the target, the end rotation in the world frame. */
  predicate Within(target: map<string, real>, epsilon: real, p: (real, real, real, real)) {
    && HasAxes(target)
    && HomingModel.Abs(target["t1"] - p.0) < epsilon && HomingModel.Abs(target["t2"] - p.1) < epsilon
    && HomingModel.Abs(target["z"] - p.2) < epsilon && HomingModel.Abs(target["r"] - (p.3 + p.0)) < epsilon
  }

  /**
   * The test passes exactly when the reading is within epsilon of the target; with every axis given
   * it never raises, and a KeyError names an axis that is missing.
   */
  lemma ConvergedIsWithin(target: map<string, real>, epsilon: real, p: (real, real, real, real))
    ensures Converged(target, epsilon, p) == Success(true) <==> Within(target, epsilon, p)
    ensures HasAxes(target) ==> Converged(target, epsilon, p) == Success(Within(target, epsilon, p))
    ensures Converged(target, epsilon, p).Failure? ==>
      Converged(target, epsilon, p).error.MissingKey? && Converged(target, epsilon, p).error.name !in target
  {
    if "r" in target {
      assert target["r"] - p.3 - p.0 == target["r"] - (p.3 + p.0);
    }
  }

  /**
   * The polling loop, given how many reads fit into the timeout. It succeeds only with a reading
   * within epsilon of the target; a loop that reads nothing times out.
   */
  function AwaitTarget(c: Codec, a: Arm, target: map<string, real>, epsilon: real, polls: nat): (o: ArmOutcome<(real, real, real, real)>)
    ensures o.result.Success? ==> Within(target, epsilon, o.result.value)
    ensures polls == 0 ==> o == ArmOutcome(a, Failure(NotImplementedError(TimeoutMessage)))
    ensures o.arm.effector == a.effector
    decreases polls
  {
    if polls == 0 then ArmOutcome(a, Failure(NotImplementedError(TimeoutMessage))) else
    var p := Positions(c, a);
    PositionsAreJointReadings(c, a);
    if p.result.Failure? then ArmOutcome(p.arm, Failure(p.result.error)) else
    var k := Converged(target, epsilon, p.result.value);
    ConvergedIsWithin(target, epsilon, p.result.value);
    if k.Failure? then ArmOutcome(p.arm, Failure(k.error))
    else if k.value then ArmOutcome(p.arm, Success(p.result.value))
    else AwaitTarget(c, p.arm, target, epsilon, OneFewer(polls))
  }

  /** The reads left once one more is made. */
  function OneFewer(polls: nat): (r: nat)
    requires polls > 0
    ensures r < polls
  {
    polls - 1
  }

  /** The `try` block of `smooth_move`. */
  function SmoothMoveBody(c: Codec, a: Arm, duration: real, epsilon: real, target: map<string, real>, ticks: seq<Tick>, polls: nat): ArmOutcome<()> {
    var p := Positions(c, a);
    if p.result.Failure? then ArmOutcome(p.arm, Failure(p.result.error)) else
    var start := StartPose(p.result.value);
    var e := Lookup(target, "e");
    if e.Failure? then ArmOutcome(p.arm, Failure(e.error)) else
    var j := JogTo(c, p.arm, start, Some(e.value));
    if j.result.Failure? then j else
    var i := Interpolate(c, j.arm, start, target, duration, ticks);
    if i.result.Failure? then i else
    var w := AwaitTarget(c, i.arm, target, epsilon, polls);
    ArmOutcome(w.arm, if w.result.Failure? then Failure(w.result.error) else Success(()))
  }

  /** `smooth_move`: a MotorException anywhere in the move becomes NotImplementedError('Failed to smooth move.'). */
  function SmoothMove(c: Codec, a: Arm, duration: real, epsilon: real, target: map<string, real>, ticks: seq<Tick>, polls: nat): ArmOutcome<()> {
    var b := SmoothMoveBody(c, a, duration, epsilon, target, ticks, polls);
    ArmOutcome(b.arm, HomingModel.Rethrow(b.result, SmoothMoveMessage))
  }

  /**
   * A smooth move never lets a MotorException out; a failed first read becomes the "Failed to smooth
   * move." error when it is one; a missing gripper target fails before anything moves; and a move
   * that returns has seen a reading within epsilon of the target.
   */
  lemma SmoothMoveOutcomes(c: Codec, a: Arm, duration: real, epsilon: real, target: map<string, real>, ticks: seq<Tick>, polls: nat)
    ensures var o := SmoothMove(c, a, duration, epsilon, target, ticks, polls);
      && (o.result.Failure? ==> !o.result.error.MotorException?)
      && (Positions(c, a).result.Failure? && Positions(c, a).result.error.MotorException? ==>
            o == ArmOutcome(Positions(c, a).arm, Failure(NotImplementedError(SmoothMoveMessage))))
      && (Positions(c, a).result.Success? && "e" !in target ==>
            o == ArmOutcome(Positions(c, a).arm, Failure(MissingKey("e"))))
      && (o.result.Success? ==>
            var p := Positions(c, a);
            var start := StartPose(p.result.value);
            var j := JogTo(c, p.arm, start, Some(target["e"]));
            var i := Interpolate(c, j.arm, start, target, duration, ticks);
            && p.result.Success? && "e" in target && j.result.Success? && i.result.Success?
            && AwaitTarget(c, i.arm, target, epsilon, polls).result.Success?
            && Within(target, epsilon, AwaitTarget(c, i.arm, target, epsilon, polls).result.value))
      && (polls == 0 ==> o.result.Failure?)
  {
  }
}
