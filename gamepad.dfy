/**
 * The numeric helpers of the gamepad controller (lib/gamepad.py) and the way one controller report
 * turns into new clamped arm targets.
 */
module Gamepad {
  import opened Wrappers

  /** `map_range(range_in, range_out, val_in)`; None where the source divides by zero. */
  function MapRange(rangeIn: (real, real), rangeOut: (real, real), v: real): Option<real> {
    if rangeIn.1 == rangeIn.0 then None
    else Some((v - rangeIn.0) / (rangeIn.1 - rangeIn.0) * (rangeOut.1 - rangeOut.0) + rangeOut.0)
  }

  /** `threshold(val, thresh, offset)`: a dead zone. */
  function Threshold(v: real, thresh: real, offset: real): real {
    if (if v < 0.0 then -v else v) > thresh then v else offset
  }

  /** `clamp(val, bounds)`: `min(max(val, lo), hi)`. */
  function Clamp(v: real, bounds: (real, real)): real {
    var up := if bounds.0 > v then bounds.0 else v;
    if bounds.1 < up then bounds.1 else up
  }

  /** Python's `int(x)` on a float: truncation toward zero. */
  function Trunc(v: real): int {
    if v >= 0.0 then v.Floor else -((-v).Floor)
  }

  /** `_signed_ceil(val)`: round away from zero. */
  function SignedCeil(v: real): int {
    var c := if Trunc(v) as real != v then 1 else 0;
    if v > 0.0 then Trunc(v) + c else Trunc(v) - c
  }

  // ---------------------------------------------------------------------------------------------
  // Properties

  /** With distinct input endpoints the map is the affine map sending each input endpoint to the matching output endpoint. */
  lemma MapRangeAffine(rangeIn: (real, real), rangeOut: (real, real), lambda: real, v: real)
    requires rangeIn.0 != rangeIn.1
    requires v == rangeIn.0 + lambda * (rangeIn.1 - rangeIn.0)
    ensures MapRange(rangeIn, rangeOut, rangeIn.0) == Some(rangeOut.0)
    ensures MapRange(rangeIn, rangeOut, rangeIn.1) == Some(rangeOut.1)
    ensures MapRange(rangeIn, rangeOut, v) == Some(rangeOut.0 + lambda * (rangeOut.1 - rangeOut.0))
  {
    var w := rangeIn.1 - rangeIn.0;
    var h := rangeOut.1 - rangeOut.0;
    assert MapRange(rangeIn, rangeOut, rangeIn.0).value == (rangeIn.0 - rangeIn.0) / w * h + rangeOut.0;
    assert w / w == 1.0;
    assert MapRange(rangeIn, rangeOut, rangeIn.1).value == 1.0 * h + rangeOut.0;
    assert (lambda * w) / w == lambda;
    assert MapRange(rangeIn, rangeOut, v).value == lambda * h + rangeOut.0;
    assert lambda * h == lambda * (rangeOut.1 - rangeOut.0);
    assert MapRange(rangeIn, rangeOut, v).Some?;
    assert MapRange(rangeIn, rangeOut, v).value == rangeOut.0 + lambda * (rangeOut.1 - rangeOut.0);
  }

  lemma MapRangeFails(rangeIn: (real, real), rangeOut: (real, real), v: real)
    ensures MapRange(rangeIn, rangeOut, v).None? <==> rangeIn.0 == rangeIn.1
  {
  }

  /** A value passes the dead zone exactly when its magnitude exceeds the threshold; otherwise the offset comes back. */
  lemma ThresholdDeadZone(v: real, thresh: real, offset: real)
    ensures (v > thresh || v < -thresh) ==> Threshold(v, thresh, offset) == v
    ensures -thresh <= v <= thresh ==> Threshold(v, thresh, offset) == offset
  {
  }

  /** With ordered bounds the clamp lands in them, keeps values already inside, and is idempotent; with crossed bounds it gives the upper one. */
  lemma ClampProperties(v: real, bounds: (real, real))
    ensures bounds.0 <= bounds.1 ==> bounds.0 <= Clamp(v, bounds) <= bounds.1
    ensures bounds.0 <= v <= bounds.1 ==> Clamp(v, bounds) == v
    ensures bounds.0 <= bounds.1 && v < bounds.0 ==> Clamp(v, bounds) == bounds.0
    ensures bounds.0 <= bounds.1 && v > bounds.1 ==> Clamp(v, bounds) == bounds.1
    ensures Clamp(Clamp(v, bounds), bounds) == Clamp(v, bounds)
    ensures bounds.0 > bounds.1 ==> Clamp(v, bounds) == bounds.1
  {
  }

  /** Truncation moves toward zero by less than one. */
  lemma TruncBounds(v: real)
    ensures v >= 0.0 ==> Trunc(v) as real <= v < Trunc(v) as real + 1.0
    ensures v < 0.0 ==> Trunc(v) as real - 1.0 < v <= Trunc(v) as real
  {
  }

  /**
   * `_signed_ceil` is the ceiling for positive values and the floor for the others, keeps
   * integers as they are, and moves by less than one, away from zero.
   */
  lemma SignedCeilRoundsOutward(v: real)
    ensures v > 0.0 ==> SignedCeil(v) as real >= v && SignedCeil(v) as real - 1.0 < v
    ensures v <= 0.0 ==> SignedCeil(v) as real <= v && SignedCeil(v) as real + 1.0 > v
    ensures v == v.Floor as real ==> SignedCeil(v) == v.Floor
    ensures v > 0.0 ==> SignedCeil(v) == -((-v).Floor)
    ensures v <= 0.0 ==> SignedCeil(v) == v.Floor
  {
    TruncBounds(v);
  }

  // ---------------------------------------------------------------------------------------------
  // One iteration of `event_loop`

  datatype Targets = Targets(x: real, y: real, z: real, r: real, e: real)

  const RBounds: (real, real) := (-1.57, 1.57)
  const ZBounds: (real, real) := (0.0, 160.0)
  const XBounds: (real, real) := (0.0, 30.0)
  const YBounds: (real, real) := (-30.0, 30.0)
  const EBounds: (real, real) := (0.0, 100.0)

  /** A stick byte mapped to a rate, then through its dead zone. */
  function Stick(b: int, low: real, high: real, dead: real): real {
    Threshold((b as real - 0.0) / 255.0 * (high - low) + low, dead, 0.0)
  }

  /** The trigger pair mapped to a gripper rate, then through its dead zone. */
  function Triggers(left: int, right: int): real {
    Threshold(((right - left) as real + 255.0) / 510.0 * 20.0 - 10.0, 1.0, 0.0)
  }

  /**
   * The targets one report produces: each current target plus `delta` times its stick's rate,
   * clamped to the joint's range; the gripper target moves by a whole step. None when the
   * report is too short for the byte indices the loop reads.
   */
  function NextTargets(current: Targets, delta: real, report: seq<int>): Option<Targets> {
    if |report| < 20 then None
    else Some(Targets(
      Clamp(current.x + delta * Stick(report[8], -5.0, 5.0, 0.5), XBounds),
      Clamp(current.y + delta * Stick(report[9], -5.0, 5.0, 0.5), YBounds),
      Clamp(current.z + delta * Stick(report[7], -10.0, 10.0, 1.0), ZBounds),
      Clamp(current.r + delta * Stick(report[6], -0.5, 0.5, 0.1), RBounds),
      Clamp(current.e + SignedCeil(delta * Triggers(report[18], report[19])) as real, EBounds)))
  }

  /** The stick formulas are the source's `map_range` calls with the ranges it passes. */
  lemma SticksAreMapRange(b: int, left: int, right: int)
    ensures Some(Stick(b, -5.0, 5.0, 0.5)) == (match MapRange((0.0, 255.0), (-5.0, 5.0), b as real) case Some(v) => Some(Threshold(v, 0.5, 0.0)) case None => None)
    ensures Some(Stick(b, -0.5, 0.5, 0.1)) == (match MapRange((0.0, 255.0), (-0.5, 0.5), b as real) case Some(v) => Some(Threshold(v, 0.1, 0.0)) case None => None)
    ensures Some(Stick(b, -10.0, 10.0, 1.0)) == (match MapRange((0.0, 255.0), (-10.0, 10.0), b as real) case Some(v) => Some(Threshold(v, 1.0, 0.0)) case None => None)
    ensures Some(Triggers(left, right)) == (match MapRange((-255.0, 255.0), (-10.0, 10.0), (right - left) as real) case Some(v) => Some(Threshold(v, 1.0, 0.0)) case None => None)
  {
  }

  /** Every target the loop hands on lies in its joint's range, and a whole gripper target stays whole. */
  lemma TargetsClamped(current: Targets, delta: real, report: seq<int>)
    requires |report| >= 20
    ensures var t := NextTargets(current, delta, report).value;
      && XBounds.0 <= t.x <= XBounds.1 && YBounds.0 <= t.y <= YBounds.1
      && ZBounds.0 <= t.z <= ZBounds.1 && RBounds.0 <= t.r <= RBounds.1
      && EBounds.0 <= t.e <= EBounds.1
      && (current.e == current.e.Floor as real ==> t.e == t.e.Floor as real)
  {
    ClampProperties(current.x + delta * Stick(report[8], -5.0, 5.0, 0.5), XBounds);
    ClampProperties(current.y + delta * Stick(report[9], -5.0, 5.0, 0.5), YBounds);
    ClampProperties(current.z + delta * Stick(report[7], -10.0, 10.0, 1.0), ZBounds);
    ClampProperties(current.r + delta * Stick(report[6], -0.5, 0.5, 0.1), RBounds);
    ClampProperties(current.e + SignedCeil(delta * Triggers(report[18], report[19])) as real, EBounds);
    if current.e == current.e.Floor as real {
      GripperStaysWhole(current.e.Floor, SignedCeil(delta * Triggers(report[18], report[19])));
    }
  }

  /** A whole gripper target moved by a whole step and clamped stays whole. */
  lemma GripperStaysWhole(e: int, step: int)
    ensures Clamp(e as real + step as real, EBounds) == Clamp(e as real + step as real, EBounds).Floor as real
  {
    assert e as real + step as real == (e + step) as real;
    ClampKeepsWhole(e + step, 0, 100);
  }

  /** Clamping a whole number between whole bounds gives a whole number. */
  lemma ClampKeepsWhole(v: int, low: int, high: int)
    ensures Clamp(v as real, (low as real, high as real)) == Clamp(v as real, (low as real, high as real)).Floor as real
  {
    var up := if low > v then low else v;
    var c := if high < up then high else up;
    assert Clamp(v as real, (low as real, high as real)) == c as real;
  }

  /** With every stick and trigger inside its dead zone, targets already in range stay where they are. */
  lemma DeadZoneHolds(current: Targets, delta: real, report: seq<int>)
    requires |report| >= 20
    requires Stick(report[8], -5.0, 5.0, 0.5) == 0.0 && Stick(report[9], -5.0, 5.0, 0.5) == 0.0
    requires Stick(report[7], -10.0, 10.0, 1.0) == 0.0 && Stick(report[6], -0.5, 0.5, 0.1) == 0.0
    requires Triggers(report[18], report[19]) == 0.0
    requires XBounds.0 <= current.x <= XBounds.1 && YBounds.0 <= current.y <= YBounds.1
    requires ZBounds.0 <= current.z <= ZBounds.1 && RBounds.0 <= current.r <= RBounds.1
    requires EBounds.0 <= current.e <= EBounds.1
    ensures NextTargets(current, delta, report) == Some(current)
  {
    assert SignedCeil(0.0) == 0;
  }
}
