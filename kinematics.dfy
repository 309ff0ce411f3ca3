/**
 * The arm's planar kinematics (lib/system.py): two links of lengths l1 and l2 turning about the
 * shoulder (angle t1) and the elbow (angle t2). The trigonometric functions are parameters; the
 * identities the proofs use are stated in `Sound`.
 */
module Kinematics {

  const L1: real := 15.5
  const L2: real := 15.25
  /** Targets this close to the shoulder are pushed out to `MinimumRadius + 0.1`. */
  const MinimumRadius: real := 15.0
  const Pi: real := 3.141592653589793

  /** `math.cos`, `math.sin`, `math.atan2(y, x)`, `math.acos` and `abs(complex(x, y))`. */
  datatype Trig = Trig(
    cos: real -> real, sin: real -> real, atan2: (real, real) -> real, acos: real -> real, hypot: (real, real) -> real)

  /** The identities of real trigonometry the model relies on. */
  ghost predicate Sound(t: Trig) {
    && (forall u {:trigger t.sin(u)} :: t.cos(u) * t.cos(u) + t.sin(u) * t.sin(u) == 1.0 && t.cos(-u) == t.cos(u))
    && (forall x, y :: 0.0 <= t.hypot(x, y) && t.hypot(x, y) * t.hypot(x, y) == x * x + y * y)
    && (forall x, y :: t.hypot(x, y) * t.cos(t.atan2(y, x)) == x && t.hypot(x, y) * t.sin(t.atan2(y, x)) == y)
  }

  /** `polar_to_cartesian(t1, t2)`. */
  function Forward(t: Trig, t1: real, t2: real): (real, real) {
    (L1 * t.cos(-t1) + L2 * t.cos(-t2 - t1), L1 * t.sin(t1) + L2 * t.sin(t2 + t1))
  }

  /** The argument of the first `acos`: the angle at the shoulder between the target and the upper arm. */
  function ShoulderCosine(r: real): real
    requires r != 0.0
  {
    (r * r + L1 * L1 - L2 * L2) / (2.0 * L1 * r)
  }

  /** The argument of the second `acos`: the angle at the elbow. */
  function ElbowCosine(r: real): real {
    (L1 * L1 + L2 * L2 - r * r) / (2.0 * L1 * L2)
  }

  /** The point on the bearing of angle `a` at the pushed-out radius has exactly that radius, past the minimum. */
  lemma ReprojectedRadius(t: Trig, a: real)
    requires Sound(t)
    ensures t.hypot((MinimumRadius + 0.1) * t.cos(a), (MinimumRadius + 0.1) * t.sin(a)) == MinimumRadius + 0.1
  {
    var k := MinimumRadius + 0.1;
    var c, s := t.cos(a), t.sin(a);
    var h := t.hypot(k * c, k * s);
    assert c * c + s * s == 1.0;
    assert 0.0 <= h && h * h == (k * c) * (k * c) + (k * s) * (k * s);
    ScaledUnitNorm(k, c, s, h);
  }

  /** A non-negative number whose square is that of a point at distance k from the origin is k. */
  lemma ScaledUnitNorm(k: real, c: real, s: real, h: real)
    requires k > 0.0 && c * c + s * s == 1.0
    requires 0.0 <= h && h * h == (k * c) * (k * c) + (k * s) * (k * s)
    ensures h == k
  {
    assert (k * c) * (k * c) + (k * s) * (k * s) == k * k * (c * c + s * s);
    assert h * h == k * k;
    SquareRootUnique(h, k);
  }

  lemma SquareRootUnique(h: real, k: real)
    requires 0.0 <= h && 0.0 < k && h * h == k * k
    ensures h == k
  {
    assert (h - k) * (h + k) == h * h - k * k;
    if h != k {
      assert h + k > 0.0;
      assert h - k != 0.0;
      NonZeroProduct(h - k, h + k);
    }
  }

  lemma NonZeroProduct(a: real, b: real)
    requires a != 0.0 && b != 0.0
    ensures a * b != 0.0
  {
  }

  /**
   * `cartesian_to_dual_polar(x, y)`: a target inside the minimum radius is re-solved on the same
   * bearing at the minimum radius plus 0.1; one beyond reach gets the straight arm pointing at
   * it; otherwise the law of cosines, with the elbow on the side chosen by the sign of y.
   */
  function Inverse(t: Trig, x: real, y: real): (real, real)
    requires Sound(t)
    decreases if t.hypot(x, y) <= MinimumRadius then 1 else 0
  {
    var r := t.hypot(x, y);
    var a := t.atan2(y, x);
    if r <= MinimumRadius then
      ReprojectedRadius(t, a);
      Inverse(t, (MinimumRadius + 0.1) * t.cos(a), (MinimumRadius + 0.1) * t.sin(a))
    else if r > L1 + L2 then (a, 0.0)
    else
      var shoulder := t.acos(ShoulderCosine(r));
      var elbow := Pi - t.acos(ElbowCosine(r));
      if y >= 0.0 then (a - shoulder, elbow) else (a + shoulder, -elbow)
  }

  // ---------------------------------------------------------------------------------------------
  // Properties

  /** On the law-of-cosines branch both `acos` arguments lie in [-1, 1], because the minimum radius exceeds |l1 - l2|. */
  lemma AcosArgumentsInDomain(r: real)
    requires MinimumRadius < r <= L1 + L2
    ensures -1.0 <= ShoulderCosine(r) <= 1.0
    ensures -1.0 <= ElbowCosine(r) <= 1.0
  {
    SquareBetween(r - L1, L2);
    SquareBetween(L2, r + L1);
    assert r * r + L1 * L1 - L2 * L2 == (r - L1) * (r - L1) + 2.0 * L1 * r - L2 * L2;
    assert r * r + L1 * L1 - L2 * L2 == (r + L1) * (r + L1) - 2.0 * L1 * r - L2 * L2;
    DivideBounds(r * r + L1 * L1 - L2 * L2, 2.0 * L1 * r);
    SquareBetween(L1 - L2, r);
    SquareBetween(r, L1 + L2);
    assert L1 * L1 + L2 * L2 - r * r == (L1 + L2) * (L1 + L2) - 2.0 * L1 * L2 - r * r;
    assert L1 * L1 + L2 * L2 - r * r == (L1 - L2) * (L1 - L2) + 2.0 * L1 * L2 - r * r;
    DivideBounds(L1 * L1 + L2 * L2 - r * r, 2.0 * L1 * L2);
  }

  /** |a| <= b implies a * a <= b * b. */
  lemma SquareBetween(a: real, b: real)
    requires -b <= a <= b
    ensures a * a <= b * b
  {
    if a >= 0.0 {
      assert a * a <= a * b;
      assert a * b <= b * b;
    } else {
      assert a * a <= (-a) * b;
      assert (-a) * b <= b * b;
    }
  }

  lemma SquareNonNegative(a: real)
    ensures a * a >= 0.0
  {
    if a < 0.0 {
      assert a * a == (-a) * (-a);
    }
  }

  lemma DivideBounds(n: real, d: real)
    requires d > 0.0 && -d <= n <= d
    ensures -1.0 <= n / d <= 1.0
  {
  }

  /** Two unit vectors scaled by l1 and l2 add up to a vector whose length lies between |l1 - l2| and l1 + l2. */
  lemma TwoLinkReach(c1: real, s1: real, c2: real, s2: real, x: real, y: real)
    requires c1 * c1 + s1 * s1 == 1.0 && c2 * c2 + s2 * s2 == 1.0
    requires x == L1 * c1 + L2 * c2 && y == L1 * s1 + L2 * s2
    ensures (L1 - L2) * (L1 - L2) <= x * x + y * y <= (L1 + L2) * (L1 + L2)
  {
    var k := c1 * c2 + s1 * s2;
    assert (c1 - c2) * (c1 - c2) + (s1 - s2) * (s1 - s2) == (c1 * c1 + s1 * s1) + (c2 * c2 + s2 * s2) - 2.0 * k;
    assert (c1 + c2) * (c1 + c2) + (s1 + s2) * (s1 + s2) == (c1 * c1 + s1 * s1) + (c2 * c2 + s2 * s2) + 2.0 * k;
    SquareNonNegative(c1 - c2);
    SquareNonNegative(s1 - s2);
    SquareNonNegative(c1 + c2);
    SquareNonNegative(s1 + s2);
    assert -1.0 <= k <= 1.0;
    assert x * x + y * y == L1 * L1 * (c1 * c1 + s1 * s1) + L2 * L2 * (c2 * c2 + s2 * s2) + 2.0 * L1 * L2 * k;
  }

  /** Every pose `polar_to_cartesian` can produce lies between the radii |l1 - l2| and l1 + l2. */
  lemma ForwardWithinReach(t: Trig, t1: real, t2: real)
    requires Sound(t)
    ensures var p := Forward(t, t1, t2);
      (L1 - L2) * (L1 - L2) <= p.0 * p.0 + p.1 * p.1 <= (L1 + L2) * (L1 + L2)
  {
    var u := t2 + t1;
    assert -t2 - t1 == -u;
    assert t.cos(t1) * t.cos(t1) + t.sin(t1) * t.sin(t1) == 1.0;
    assert t.cos(u) * t.cos(u) + t.sin(u) * t.sin(u) == 1.0;
    assert t.cos(-t1) == t.cos(t1) && t.cos(-u) == t.cos(u);
    assert t.cos(-t2 - t1) == t.cos(u);
    var p := Forward(t, t1, t2);
    var x, y := L1 * t.cos(t1) + L2 * t.cos(u), L1 * t.sin(t1) + L2 * t.sin(u);
    assert p.0 == x && p.1 == y;
    TwoLinkReach(t.cos(t1), t.sin(t1), t.cos(u), t.sin(u), x, y);
  }

  /** A target beyond reach gets the straight arm along its bearing: the reachable point nearest to it. */
  lemma FarTargetStretchesTowardIt(t: Trig, x: real, y: real)
    requires Sound(t)
    requires t.hypot(x, y) > L1 + L2
    ensures Inverse(t, x, y) == (t.atan2(y, x), 0.0)
    ensures var p := Forward(t, t.atan2(y, x), 0.0); var r := t.hypot(x, y);
      p.0 == (L1 + L2) / r * x && p.1 == (L1 + L2) / r * y
  {
    var a := t.atan2(y, x);
    var r := t.hypot(x, y);
    assert t.cos(-a) == t.cos(a);
    assert -0.0 - a == -a;
    assert 0.0 + a == a;
    assert r * t.cos(a) == x && r * t.sin(a) == y;
    assert t.cos(a) == x / r;
    assert t.sin(a) == y / r;
  }

  /**
   * A target inside the minimum radius is solved as the point on the same bearing at radius
   * `MinimumRadius + 0.1`, which lies on the law-of-cosines branch.
   */
  lemma NearTargetPushedOut(t: Trig, x: real, y: real)
    requires Sound(t)
    requires t.hypot(x, y) <= MinimumRadius
    ensures var a := t.atan2(y, x); var k := MinimumRadius + 0.1;
      && Inverse(t, x, y) == Inverse(t, k * t.cos(a), k * t.sin(a))
      && MinimumRadius < t.hypot(k * t.cos(a), k * t.sin(a)) <= L1 + L2
  {
    ReprojectedRadius(t, t.atan2(y, x));
  }

  /** Away from the origin, the point a near target is moved to is the target scaled outward. */
  lemma NearTargetScaled(t: Trig, x: real, y: real)
    requires Sound(t)
    requires 0.0 < t.hypot(x, y)
    ensures var a := t.atan2(y, x); var k := MinimumRadius + 0.1;
      k * t.cos(a) == k / t.hypot(x, y) * x && k * t.sin(a) == k / t.hypot(x, y) * y
  {
    var a := t.atan2(y, x);
    var r := t.hypot(x, y);
    assert r * t.cos(a) == x && r * t.sin(a) == y;
    Rescaled(MinimumRadius + 0.1, r, t.cos(a), x);
    Rescaled(MinimumRadius + 0.1, r, t.sin(a), y);
  }

  /** A coordinate of the unit vector along a point at distance r, scaled to length k. */
  lemma Rescaled(k: real, r: real, c: real, x: real)
    requires r != 0.0 && r * c == x
    ensures k * c == k / r * x
  {
    assert c == x / r;
    assert k / r * x == k * (x / r);
  }

  /**
   * On the law-of-cosines branch, two targets at the same distance on opposite sides of the x
   * axis get mirrored solutions: opposite elbow angles and opposite shoulder offsets from the bearing.
   */
  lemma ElbowMirrors(t: Trig, x: real, y: real, x': real, y': real)
    requires Sound(t)
    requires MinimumRadius < t.hypot(x, y) <= L1 + L2 && t.hypot(x', y') == t.hypot(x, y)
    requires y >= 0.0 > y'
    ensures Inverse(t, x, y).1 == -Inverse(t, x', y').1
    ensures Inverse(t, x, y).0 - t.atan2(y, x) == -(Inverse(t, x', y').0 - t.atan2(y', x'))
    ensures Inverse(t, x, y).1 == Pi - t.acos(ElbowCosine(t.hypot(x, y)))
  {
  }
}
