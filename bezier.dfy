/**
 * The cubic Bezier easing curve of lib/bezier.py: given the four control points and an x, find
 * the curve parameter t whose x is that value and return the curve's y there. The root finder
 * (`np.roots`) is not modelled: its root is passed in.
 */
module Bezier {

  /** a t^3 + b t^2 + c t + d. */
  datatype Cubic = Cubic(a: real, b: real, c: real, d: real)

  function Eval(p: Cubic, t: real): real {
    p.a * (t * t * t) + p.b * (t * t) + p.c * t + p.d
  }

  predicate IsRoot(p: Cubic, t: real) {
    Eval(p, t) == 0.0
  }

  /** The polynomial whose real root is the parameter at which the curve's x equals `x`. */
  function Coefficients(x0: real, x1: real, x2: real, x3: real, x: real): Cubic {
    Cubic(x3 - 3.0 * x2 + 3.0 * x1 - x0, 3.0 * x2 - 6.0 * x1 + 3.0 * x0, 3.0 * x1 - 3.0 * x0, x0 - x)
  }

  /** The curve's y at parameter t, in the power basis the source uses. */
  function YAt(y0: real, y1: real, y2: real, y3: real, t: real): real {
    t * t * t * (y3 - 3.0 * y2 + 3.0 * y1 - y0) + t * t * (3.0 * y2 - 6.0 * y1 + 3.0 * y0) + t * (3.0 * y1 - 3.0 * y0) + y0
  }

  /** The cubic Bezier curve with control values v0..v3, in Bernstein form. */
  function Bernstein(v0: real, v1: real, v2: real, v3: real, t: real): real {
    var u := 1.0 - t;
    u * u * u * v0 + 3.0 * u * u * t * v1 + 3.0 * u * t * t * v2 + t * t * t * v3
  }

  /** `bezier(x0, y0, x1, y1, x2, y2, x3, y3, x)` given the real root `t` the root finder returns first. */
  function Bezier(x0: real, y0: real, x1: real, y1: real, x2: real, y2: real, x3: real, y3: real, x: real, t: real): real
    requires IsRoot(Coefficients(x0, x1, x2, x3, x), t)
  {
    YAt(y0, y1, y2, y3, t)
  }

  // ---------------------------------------------------------------------------------------------
  // Properties

  /** The coefficients are the curve's x written in the power basis, shifted by x; y likewise. */
  lemma PowerBasisIsBernstein(v0: real, v1: real, v2: real, v3: real, x: real, t: real)
    ensures Eval(Coefficients(v0, v1, v2, v3, x), t) == Bernstein(v0, v1, v2, v3, t) - x
    ensures YAt(v0, v1, v2, v3, t) == Bernstein(v0, v1, v2, v3, t)
  {
    var u := 1.0 - t;
    assert u * u * u == 1.0 - 3.0 * t + 3.0 * (t * t) - t * t * t;
    assert u * u * t == t - 2.0 * (t * t) + t * t * t;
    assert u * t * t == t * t - t * t * t;
  }

  /** So a supplied root is a parameter at which the curve's x is the requested x, and the result is the curve's y there. */
  lemma BezierIsOnCurve(x0: real, y0: real, x1: real, y1: real, x2: real, y2: real, x3: real, y3: real, x: real, t: real)
    requires IsRoot(Coefficients(x0, x1, x2, x3, x), t)
    ensures Bernstein(x0, x1, x2, x3, t) == x
    ensures Bezier(x0, y0, x1, y1, x2, y2, x3, y3, x, t) == Bernstein(y0, y1, y2, y3, t)
  {
    PowerBasisIsBernstein(x0, x1, x2, x3, x, t);
    PowerBasisIsBernstein(y0, y1, y2, y3, x, t);
  }

  /** The curve starts at its first control value and ends at its last. */
  lemma YEndpoints(y0: real, y1: real, y2: real, y3: real)
    ensures YAt(y0, y1, y2, y3, 0.0) == y0
    ensures YAt(y0, y1, y2, y3, 1.0) == y3
  {
  }

  /** The easing curve `smooth_move` uses: control points (0, s), (D/2, s), (D/2, g), (D, g). */
  function EaseCubic(duration: real, x: real): (p: Cubic)
    ensures p == Coefficients(0.0, duration / 2.0, duration / 2.0, duration, x)
  {
    Cubic(duration, -3.0 * duration / 2.0, 3.0 * duration / 2.0, -x)
  }

  /** t^2 + t t' + t'^2 - 3(t + t')/2 + 3/2 is positive, being 3/4 (t + t' - 1)^2 + 1/4 (t - t')^2 + 3/4. */
  lemma EaseSlopePositive(t: real, t': real)
    ensures t * t + t * t' + t' * t' - 1.5 * (t + t') + 1.5 > 0.0
  {
    var s, e := t + t' - 1.0, t - t';
    assert t * t + t * t' + t' * t' - 1.5 * (t + t') + 1.5 == 0.75 * (s * s) + 0.25 * (e * e) + 0.75;
    assert s * s >= 0.0 && e * e >= 0.0 by {
      Square(s);
      Square(e);
    }
  }

  lemma Square(v: real)
    ensures v * v >= 0.0
  {
    if v < 0.0 {
      assert v * v == (-v) * (-v);
    }
  }

  /** For a positive duration the easing cubic is strictly increasing, so its real root is unique. */
  lemma EaseIncreasing(duration: real, x: real, t: real, t': real)
    requires duration > 0.0 && t < t'
    ensures Eval(EaseCubic(duration, x), t) < Eval(EaseCubic(duration, x), t')
  {
    var q := t * t + t * t' + t' * t' - 1.5 * (t + t') + 1.5;
    EaseSlopePositive(t, t');
    var p := EaseCubic(duration, x);
    assert t' * t' * t' - t * t * t == (t' - t) * (t' * t' + t' * t + t * t);
    assert t' * t' - t * t == (t' - t) * (t' + t);
    var rise := Eval(p, t') - Eval(p, t);
    assert rise == duration * (t' - t) * q;
    PositiveProduct(duration, t' - t, q, rise);
  }

  lemma PositiveProduct(a: real, b: real, c: real, r: real)
    requires a > 0.0 && b > 0.0 && c > 0.0 && r == a * b * c
    ensures r > 0.0
  {
    assert a * b > 0.0;
  }

  lemma EaseRootUnique(duration: real, x: real, t: real, t': real)
    requires duration > 0.0
    requires IsRoot(EaseCubic(duration, x), t) && IsRoot(EaseCubic(duration, x), t')
    ensures t == t'
  {
    if t < t' {
      EaseIncreasing(duration, x, t, t');
    } else if t' < t {
      EaseIncreasing(duration, x, t', t);
    }
  }

  /** For an elapsed time within the duration the root lies in [0, 1], at 0 when starting and at 1 when done. */
  lemma EaseRootInUnit(duration: real, x: real, t: real)
    requires duration > 0.0 && 0.0 <= x <= duration
    requires IsRoot(EaseCubic(duration, x), t)
    ensures 0.0 <= t <= 1.0
    ensures x == 0.0 ==> t == 0.0
    ensures x == duration ==> t == 1.0
  {
    var p := EaseCubic(duration, x);
    assert Eval(p, 0.0) == -x;
    assert Eval(p, 1.0) == duration - x;
    if t < 0.0 {
      EaseIncreasing(duration, x, t, 0.0);
    }
    if t > 1.0 {
      EaseIncreasing(duration, x, 1.0, t);
    }
    if x == 0.0 {
      EaseRootUnique(duration, x, t, 0.0);
    }
    if x == duration {
      EaseRootUnique(duration, x, t, 1.0);
    }
  }

  /** With y control values s, s, g, g the curve is the smoothstep s + (g - s)(3t^2 - 2t^3). */
  function Ease(s: real, g: real, t: real): (y: real)
    ensures y == YAt(s, s, g, g, t)
  {
    s + (g - s) * (3.0 * (t * t) - 2.0 * (t * t * t))
  }

  /** On [0, 1] the smoothstep stays between its start and goal values. */
  lemma EaseBetween(s: real, g: real, t: real)
    requires 0.0 <= t <= 1.0
    ensures s <= g ==> s <= Ease(s, g, t) <= g
    ensures g <= s ==> g <= Ease(s, g, t) <= s
  {
    var w := 3.0 * (t * t) - 2.0 * (t * t * t);
    assert w == t * t * (3.0 - 2.0 * t);
    assert 1.0 - w == (1.0 - t) * (1.0 - t) * (1.0 + 2.0 * t);
    Square(t);
    Square(1.0 - t);
    assert 0.0 <= w <= 1.0 by {
      NonNegativeProduct(t * t, 3.0 - 2.0 * t);
      NonNegativeProduct((1.0 - t) * (1.0 - t), 1.0 + 2.0 * t);
    }
    Between(s, g, w);
  }

  lemma NonNegativeProduct(a: real, b: real)
    requires a >= 0.0 && b >= 0.0
    ensures a * b >= 0.0
  {
  }

  lemma Between(s: real, g: real, w: real)
    requires 0.0 <= w <= 1.0
    ensures s <= g ==> s <= s + (g - s) * w <= g
    ensures g <= s ==> g <= s + (g - s) * w <= s
  {
    if s <= g {
      NonNegativeProduct(g - s, w);
      NonNegativeProduct(g - s, 1.0 - w);
      assert (g - s) * (1.0 - w) == (g - s) - (g - s) * w;
    } else {
      NonNegativeProduct(s - g, w);
      NonNegativeProduct(s - g, 1.0 - w);
      assert (s - g) * (1.0 - w) == (s - g) - (s - g) * w;
      assert (g - s) * w == -((s - g) * w);
    }
  }

  /** The module's own sample call, `bezier(0, 0, .5, 0, .5, 1, 1, 1, .25)`, is the easing curve from 0 to 1, so its value lies in [0, 1]. */
  lemma SampleCall(t: real)
    requires IsRoot(Coefficients(0.0, 0.5, 0.5, 1.0, 0.25), t)
    ensures 0.0 <= t <= 1.0
    ensures 0.0 <= Bezier(0.0, 0.0, 0.5, 0.0, 0.5, 1.0, 1.0, 1.0, 0.25, t) <= 1.0
  {
    EaseRootInUnit(1.0, 0.25, t);
    EaseBetween(0.0, 1.0, t);
  }
}
