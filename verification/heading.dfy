/**
 * Step headings and the 45-degree direction-change test of
 * `TrajectoryAnalyzer.calculateAngle`.
 *
 * `calculateAngle` measures the angle between two step vectors as
 * acos(clamp(dot / (|v1| * |v2|), -1, 1)) in degrees, and 0 when either
 * vector has zero length. `acos` and `pi` are not modelled: the angle is
 * represented by its cosine. Since acos is strictly decreasing on [-1, 1],
 * an angle in [0, 180] corresponds to a cosine in [-1, 1], and
 * "angle > 45" is exactly "cosine < cos 45 = sqrt(2)/2".
 */
module Heading {
  import opened RealMath

  /** The `(dx, dy)` vector of one step. */
  datatype Vec = Vec(dx: real, dy: real)

  function Dot(v: Vec, w: Vec): real {
    v.dx * w.dx + v.dy * w.dy
  }

  /** Squared Euclidean length. */
  function Norm2(v: Vec): (n: real)
    ensures 0.0 <= n
  {
    v.dx * v.dx + v.dy * v.dy
  }

  /** `min(max(c, -1.0), 1.0)`. */
  function Clamp(c: real): real {
    if c < -1.0 then -1.0 else if 1.0 < c then 1.0 else c
  }

  /**
   * Cosine of the angle `calculateAngle(v1, v2)` returns: the clamped
   * cosine of the two vectors, and 1 (angle 0) when either magnitude is
   * not positive. The range [-1, 1] is the angle range [0, 180].
   */
  function AngleCosine(sqrt: real -> real, v1: Vec, v2: Vec): (c: real)
    ensures -1.0 <= c <= 1.0
  {
    CosineOf(Dot(v1, v2), sqrt(Norm2(v1)), sqrt(Norm2(v2)))
  }

  /**
   * The body of `calculateAngle` once the dot product and both magnitudes
   * are known: a cosine in [-1, 1], 1 (angle 0) when a magnitude is not
   * positive, and otherwise negative (an obtuse angle) exactly when the
   * dot product is.
   */
  function CosineOf(dot: real, mag1: real, mag2: real): (c: real)
    ensures -1.0 <= c <= 1.0
    ensures !(0.0 < mag1 && 0.0 < mag2) ==> c == 1.0
    ensures 0.0 < mag1 && 0.0 < mag2 ==> (c < 0.0 <==> dot < 0.0)
  {
    if !(0.0 < mag1 && 0.0 < mag2) then 1.0
    else
      CosineSign(dot, mag1 * mag2);
      Clamp(dot / (mag1 * mag2))
  }

  /** Dividing by a positive product keeps the sign of the dot product. */
  lemma CosineSign(dot: real, p: real)
    requires 0.0 < p
    ensures Clamp(dot / p) < 0.0 <==> dot < 0.0
  {
    DivCancel(dot, p);
    ScaleLess(dot / p, 0.0, p);
  }

  /**
   * `angle > 45`, stated on the angle's cosine `c`: c < sqrt(2)/2. Every
   * obtuse or right angle exceeds 45 degrees, angle 0 does not.
   */
  predicate ExceedsFortyFive(c: real)
    ensures c <= 0.0 ==> ExceedsFortyFive(c)
    ensures 1.0 <= c ==> !ExceedsFortyFive(c)
  {
    c < 0.0 || 2.0 * (c * c) < 1.0
  }

  /**
   * The test is a threshold on the cosine: an angle wider than one that
   * exceeds 45 degrees (a smaller cosine) exceeds it too.
   */
  lemma WiderAngleExceeds(c: real, d: real)
    requires c <= d && ExceedsFortyFive(d)
    ensures ExceedsFortyFive(c)
  {
    if 0.0 <= c < d {
      SquareMonotone(c, d);
    }
  }

  /**
   * The same test without square roots: both steps have positive length,
   * and their dot product is not positive or its square is below half the
   * product of the squared lengths.
   */
  predicate Turns(v1: Vec, v2: Vec)
    ensures Turns(v1, v2) ==> 0.0 < Norm2(v1) && 0.0 < Norm2(v2)
    ensures 0.0 < Norm2(v1) && 0.0 < Norm2(v2) && Dot(v1, v2) <= 0.0 ==> Turns(v1, v2)
  {
    TurnsOf(Dot(v1, v2), Norm2(v1), Norm2(v2))
  }

  predicate TurnsOf(dot: real, n1: real, n2: real) {
    0.0 < n1 && 0.0 < n2 && (dot <= 0.0 || 2.0 * (dot * dot) < n1 * n2)
  }

  /** With a true square root, `calculateAngle`'s cosine test and the exact test agree. */
  lemma TurnTestExact(sqrt: real -> real, v1: Vec, v2: Vec)
    requires IsSqrt(sqrt)
    ensures ExceedsFortyFive(AngleCosine(sqrt, v1, v2)) <==> Turns(v1, v2)
  {
    SqrtPositive(sqrt, Norm2(v1));
    SqrtPositive(sqrt, Norm2(v2));
    assert RootOf(sqrt, Norm2(v1)) && RootOf(sqrt, Norm2(v2));
    CosineTestExact(Dot(v1, v2), sqrt(Norm2(v1)), sqrt(Norm2(v2)), Norm2(v1), Norm2(v2));
  }

  /** TurnTestExact on plain reals: magnitudes `m1`, `m2` are the square roots of `n1`, `n2`. */
  lemma CosineTestExact(dot: real, m1: real, m2: real, n1: real, n2: real)
    requires 0.0 <= m1 && 0.0 <= m2 && m1 * m1 == n1 && m2 * m2 == n2
    requires 0.0 < m1 <==> 0.0 < n1
    requires 0.0 < m2 <==> 0.0 < n2
    ensures ExceedsFortyFive(CosineOf(dot, m1, m2)) <==> TurnsOf(dot, n1, n2)
  {
    if 0.0 < m1 && 0.0 < m2 {
      CosineBranch(dot, m1, m2, n1, n2);
    }
  }

  /** The positive-magnitude branch of TurnTestExact, on plain reals. */
  lemma CosineBranch(dot: real, m1: real, m2: real, n1: real, n2: real)
    requires 0.0 < m1 && 0.0 < m2 && m1 * m1 == n1 && m2 * m2 == n2
    ensures ExceedsFortyFive(Clamp(dot / (m1 * m2))) <==> (dot <= 0.0 || 2.0 * (dot * dot) < n1 * n2)
  {
    ProductFacts(m1, m2, n1, n2);
    DivCancel(dot, m1 * m2);
    CosineTest(dot, m1 * m2, dot / (m1 * m2));
  }

  /** Arithmetic behind TurnTestExact: |v1| * |v2| is positive and squares to n1 * n2. */
  lemma ProductFacts(m1: real, m2: real, n1: real, n2: real)
    requires 0.0 < m1 && 0.0 < m2 && m1 * m1 == n1 && m2 * m2 == n2
    ensures 0.0 < m1 * m2
    ensures (m1 * m2) * (m1 * m2) == n1 * n2
  {
  }

  /** Arithmetic behind TurnTestExact: the clamped cosine `c0 = dot / p` against sqrt(2)/2. */
  lemma CosineTest(dot: real, p: real, c0: real)
    requires 0.0 < p && dot == c0 * p
    ensures ExceedsFortyFive(Clamp(c0)) <==> (dot <= 0.0 || 2.0 * (dot * dot) < p * p)
  {
    ProductPositive(p, p);
    ScaleLess(c0, 0.0, p);
    ScaleLess(0.0, c0, p);
    SquareOfProduct(c0, p, dot);
    if c0 < -1.0 {
    } else if 1.0 < c0 {
      ScaleLess(1.0, c0, p);
      SquareMonotone(p, dot);
    } else {
      assert Clamp(c0) == c0;
      if c0 == 0.0 {
        assert ExceedsFortyFive(0.0);
      } else if 0.0 < c0 {
        PositiveCosineTest(c0, p, dot);
      }
    }
  }

  /** The acute branch of CosineTest: a positive cosine `c0 = dot / p` against sqrt(2)/2. */
  lemma PositiveCosineTest(c0: real, p: real, dot: real)
    requires 0.0 < c0 && 0.0 < p && dot == c0 * p
    ensures ExceedsFortyFive(c0) <==> 2.0 * (dot * dot) < p * p
  {
    SquareOfProduct(c0, p, dot);
    ProductPositive(p, p);
    ScaledThreshold(c0 * c0, p * p, dot * dot);
  }

  /** Scaling by `pp > 0` keeps the threshold one half: `2 * cc < 1` exactly when `2 * dd < pp`. */
  lemma ScaledThreshold(cc: real, pp: real, dd: real)
    requires 0.0 < pp && dd == cc * pp
    ensures 2.0 * cc < 1.0 <==> 2.0 * dd < pp
  {
    ScaleLess(cc, 0.5, pp);
  }

  lemma SquareOfProduct(c: real, p: real, d: real)
    requires d == c * p
    ensures d * d == (c * c) * (p * p)
  {
  }

  /** A zero-length step has angle 0 to any other step, so it never counts as a turn. */
  lemma ZeroLengthNeverTurns(sqrt: real -> real, v1: Vec, v2: Vec)
    requires IsSqrt(sqrt)
    requires Norm2(v1) == 0.0 || Norm2(v2) == 0.0
    ensures AngleCosine(sqrt, v1, v2) == 1.0
    ensures !ExceedsFortyFive(AngleCosine(sqrt, v1, v2))
  {
    SqrtPositive(sqrt, Norm2(v1));
    SqrtPositive(sqrt, Norm2(v2));
    assert !ExceedsFortyFive(1.0);
  }

  /** Perpendicular steps of positive length (a 90-degree turn) always count. */
  lemma RightAngleTurns(sqrt: real -> real, v1: Vec, v2: Vec)
    requires IsSqrt(sqrt)
    requires 0.0 < Norm2(v1) && 0.0 < Norm2(v2) && Dot(v1, v2) == 0.0
    ensures ExceedsFortyFive(AngleCosine(sqrt, v1, v2))
  {
    PerpendicularTurns(v1, v2);
    TurnTestExact(sqrt, v1, v2);
  }

  /** RightAngleTurns for the exact test. */
  lemma PerpendicularTurns(v1: Vec, v2: Vec)
    requires 0.0 < Norm2(v1) && 0.0 < Norm2(v2) && Dot(v1, v2) == 0.0
    ensures Turns(v1, v2)
  {
  }

  /** `k * v`. */
  function Scale(k: real, v: Vec): Vec {
    Vec(k * v.dx, k * v.dy)
  }

  /**
   * Two steps along the same heading `d`, each scaled by its own positive
   * factor (a straight line at any speeds), never count as a turn.
   */
  lemma SameHeadingNeverTurns(d: Vec, k1: real, k2: real)
    requires 0.0 < k1 && 0.0 < k2
    ensures !Turns(Scale(k1, d), Scale(k2, d))
  {
    var v1, v2 := Scale(k1, d), Scale(k2, d);
    ScaledTurnsOf(v1.dx, v1.dy, v2.dx, v2.dy, d.dx, d.dy, k1, k2, Norm2(d));
  }

  /** SameHeadingNeverTurns on plain reals. */
  lemma ScaledTurnsOf(a: real, b: real, c: real, e: real, x: real, y: real, k1: real, k2: real, n: real)
    requires 0.0 < k1 && 0.0 < k2
    requires a == k1 * x && b == k1 * y && c == k2 * x && e == k2 * y && n == x * x + y * y
    ensures !TurnsOf(a * c + b * e, a * a + b * b, c * c + e * e)
  {
    ScaledProducts(a, b, c, e, x, y, k1, k2, n);
    if 0.0 < n {
      ScaledNoTurn(k1, k2, n);
    }
  }

  /** A step followed by a positive multiple of itself never counts. */
  lemma StraightNeverTurns(sqrt: real -> real, v: Vec, k: real)
    requires IsSqrt(sqrt)
    requires 0.0 < k
    ensures !ExceedsFortyFive(AngleCosine(sqrt, v, Scale(k, v)))
  {
    assert Scale(1.0, v) == v;
    SameHeadingNeverTurns(v, 1.0, k);
    TurnTestExact(sqrt, v, Scale(k, v));
  }

  /** Dot product and squared lengths of (a, b) = k1 * (x, y) and (c, e) = k2 * (x, y). */
  lemma ScaledProducts(a: real, b: real, c: real, e: real, x: real, y: real, k1: real, k2: real, n: real)
    requires a == k1 * x && b == k1 * y && c == k2 * x && e == k2 * y && n == x * x + y * y
    ensures a * c + b * e == (k1 * k2) * n
    ensures a * a + b * b == (k1 * k1) * n
    ensures c * c + e * e == (k2 * k2) * n
  {
  }

  /** The turn test fails for the products of ScaledProducts once n is positive. */
  lemma ScaledNoTurn(k1: real, k2: real, n: real)
    requires 0.0 < k1 && 0.0 < k2 && 0.0 < n
    ensures 0.0 < (k1 * k2) * n
    ensures !(2.0 * (((k1 * k2) * n) * ((k1 * k2) * n)) < ((k1 * k1) * n) * ((k2 * k2) * n))
  {
    ProductPositive(k1, k2);
    ProductPositive(k1 * k2, n);
    assert ((k1 * k2) * n) * ((k1 * k2) * n) == ((k1 * k1) * n) * ((k2 * k2) * n);
    SquareNonnegative((k1 * k2) * n);
  }
}
