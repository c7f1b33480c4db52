/**
 * Real-number helpers shared by the trajectory model: the square-root
 * hypothesis, and sum, mean, minimum and maximum of a sequence of reals
 * (the Swift standard-library `reduce(0, +)`, `min()` and `max()`).
 */
module RealMath {

  /**
   * `sqrt` behaves as the square root on nonnegative arguments: its result
   * is nonnegative and squares back to the argument. The platform `sqrt` is
   * passed around as a parameter; every property that depends on it takes
   * this predicate as a hypothesis.
   */
  ghost predicate IsSqrt(sqrt: real -> real) {
    forall r: real :: 0.0 <= r ==> RootOf(sqrt, r)
  }

  /** `sqrt(r)` is the nonnegative square root of `r`. */
  ghost predicate RootOf(sqrt: real -> real, r: real) {
    0.0 <= sqrt(r) && sqrt(r) * sqrt(r) == r
  }

  /** Squaring is strictly increasing on nonnegative reals. */
  lemma SquareMonotone(a: real, b: real)
    requires 0.0 <= a < b
    ensures a * a < b * b
  {
    var aa, ab, bb := a * a, a * b, b * b;
    assert aa <= ab;
    assert ab < bb;
  }

  /** Multiplying both sides by a positive factor keeps a strict inequality, in both directions. */
  lemma ScaleLess(a: real, b: real, k: real)
    requires 0.0 < k
    ensures a < b <==> a * k < b * k
  {
    var d := b * k - a * k;
    assert d == (b - a) * k;
    if a < b {
      ProductPositive(b - a, k);
    } else {
      ProductNonnegative(a - b, k);
    }
  }

  lemma DivCancel(a: real, b: real)
    requires b != 0.0
    ensures (a / b) * b == a
  {
  }

  lemma ProductPositive(a: real, b: real)
    requires 0.0 < a && 0.0 < b
    ensures 0.0 < a * b
  {
  }

  lemma ProductNonnegative(a: real, b: real)
    requires 0.0 <= a && 0.0 <= b
    ensures 0.0 <= a * b
  {
  }

  lemma SquareNonnegative(a: real)
    ensures 0.0 <= a * a
  {
    if a != 0.0 { SquarePositive(a); }
  }

  /** A nonzero real has a positive square. */
  lemma SquarePositive(a: real)
    requires a != 0.0
    ensures 0.0 < a * a
  {
    if 0.0 < a { SquareMonotone(0.0, a); } else { SquareMonotone(0.0, -a); }
  }

  /** The square root is zero exactly at zero. */
  lemma SqrtPositive(sqrt: real -> real, r: real)
    requires IsSqrt(sqrt) && 0.0 <= r
    ensures sqrt(r) == 0.0 <==> r == 0.0
    ensures 0.0 < sqrt(r) <==> 0.0 < r
  {
    assert RootOf(sqrt, r);
    var s := sqrt(r);
    assert 0.0 <= s && s * s == r;
    if 0.0 < s {
      SquareMonotone(0.0, s);
    }
  }

  /** The square root of a perfect square `k * k` with `k >= 0` is `k`. */
  lemma SqrtOfSquare(sqrt: real -> real, k: real)
    requires IsSqrt(sqrt) && 0.0 <= k
    ensures sqrt(k * k) == k
  {
    assert RootOf(sqrt, k * k);
    var s := sqrt(k * k);
    assert 0.0 <= s && s * s == k * k;
    if s < k {
      SquareMonotone(s, k);
    } else if k < s {
      SquareMonotone(k, s);
    }
  }

  /** `reduce(0, +)`: the sum of the elements, accumulated left to right. */
  function Sum(s: seq<real>): real {
    if s == [] then 0.0 else Sum(s[..|s| - 1]) + s[|s| - 1]
  }

  /** Arithmetic mean, 0 for the empty sequence. */
  function Mean(s: seq<real>): (m: real)
    ensures s == [] ==> m == 0.0
    ensures s != [] ==> m * (|s| as real) == Sum(s)
  {
    if s == [] then 0.0
    else
      DivCancel(Sum(s), |s| as real);
      Sum(s) / (|s| as real)
  }

  /** The mean of one value is that value. */
  lemma MeanOfOne(s: seq<real>)
    requires |s| == 1
    ensures Mean(s) == s[0]
  {
    assert s[..0] == [];
    assert Sum(s) == s[0];
  }

  /** Smallest element of a nonempty sequence. */
  function Min(s: seq<real>): (m: real)
    requires s != []
    ensures m in s
    ensures forall i :: 0 <= i < |s| ==> m <= s[i]
  {
    if |s| == 1 then s[0]
    else
      var m' := Min(s[..|s| - 1]);
      if s[|s| - 1] < m' then s[|s| - 1] else m'
  }

  /** Largest element of a nonempty sequence. */
  function Max(s: seq<real>): (m: real)
    requires s != []
    ensures m in s
    ensures forall i :: 0 <= i < |s| ==> s[i] <= m
  {
    if |s| == 1 then s[0]
    else
      var m' := Max(s[..|s| - 1]);
      if m' < s[|s| - 1] then s[|s| - 1] else m'
  }

  /** `max() ?? 0`: the largest element, or 0 for the empty sequence. */
  function MaxOrZero(s: seq<real>): (m: real)
    ensures s == [] ==> m == 0.0
    ensures s != [] ==> m in s && forall i :: 0 <= i < |s| ==> s[i] <= m
  {
    if s == [] then 0.0 else Max(s)
  }

  /** A sum of elements each at most `b` is at most `|s| * b`, and a sum of nonnegative elements is nonnegative. */
  lemma {:induction false} SumBounds(s: seq<real>, b: real)
    requires forall i :: 0 <= i < |s| ==> 0.0 <= s[i] <= b
    ensures 0.0 <= Sum(s) <= (|s| as real) * b
  {
    if s != [] {
      SumBounds(s[..|s| - 1], b);
    }
  }

  /** The mean of nonnegative values lies between 0 and their maximum. */
  lemma MeanWithinMax(s: seq<real>)
    requires forall i :: 0 <= i < |s| ==> 0.0 <= s[i]
    ensures 0.0 <= Mean(s) <= MaxOrZero(s)
  {
    if s != [] {
      var m := Max(s);
      var n := |s| as real;
      SumBounds(s, m);
    }
  }
}
