/**
 * `TrajectoryAnalyzer.analyze`: summary statistics of one recorded mouse
 * session, a sequence of `(x, y, timestamp)` points in recording order.
 *
 * The statistics are specified by functions that recurse on the last point
 * (`PathLength`, `Speeds`, `DirectionChanges`, `AnalysisOf`); the method
 * `Analyze` is `analyze`'s single forward loop, proved equal to them.
 * Reals stand for `Double`; the square root is the parameter `sqrt`, assumed
 * to be the true square root (`IsSqrt`).
 */
module TrajectoryAnalyzer {
  import opened Wrappers
  import opened RealMath
  import opened Heading

  /** One recorded sample. */
  datatype Point = Point(x: real, y: real, timestamp: real)

  /** `(minX, minY, maxX, maxY)`. */
  datatype BoundingBox = BoundingBox(minX: real, minY: real, maxX: real, maxY: real)

  datatype TrajectoryAnalysis = TrajectoryAnalysis(
    totalDistance: real,
    averageSpeed: real,
    maxSpeed: real,
    duration: real,
    pointCount: nat,
    boundingBox: BoundingBox,
    directionChanges: nat)

  /** The `(dx, dy)` of the step from `prev` to `curr`. */
  function StepOf(prev: Point, curr: Point): Vec {
    Vec(curr.x - prev.x, curr.y - prev.y)
  }

  /** Euclidean length of a step, `sqrt(dx*dx + dy*dy)`. */
  function StepLength(sqrt: real -> real, v: Vec): real {
    sqrt(Norm2(v))
  }

  /** A step length is never negative. */
  lemma StepLengthNonnegative(sqrt: real -> real, v: Vec)
    ensures IsSqrt(sqrt) ==> 0.0 <= StepLength(sqrt, v)
    ensures IsSqrt(sqrt) ==> (StepLength(sqrt, v) == 0.0 <==> Norm2(v) == 0.0)
  {
    if IsSqrt(sqrt) {
      SqrtPositive(sqrt, Norm2(v));
    }
  }

  /** `distance / timeDiff`, only taken when time moved forward. */
  function Speed(distance: real, timeDiff: real): (r: real)
    requires 0.0 < timeDiff
    ensures r * timeDiff == distance
    ensures 0.0 <= distance ==> 0.0 <= r
  {
    SpeedCovers(distance, timeDiff);
    distance / timeDiff
  }

  /** Arithmetic behind Speed: the quotient times `timeDiff` gives back `distance`, and keeps its sign. */
  lemma SpeedCovers(distance: real, timeDiff: real)
    requires 0.0 < timeDiff
    ensures (distance / timeDiff) * timeDiff == distance
    ensures 0.0 <= distance ==> 0.0 <= distance / timeDiff
  {
    DivCancel(distance, timeDiff);
    ScaleLess(distance / timeDiff, 0.0, timeDiff);
  }

  /** The speed of the step from `prev` to `curr`, when time moved forward between them. */
  function StepSpeed(sqrt: real -> real, prev: Point, curr: Point): real
    requires prev.timestamp < curr.timestamp
  {
    Speed(StepLength(sqrt, StepOf(prev, curr)), curr.timestamp - prev.timestamp)
  }

  /** The step ending at point `i` (`1 <= i < |pts|`). */
  function StepAt(pts: seq<Point>, i: nat): Vec
    requires 1 <= i < |pts|
  {
    StepOf(pts[i - 1], pts[i])
  }

  /** `totalDistance`: the lengths of all steps, added in order; never negative. */
  function PathLength(sqrt: real -> real, pts: seq<Point>): (r: real)
    ensures |pts| < 2 ==> r == 0.0
    ensures IsSqrt(sqrt) ==> 0.0 <= r
  {
    if |pts| < 2 then 0.0
    else
      StepLengthNonnegative(sqrt, StepAt(pts, |pts| - 1));
      PathLength(sqrt, pts[..|pts| - 1]) + StepLength(sqrt, StepAt(pts, |pts| - 1))
  }

  /** `speeds`: one speed per step whose time difference is positive, in order. */
  function Speeds(sqrt: real -> real, pts: seq<Point>): (r: seq<real>)
    ensures |pts| < 2 ==> r == []
    ensures 2 <= |pts| ==> |r| <= |pts| - 1
  {
    if |pts| < 2 then []
    else
      var prev, curr := pts[|pts| - 2], pts[|pts| - 1];
      var timeDiff := curr.timestamp - prev.timestamp;
      Speeds(sqrt, pts[..|pts| - 1])
      + (if 0.0 < timeDiff then [StepSpeed(sqrt, prev, curr)] else [])
  }

  /**
   * `directionChanges`: the number of steps after the first whose heading
   * turns by more than 45 degrees from the previous step's heading.
   */
  function DirectionChanges(pts: seq<Point>): (r: nat)
    ensures |pts| < 3 ==> r == 0
    ensures 3 <= |pts| ==> r <= |pts| - 2
  {
    if |pts| < 3 then 0
    else
      DirectionChanges(pts[..|pts| - 1])
      + (if Turns(StepAt(pts, |pts| - 2), StepAt(pts, |pts| - 1)) then 1 else 0)
  }

  function Xs(pts: seq<Point>): (xs: seq<real>)
    ensures |xs| == |pts|
  {
    seq(|pts|, i requires 0 <= i < |pts| => pts[i].x)
  }

  function Ys(pts: seq<Point>): (ys: seq<real>)
    ensures |ys| == |pts|
  {
    seq(|pts|, i requires 0 <= i < |pts| => pts[i].y)
  }

  /** The bounding box of all points; `(0, 0, 0, 0)` below two points. */
  function BoxOf(pts: seq<Point>): (b: BoundingBox)
    ensures |pts| < 2 ==> b == BoundingBox(0.0, 0.0, 0.0, 0.0)
    ensures b.minX <= b.maxX && b.minY <= b.maxY
  {
    if |pts| < 2 then BoundingBox(0.0, 0.0, 0.0, 0.0)
    else BoundingBox(Min(Xs(pts)), Min(Ys(pts)), Max(Xs(pts)), Max(Ys(pts)))
  }

  /**
   * Last timestamp minus first, not made absolute: negative exactly when the
   * last point is stamped before the first; 0 below two points.
   */
  function Duration(pts: seq<Point>): (r: real)
    ensures |pts| < 2 ==> r == 0.0
    ensures 2 <= |pts| ==> (r < 0.0 <==> pts[|pts| - 1].timestamp < pts[0].timestamp)
    ensures 2 <= |pts| ==> pts[0].timestamp + r == pts[|pts| - 1].timestamp
  {
    if |pts| < 2 then 0.0 else pts[|pts| - 1].timestamp - pts[0].timestamp
  }

  /**
   * What `analyze` returns for `pts`. Below two points every statistic is
   * zero, the box is (0, 0, 0, 0) and only the count is kept.
   */
  function AnalysisOf(sqrt: real -> real, pts: seq<Point>): (r: TrajectoryAnalysis)
    ensures r.pointCount == |pts|
    ensures |pts| < 2 ==>
      r == TrajectoryAnalysis(0.0, 0.0, 0.0, 0.0, |pts|, BoundingBox(0.0, 0.0, 0.0, 0.0), 0)
    ensures r.directionChanges <= if |pts| < 3 then 0 else |pts| - 2
    ensures r.boundingBox.minX <= r.boundingBox.maxX && r.boundingBox.minY <= r.boundingBox.maxY
    ensures IsSqrt(sqrt) ==> 0.0 <= r.totalDistance
  {
    if |pts| < 2 then
      TrajectoryAnalysis(0.0, 0.0, 0.0, 0.0, |pts|, BoundingBox(0.0, 0.0, 0.0, 0.0), 0)
    else
      var speeds := Speeds(sqrt, pts);
      TrajectoryAnalysis(PathLength(sqrt, pts), Mean(speeds), MaxOrZero(speeds),
        Duration(pts), |pts|, BoxOf(pts), DirectionChanges(pts))
  }

  /**
   * `analyze(points)`: one pass over consecutive pairs accumulating the
   * distance, the speeds and the direction changes, then the bounding box,
   * the duration and the speed statistics.
   */
  method Analyze(sqrt: real -> real, points: seq<Point>) returns (r: TrajectoryAnalysis)
    requires IsSqrt(sqrt)
    ensures r == AnalysisOf(sqrt, points)
    ensures r.pointCount == |points|
    ensures 0.0 <= r.totalDistance
    ensures 0.0 <= r.averageSpeed <= r.maxSpeed
    ensures r.directionChanges <= if |points| < 3 then 0 else |points| - 2
  {
    if |points| < 2 {
      r := TrajectoryAnalysis(0.0, 0.0, 0.0, 0.0, |points|, BoundingBox(0.0, 0.0, 0.0, 0.0), 0);
      return;
    }

    var totalDistance := 0.0;
    var speeds: seq<real> := [];
    var directionChanges: nat := 0;
    var lastDirection: Option<Vec> := None;

    for i := 1 to |points|
      invariant totalDistance == PathLength(sqrt, points[..i])
      invariant speeds == Speeds(sqrt, points[..i])
      invariant directionChanges == DirectionChanges(points[..i])
      invariant i == 1 <==> lastDirection == None
      invariant 1 < i ==> lastDirection == Some(StepAt(points, i - 1))
    {
      var prev := points[i - 1];
      var curr := points[i];
      PrefixStep(sqrt, points, i);

      var dx := curr.x - prev.x;
      var dy := curr.y - prev.y;
      assert Vec(dx, dy) == StepAt(points, i);
      var distance := StepLength(sqrt, Vec(dx, dy));
      totalDistance := totalDistance + distance;
      assert totalDistance == PathLength(sqrt, points[..i + 1]);

      var timeDiff := curr.timestamp - prev.timestamp;
      if 0.0 < timeDiff {
        var speed := Speed(distance, timeDiff);
        assert speed == StepSpeed(sqrt, prev, curr);
        speeds := speeds + [speed];
      }
      assert speeds == Speeds(sqrt, points[..i + 1]);

      if lastDirection.Some? {
        var lastDir := lastDirection.value;
        var currentDirection := Vec(dx, dy);
        var cosine := AngleCosine(sqrt, lastDir, currentDirection);
        TurnTestExact(sqrt, lastDir, currentDirection);
        if ExceedsFortyFive(cosine) {
          directionChanges := directionChanges + 1;
        }
      }
      assert directionChanges == DirectionChanges(points[..i + 1]);
      lastDirection := Some(Vec(dx, dy));
    }
    assert points[..|points|] == points;

    r := TrajectoryAnalysis(
      totalDistance,
      Mean(speeds),
      MaxOrZero(speeds),
      points[|points| - 1].timestamp - points[0].timestamp,
      |points|,
      BoxOf(points),
      directionChanges);
    AnalysisBounds(sqrt, points);
  }

  /** How the three accumulated statistics grow when the prefix `pts[..i]` gains point `i`. */
  lemma PrefixStep(sqrt: real -> real, pts: seq<Point>, i: nat)
    requires 1 <= i < |pts|
    ensures PathLength(sqrt, pts[..i + 1]) == PathLength(sqrt, pts[..i]) + StepLength(sqrt, StepAt(pts, i))
    ensures Speeds(sqrt, pts[..i + 1]) ==
      Speeds(sqrt, pts[..i]) + (if pts[i - 1].timestamp < pts[i].timestamp then [StepSpeed(sqrt, pts[i - 1], pts[i])] else [])
    ensures i == 1 ==> DirectionChanges(pts[..i + 1]) == 0
    ensures 2 <= i ==> (DirectionChanges(pts[..i + 1]) ==
      DirectionChanges(pts[..i]) + (if Turns(StepAt(pts, i - 1), StepAt(pts, i)) then 1 else 0))
  {
    var next := pts[..i + 1];
    assert next[..i] == pts[..i];
    assert StepAt(next, i) == StepAt(pts, i);
    if 2 <= i {
      assert StepAt(next, i - 1) == StepAt(pts, i - 1);
    }
  }

  /** The bounds `Analyze` promises, stated on the specification. */
  lemma AnalysisBounds(sqrt: real -> real, pts: seq<Point>)
    requires IsSqrt(sqrt)
    ensures AnalysisOf(sqrt, pts).pointCount == |pts|
    ensures 0.0 <= AnalysisOf(sqrt, pts).totalDistance
    ensures 0.0 <= AnalysisOf(sqrt, pts).averageSpeed <= AnalysisOf(sqrt, pts).maxSpeed
  {
    if 2 <= |pts| {
      SpeedsNonnegative(sqrt, pts);
      MeanWithinMax(Speeds(sqrt, pts));
    }
  }

  /** The length of every step, in order (reference for `totalDistance`). */
  function StepLengths(sqrt: real -> real, pts: seq<Point>): (ls: seq<real>)
    ensures |ls| == if |pts| < 2 then 0 else |pts| - 1
  {
    if |pts| < 2 then []
    else seq(|pts| - 1, i requires 0 <= i < |pts| - 1 => StepLength(sqrt, StepAt(pts, i + 1)))
  }

  /** `totalDistance` is the sum of the step lengths. */
  lemma {:induction false} PathLengthIsSumOfSteps(sqrt: real -> real, pts: seq<Point>)
    ensures PathLength(sqrt, pts) == Sum(StepLengths(sqrt, pts))
  {
    if 2 <= |pts| {
      var pre := pts[..|pts| - 1];
      PathLengthIsSumOfSteps(sqrt, pre);
      var ls := StepLengths(sqrt, pts);
      assert ls[..|ls| - 1] == StepLengths(sqrt, pre) by {
        if |pre| < 2 {
          assert ls[..|ls| - 1] == [];
        } else {
          forall i | 0 <= i < |pre| - 1
            ensures ls[i] == StepLengths(sqrt, pre)[i]
          {
            assert StepAt(pts, i + 1) == StepAt(pre, i + 1);
          }
        }
      }
    }
  }

  /** Every recorded speed is nonnegative. */
  lemma {:induction false} SpeedsNonnegative(sqrt: real -> real, pts: seq<Point>)
    requires IsSqrt(sqrt)
    ensures forall j :: 0 <= j < |Speeds(sqrt, pts)| ==> 0.0 <= Speeds(sqrt, pts)[j]
  {
    if 2 <= |pts| {
      SpeedsNonnegative(sqrt, pts[..|pts| - 1]);
      StepLengthNonnegative(sqrt, StepAt(pts, |pts| - 1));
    }
  }

  /** The speed of the step ending at point `i`, when its time difference is positive. */
  function SpeedAt(sqrt: real -> real, pts: seq<Point>, i: nat): real
    requires 1 <= i < |pts| && pts[i - 1].timestamp < pts[i].timestamp
  {
    StepSpeed(sqrt, pts[i - 1], pts[i])
  }

  /** Every step with a positive time difference contributes its speed. */
  lemma {:induction false} ForwardStepsHaveSpeeds(sqrt: real -> real, pts: seq<Point>)
    ensures forall i :: 1 <= i < |pts| && pts[i - 1].timestamp < pts[i].timestamp ==>
      SpeedAt(sqrt, pts, i) in Speeds(sqrt, pts)
  {
    if 2 <= |pts| {
      var pre := pts[..|pts| - 1];
      ForwardStepsHaveSpeeds(sqrt, pre);
      assert Speeds(sqrt, pts)[..|Speeds(sqrt, pre)|] == Speeds(sqrt, pre);
      forall i | 1 <= i < |pts| && pts[i - 1].timestamp < pts[i].timestamp
        ensures SpeedAt(sqrt, pts, i) in Speeds(sqrt, pts)
      {
        if i < |pre| {
          assert StepAt(pre, i) == StepAt(pts, i);
          assert SpeedAt(sqrt, pre, i) in Speeds(sqrt, pre);
        }
      }
    }
  }

  /** Every recorded speed is the speed of a step with a positive time difference. */
  lemma {:induction false} SpeedsComeFromForwardSteps(sqrt: real -> real, pts: seq<Point>)
    ensures forall s :: s in Speeds(sqrt, pts) ==>
      exists i :: 1 <= i < |pts| && pts[i - 1].timestamp < pts[i].timestamp && s == SpeedAt(sqrt, pts, i)
  {
    if 2 <= |pts| {
      var pre := pts[..|pts| - 1];
      SpeedsComeFromForwardSteps(sqrt, pre);
      forall s | s in Speeds(sqrt, pts)
        ensures exists i :: 1 <= i < |pts| && pts[i - 1].timestamp < pts[i].timestamp && s == SpeedAt(sqrt, pts, i)
      {
        if s in Speeds(sqrt, pre) {
          var i :| 1 <= i < |pre| && pre[i - 1].timestamp < pre[i].timestamp && s == SpeedAt(sqrt, pre, i);
          assert StepAt(pre, i) == StepAt(pts, i);
          assert s == SpeedAt(sqrt, pts, i);
        } else {
          assert s == SpeedAt(sqrt, pts, |pts| - 1);
        }
      }
    }
  }

  /** The indices `i` of the steps with a positive time difference, in increasing order. */
  function ForwardSteps(pts: seq<Point>): (idx: seq<nat>)
    ensures forall j :: 0 <= j < |idx| ==>
      1 <= idx[j] < |pts| && pts[idx[j] - 1].timestamp < pts[idx[j]].timestamp
  {
    if |pts| < 2 then []
    else
      var pre := pts[..|pts| - 1];
      var rest := ForwardSteps(pre);
      assert forall j :: 0 <= j < |rest| ==> pre[rest[j] - 1] == pts[rest[j] - 1] && pre[rest[j]] == pts[rest[j]];
      rest + (if pts[|pts| - 2].timestamp < pts[|pts| - 1].timestamp then [|pts| - 1] else [])
  }

  /** ForwardSteps is strictly increasing, so it lists each step at most once, in step order. */
  lemma {:induction false} ForwardStepsIncreasing(pts: seq<Point>)
    ensures forall j, k :: 0 <= j < k < |ForwardSteps(pts)| ==> ForwardSteps(pts)[j] < ForwardSteps(pts)[k]
  {
    if 2 <= |pts| {
      var pre := pts[..|pts| - 1];
      ForwardStepsIncreasing(pre);
      var rest, idx := ForwardSteps(pre), ForwardSteps(pts);
      forall j, k | 0 <= j < k < |idx|
        ensures idx[j] < idx[k]
      {
        assert idx[j] == rest[j];
        if k < |rest| {
          assert idx[k] == rest[k];
        } else {
          assert idx[k] == |pts| - 1;
        }
      }
    }
  }

  /** ForwardSteps lists every step with a positive time difference. */
  lemma {:induction false} ForwardStepsComplete(pts: seq<Point>)
    ensures forall i :: 1 <= i < |pts| && pts[i - 1].timestamp < pts[i].timestamp ==> i in ForwardSteps(pts)
  {
    if 2 <= |pts| {
      var pre := pts[..|pts| - 1];
      ForwardStepsComplete(pre);
      var rest, idx := ForwardSteps(pre), ForwardSteps(pts);
      forall i | 1 <= i < |pts| && pts[i - 1].timestamp < pts[i].timestamp
        ensures i in idx
      {
        if i < |pre| {
          assert pre[i - 1] == pts[i - 1] && pre[i] == pts[i];
          assert i in rest;
        }
      }
    }
  }

  /**
   * `speeds` holds exactly one entry per step with a positive time
   * difference, that step's speed, in step order.
   */
  lemma {:induction false} SpeedsInStepOrder(sqrt: real -> real, pts: seq<Point>)
    ensures |Speeds(sqrt, pts)| == |ForwardSteps(pts)|
    ensures forall j :: 0 <= j < |ForwardSteps(pts)| ==>
      Speeds(sqrt, pts)[j] == SpeedAt(sqrt, pts, ForwardSteps(pts)[j])
  {
    if 2 <= |pts| {
      var pre := pts[..|pts| - 1];
      SpeedsInStepOrder(sqrt, pre);
      var idx, sp := ForwardSteps(pts), Speeds(sqrt, pts);
      var idx', sp' := ForwardSteps(pre), Speeds(sqrt, pre);
      assert idx[..|idx'|] == idx' && sp[..|sp'|] == sp';
      forall j | 0 <= j < |idx|
        ensures sp[j] == SpeedAt(sqrt, pts, idx[j])
      {
        if j < |idx'| {
          var i := idx'[j];
          assert idx[j] == i && sp[j] == sp'[j];
          assert StepAt(pre, i) == StepAt(pts, i);
          assert pre[i - 1] == pts[i - 1] && pre[i] == pts[i];
        } else {
          assert idx[j] == |pts| - 1;
        }
      }
    }
  }

  /** With strictly increasing timestamps every step has a speed. */
  lemma {:induction false} IncreasingTimesGiveEverySpeed(sqrt: real -> real, pts: seq<Point>)
    requires 2 <= |pts|
    requires forall i :: 1 <= i < |pts| ==> pts[i - 1].timestamp < pts[i].timestamp
    ensures |Speeds(sqrt, pts)| == |pts| - 1
  {
    if 3 <= |pts| {
      IncreasingTimesGiveEverySpeed(sqrt, pts[..|pts| - 1]);
    }
  }

  /** With no step moving forward in time there are no speeds, so average and maximum are 0. */
  lemma {:induction false} StalledTimesGiveNoSpeed(sqrt: real -> real, pts: seq<Point>)
    requires forall i :: 1 <= i < |pts| ==> pts[i].timestamp <= pts[i - 1].timestamp
    ensures Speeds(sqrt, pts) == []
    ensures AnalysisOf(sqrt, pts).averageSpeed == 0.0 && AnalysisOf(sqrt, pts).maxSpeed == 0.0
  {
    if 3 <= |pts| {
      StalledTimesGiveNoSpeed(sqrt, pts[..|pts| - 1]);
    }
  }

  /** No speed exceeds `maxSpeed`, and `maxSpeed` is one of the speeds when there is any. */
  lemma MaxSpeedIsMaximum(sqrt: real -> real, pts: seq<Point>)
    requires 2 <= |pts|
    ensures forall j :: 0 <= j < |Speeds(sqrt, pts)| ==>
      Speeds(sqrt, pts)[j] <= AnalysisOf(sqrt, pts).maxSpeed
    ensures Speeds(sqrt, pts) != [] ==> AnalysisOf(sqrt, pts).maxSpeed in Speeds(sqrt, pts)
    ensures Speeds(sqrt, pts) == [] ==> AnalysisOf(sqrt, pts).averageSpeed == 0.0
  {
  }

  /** Every point lies inside the bounding box, and each bound is some point's coordinate. */
  lemma BoxIsTight(pts: seq<Point>)
    requires 2 <= |pts|
    ensures forall i :: 0 <= i < |pts| ==>
      BoxOf(pts).minX <= pts[i].x <= BoxOf(pts).maxX && BoxOf(pts).minY <= pts[i].y <= BoxOf(pts).maxY
    ensures exists i :: 0 <= i < |pts| && pts[i].x == BoxOf(pts).minX
    ensures exists i :: 0 <= i < |pts| && pts[i].x == BoxOf(pts).maxX
    ensures exists i :: 0 <= i < |pts| && pts[i].y == BoxOf(pts).minY
    ensures exists i :: 0 <= i < |pts| && pts[i].y == BoxOf(pts).maxY
  {
    var xs, ys := Xs(pts), Ys(pts);
    forall i | 0 <= i < |pts|
      ensures BoxOf(pts).minX <= pts[i].x <= BoxOf(pts).maxX && BoxOf(pts).minY <= pts[i].y <= BoxOf(pts).maxY
    {
      assert xs[i] == pts[i].x && ys[i] == pts[i].y;
    }
    var a :| 0 <= a < |xs| && xs[a] == Min(xs);
    var b :| 0 <= b < |xs| && xs[b] == Max(xs);
    var c :| 0 <= c < |ys| && ys[c] == Min(ys);
    var d :| 0 <= d < |ys| && ys[d] == Max(ys);
  }

  /** Each step along one heading `d`, scaled by a positive factor `ks[i]`: a straight line. */
  ghost predicate Straight(pts: seq<Point>, d: Vec, ks: seq<real>) {
    |ks| == |pts| &&
    forall i :: 1 <= i < |pts| ==> 0.0 < ks[i] && StepAt(pts, i) == Scale(ks[i], d)
  }

  /** Motion along a straight line, at any speeds, records no direction change. */
  lemma {:induction false} StraightLineNoChanges(pts: seq<Point>, d: Vec, ks: seq<real>)
    requires Straight(pts, d, ks)
    ensures DirectionChanges(pts) == 0
  {
    if 3 <= |pts| {
      var pre := pts[..|pts| - 1];
      forall i | 1 <= i < |pre|
        ensures StepAt(pre, i) == StepAt(pts, i)
      {
      }
      StraightLineNoChanges(pre, d, ks[..|pre|]);
      SameHeadingNeverTurns(d, ks[|pts| - 2], ks[|pts| - 1]);
    }
  }

  /** `duration` is the last timestamp minus the first, negative when they are out of order. */
  lemma DurationIsSpan(sqrt: real -> real, pts: seq<Point>)
    requires 2 <= |pts|
    ensures AnalysisOf(sqrt, pts).duration == pts[|pts| - 1].timestamp - pts[0].timestamp
    ensures pts[|pts| - 1].timestamp < pts[0].timestamp ==> AnalysisOf(sqrt, pts).duration < 0.0
  {
  }

  /** When timestamps never go backwards, `duration` is not negative. */
  lemma {:induction false} OrderedTimesNonnegativeDuration(pts: seq<Point>)
    requires forall i :: 1 <= i < |pts| ==> pts[i - 1].timestamp <= pts[i].timestamp
    ensures 0.0 <= Duration(pts)
  {
    if 3 <= |pts| {
      var pre := pts[..|pts| - 1];
      OrderedTimesNonnegativeDuration(pre);
      assert pre[|pre| - 1] == pts[|pts| - 2];
    }
  }

  /** Two points (0, 0) at t = 0 and (3, 4) at t = 1: one step of length 5 in one time unit. */
  lemma TwoPointExample(sqrt: real -> real, pts: seq<Point>)
    requires IsSqrt(sqrt)
    requires |pts| == 2 && pts[0] == Point(0.0, 0.0, 0.0) && pts[1] == Point(3.0, 4.0, 1.0)
    ensures AnalysisOf(sqrt, pts) ==
      TrajectoryAnalysis(5.0, 5.0, 5.0, 1.0, 2, BoundingBox(0.0, 0.0, 3.0, 4.0), 0)
  {
    TwoPointValues(sqrt, pts);
    TwoPointAnalysis(sqrt, pts, 5.0, 1.0);
    TwoPointBox(pts);
  }

  /** The step length, time difference and speed of TwoPointExample. */
  lemma TwoPointValues(sqrt: real -> real, pts: seq<Point>)
    requires IsSqrt(sqrt)
    requires |pts| == 2 && pts[0] == Point(0.0, 0.0, 0.0) && pts[1] == Point(3.0, 4.0, 1.0)
    ensures StepLength(sqrt, StepAt(pts, 1)) == 5.0
    ensures pts[1].timestamp - pts[0].timestamp == 1.0
    ensures Speed(5.0, 1.0) == 5.0
  {
    TwoPointStep(pts);
    ThreeFourFive(sqrt);
  }

  /**
   * Two points moving forward in time: the distance `d` is the one step's
   * length, the duration `dt` its time difference, and average and maximum
   * speed are both that step's speed.
   */
  lemma TwoPointAnalysis(sqrt: real -> real, pts: seq<Point>, d: real, dt: real)
    requires |pts| == 2 && 0.0 < dt
    requires d == StepLength(sqrt, StepAt(pts, 1)) && dt == pts[1].timestamp - pts[0].timestamp
    ensures AnalysisOf(sqrt, pts) == TrajectoryAnalysis(d, Speed(d, dt), Speed(d, dt), dt, 2, BoxOf(pts), 0)
  {
    TwoPointSteps(sqrt, pts);
    MeanOfOne([Speed(d, dt)]);
  }

  /** The one step of a two-point sequence, as PathLength and Speeds see it. */
  lemma TwoPointSteps(sqrt: real -> real, pts: seq<Point>)
    requires |pts| == 2 && pts[0].timestamp < pts[1].timestamp
    ensures PathLength(sqrt, pts) == StepLength(sqrt, StepAt(pts, 1))
    ensures Speeds(sqrt, pts) == [Speed(StepLength(sqrt, StepAt(pts, 1)), pts[1].timestamp - pts[0].timestamp)]
  {
    assert pts[..1] == [pts[0]];
  }

  /** The step of TwoPointExample. */
  lemma TwoPointStep(pts: seq<Point>)
    requires |pts| == 2 && pts[0] == Point(0.0, 0.0, 0.0) && pts[1] == Point(3.0, 4.0, 1.0)
    ensures StepAt(pts, 1) == Vec(3.0, 4.0)
  {
  }

  /** The bounding box of TwoPointExample. */
  lemma TwoPointBox(pts: seq<Point>)
    requires |pts| == 2 && pts[0] == Point(0.0, 0.0, 0.0) && pts[1] == Point(3.0, 4.0, 1.0)
    ensures BoxOf(pts) == BoundingBox(0.0, 0.0, 3.0, 4.0)
  {
    assert Xs(pts) == [0.0, 3.0] && Ys(pts) == [0.0, 4.0];
  }

  /** The step (3, 4) has length 5. */
  lemma ThreeFourFive(sqrt: real -> real)
    requires IsSqrt(sqrt)
    ensures StepLength(sqrt, Vec(3.0, 4.0)) == 5.0
  {
    assert Norm2(Vec(3.0, 4.0)) == 5.0 * 5.0;
    SqrtOfSquare(sqrt, 5.0);
  }

  /** (0, 0) -> (1, 0) -> (1, 1): a 90-degree turn is one direction change. */
  lemma RightAngleExample(pts: seq<Point>)
    requires |pts| == 3
    requires pts[0] == Point(0.0, 0.0, 0.0) && pts[1] == Point(1.0, 0.0, 1.0) && pts[2] == Point(1.0, 1.0, 2.0)
    ensures DirectionChanges(pts) == 1
  {
    RightAngleSteps(pts);
    PerpendicularTurns(Vec(1.0, 0.0), Vec(0.0, 1.0));
    ThreePointChanges(pts);
  }

  /** The two steps of RightAngleExample. */
  lemma RightAngleSteps(pts: seq<Point>)
    requires |pts| == 3
    requires pts[0] == Point(0.0, 0.0, 0.0) && pts[1] == Point(1.0, 0.0, 1.0) && pts[2] == Point(1.0, 1.0, 2.0)
    ensures StepAt(pts, 1) == Vec(1.0, 0.0) && StepAt(pts, 2) == Vec(0.0, 1.0)
  {
  }

  /** Three points: one direction change exactly when the second step turns from the first. */
  lemma ThreePointChanges(pts: seq<Point>)
    requires |pts| == 3
    ensures DirectionChanges(pts) == if Turns(StepAt(pts, 1), StepAt(pts, 2)) then 1 else 0
  {
    assert StepAt(pts, |pts| - 2) == StepAt(pts, 1);
  }

  /**
   * A step that does not move forward in time adds its length to the
   * distance but no speed: with three points where only the second step
   * moves forward in time, the distance is both step lengths `d1 + d2`,
   * and average and maximum speed are the second step's speed.
   */
  lemma ZeroTimeStepSkipped(sqrt: real -> real, pts: seq<Point>, d1: real, d2: real, dt: real)
    requires |pts| == 3 && pts[1].timestamp <= pts[0].timestamp && 0.0 < dt
    requires d1 == StepLength(sqrt, StepAt(pts, 1)) && d2 == StepLength(sqrt, StepAt(pts, 2))
    requires dt == pts[2].timestamp - pts[1].timestamp
    ensures Speeds(sqrt, pts) == [Speed(d2, dt)]
    ensures AnalysisOf(sqrt, pts).totalDistance == d1 + d2
    ensures AnalysisOf(sqrt, pts).averageSpeed == Speed(d2, dt)
    ensures AnalysisOf(sqrt, pts).maxSpeed == Speed(d2, dt)
  {
    ZeroTimeSteps(sqrt, pts);
    MeanOfOne([Speed(d2, dt)]);
  }

  /** The two steps of ZeroTimeStepSkipped, as PathLength and Speeds see them. */
  lemma ZeroTimeSteps(sqrt: real -> real, pts: seq<Point>)
    requires |pts| == 3 && pts[1].timestamp <= pts[0].timestamp && pts[1].timestamp < pts[2].timestamp
    ensures PathLength(sqrt, pts) == StepLength(sqrt, StepAt(pts, 1)) + StepLength(sqrt, StepAt(pts, 2))
    ensures Speeds(sqrt, pts) == [Speed(StepLength(sqrt, StepAt(pts, 2)), pts[2].timestamp - pts[1].timestamp)]
  {
    var pre := pts[..2];
    assert pts[..|pts| - 1] == pre && pre[..1] == [pts[0]];
    assert StepAt(pre, 1) == StepAt(pts, 1);
    assert PathLength(sqrt, pre) == StepLength(sqrt, StepAt(pts, 1));
    assert Speeds(sqrt, pre) == [];
  }

  /**
   * (0, 0) and (100, 0) both at t = 0, then (101, 0) at t = 1: the
   * distance is 101, and average and maximum speed are those of the last
   * step alone, 1.
   */
  lemma ZeroTimeStepExample(sqrt: real -> real, pts: seq<Point>)
    requires IsSqrt(sqrt)
    requires |pts| == 3
    requires pts[0] == Point(0.0, 0.0, 0.0) && pts[1] == Point(100.0, 0.0, 0.0) && pts[2] == Point(101.0, 0.0, 1.0)
    ensures AnalysisOf(sqrt, pts).totalDistance == 101.0
    ensures AnalysisOf(sqrt, pts).averageSpeed == 1.0
    ensures AnalysisOf(sqrt, pts).maxSpeed == 1.0
  {
    ZeroTimeValues(sqrt, pts);
    ZeroTimeStepSkipped(sqrt, pts, 100.0, 1.0, 1.0);
  }

  /** The step lengths, time difference and speed of ZeroTimeStepExample. */
  lemma ZeroTimeValues(sqrt: real -> real, pts: seq<Point>)
    requires IsSqrt(sqrt)
    requires |pts| == 3
    requires pts[0] == Point(0.0, 0.0, 0.0) && pts[1] == Point(100.0, 0.0, 0.0) && pts[2] == Point(101.0, 0.0, 1.0)
    ensures StepLength(sqrt, StepAt(pts, 1)) == 100.0
    ensures StepLength(sqrt, StepAt(pts, 2)) == 1.0
    ensures pts[2].timestamp - pts[1].timestamp == 1.0
    ensures Speed(1.0, 1.0) == 1.0
  {
    ZeroTimeStepVectors(pts);
    AxisLength(sqrt, 100.0);
    AxisLength(sqrt, 1.0);
  }

  /** The two steps of ZeroTimeStepExample. */
  lemma ZeroTimeStepVectors(pts: seq<Point>)
    requires |pts| == 3
    requires pts[0] == Point(0.0, 0.0, 0.0) && pts[1] == Point(100.0, 0.0, 0.0) && pts[2] == Point(101.0, 0.0, 1.0)
    ensures StepAt(pts, 1) == Vec(100.0, 0.0) && StepAt(pts, 2) == Vec(1.0, 0.0)
  {
  }

  /** A step of `k >= 0` along the x axis has length `k`. */
  lemma AxisLength(sqrt: real -> real, k: real)
    requires IsSqrt(sqrt) && 0.0 <= k
    ensures StepLength(sqrt, Vec(k, 0.0)) == k
  {
    assert Norm2(Vec(k, 0.0)) == k * k;
    SqrtOfSquare(sqrt, k);
  }
}
