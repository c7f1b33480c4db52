# KangPhoto trajectory core in Dafny

KangPhoto is a macOS app that records the mouse pointer's path during a
session and then summarises it. This project models the two parts that
the rest of the app is built around:

- `TrajectoryAnalyzer.analyze` takes the points of one session, each an
  `(x, y, timestamp)` triple in recording order. It returns the total path
  length, the average and maximum speed, the duration, the point count, the
  bounding box and the number of direction changes. A direction change is
  a step that turns more than 45 degrees from the previous step.
- `MouseTracker` holds the start/stop state of a recording session. That
  state is the tracking flag, the session id and the registered
  global-event monitor.

The project has five files:

- `wrappers.dfy`: Swift optionals as `Option`.
- `real_math.dfy` (module `RealMath`): the square-root hypothesis `IsSqrt`,
  plus the sum, mean, minimum and maximum of a sequence of reals.
- `heading.dfy` (module `Heading`): step vectors and `calculateAngle`. The
  angle is represented by its cosine, and the 45-degree test is proved equal
  to the exact test `Turns`, which uses no square roots.
- `trajectory_analyzer.dfy` (module `TrajectoryAnalyzer`): the statistics
  are defined as recursive functions on the point sequence. `Analyze` is
  `analyze`'s single loop, proved equal to those functions.
- `mouse_tracker.dfy` (module `Tracking`): the `MouseTracker` class, and
  the stop-then-fetch sequence of the stop button.

`Double` is modelled as `real`. The platform square root is a parameter
`sqrt` of every member that needs it. Properties that depend on it assume
`IsSqrt(sqrt)`: `sqrt(r)` is nonnegative and squares back to `r` for
every `r >= 0`.

The exact direction-change test is `Turns(v1, v2)`. It holds when both
steps have positive squared length `n1`, `n2`, and the dot product `dot`
satisfies `dot <= 0 || 2 * dot * dot < n1 * n2`. `TurnTestExact` proves
this agrees with `calculateAngle`'s test, `acos(clamp(cos)) > 45 degrees`.

## Model

| member | source | states |
|---|---|---|
| TrajectoryAnalyzer.Analyze | KangPhoto/Sources/Models/TrajectoryAnalyzer.swift:14-77 | the loop over consecutive pairs computes exactly `AnalysisOf(points)`; pointCount is the number of points, the distance is nonnegative, 0 <= average <= maximum speed, and direction changes are at most n-2 (0 below three points) |
| TrajectoryAnalyzer.AnalysisOf | KangPhoto/Sources/Models/TrajectoryAnalyzer.swift:14-77 | pointCount = n; fewer than two points give all-zero statistics, bounding box (0,0,0,0) and no direction change; at most n-2 direction changes (0 below three points); the box has min <= max on both axes; with a true square root the distance is nonnegative |
| TrajectoryAnalyzer.AnalysisBounds | KangPhoto/Sources/Models/TrajectoryAnalyzer.swift:68-76 | for every input, pointCount = n, totalDistance >= 0 and 0 <= averageSpeed <= maxSpeed |
| TrajectoryAnalyzer.PathLengthIsSumOfSteps | KangPhoto/Sources/Models/TrajectoryAnalyzer.swift:33-40 | totalDistance equals the sum of the lengths of all n-1 steps |
| TrajectoryAnalyzer.PathLength | KangPhoto/Sources/Models/TrajectoryAnalyzer.swift:28-40 | totalDistance is 0 below two points and, with a true square root, never negative |
| TrajectoryAnalyzer.StepLengthNonnegative | KangPhoto/Sources/Models/TrajectoryAnalyzer.swift:37-39 | with a true square root, a step length is nonnegative, and zero exactly when dx*dx + dy*dy is zero |
| TrajectoryAnalyzer.Speed | KangPhoto/Sources/Models/TrajectoryAnalyzer.swift:43-44 | defined only for a positive time difference; speed * timeDiff = distance (moving at the speed for the time difference covers the step), and a nonnegative distance gives a nonnegative speed |
| TrajectoryAnalyzer.Speeds | KangPhoto/Sources/Models/TrajectoryAnalyzer.swift:42-46 | no speeds below two points, and at most n-1 speeds |
| TrajectoryAnalyzer.ForwardSteps | KangPhoto/Sources/Models/TrajectoryAnalyzer.swift:42-43 | every listed index is a step (1 <= i < n) whose time difference is positive |
| TrajectoryAnalyzer.ForwardStepsComplete | KangPhoto/Sources/Models/TrajectoryAnalyzer.swift:42-43 | every step whose time difference is positive is listed |
| TrajectoryAnalyzer.ForwardStepsIncreasing | KangPhoto/Sources/Models/TrajectoryAnalyzer.swift:33-43 | the listed indices are strictly increasing: each step at most once, in step order |
| TrajectoryAnalyzer.SpeedsInStepOrder | KangPhoto/Sources/Models/TrajectoryAnalyzer.swift:42-46 | exactly one speed per step with a positive time difference, in step order: the j-th speed is the speed of the j-th such step, so steps with timeDiff <= 0 add nothing |
| TrajectoryAnalyzer.ZeroTimeStepSkipped | KangPhoto/Sources/Models/TrajectoryAnalyzer.swift:28-71 | three points whose first step does not move forward in time (timeDiff <= 0): the distance is both step lengths, and average = maximum = the second step's speed |
| TrajectoryAnalyzer.ZeroTimeStepExample | KangPhoto/Sources/Models/TrajectoryAnalyzer.swift:28-71 | (0,0,t=0), (100,0,t=0), (101,0,t=1) gives distance 101 and average = maximum speed = 1 |
| TrajectoryAnalyzer.ForwardStepsHaveSpeeds | KangPhoto/Sources/Models/TrajectoryAnalyzer.swift:42-46 | every step with a positive time difference contributes its speed |
| TrajectoryAnalyzer.SpeedsComeFromForwardSteps | KangPhoto/Sources/Models/TrajectoryAnalyzer.swift:42-46 | every recorded speed is the speed of some step with a positive time difference |
| TrajectoryAnalyzer.SpeedsNonnegative | KangPhoto/Sources/Models/TrajectoryAnalyzer.swift:42-45 | every recorded speed is nonnegative |
| TrajectoryAnalyzer.IncreasingTimesGiveEverySpeed | KangPhoto/Sources/Models/TrajectoryAnalyzer.swift:42-46 | with strictly increasing timestamps there are exactly n-1 speeds |
| TrajectoryAnalyzer.StalledTimesGiveNoSpeed | KangPhoto/Sources/Models/TrajectoryAnalyzer.swift:42-46 | when no step moves forward in time there are no speeds, and average and maximum speed are 0 |
| TrajectoryAnalyzer.MaxSpeedIsMaximum | KangPhoto/Sources/Models/TrajectoryAnalyzer.swift:70-71 | no speed exceeds maxSpeed; maxSpeed is one of the speeds when there are any; averageSpeed is 0 when there are none |
| TrajectoryAnalyzer.DirectionChanges | KangPhoto/Sources/Models/TrajectoryAnalyzer.swift:48-56 | at most one change per step after the first: 0 below three points, at most n-2 otherwise |
| TrajectoryAnalyzer.StraightLineNoChanges | KangPhoto/Sources/Models/TrajectoryAnalyzer.swift:48-56 | points moving along one heading, with any positive step sizes, record no direction change |
| TrajectoryAnalyzer.ThreePointChanges | KangPhoto/Sources/Models/TrajectoryAnalyzer.swift:48-56 | with three points, there is one change exactly when the second step turns from the first |
| TrajectoryAnalyzer.RightAngleExample | KangPhoto/Sources/Models/TrajectoryAnalyzer.swift:48-56 | the path (0,0) -> (1,0) -> (1,1) has exactly one direction change |
| TrajectoryAnalyzer.BoxIsTight | KangPhoto/Sources/Models/TrajectoryAnalyzer.swift:59-63 | every point lies in the bounding box, and each of the four bounds is some point's coordinate |
| TrajectoryAnalyzer.BoxOf | KangPhoto/Sources/Models/TrajectoryAnalyzer.swift:59-63 | (0,0,0,0) below two points, and min <= max on both axes |
| TrajectoryAnalyzer.Duration | KangPhoto/Sources/Models/TrajectoryAnalyzer.swift:65-66 | 0 below two points; otherwise first timestamp + duration = last timestamp, and duration is negative exactly when the last point is stamped before the first |
| TrajectoryAnalyzer.OrderedTimesNonnegativeDuration | KangPhoto/Sources/Models/TrajectoryAnalyzer.swift:65-66 | when timestamps never go backwards, the duration is not negative |
| TrajectoryAnalyzer.DurationIsSpan | KangPhoto/Sources/Models/TrajectoryAnalyzer.swift:65-66 | duration is the last timestamp minus the first, and it is negative when those two are out of order |
| TrajectoryAnalyzer.TwoPointAnalysis | KangPhoto/Sources/Models/TrajectoryAnalyzer.swift:14-77 | for two points moving forward in time, the distance is the step length, the duration is the time difference, average = maximum = that step's speed, and there is no direction change |
| TrajectoryAnalyzer.TwoPointExample | KangPhoto/Sources/Models/TrajectoryAnalyzer.swift:14-77 | (0,0,t=0) then (3,4,t=1) gives distance 5, speeds 5 and 5, duration 1, count 2, box (0,0,3,4) and 0 changes |
| TrajectoryAnalyzer.StepLengths | KangPhoto/Sources/Models/TrajectoryAnalyzer.swift:33-39 | one length per step: n-1 lengths, none below two points |
| Heading.AngleCosine | KangPhoto/Sources/Models/TrajectoryAnalyzer.swift:79-89 | the clamped cosine lies in [-1, 1], so the angle lies in [0, 180] degrees |
| Heading.CosineOf | KangPhoto/Sources/Models/TrajectoryAnalyzer.swift:84-87 | the clamped cosine lies in [-1, 1]; it is 1 (angle 0) when a magnitude is not positive, and otherwise negative exactly when the dot product is |
| Heading.ExceedsFortyFive | KangPhoto/Sources/Models/TrajectoryAnalyzer.swift:52 | `angle > 45` on the cosine: a right or obtuse angle (cosine <= 0) exceeds 45 degrees, angle 0 (cosine >= 1) does not |
| Heading.WiderAngleExceeds | KangPhoto/Sources/Models/TrajectoryAnalyzer.swift:52 | the test is a threshold: a smaller cosine than one that exceeds 45 degrees exceeds it too |
| Heading.Turns | KangPhoto/Sources/Models/TrajectoryAnalyzer.swift:49-56 | a turn needs two steps of positive length, and two such steps whose dot product is not positive always turn |
| Heading.Norm2 | KangPhoto/Sources/Models/TrajectoryAnalyzer.swift:81-82 | the squared length dx*dx + dy*dy is nonnegative |
| Heading.TurnTestExact | KangPhoto/Sources/Models/TrajectoryAnalyzer.swift:49-56 | with a true square root, `angle > 45` on the clamped cosine holds exactly when `Turns` holds: both magnitudes are positive, and dot <= 0 or 2*dot*dot < n1*n2 |
| Heading.ZeroLengthNeverTurns | KangPhoto/Sources/Models/TrajectoryAnalyzer.swift:84 | a zero-length step gives angle 0 (cosine 1) and is never counted as a turn |
| Heading.RightAngleTurns | KangPhoto/Sources/Models/TrajectoryAnalyzer.swift:86-88 | perpendicular steps of positive length (90 degrees) are always counted |
| Heading.PerpendicularTurns | KangPhoto/Sources/Models/TrajectoryAnalyzer.swift:52 | perpendicular steps of positive length satisfy the exact test |
| Heading.SameHeadingNeverTurns | KangPhoto/Sources/Models/TrajectoryAnalyzer.swift:49-56 | two positive multiples of one heading never satisfy the exact test |
| Heading.StraightNeverTurns | KangPhoto/Sources/Models/TrajectoryAnalyzer.swift:79-89 | a step followed by a positive multiple of itself is never counted as a turn |
| RealMath.SqrtPositive | KangPhoto/Sources/Models/TrajectoryAnalyzer.swift:81-84 | a magnitude is positive exactly when the squared length is positive, and zero exactly when it is zero |
| RealMath.SqrtOfSquare | KangPhoto/Sources/Models/TrajectoryAnalyzer.swift:39 | the square root of k*k is k for k >= 0 |
| RealMath.Min | KangPhoto/Sources/Models/TrajectoryAnalyzer.swift:60-62 | `min()` of a nonempty sequence is one of its elements and at most every element |
| RealMath.Max | KangPhoto/Sources/Models/TrajectoryAnalyzer.swift:61-63 | `max()` of a nonempty sequence is one of its elements and at least every element |
| RealMath.MaxOrZero | KangPhoto/Sources/Models/TrajectoryAnalyzer.swift:71 | `max() ?? 0` is 0 for no elements, and otherwise is an element at least every element |
| RealMath.Mean | KangPhoto/Sources/Models/TrajectoryAnalyzer.swift:70 | 0 for no speeds; otherwise mean * count = sum |
| RealMath.MeanWithinMax | KangPhoto/Sources/Models/TrajectoryAnalyzer.swift:70-71 | the mean of nonnegative speeds lies between 0 and their maximum |
| RealMath.SumBounds | KangPhoto/Sources/Models/TrajectoryAnalyzer.swift:70 | a sum of elements in [0, b] lies in [0, count * b] |
| RealMath.MeanOfOne | KangPhoto/Sources/Models/TrajectoryAnalyzer.swift:70 | the mean of a single speed is that speed |
| Tracking.MouseTracker.constructor | KangPhoto/Sources/Models/MouseTracker.swift:6-10 | a new tracker is idle, with no session id and no monitor |
| Tracking.MouseTracker.StartTracking | KangPhoto/Sources/Models/MouseTracker.swift:12-31 | starting while tracking changes nothing; from idle it sets tracking, stores the fresh session id and keeps the monitor the platform returned; afterwards the tracker is tracking and a monitor exists only while tracking |
| Tracking.MouseTracker.StopTracking | KangPhoto/Sources/Models/MouseTracker.swift:33-43 | stopping while idle changes nothing; from tracking it clears the flag and drops the monitor; the session id is kept either way, and a monitor exists only while tracking |
| Tracking.MouseTracker.GetCurrentSessionId | KangPhoto/Sources/Models/MouseTracker.swift:45-47 | returns the current or last session id and changes nothing |
| Tracking.MouseTracker.IsCurrentlyTracking | KangPhoto/Sources/Models/MouseTracker.swift:49-51 | returns the tracking flag and changes nothing; when idle, no monitor is registered |
| Tracking.StopAndFetchSession | KangPhoto/Sources/Views/ContentView.swift:14-18 | stop and then fetch the id: the fetched id is the session's own id, and tracking has ended with no monitor left |
| Tracking.RecordSession | KangPhoto/Sources/Views/ContentView.swift:14-24 | starting from idle with a fresh id and then stopping gives back exactly that id |

## Left out

- Floating point: `Double` is modelled as `real`. Rounding, NaN and infinities are not modelled, so the model does not show the NaN results `analyze` produces for non-finite inputs.
- `acos`, `pi` and the conversion to degrees: the angle is represented by its clamped cosine. The test `angle > 45` becomes `cosine < sqrt(2)/2`, written exactly as `c < 0 || 2*c*c < 1`. This is the same test because `acos` is strictly decreasing on [-1, 1].
- `sqrt` is a parameter, so the model does not fix any particular square-root implementation.
- TrajectoryAnalyzer.Analyze: assumes `sqrt` is the true square root (`IsSqrt`). With a rounded platform square root, the angle test for steps at exactly 45 degrees can differ from the exact test.
- The `MouseTracker.shared` singleton and its private initialiser are not modelled. The model works on any one `MouseTracker` object, built by a public constructor.
- `UUID().uuidString` is not modelled; `StartTracking` receives the fresh id as `freshId`. The value returned by `NSEvent.addGlobalMonitorForEvents` is the `monitor` parameter.
- The monitor callback is not modelled. It saves each mouse-moved location to the database while tracking (MouseTracker.swift lines 19-30).
- `NSEvent.removeMonitor` is not modelled; `StopTracking` only drops the token.
- `DebugLogger`, the database, the SwiftUI views, `MouseTrackingView`, `AppDelegate` and `Package.swift` are not part of this model.
