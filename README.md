# FlyBite drone navigator, modelled in Dafny

FlyBite flies a Tello quadcopter by dead reckoning. Its `Drone` class
(`src/basic_path.py`) keeps a pose estimate made of three fields. `flying` says
whether the drone is airborne. `location` is a three-element list, starting at
`[0, 0, 0]`. `orientation` is a heading in degrees, starting at 0. The drone
may fly in a fixed `BOUNDS` grid of 100 x 100.

`validate_location` is the bounds check. `fly_to_location(x, y)` is the
waypoint step:

- it asserts that the target passes the bounds check and that it differs from
  the current location on both axes;
- it takes off if the drone is grounded;
- it computes a heading with the arc tangent and a distance with the square root;
- it issues at most one rotation and then one forward move;
- it stores the new pose.

The project has three modules:

- `BasicPath` (`basic_path.dfy`) holds the values and the functions that
  specify the step:
  - `Command` records the calls made on the radio client;
  - `State` is the pose;
  - `ValidateLocation` is the bounds check;
  - `Heading`, `Distance`, `Trunc` and `Turn` are the pieces of the step;
  - `FlyTo` is one waypoint request;
  - `Run` is a sequence of requests.
- `BasicPathLemmas` (`basic_path_lemmas.dfy`) proves what one request and a
  sequence of requests promise.
- `BasicPathDrone` (`basic_path_drone.dfy`) holds the class `Drone`. Its fields
  are the pose, plus the list of calls issued so far. `FlyToLocation` performs
  the step in place, call by call. Its contract ties the new pose and the new
  calls to `FlyTo` of the old pose.

The floating-point library is a value `Trig(atan, sqrt, pi)` of arbitrary real
functions given to the constructor. The proofs rely only on what
`SoundTrig` states:

- `pi > 0`;
- `atan(0) == 0`;
- the square root of a non-negative number is non-negative;
- `sqrt(a * a) == |a|`.

## Where the code departs from its own stated intent (the model follows the code)

The comment at src/basic_path.py:8 says the grid "starts at origin". The
docstring at src/basic_path.py:29 says the method makes the drone fly from the
current location to the target location. Two lines of the code do otherwise.

- `validate_location` computes a non-negativity test on line 23, which would
  keep the target inside a grid that starts at the origin. Line 24 then
  overwrites that result, so only the upper bounds are checked and negative
  coordinates are accepted. The model keeps the code's behaviour.
  `ValidateLocationAcceptsNegative` shows the difference from `InGrid`, the
  rectangle `[0, 100] x [0, 100]`.
- Line 40 reads `delta_y = y = self.location[1]`. The y displacement is
  therefore the current y, not the target y minus the current y. The target y
  is also replaced by the current y before it is stored, so `location[1]`
  never changes and the drone never reaches the target location the
  docstring promises. The model keeps this. `FlyToPose` proves that the
  target y is never reached. `RunKeepsLevel` proves that, from the initial
  pose, the drone stays on the x axis, keeps facing heading 0 and is never
  told to rotate. For the request `(100, 100)` from the start, the code ends
  at `(100, 0)` facing 0, after one takeoff and one 100 cm forward move
  (`FlyToDiagonalFromInit`), not at the target `(100, 100)`.

Other behaviour of the code that the model reproduces:

- The turn amount is `int(orientation - theta)`, which truncates toward zero;
  the model uses `Trunc`.
- The heading is `atan(delta_y / delta_x)` with no correction for the
  quadrant. `HeadingIgnoresQuadrant` shows that opposite displacements get the
  same heading.
- A failed check raises `AssertionError`. The model returns
  `Rejected(OutOfBounds)` or `Rejected(SharesAxis)`, leaves the pose unchanged
  and issues no call.

## Model

| member | source | states |
|---|---|---|
| `BasicPath.ValidateLocation` | src/basic_path.py:18-26 | accepts exactly the points with x <= 100 and y <= 100; the sign of the coordinates plays no part |
| `BasicPath.Trunc` | src/basic_path.py:51 | int() of a float truncates toward zero: the result lies within 1 of the argument, on the side of 0 |
| `BasicPath.Heading` | src/basic_path.py:41-44 | a zero x displacement gives heading 90 when the y displacement is positive and 270 otherwise; a non-zero x displacement with no y displacement gives heading 0 |
| `BasicPath.Distance` | src/basic_path.py:45 | the travel distance is never negative, and with no y displacement it is the absolute x displacement |
| `BasicPath.Turn` | src/basic_path.py:51-58 | at most one rotation: clockwise by the truncated difference when the new heading is smaller, counter-clockwise by the truncated difference when it is larger, none when equal; the amount is never negative |
| `BasicPath.Init` | src/basic_path.py:14-16 | a new drone is grounded and has a three-element location |
| `BasicPath.FlyTo` | src/basic_path.py:28-66 | a request is carried out exactly when the target passes the bounds check and differs from the current location on both axes; the bounds check comes first; a rejected request changes nothing and issues nothing |
| `BasicPathLemmas.ValidateLocationAcceptsGrid` | src/basic_path.py:23-26 | every point of the 100 x 100 grid is accepted |
| `BasicPathLemmas.ValidateLocationRefusesBeyondBounds` | src/basic_path.py:24-26 | a point beyond either upper bound is refused |
| `BasicPathLemmas.ValidateLocationAcceptsNegative` | src/basic_path.py:23-24 | a negative coordinate within the upper bounds is accepted although it lies outside the grid |
| `BasicPathLemmas.FlyToRejectedIsInert` | src/basic_path.py:30-31 | a target that shares an axis with the current location, or that fails the bounds check, is rejected before any takeoff, call or state change |
| `BasicPathLemmas.FlyToTakesOffFirst` | src/basic_path.py:33-36 | after a request that is carried out the drone is flying; a takeoff is issued if and only if it was grounded, and only as the first call |
| `BasicPathLemmas.FlyToTurnsThenMoves` | src/basic_path.py:45-60 | at most three calls, at most one rotation by a non-negative amount, and exactly one forward move by the non-negative computed distance, issued last |
| `BasicPathLemmas.FlyToIssues` | src/basic_path.py:33-60 | the calls of a request that is carried out are, in order, a takeoff exactly when the drone was grounded, the rotation `Turn` chooses from the old heading to the new one, and the forward move by the computed distance |
| `BasicPathLemmas.FlyToNeverVertical` | src/basic_path.py:39-44 | the x displacement of a request that is carried out is never 0, so the 90/270 branch is dead and the heading is always the converted arc tangent |
| `BasicPathLemmas.FlyToPose` | src/basic_path.py:39-64 | afterwards x is the target's, y is the old y (never the target y), the third coordinate is untouched and the heading is the computed one |
| `BasicPathLemmas.HeadingIgnoresQuadrant` | src/basic_path.py:41-44 | the opposite displacement gets the same heading, with no 180 degree correction |
| `BasicPathLemmas.FlyToKeepsLevel` | src/basic_path.py:39-64 | from a pose on the x axis facing heading 0, a request keeps it so, issues no rotation and moves forward by exactly the absolute x displacement |
| `BasicPath.Run` | src/basic_path.py:28-66 | a sequence of requests by a caller that catches the AssertionError of a rejected request and goes on: an empty route changes nothing, and along any route the y coordinate and the third coordinate never change |
| `BasicPathLemmas.RunKeepsLevel` | src/basic_path.py:28-66 | any sequence of requests from such a pose keeps y at 0, the third coordinate at 0 and the heading at 0, and never issues a rotation |
| `BasicPathLemmas.InitIsLevel` | src/basic_path.py:14-16 | the initial pose is at the origin (x is 0), on the x axis, and faces heading 0 |
| `BasicPathLemmas.FlyToDiagonalFromInit` | src/basic_path.py:28-66 | request (100, 100) from the initial pose: takeoff, one 100 cm forward move, final pose (100, 0, 0) facing 0 |
| `BasicPathDrone.Drone.constructor` | src/basic_path.py:11-16 | a new drone is grounded at [0, 0, 0] facing 0, and no call has been issued |
| `BasicPathDrone.Drone.FlyToLocation` | src/basic_path.py:28-66 | the new pose, the outcome and the calls appended to the log are those of FlyTo on the old pose; a level pose stays level and no rotation is issued |

## Left out

- The `djitellopy.Tello` radio client (`takeoff`, `rotate_clockwise`,
  `rotate_counter_clockwise`, `move_forward`) is foreign code. Its calls are
  recorded as `Command` values in the drone's `commands` field.
- If a radio call raises, the source stops partway, for example with `flying`
  already set after a takeoff but the pose not yet written. The model treats
  every call as successful, so it does not capture that partial state.
- `math.atan`, `math.sqrt`, `math.pow`, `math.pi` and IEEE floating point are
  modelled as real functions that satisfy only `SoundTrig`. Rounding and
  overflow are not modelled.
- `BasicPath.FlyTo` (and `BasicPathDrone.Drone.FlyToLocation`, which follows
  it) does not model the `OverflowError` of `math.pow(delta_x, 2)` at
  src/basic_path.py:45. Because the bounds check has no lower bound, a target
  such as `x = -10**155` passes both asserts. If `|delta_x|` is above about
  1.34e154, its square exceeds the largest float, so the source raises after
  the takeoff of lines 35-36. That leaves `flying` set, with no rotation, no
  forward move and the pose unwritten. The model instead reports `Flown`,
  issues the move and stores the new x.
- An uncaught `AssertionError` ends the caller's sequence of requests. `Run`
  models a caller that catches it and goes on. Because a rejected request
  changes nothing, `RunKeepsLevel` holds for both kinds of caller.
- Python's `-O` switch removes `assert` statements. The model always performs
  the two checks.
- Logging calls carry no behaviour and are not modelled.
- `app.py` (log-file naming, logger setup, `main`, `sys.exit`) is process set-up
  and I/O, so it is not part of this model. The `fly_square_path` method that
  `main` calls is not defined in the source.
