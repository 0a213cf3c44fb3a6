/**
  Dead-reckoning navigation of a Tello quadcopter (src/basic_path.py).

  The drone keeps an estimate of its pose: a flag saying whether it is in the
  air, a three-element location and a heading in degrees.  A waypoint request
  (x, y) is checked against the grid bounds and against the current location,
  turned into a heading and a distance, and sent to the radio client as at
  most one rotation followed by one forward move.

  This module holds the values and the functions that specify one waypoint
  step; the class that performs it in place is in module BasicPathDrone.
*/
module BasicPath {

  /** The calls made on the radio client, in the order they are issued. */
  datatype Command =
    | TakeOff
    | RotateCW(degrees: int)
    | RotateCCW(degrees: int)
    | MoveForward(cm: real)

  predicate IsRotation(c: Command) {
    c.RotateCW? || c.RotateCCW?
  }

  /**
    The floating-point library the heading and the distance are computed
    with: arc tangent in radians, square root and the constant pi.  Nothing
    is known of them beyond SoundTrig.
  */
  datatype Trig = Trig(atan: real -> real, sqrt: real -> real, pi: real)

  function Square(a: real): real {
    a * a
  }

  function Abs(a: real): real {
    if a < 0.0 then -a else a
  }

  /** The few facts of arc tangent, square root and pi that the proofs use. */
  ghost predicate SoundTrig(t: Trig) {
    && t.pi > 0.0
    && t.atan(0.0) == 0.0
    && (forall a :: 0.0 <= a ==> 0.0 <= t.sqrt(a))
    && (forall a :: t.sqrt(Square(a)) == Abs(a))
  }

  /** The grid the drone may fly in, BOUNDS of the source. */
  const Bounds: seq<int> := [100, 100]

  /**
    validate_location.  The source first computes the non-negativity test
    and then overwrites it with the upper-bound test, so only the upper
    bounds decide the answer.
  */
  function ValidateLocation(x: int, y: int): (valid: bool)
    ensures valid <==> x <= 100 && y <= 100
  {
    // Deliberately unused: the source computes this test and then discards it.
    var nonNegative := x >= 0 && y >= 0;
    var valid := x <= Bounds[0] && y <= Bounds[1];
    valid
  }

  /** The rectangle [0, 100] x [0, 100] that the bounds describe. */
  predicate InGrid(x: int, y: int) {
    0 <= x <= Bounds[0] && 0 <= y <= Bounds[1]
  }

  /** Python's int() applied to a float: truncation toward zero. */
  function Trunc(r: real): (n: int)
    ensures 0.0 <= r ==> n as real <= r < n as real + 1.0
    ensures r < 0.0 ==> n as real - 1.0 < r <= n as real
  {
    if r >= 0.0 then r.Floor else -((-r).Floor)
  }

  /**
    The heading, in degrees, of a displacement (dx, dy): straight up or down
    when dx is 0, otherwise the arc tangent of dy / dx converted to degrees,
    with no correction for the quadrant.
  */
  function Heading(t: Trig, dx: int, dy: int): (theta: real)
    requires SoundTrig(t)
    ensures dx == 0 ==> theta == (if dy > 0 then 90.0 else 270.0)
    ensures dx != 0 && dy == 0 ==> theta == 0.0
  {
    if dx == 0 then (if dy > 0 then 90.0 else 270.0)
    else t.atan(dy as real / dx as real) * (180.0 / t.pi)
  }

  /** The length of the displacement (dx, dy), in centimetres. */
  function Distance(t: Trig, dx: int, dy: int): (d: real)
    requires SoundTrig(t)
    ensures 0.0 <= d
    ensures dy == 0 ==> d == Abs(dx as real)
  {
    t.sqrt(Square(dx as real) + Square(dy as real))
  }

  /**
    The rotation that turns the drone from heading `orientation` to heading
    `theta`: none when they are equal, otherwise one clockwise or
    counter-clockwise turn by the truncated size of the difference.
  */
  function Turn(orientation: real, theta: real): (turn: seq<Command>)
    ensures |turn| <= 1
    ensures turn == [] <==> theta == orientation
    ensures theta < orientation ==> turn == [RotateCW(Trunc(orientation - theta))]
    ensures orientation < theta ==> turn == [RotateCCW(Trunc(theta - orientation))]
    ensures forall c | c in turn :: IsRotation(c) && 0 <= c.degrees
  {
    var deltaTheta := Trunc(orientation - theta);
    if theta < orientation then [RotateCW(deltaTheta)]
    else if theta > orientation then [RotateCCW(-deltaTheta)]
    else []
  }

  /** The pose estimate of the drone, the fields flying, location and orientation. */
  datatype State = State(flying: bool, location: seq<int>, orientation: real)

  /** The pose a drone starts with. */
  function Init(): (s: State)
    ensures !s.flying && |s.location| == 3
  {
    State(false, [0, 0, 0], 0.0)
  }

  /** Why a waypoint request fails one of the two assertions that guard it. */
  datatype Rejection = OutOfBounds | SharesAxis

  datatype Outcome = Flown | Rejected(reason: Rejection)

  /** The result of one waypoint request: its outcome, the new pose and the calls issued. */
  datatype Step = Step(outcome: Outcome, after: State, issued: seq<Command>)

  /**
    fly_to_location(x, y) from pose s.  The second coordinate of the
    displacement is the current y, not y minus it, and the target y is
    rebound to the current y before it is stored, as the source does.
  */
  function FlyTo(t: Trig, s: State, x: int, y: int): (step: Step)
    requires SoundTrig(t) && |s.location| == 3
    ensures |step.after.location| == 3
    ensures step.outcome == Flown <==> ValidateLocation(x, y) && x != s.location[0] && y != s.location[1]
    ensures step.outcome == Rejected(OutOfBounds) <==> !ValidateLocation(x, y)
    ensures step.outcome != Flown ==> step.after == s && step.issued == []
  {
    if !ValidateLocation(x, y) then Step(Rejected(OutOfBounds), s, [])
    else if !(x != s.location[0] && y != s.location[1]) then Step(Rejected(SharesAxis), s, [])
    else
      var takeOff := if s.flying then [] else [TakeOff];
      var deltaX := x - s.location[0];
      var targetY := s.location[1];
      var deltaY := targetY;
      var theta := Heading(t, deltaX, deltaY);
      var distance := Distance(t, deltaX, deltaY);
      Step(Flown,
           State(true, s.location[0 := x][1 := targetY], theta),
           takeOff + Turn(s.orientation, theta) + [MoveForward(distance)])
  }

  /** A pose on the x axis facing heading 0, as every reachable pose is. */
  predicate Level(s: State) {
    |s.location| == 3 && s.location[1] == 0 && s.location[2] == 0 && s.orientation == 0.0
  }

  /** A request for waypoint (x, y). */
  datatype Waypoint = Waypoint(x: int, y: int)

  /**
    The pose after a sequence of waypoint requests and every call they
    issued, for a caller that catches the AssertionError of a rejected
    request and goes on with the next one.  A rejected request leaves the
    pose as it was and issues nothing.  Along any route the y coordinate and
    the third coordinate never change.
  */
  function Run(t: Trig, s: State, route: seq<Waypoint>): (r: (State, seq<Command>))
    requires SoundTrig(t) && |s.location| == 3
    ensures |r.0.location| == 3
    ensures r.0.location[1] == s.location[1] && r.0.location[2] == s.location[2]
    ensures route == [] ==> r == (s, [])
    decreases |route|
  {
    if route == [] then (s, [])
    else
      var step := FlyTo(t, s, route[0].x, route[0].y);
      var rest := Run(t, step.after, route[1..]);
      (rest.0, step.issued + rest.1)
  }
}
