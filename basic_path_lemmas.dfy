/**
  What one waypoint request and a sequence of them promise, proved about the
  specification functions of module BasicPath.
*/
module BasicPathLemmas {
  import opened BasicPath

  /** Every point of the grid rectangle is accepted. */
  lemma ValidateLocationAcceptsGrid(x: int, y: int)
    requires InGrid(x, y)
    ensures ValidateLocation(x, y)
  {
  }

  /** A point beyond either upper bound is refused. */
  lemma ValidateLocationRefusesBeyondBounds(x: int, y: int)
    requires x > Bounds[0] || y > Bounds[1]
    ensures !ValidateLocation(x, y)
  {
  }

  /**
    The non-negativity test is lost: a point left of or below the grid is
    accepted whenever it is within the upper bounds.
  */
  lemma ValidateLocationAcceptsNegative(x: int, y: int)
    requires x < 0 || y < 0
    requires x <= Bounds[0] && y <= Bounds[1]
    ensures ValidateLocation(x, y) && !InGrid(x, y)
  {
  }

  /** A rejected request changes nothing and issues no call. */
  lemma FlyToRejectedIsInert(t: Trig, s: State, x: int, y: int)
    requires SoundTrig(t) && |s.location| == 3
    requires x == s.location[0] || y == s.location[1] || !ValidateLocation(x, y)
    ensures FlyTo(t, s, x, y).outcome.Rejected?
    ensures FlyTo(t, s, x, y).after == s && FlyTo(t, s, x, y).issued == []
  {
  }

  /**
    After a request that is carried out the drone is flying; a takeoff is
    issued exactly when it was grounded, and then as the first call only.
  */
  lemma FlyToTakesOffFirst(t: Trig, s: State, x: int, y: int)
    requires SoundTrig(t) && |s.location| == 3
    requires FlyTo(t, s, x, y).outcome == Flown
    ensures var issued := FlyTo(t, s, x, y).issued;
      && FlyTo(t, s, x, y).after.flying
      && (issued[0] == TakeOff <==> !s.flying)
      && forall i | 0 < i < |issued| :: issued[i] != TakeOff
  {
  }

  /**
    A request that is carried out issues at most one rotation, by a
    non-negative amount, and then exactly one forward move, by a
    non-negative distance, as its last call.
  */
  lemma FlyToTurnsThenMoves(t: Trig, s: State, x: int, y: int)
    requires SoundTrig(t) && |s.location| == 3
    requires FlyTo(t, s, x, y).outcome == Flown
    ensures var issued := FlyTo(t, s, x, y).issued;
      && 0 < |issued| <= 3
      && issued[|issued| - 1] == MoveForward(Distance(t, x - s.location[0], s.location[1]))
      && 0.0 <= issued[|issued| - 1].cm
      && (forall i | 0 <= i < |issued| - 1 :: !issued[i].MoveForward?)
      && (forall i, j | 0 <= i < j < |issued| :: !(IsRotation(issued[i]) && IsRotation(issued[j])))
      && (forall i | 0 <= i < |issued| && IsRotation(issued[i]) :: 0 <= issued[i].degrees)
  {
  }

  /**
    The calls of a request that is carried out, in order: a takeoff when the
    drone was grounded, the rotation from the old heading to the new one, and
    the forward move by the computed distance.
  */
  lemma FlyToIssues(t: Trig, s: State, x: int, y: int)
    requires SoundTrig(t) && |s.location| == 3
    requires FlyTo(t, s, x, y).outcome == Flown
    ensures FlyTo(t, s, x, y).issued
         == (if s.flying then [] else [TakeOff])
            + Turn(s.orientation, FlyTo(t, s, x, y).after.orientation)
            + [MoveForward(Distance(t, x - s.location[0], s.location[1]))]
  {
  }

  /**
    The vertical branch of the heading computation is never taken: a request
    that is carried out always has a non-zero x displacement.
  */
  lemma FlyToNeverVertical(t: Trig, s: State, x: int, y: int)
    requires SoundTrig(t) && |s.location| == 3
    requires FlyTo(t, s, x, y).outcome == Flown
    ensures x - s.location[0] != 0
    ensures FlyTo(t, s, x, y).after.orientation
         == t.atan(s.location[1] as real / (x - s.location[0]) as real) * (180.0 / t.pi)
  {
  }

  /**
    After a request that is carried out the x coordinate is the target's, the
    y coordinate is the one the drone had (so the target y is never reached),
    the third coordinate is untouched and the heading is the computed one.
  */
  lemma FlyToPose(t: Trig, s: State, x: int, y: int)
    requires SoundTrig(t) && |s.location| == 3
    requires FlyTo(t, s, x, y).outcome == Flown
    ensures var after := FlyTo(t, s, x, y).after;
      && after.location[0] == x
      && after.location[1] == s.location[1] != y
      && after.location[2] == s.location[2]
      && after.orientation == Heading(t, x - s.location[0], s.location[1])
  {
  }

  /**
    The heading ignores the quadrant: the opposite displacement is given the
    same heading, not one turned by 180 degrees.
  */
  lemma HeadingIgnoresQuadrant(t: Trig, dx: int, dy: int)
    requires SoundTrig(t) && dx != 0
    ensures Heading(t, -dx, -dy) == Heading(t, dx, dy)
  {
    assert (-dy) as real / (-dx) as real == dy as real / dx as real;
  }

  /**
    From a level pose a request keeps the pose level, issues no rotation and
    moves forward by exactly the x displacement.
  */
  lemma FlyToKeepsLevel(t: Trig, s: State, x: int, y: int)
    requires SoundTrig(t) && Level(s)
    ensures Level(FlyTo(t, s, x, y).after)
    ensures forall c | c in FlyTo(t, s, x, y).issued :: !IsRotation(c)
    ensures FlyTo(t, s, x, y).outcome == Flown ==>
      FlyTo(t, s, x, y).issued
        == (if s.flying then [] else [TakeOff]) + [MoveForward(Abs((x - s.location[0]) as real))]
  {
  }

  /**
    Starting from a level pose, and so from the initial pose, every sequence
    of requests keeps the drone on the x axis facing heading 0 and never
    issues a rotation.
  */
  lemma {:induction false} RunKeepsLevel(t: Trig, s: State, route: seq<Waypoint>)
    requires SoundTrig(t) && Level(s)
    ensures Level(Run(t, s, route).0)
    ensures forall c | c in Run(t, s, route).1 :: !IsRotation(c)
    decreases |route|
  {
    if route != [] {
      var step := FlyTo(t, s, route[0].x, route[0].y);
      FlyToKeepsLevel(t, s, route[0].x, route[0].y);
      RunKeepsLevel(t, step.after, route[1..]);
    }
  }

  /** The drone starts at the origin of the grid, on the x axis, facing heading 0. */
  lemma InitIsLevel()
    ensures Level(Init()) && Init().location[0] == 0
  {
  }

  /**
    The diagonal request (100, 100) from the initial pose: the drone takes
    off and flies 100 cm along the x axis, keeping y at 0 and heading 0.
  */
  lemma FlyToDiagonalFromInit(t: Trig)
    requires SoundTrig(t)
    ensures FlyTo(t, Init(), 100, 100)
         == Step(Flown, State(true, [100, 0, 0], 0.0), [TakeOff, MoveForward(100.0)])
  {
  }
}
