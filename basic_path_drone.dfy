/**
  The Drone class of src/basic_path.py: the pose estimate held in fields that
  fly_to_location updates in place, with the radio client's calls recorded
  in the field `commands`.
*/
module BasicPathDrone {
  import opened BasicPath
  import BasicPathLemmas

  class Drone {
    /** The floating-point library the heading and distance are computed with. */
    const trig: Trig
    var flying: bool
    var location: seq<int>
    var orientation: real
    /** Every call made on the radio client so far, oldest first. */
    var commands: seq<Command>

    ghost predicate Valid()
      reads this
    {
      |location| == 3 && SoundTrig(trig)
    }

    /** The pose estimate as a value. */
    function Pose(): State
      reads this
    {
      State(flying, location, orientation)
    }

    constructor (trig: Trig)
      requires SoundTrig(trig)
      ensures Valid() && this.trig == trig
      ensures Pose() == Init() && Level(Pose())
      ensures commands == []
    {
      this.trig := trig;
      flying := false;
      location := [0, 0, 0];
      orientation := 0.0;
      commands := [];
    }

    /**
      fly_to_location: check the two assertions, take off if grounded, turn
      and move forward, then store the new pose.  A request that fails an
      assertion changes nothing and issues no call.
    */
    method FlyToLocation(x: int, y: int) returns (outcome: Outcome)
      requires Valid()
      modifies this
      ensures Valid()
      ensures var step := FlyTo(trig, old(Pose()), x, y);
        && outcome == step.outcome
        && Pose() == step.after
        && commands == old(commands) + step.issued
      ensures old(Level(Pose())) ==>
        && Level(Pose())
        && forall c | c in commands[|old(commands)|..] :: !IsRotation(c)
    {
      ghost var before := Pose();
      ghost var issuedBefore := commands;
      if !ValidateLocation(x, y) {
        return Rejected(OutOfBounds);
      }
      if !(x != location[0] && y != location[1]) {
        return Rejected(SharesAxis);
      }

      if !flying {
        commands := commands + [TakeOff];
        flying := true;
      }

      var deltaX := x - location[0];
      var targetY := y;
      targetY := location[1];
      var deltaY := targetY;
      var theta := Heading(trig, deltaX, deltaY);
      var distance := Distance(trig, deltaX, deltaY);

      var deltaTheta := Trunc(orientation - theta);
      if theta < orientation {
        commands := commands + [RotateCW(deltaTheta)];
      } else if theta > orientation {
        deltaTheta := -deltaTheta;
        commands := commands + [RotateCCW(deltaTheta)];
      }
      commands := commands + [MoveForward(distance)];

      location := location[0 := x];
      location := location[1 := targetY];
      orientation := theta;
      outcome := Flown;

      assert commands == issuedBefore + FlyTo(trig, before, x, y).issued;
      assert commands[|issuedBefore|..] == FlyTo(trig, before, x, y).issued;
      if Level(before) {
        BasicPathLemmas.FlyToKeepsLevel(trig, before, x, y);
      }
    }
  }
}
