/** A motor driven to set positions by a proportional controller: the command
    is the fraction of the distance still to go, times a maximum speed. */
module ClosedLoop {
  import opened MotorCommand
  import opened Telemetry

  const MaxSpeed: real := 0.7
  /** Within this distance of the target the motor counts as arrived. */
  const Threshold: real := 0.0005

  /** The command updateSpeed issues when the motor reads position, for the
      given target and the distance to go captured when it was set. */
  function SpeedCommand(target: real, totalDelta: real, position: real): (c: Command)
    // arrived exactly when the command is zero
    ensures Abs(target - position) <= Threshold <==> c == Speed(0.0)
    // the division by totalDelta only overflows when it is zero
    ensures c.Infinity? <==> Abs(target - position) > Threshold && totalDelta == 0.0
    // beyond the threshold the command always points at the target
    ensures Abs(target - position) > Threshold ==>
              (Forward(c) <==> target > position) && (Backward(c) <==> target < position)
    // and its size is the fraction of totalDelta still to go, times MaxSpeed
    ensures Abs(target - position) > Threshold && c.Speed? ==>
              Abs(c.value) * Abs(totalDelta) == Abs(target - position) * MaxSpeed
  {
    var currentDelta := target - position;
    if Abs(currentDelta) > Threshold then
      // |currentDelta / 0.0| is +Infinity, and stays so when scaled
      var proportionalSpeed :=
        if totalDelta == 0.0 then Infinity(true) else Speed(Abs(currentDelta / totalDelta) * MaxSpeed);
      if currentDelta < 0.0 then Negate(proportionalSpeed) else proportionalSpeed
    else
      Speed(0.0)
  }

  /** Right after setTargetPosition(target) at position, with the sensor
      unchanged, the motor runs at full speed toward the target. */
  lemma FullSpeedAfterSetTarget(target: real, position: real)
    requires Abs(target - position) > Threshold
    ensures SpeedCommand(target, target - position, position)
            == Speed(if target > position then MaxSpeed else -MaxSpeed)
  {
    var c := SpeedCommand(target, target - position, position);
    assert Abs(c.value) * Abs(target - position) == Abs(target - position) * MaxSpeed;
  }

  /** There is no clamp: the command stays within MaxSpeed exactly when the
      motor is no farther from the target than when the target was set. */
  lemma WithinMaxSpeedIff(target: real, totalDelta: real, position: real)
    requires Abs(target - position) > Threshold && totalDelta != 0.0
    ensures SpeedCommand(target, totalDelta, position).Speed?
    ensures Abs(SpeedCommand(target, totalDelta, position).value) <= MaxSpeed
            <==> Abs(target - position) <= Abs(totalDelta)
  {
    var v := Abs(SpeedCommand(target, totalDelta, position).value);
    var d, t := Abs(target - position), Abs(totalDelta);
    ScaledAtMost(v, t, d);
  }

  /** v is to MaxSpeed as d is to t. */
  lemma ScaledAtMost(v: real, t: real, d: real)
    requires t > 0.0 && v * t == d * MaxSpeed
    ensures v <= MaxSpeed <==> d <= t
  {
    if v <= MaxSpeed {
      assert v * t <= MaxSpeed * t;
    } else {
      assert v * t > MaxSpeed * t;
    }
  }

  /** The size of a finite command. */
  function Magnitude(c: Command): real
    requires c.Speed?
  {
    Abs(c.value)
  }

  /** Closer to the target never means faster: for a fixed target and total
      delta the command's size grows with the distance still to go. */
  lemma MagnitudeMonotone(target: real, totalDelta: real, p1: real, p2: real)
    requires totalDelta != 0.0
    requires Abs(target - p1) <= Abs(target - p2)
    ensures SpeedCommand(target, totalDelta, p1).Speed?
    ensures SpeedCommand(target, totalDelta, p2).Speed?
    ensures Magnitude(SpeedCommand(target, totalDelta, p1)) <= Magnitude(SpeedCommand(target, totalDelta, p2))
  {
    var c1, c2 := SpeedCommand(target, totalDelta, p1), SpeedCommand(target, totalDelta, p2);
    if Abs(target - p1) > Threshold {
      ScaledMonotone(Abs(c1.value), Abs(c2.value), Abs(totalDelta), Abs(target - p1), Abs(target - p2));
    }
  }

  /** Sizes scaled by one positive total keep the order of the distances. */
  lemma ScaledMonotone(v1: real, v2: real, t: real, d1: real, d2: real)
    requires t > 0.0 && d1 <= d2
    requires v1 * t == d1 * MaxSpeed && v2 * t == d2 * MaxSpeed
    ensures v1 <= v2
  {
    assert v1 * t <= v2 * t;
  }

  class PositionClosedLoopMotor {
    const name: string
    var targetPosition: real
    var totalDelta: real

    /** Both fields start at Java's default 0.0. */
    constructor (name: string)
      ensures this.name == name && targetPosition == 0.0 && totalDelta == 0.0
    {
      this.name := name;
      targetPosition, totalDelta := 0.0, 0.0;
    }

    /** Hold the present position. */
    method ResetClosedLoopControl(position: real)
      modifies this
      ensures targetPosition == position && totalDelta == 0.0
    {
      SetTargetPosition(position, position);
    }

    /** Aim at newTarget and capture the distance to it from position. */
    method SetTargetPosition(newTarget: real, position: real)
      modifies this
      ensures targetPosition == newTarget && totalDelta == newTarget - position
    {
      targetPosition := newTarget;
      totalDelta := targetPosition - position;
    }

    /** Aim rotations beyond where the motor is now, whatever the old target. */
    method Rotate(rotations: real, position: real)
      modifies this
      ensures targetPosition == position + rotations && totalDelta == rotations
    {
      SetTargetPosition(position + rotations, position);
    }

    /** One control step: the command for the current reading. Changes no field. */
    method UpdateSpeed(position: real) returns (command: Command)
      ensures command == SpeedCommand(targetPosition, totalDelta, position)
    {
      var currentPosition := position;
      var currentDelta := targetPosition - currentPosition;
      if Abs(currentDelta) > Threshold {
        var proportionalSpeed :=
          if totalDelta == 0.0 then Infinity(true) else Speed(Abs(currentDelta / totalDelta) * MaxSpeed);
        if currentDelta < 0.0 {
          command := Negate(proportionalSpeed);
        } else {
          command := proportionalSpeed;
        }
      } else {
        command := Speed(0.0);
      }
    }

    /** Publishes the target and the total delta under this motor's name. */
    method UpdateDashboard(dashboard: Dashboard)
      modifies dashboard
      ensures dashboard.entries == old(dashboard.entries)
                [Key(name, TargetPosition) := Number(targetPosition)]
                [Key(name, TotalDelta) := Number(totalDelta)]
    {
      dashboard.PutNumber(name + " Target Postion", targetPosition);
      dashboard.PutNumber(name + " Total Delta", totalDelta);
    }
  }
}
