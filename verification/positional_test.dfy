/** The test robot's teleop loop: an earlier, inline copy of the proportional
    position controller, switched on and off by the Back button and stepped by
    the X and Y buttons. */
module PositionalTest {
  import opened MotorCommand

  const MaxSpeed: real := 0.5
  const Thresh: real := 0.01
  /** How far one press of X or Y moves the target. */
  const Step: real := 20.0

  /** What the controller's "pressed since last check" getters return on one tick. */
  datatype Buttons = Buttons(back: bool, x: bool, y: bool)

  /** The robot's state: motorEnabled, targetPosition, totalDelta. */
  datatype Fields = Fields(motorEnabled: bool, targetPosition: real, totalDelta: real)

  /** The inputs of one teleopPeriodic call: buttons and the sensor reading. */
  datatype Tick = Tick(buttons: Buttons, position: real)

  /** The state after one call and the speed it gave the motor. */
  datatype Outcome = Outcome(fields: Fields, command: Command)

  /** The command of an enabled tick. The quotient is not passed through
      abs, so the sign it ends with is that of totalDelta, not of the
      distance still to go. */
  function TestCommand(target: real, totalDelta: real, position: real): (c: Command)
    // arrived exactly when the command is zero
    ensures Abs(target - position) <= Thresh <==> c == Speed(0.0)
    // the division overflows only for a zero totalDelta, and then always forward
    ensures c.Infinity? <==> Abs(target - position) > Thresh && totalDelta == 0.0
    ensures c.Infinity? ==> c.positive
    // beyond the threshold: |currentDelta| / totalDelta of MaxSpeed
    ensures Abs(target - position) > Thresh && c.Speed? ==>
              c.value * totalDelta == Abs(target - position) * MaxSpeed
  {
    var currentDelta := target - position;
    if Abs(currentDelta) > Thresh then
      // currentDelta / 0.0 is an infinity of currentDelta's sign
      var proportionalSpeed :=
        if totalDelta == 0.0 then Infinity(currentDelta > 0.0) else Speed((currentDelta / totalDelta) * MaxSpeed);
      if currentDelta < 0.0 then Negate(proportionalSpeed) else proportionalSpeed
    else
      Speed(0.0)
  }

  /** setTargetPosition: aim at newTarget, measuring the distance from position. */
  function SetTarget(f: Fields, newTarget: real, position: real): (g: Fields)
    ensures g.motorEnabled == f.motorEnabled
  {
    f.(targetPosition := newTarget, totalDelta := newTarget - position)
  }

  /** One teleopPeriodic call. */
  function Teleop(f: Fields, b: Buttons, position: real): (o: Outcome)
    // Back flips the enable flag, nothing else does
    ensures o.fields.motorEnabled == (f.motorEnabled != b.back)
    // a disabled robot stops the motor and keeps its target, whatever X and Y say
    ensures !o.fields.motorEnabled ==>
              o.command == Speed(0.0) &&
              o.fields.targetPosition == f.targetPosition && o.fields.totalDelta == f.totalDelta
    // enabling holds the present position; otherwise the old target stays
    ensures o.fields.motorEnabled && !b.x && !b.y ==>
              if b.back then o.fields.targetPosition == position && o.fields.totalDelta == 0.0
              else o.fields.targetPosition == f.targetPosition && o.fields.totalDelta == f.totalDelta
    // X steps back from the previous target, Y forward; X wins over Y
    ensures o.fields.motorEnabled && (b.x || b.y) ==>
              o.fields.targetPosition
                == (if b.back then position else f.targetPosition) + (if b.x then -Step else Step) &&
              o.fields.totalDelta == o.fields.targetPosition - position
    // an enabled robot drives by the proportional command
    ensures o.fields.motorEnabled ==>
              o.command == TestCommand(o.fields.targetPosition, o.fields.totalDelta, position)
  {
    var enabled := if b.back then !f.motorEnabled else f.motorEnabled;
    var f1 :=
      if b.back && enabled then SetTarget(f.(motorEnabled := enabled), position, position)
      else f.(motorEnabled := enabled);
    if enabled then
      var f2 :=
        if b.x then SetTarget(f1, f1.targetPosition - Step, position)
        else if b.y then SetTarget(f1, f1.targetPosition + Step, position)
        else f1;
      Outcome(f2, TestCommand(f2.targetPosition, f2.totalDelta, position))
    else
      Outcome(f1, Speed(0.0))
  }

  /** The command drives toward the target exactly when the distance to go
      and totalDelta have the same sign; after an overshoot it drives away. */
  lemma TestCommandDirection(target: real, totalDelta: real, position: real)
    requires Abs(target - position) > Thresh && totalDelta != 0.0
    ensures Forward(TestCommand(target, totalDelta, position)) <==> totalDelta > 0.0
    ensures Backward(TestCommand(target, totalDelta, position)) <==> totalDelta < 0.0
    ensures (target > position) == (totalDelta > 0.0) ==>
              (Forward(TestCommand(target, totalDelta, position)) <==> target > position)
    ensures (target > position) != (totalDelta > 0.0) ==>
              (Forward(TestCommand(target, totalDelta, position)) <==> target < position)
  {
    var c := TestCommand(target, totalDelta, position);
    var m := Abs(target - position) * MaxSpeed;
    assert m > 0.0;
    assert c.value * totalDelta == m;
  }

  /** On a tick where X or Y moves the target, the motor starts at full speed
      toward it, because the distance to go equals the fresh totalDelta. */
  lemma StepRunsFullSpeed(f: Fields, b: Buttons, position: real)
    requires Teleop(f, b, position).fields.motorEnabled && (b.x || b.y)
    requires Abs(Teleop(f, b, position).fields.targetPosition - position) > Thresh
    ensures Teleop(f, b, position).command
            == Speed(if Teleop(f, b, position).fields.targetPosition > position then MaxSpeed else -MaxSpeed)
  {
    var o := Teleop(f, b, position);
    FullSpeedTowardTarget(o.fields.targetPosition, position);
  }

  /** Measured from the current position, the distance to go is the whole
      total delta, so the command is full speed toward the target. */
  lemma FullSpeedTowardTarget(target: real, position: real)
    requires Abs(target - position) > Thresh
    ensures TestCommand(target, target - position, position)
            == Speed(if target > position then MaxSpeed else -MaxSpeed)
  {
    var d := target - position;
    var v := TestCommand(target, d, position).value;
    assert v * d == Abs(d) * MaxSpeed;
    if d > 0.0 {
      assert v * d == MaxSpeed * d;
      Cancel(v, MaxSpeed, d);
    } else {
      assert v * d == -MaxSpeed * d;
      Cancel(v, -MaxSpeed, d);
    }
  }

  /** A nonzero factor cancels. */
  lemma Cancel(x: real, y: real, d: real)
    requires d != 0.0 && x * d == y * d
    ensures x == y
  {
    assert (x - y) * d == 0.0;
  }

  /** Enabling control with Back alone holds the motor where it is. */
  lemma EnableHoldsPosition(f: Fields, position: real)
    requires !f.motorEnabled
    ensures Teleop(f, Buttons(true, false, false), position)
            == Outcome(Fields(true, position, 0.0), Speed(0.0))
  {
  }

  /** Successive teleopPeriodic calls: the final state and each tick's command. */
  function Run(f: Fields, ticks: seq<Tick>): (r: (Fields, seq<Command>))
    ensures |r.1| == |ticks|
    decreases |ticks|
  {
    if ticks == [] then
      (f, [])
    else
      var o := Teleop(f, ticks[0].buttons, ticks[0].position);
      var rest := Run(o.fields, ticks[1..]);
      (rest.0, [o.command] + rest.1)
  }

  /** While Back is not pressed a disabled robot stays put: target and total
      delta survive any number of X and Y presses and every command is zero. */
  lemma {:induction false} DisabledIgnoresSteps(f: Fields, ticks: seq<Tick>)
    requires !f.motorEnabled
    requires forall i :: 0 <= i < |ticks| ==> !ticks[i].buttons.back
    ensures Run(f, ticks).0 == f
    ensures forall i :: 0 <= i < |ticks| ==> Run(f, ticks).1[i] == Speed(0.0)
  {
    if ticks != [] {
      var o := Teleop(f, ticks[0].buttons, ticks[0].position);
      assert o == Outcome(f, Speed(0.0));
      DisabledIgnoresSteps(f, ticks[1..]);
    }
  }

  /** After enabling, an untouched controller whose motor stays within the
      threshold of the held target keeps commanding zero and keeps its state. */
  lemma {:induction false} HoldsWhileStill(f: Fields, ticks: seq<Tick>)
    requires f.motorEnabled
    requires forall i :: 0 <= i < |ticks| ==>
               ticks[i].buttons == Buttons(false, false, false) &&
               Abs(f.targetPosition - ticks[i].position) <= Thresh
    ensures Run(f, ticks).0 == f
    ensures forall i :: 0 <= i < |ticks| ==> Run(f, ticks).1[i] == Speed(0.0)
  {
    if ticks != [] {
      var o := Teleop(f, ticks[0].buttons, ticks[0].position);
      assert o == Outcome(f, Speed(0.0));
      HoldsWhileStill(f, ticks[1..]);
    }
  }

  class RobotPositionalTest {
    var motorEnabled: bool
    var targetPosition: real
    var totalDelta: real

    /** The fields at Java's defaults: disabled, target and delta 0.0. */
    constructor ()
      ensures State() == Fields(false, 0.0, 0.0)
    {
      motorEnabled, targetPosition, totalDelta := false, 0.0, 0.0;
    }

    function State(): Fields
      reads this
    {
      Fields(motorEnabled, targetPosition, totalDelta)
    }

    /** Entering disabled mode switches control off and stops the motor. */
    method DisabledInit() returns (command: Command)
      modifies this
      ensures State() == old(State()).(motorEnabled := false)
      ensures command == Speed(0.0)
    {
      motorEnabled := false;
      command := Speed(0.0);
    }

    /** One operator-control tick; returns what the motor was set to. */
    method TeleopPeriodic(buttons: Buttons, position: real) returns (command: Command)
      modifies this
      ensures Outcome(State(), command) == Teleop(old(State()), buttons, position)
    {
      if buttons.back {
        motorEnabled := !motorEnabled;
        if motorEnabled {
          SetTargetPosition(position, position);
        }
      }
      if motorEnabled {
        var currentPosition := position;
        if buttons.x {
          SetTargetPosition(targetPosition - Step, position);
        } else if buttons.y {
          SetTargetPosition(targetPosition + Step, position);
        }
        var currentDelta := targetPosition - currentPosition;
        if Abs(currentDelta) > Thresh {
          var proportionalSpeed :=
            if totalDelta == 0.0 then Infinity(currentDelta > 0.0) else Speed((currentDelta / totalDelta) * MaxSpeed);
          if currentDelta < 0.0 {
            command := Negate(proportionalSpeed);
          } else {
            command := proportionalSpeed;
          }
        } else {
          command := Speed(0.0);
        }
      } else {
        command := Speed(0.0);
      }
    }

    /** Aim at newTarget, capturing the distance from position. */
    method SetTargetPosition(newTarget: real, position: real)
      modifies this
      ensures State() == SetTarget(old(State()), newTarget, position)
    {
      targetPosition := newTarget;
      totalDelta := targetPosition - position;
    }
  }
}
