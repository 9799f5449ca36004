# Position control and dashboard tuning for an FRC robot motor

This project models the algorithmic core of a 2022 FRC robot program. It has
three parts:

- `PositionClosedLoopMotor` drives a motor to a set position with a proportional
  controller. When a target is set, the motor captures the total distance to go
  (`totalDelta`). Each tick it commands `|currentDelta / totalDelta| * 0.7` toward
  the target, or zero once it is within `0.0005` of it.
- `RobotPositionalTest` is a test robot whose `teleopPeriodic` has an earlier,
  inline copy of that controller. The Back button toggles control. X and Y move
  the target by 20. Beyond the threshold `0.01`, the size of the command is
  `|currentDelta / totalDelta| * 0.5`, and its sign is the sign of `totalDelta`.
  The quotient is negated when `currentDelta < 0`, but it is never passed
  through `abs`.
- `MotorDashboardUpdater` publishes a motor's encoder readings to the
  SmartDashboard key/value store. It also reads seven PID gains back from the
  store, using its cached value when a key holds none. It calls the hardware PID
  controller's setter for each gain that differs exactly from the cached value.
  The two output bounds are written as one pair.

The Dafny files:

- `motor_command.dfy`: the command a motor is set to. It is a real speed or, when
  the code divides by a zero `totalDelta`, a signed infinity. It also has
  `Abs`, `Negate` and the direction predicates.
- `telemetry.dfy`: the dashboard store as a `map` held by a `Dashboard` class.
  It also has the per-motor key names and a proof that a key determines its
  motor and its field.
- `closed_loop.dfy`: the `PositionClosedLoopMotor` class and the pure speed
  function its `UpdateSpeed` method is proved against.
- `positional_test.dfy`: the `RobotPositionalTest` class, with the pure
  `Teleop` step function its `TeleopPeriodic` method is proved against.
- `dashboard_updater.dfy`: the `MotorDashboardUpdater` class, the PID
  controller seen as the log of setter calls it receives, and pure functions
  for one call (`Update`) and for a run of calls (`Run`).

Hardware reads are parameters: a `position` reading, or a `Reading` of
position, velocity and inversion. A `motor.set(x)` call is the `Command` that a
method returns.

Where the code and the intended design differ, the model follows the code:

- `updateDashboard` never updates the cached gains after writing one through.
  A gain edited on the dashboard therefore stays different from the cache, and
  every later call writes it again. The intended behaviour was that a repeated
  call writes nothing (`EditRewrittenEveryCall`, `PersistingEditNotIdempotent`).
- Nothing guards against a zero `totalDelta`. If the motor drifts past the
  threshold after a target was set at its own position, the command is an
  infinity.
- The command is not clamped. Beyond the threshold (0.0005) and with a nonzero
  `totalDelta`, it stays within the maximum speed exactly when the motor is no
  farther from the target than when the target was set (`WithinMaxSpeedIff`).
- `rotate` is measured from the current position, not from the old target.
- In the test robot, X and Y step from the previous target. The quotient there
  is not passed through `abs`, so beyond the threshold and with a nonzero
  `totalDelta`, after an overshoot the command drives away from the target
  (`TestCommandDirection`).

## Model

| member | source | states |
|---|---|---|
| Telemetry.KeyInjective | src/main/java/frc/robot/motors/MotorDashboardUpdater.java:36-45 | two keys `name + suffix` are equal only for the same motor name and the same field |
| DashboardUpdater.KeysForDistinct | src/main/java/frc/robot/motors/MotorDashboardUpdater.java:36-45 | a motor's ten dashboard keys are pairwise different |
| ClosedLoop.SpeedCommand | src/main/java/frc/robot/motors/PositionClosedLoopMotor.java:55-72 | the command is zero exactly when within THRESHOLD of the target; it is infinite exactly when beyond the threshold with a zero totalDelta; beyond the threshold it points toward the target and its size times \|totalDelta\| is the distance to go times MAX_SPEED |
| ClosedLoop.FullSpeedAfterSetTarget | src/main/java/frc/robot/motors/PositionClosedLoopMotor.java:39-42 | if the sensor has not moved since setTargetPosition and the target is beyond THRESHOLD (0.0005), the command is exactly ±MAX_SPEED toward the target |
| ClosedLoop.WithinMaxSpeedIff | src/main/java/frc/robot/motors/PositionClosedLoopMotor.java:58-61 | beyond the threshold (0.0005) and with a nonzero totalDelta, the command's size is at most MAX_SPEED if and only if the distance to go is at most \|totalDelta\|; there is no clamp |
| ClosedLoop.MagnitudeMonotone | src/main/java/frc/robot/motors/PositionClosedLoopMotor.java:58-61 | for a fixed target and a nonzero totalDelta, a position closer to the target never gets a larger command |
| ClosedLoop.PositionClosedLoopMotor.constructor | src/main/java/frc/robot/motors/PositionClosedLoopMotor.java:20-26 | a new motor keeps its name, with target and totalDelta at 0.0 |
| ClosedLoop.PositionClosedLoopMotor.ResetClosedLoopControl | src/main/java/frc/robot/motors/PositionClosedLoopMotor.java:31-33 | the target becomes the current position and totalDelta becomes 0 |
| ClosedLoop.PositionClosedLoopMotor.SetTargetPosition | src/main/java/frc/robot/motors/PositionClosedLoopMotor.java:39-42 | the target becomes newTarget and totalDelta becomes the signed distance to it from the current position |
| ClosedLoop.PositionClosedLoopMotor.Rotate | src/main/java/frc/robot/motors/PositionClosedLoopMotor.java:47-49 | the target becomes the current position plus rotations, and totalDelta becomes rotations |
| ClosedLoop.PositionClosedLoopMotor.UpdateSpeed | src/main/java/frc/robot/motors/PositionClosedLoopMotor.java:55-72 | the imperative step issues SpeedCommand for the stored target and totalDelta and changes no field |
| ClosedLoop.PositionClosedLoopMotor.UpdateDashboard | src/main/java/frc/robot/motors/PositionClosedLoopMotor.java:75-79 | publishes the target under `name + " Target Postion"` and totalDelta under `name + " Total Delta"`; every other entry is unchanged |
| PositionalTest.TestCommand | src/main/java/frc/robot/RobotPositionalTest.java:89-103 | the command is zero exactly when within THRESH; it is infinite only for a zero totalDelta and then always forward; otherwise the command times totalDelta is the distance to go times MAX_SPEED |
| PositionalTest.TestCommandDirection | src/main/java/frc/robot/RobotPositionalTest.java:89-99 | beyond THRESH (0.01) and with a nonzero totalDelta, the command is forward if and only if totalDelta > 0; it points at the target when the distance to go and totalDelta share a sign, and away from it otherwise |
| PositionalTest.SetTarget | src/main/java/frc/robot/RobotPositionalTest.java:111-114 | setTargetPosition leaves the enable flag alone |
| PositionalTest.Teleop | src/main/java/frc/robot/RobotPositionalTest.java:58-110 | Back flips enable; while disabled the command is zero and the target and totalDelta are kept; enabling holds the present position; X steps the target down by 20 and Y up by 20, X first; totalDelta is re-measured from the position; an enabled robot issues TestCommand |
| PositionalTest.StepRunsFullSpeed | src/main/java/frc/robot/RobotPositionalTest.java:78-91 | on an enabled tick where X or Y moves the target beyond THRESH (0.01), the command is exactly ±MAX_SPEED toward the new target |
| PositionalTest.FullSpeedTowardTarget | src/main/java/frc/robot/RobotPositionalTest.java:89-99 | when the target is beyond THRESH (0.01) and totalDelta equals the distance to go, the command is ±MAX_SPEED toward the target |
| PositionalTest.EnableHoldsPosition | src/main/java/frc/robot/RobotPositionalTest.java:61-64 | pressing Back alone while disabled enables control with the target at the present position, totalDelta 0 and a zero command |
| PositionalTest.Run | src/main/java/frc/robot/RobotPositionalTest.java:58-110 | a run of ticks yields one command per tick |
| PositionalTest.DisabledIgnoresSteps | src/main/java/frc/robot/RobotPositionalTest.java:106-109 | while disabled and Back is not pressed, any number of X and Y presses leave the state unchanged, and every command is zero |
| PositionalTest.HoldsWhileStill | src/main/java/frc/robot/RobotPositionalTest.java:88-103 | an enabled robot with no buttons pressed and the motor within THRESH of the target keeps its state and commands zero on every tick |
| PositionalTest.RobotPositionalTest.constructor | src/main/java/frc/robot/RobotPositionalTest.java:27-29 | the fields start disabled, with target and totalDelta at 0.0 |
| PositionalTest.RobotPositionalTest.DisabledInit | src/main/java/frc/robot/RobotPositionalTest.java:51-54 | control is switched off, the target and totalDelta are kept, and the motor is set to zero |
| PositionalTest.RobotPositionalTest.TeleopPeriodic | src/main/java/frc/robot/RobotPositionalTest.java:58-110 | the imperative tick produces exactly the new state and command of Teleop |
| PositionalTest.RobotPositionalTest.SetTargetPosition | src/main/java/frc/robot/RobotPositionalTest.java:111-114 | the target becomes newTarget and totalDelta the distance to it from the position; the enable flag is unchanged |
| DashboardUpdater.ReconcileWritesThrough | src/main/java/frc/robot/motors/MotorDashboardUpdater.java:71-100 | a controller that holds the cached gains holds exactly the gains shown on the dashboard after the setter calls one update makes |
| DashboardUpdater.ReconcileOnlyOnChange | src/main/java/frc/robot/motors/MotorDashboardUpdater.java:71-100 | no setter call is made if and only if the shown gains equal the cache, and every call that is made changes a cached setting |
| DashboardUpdater.ReconcileOrdered | src/main/java/frc/robot/motors/MotorDashboardUpdater.java:71-100 | the setter calls come in the order P, I, D, I zone, feed forward, output range, each at most once |
| DashboardUpdater.Update | src/main/java/frc/robot/motors/MotorDashboardUpdater.java:63-102 | without a PID controller, an update makes no setter call |
| DashboardUpdater.PublishShowsReadings | src/main/java/frc/robot/motors/MotorDashboardUpdater.java:65-67 | with the ten keys pairwise different (as `KeysForDistinct` gives every motor), after publishing, the position, velocity and inversion keys hold the reading |
| DashboardUpdater.PublishKeepsShownGains | src/main/java/frc/robot/motors/MotorDashboardUpdater.java:65-71 | with the ten keys pairwise different (as `KeysForDistinct` gives every motor), publishing readings never changes the gains the dashboard shows |
| DashboardUpdater.NoEntryKeepsGain | src/main/java/frc/robot/motors/MotorDashboardUpdater.java:71-100 | for each of P, I, D, I zone and feed forward, a gain whose key holds no number (absent, or a flag) gets no setter call and the controller keeps its cached value; with neither bound holding a number, the output range is not written and both bounds keep their cached values |
| DashboardUpdater.UpdateWrites | src/main/java/frc/robot/motors/MotorDashboardUpdater.java:63-102 | with the ten keys pairwise different (as `KeysForDistinct` gives every motor), with a controller, one update makes the setter calls the gains shown before it call for, and the same gains are still shown afterwards |
| DashboardUpdater.EditRewrittenEveryCall | src/main/java/frc/robot/motors/MotorDashboardUpdater.java:71-100 | with the ten keys pairwise different (as `KeysForDistinct` gives every motor), because the cache is never refreshed, n successive updates make the first update's setter calls n times over |
| DashboardUpdater.PersistingEditNotIdempotent | src/main/java/frc/robot/motors/MotorDashboardUpdater.java:71-100 | with the ten keys pairwise different (as `KeysForDistinct` gives every motor), after a dashboard edit (the shown gains differ from the cache), the first update writes something, and the second update repeats exactly the same writes |
| DashboardUpdater.NoControllerNeverWrites | src/main/java/frc/robot/motors/MotorDashboardUpdater.java:69 | a motor without a PID controller makes no setter call in any run of updates |
| DashboardUpdater.MotorDashboardUpdater.constructor | src/main/java/frc/robot/motors/MotorDashboardUpdater.java:34-61 | builds the ten keys from the name; with PID values it caches them and keeps the controller, and otherwise it keeps no controller and a zero cache |
| DashboardUpdater.MotorDashboardUpdater.UpdateDashboard | src/main/java/frc/robot/motors/MotorDashboardUpdater.java:63-102 | the store gains the three readings; a controller receives exactly the reconciling setter calls for the gains shown; the cache is unchanged |
| DashboardUpdater.MotorDashboardUpdater.SyncGains | src/main/java/frc/robot/motors/MotorDashboardUpdater.java:69-101 | the controller's call log grows by exactly the calls for the gains that differ from the cache, in source order |
| Telemetry.NumberOrReads | src/main/java/frc/robot/motors/MotorDashboardUpdater.java:65-71 | getNumber reads back a number put under the key; a put under another key does not change what it reads; a key holding a flag or nothing reads as the default |

## Left out

- Hardware and library calls are not modelled. These are the REV `CANSparkMax`
  and its encoder, `setIdleMode(kBrake)`, the `XboxController`, SmartDashboard
  persistence and networking, `Logger.log` and the `TimedRobot` scheduler. Sensor
  values are parameters, and a `set` on the motor is the returned command.
- `robotInit` and `robotPeriodic` of the test robot are left out. `robotInit`
  builds the controller and the motor. `robotPeriodic` publishes the enable flag
  and the target. It also calls `MotorFactory.updateDashboard()`, which drives
  every motor's dashboard updater on each tick. That scheduling is not
  modelled: the model covers a single updater's call (`UpdateDashboard`) and
  runs of such calls (`DashboardUpdater.Run`).
- `NamedMotor`, `MotorFactory` and `PIDConstant` are not part of this model.
  This includes the `super.updateDashboard()` call in
  `PositionClosedLoopMotor.updateDashboard`, and the name and `set` plumbing of
  `NamedMotor`.
- Doubles are modelled as exact reals. Rounding, NaN and signed zero are not
  captured. Only the infinity from dividing by a zero `totalDelta` is kept, with
  the sign it has for a `+0.0` denominator.
- One sensor reading per call: within one call, every `getPosition()` is taken
  to return the same value. `teleopPeriodic` and `setTargetPosition` read the
  encoder at two different moments.
- Button edge latching is not modelled. A `Buttons` value is what the
  "pressed since last check" getters return on that tick. In the code, X is
  only read on enabled ticks, and Y only when X was not pressed. A press that
  is not read stays latched and takes effect on a later tick. For example, X
  pressed while disabled steps the target by -20 on the tick that Back
  enables control again. The model only sees the press on the tick where it
  takes effect. So `DisabledIgnoresSteps` says the state is unchanged while
  disabled. It does not say that presses made while disabled are lost.
- Any clamping or rejection of out-of-range or infinite speeds by the motor
  driver is not modelled.
- The PID controller's setters are not modelled as failing, and whatever the
  hardware does with the values is not modelled. The controller is the log of
  calls it receives.
