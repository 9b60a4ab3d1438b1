# robot2020 in Dafny

A model of the decision logic of the TechnoJays 2020 robot program. The
program is a set of subsystems, each guarding one or more motors or
solenoids behind limit switches and configured scales, and a set of
commands, each a small state machine of `initialize` / `execute` /
`isFinished` / `end` / `interrupted` hooks that the command framework
calls.

- Devices (`Devices`): motors record their last output and how many times
  they were set, so "writes nothing" and "writes exactly once" can be
  stated; switches, gyro and analog inputs are fields the environment sets;
  the differential drive records the calls it receives; the stopwatch
  holds the elapsed time the environment advances.
- Subsystems (`ArmSubsystem`, `FeederSubsystem`, `ClimbingSubsystem`,
  `ControlPanelSubsystem`, `ControlPanelArmSubsystem`, `ShooterSubsystem`,
  `VacuumSubsystem`, `PanelGrabberSubsystem`, `DrivetrainSubsystem`,
  `Sonar`): one class each; a device that the configuration does not
  enable is a `null` reference; configured values are constructor
  parameters. Each motor decision is a pure function related to the
  reference guard in `BoundedActuator` (a request toward an active hard
  stop is not passed on), and each method is proved to write exactly what
  that function says and nothing else.
- Operator input (`OperatorInput`): the D-pad and dead-zone normalisation
  of `get_axis`, with the axis and button ids passed as bindings.
- Commands (one module per command): a class whose hook methods state what
  they write; `isFinished` is a predicate of the command's state and of the
  inputs the framework provides (the timed-out flag, the colour match
  result, the game message).
- The command framework's calling order (`Lifecycle`): one generic pure
  state machine, Idle → Running → Finished | Interrupted, proved to run
  initialize once, then execute on every pass, then exactly one cleanup
  hook, after which nothing more happens. Each command's `Schedule` method
  drives its own hooks through that machine: every scheduler pass
  (`Lifecycle.Pass`) either carries the readings the command's
  `isFinished` consults or cancels the command, `OnePass` calls the hooks
  that `Lifecycle.Step` prescribes for it, and `Schedule` proves that the
  hooks it called are those of `Lifecycle.Run` and what the actuators hold
  once the run has terminated or while it is running.

Speeds are `real`: the program only multiplies, negates and compares them.

## Model

| member | source | states |
|---|---|---|
| BoundedActuator.ZeroIsNeverBlocked | src/subsystems/feeder.py:57-59 | a zero request never points into a stop, so the guarded output is 0 |
| BoundedActuator.GuardedNeverPushesIntoStop | src/subsystems/climbing.py:57-66 | with a non-negative scale, the guarded output is never positive against the upper stop nor negative against the lower stop |
| ArmSubsystem.LateralDecision | src/subsystems/arm.py:79-86 | nothing is written exactly when the request pushes into the open (negative) or closed (positive) stop; otherwise the written value is the guarded, scaled request |
| ArmSubsystem.VerticalDecision | src/subsystems/arm.py:90-97 | nothing is written exactly when the request pushes into the raised (positive) or lowered (negative) stop; otherwise the scaled request |
| ArmSubsystem.ZeroAlwaysWritesZero | src/subsystems/arm.py:82-97 | a zero request is never blocked on either axis and writes exactly 0 |
| ArmSubsystem.BlockedKeepsPreviousOutput | src/subsystems/arm.py:82-85 | a blocked lateral request leaves the previous output and makes no write |
| ArmSubsystem.SwitchPolarity | src/subsystems/arm.py:55-77 | raised, lowered and open are true iff the switch exists and reads false; closed is true iff the switch exists and reads true |
| ArmSubsystem.Arm.constructor | src/subsystems/arm.py:106-108 | the move scale is the configured one, 1.0 when none is given |
| ArmSubsystem.Arm.MoveArmLaterally | src/subsystems/arm.py:79-86 | without a lateral motor nothing changes; otherwise the motor's output and write count become what LateralDecision says |
| ArmSubsystem.Arm.MoveArmsVertically | src/subsystems/arm.py:90-97 | the same for the vertical motor and VerticalDecision |
| FeederSubsystem.FeedSpeed | src/subsystems/feeder.py:49-59 | the reference guard with the shoot scale for negative requests and the pickup scale otherwise, the cube switch as the only stop; negative requests scale by the shoot scale, positive ones without a cube by the pickup scale, positive ones with a cube and zero give 0 |
| FeederSubsystem.ShootIgnoresCube | src/subsystems/feeder.py:51-53 | a negative request gives the same output with or without a cube |
| FeederSubsystem.Feeder.HasCube | src/subsystems/feeder.py:43-47 | true iff the switch exists and reads false |
| FeederSubsystem.Feeder.FeedCube | src/subsystems/feeder.py:49-59 | with a motor, exactly one write of FeedSpeed; without one, nothing |
| ClimbingSubsystem.WinchSpeed | src/subsystems/climbing.py:57-66 | the reference guard with the retracted switch as the upper stop: negative requests scale, positive ones scale unless retracted, otherwise 0 |
| ClimbingSubsystem.Climbing.constructor | src/subsystems/climbing.py:18 | the maximum speed defaults to 0 |
| ClimbingSubsystem.Climbing.IsRetracted | src/subsystems/climbing.py:46-50 | true iff the limit switch exists and reads true |
| ClimbingSubsystem.Climbing.MoveWinch | src/subsystems/climbing.py:57-66 | reports (as the value the source puts on the dashboard) WinchSpeed with a motor and 0.0 without; with a motor exactly one write of that value |
| ShooterSubsystem.Shooter.constructor | src/subsystems/shooter.py:18 | the maximum speed defaults to 0 |
| ShooterSubsystem.Shooter.Move | src/subsystems/shooter.py:41-46 | writes speed × max speed once with a motor and reports it (the dashboard value); reports 0.0 and writes nothing without |
| VacuumSubsystem.Vacuum.constructor | src/subsystems/vacuum.py:18 | the maximum speed defaults to 0 |
| VacuumSubsystem.Vacuum.Move | src/subsystems/vacuum.py:41-46 | as Shooter.Move; a zero request always leaves output 0 |
| ControlPanelArmSubsystem.SolenoidValue | src/subsystems/control_panel_arm.py:42 | the requested state when not inverted, its negation when inverted |
| ControlPanelArmSubsystem.InversionIsInvolution | src/subsystems/control_panel_arm.py:42 | inverting twice gives back the requested state |
| ControlPanelArmSubsystem.ControlPanelArm.constructor | src/subsystems/control_panel_arm.py:31-34 | the inversion flag is the configured one only when enabled, false otherwise |
| ControlPanelArmSubsystem.ControlPanelArm.Extend | src/subsystems/control_panel_arm.py:39-42 | disabled: nothing changes; enabled: one write of SolenoidValue, so repeating a state leaves the solenoid as it is |
| PanelGrabberSubsystem.PanelGrabber.SetPanelRelease | src/subsystems/panel_grabber.py:33-35 | sets the solenoid once when it exists |
| ControlPanelSubsystem.Clamp | src/subsystems/control_panel.py:140-143 | the result is in [-1, 1], equals the request inside it, and -1 / 1 below / above it |
| ControlPanelSubsystem.MagnitudeOfProduct | src/subsystems/control_panel.py:144 | scaling by a factor in [-1, 1] never increases a magnitude |
| ControlPanelSubsystem.PanelMotorValue | src/subsystems/control_panel.py:140-144 | the written magnitude is at most the maximum speed's, and a request already in [-1, 1] is only scaled |
| ControlPanelSubsystem.MatchedColor | src/subsystems/control_panel.py:116-125 | each colour iff the match equals its target and no earlier target in the order red, blue, yellow, green; NONE iff it equals none of them |
| ControlPanelSubsystem.EveryColorIsListed | src/subsystems/control_panel.py:79-85 | a map with the five colour keys is total |
| ControlPanelSubsystem.ScoringMap | src/subsystems/control_panel.py:79-85 | total, sends NONE to NONE and each colour to its configured entry |
| ControlPanelSubsystem.ControlPanel.constructor | src/subsystems/control_panel.py:71-85 | the scoring map is loaded only when the panel is enabled |
| ControlPanelSubsystem.ControlPanel.GetCurrentColor | src/subsystems/control_panel.py:109-127 | NONE when disabled, else MatchedColor of the match result |
| ControlPanelSubsystem.ControlPanel.GetScoredColor | src/subsystems/control_panel.py:129-135 | NONE when disabled, else the scoring-map entry; NONE is always scored as NONE |
| ControlPanelSubsystem.ControlPanel.Move | src/subsystems/control_panel.py:137-144 | disabled: nothing changes; enabled: one write of PanelMotorValue |
| Sonar.DistanceIsMonotone | src/util/sonar.py:63 | for a positive ratio a higher voltage never gives a shorter distance |
| Sonar.DefaultRatio | src/util/sonar.py:21 | the default vcc 5.0 and factor 1024 give ratio 204.8 |
| Sonar.MaxSonar.constructor | src/util/sonar.py:21-37 | a channel number allocates a fresh input, an existing input is used as is; the ratio invariant holds |
| Sonar.MaxSonar.CalculateScaling | src/util/sonar.py:39-40 | re-establishes ratio = factor / vcc |
| Sonar.MaxSonar.Close | src/util/sonar.py:42-46 | the channel is closed only if the sonar allocated it, always cleared, and the distance is then 0 |
| Sonar.MaxSonar.SetVcc | src/util/sonar.py:48-50 | sets vcc and keeps the ratio invariant |
| Sonar.MaxSonar.SetScalingFactor | src/util/sonar.py:52-54 | sets the factor and keeps the ratio invariant |
| Sonar.MaxSonar.GetDistance | src/util/sonar.py:56-63 | 0.0 without a channel, else voltage × ratio |
| DrivetrainSubsystem.ModifyTurnAngle | src/subsystems/drivetrain.py:132-136 | the turn passed to the drive is the negated turn |
| DrivetrainSubsystem.ModifyTurnAngleIsInvolution | src/subsystems/drivetrain.py:132-136 | negating twice gives the operator's angle back, and the sign flips |
| DrivetrainSubsystem.Drivetrain.constructor | src/subsystems/drivetrain.py:199-200 | a drive exists iff both motors do and starts with no calls; caches start at 0 |
| DrivetrainSubsystem.Drivetrain.GetLineFollowState | src/subsystems/drivetrain.py:77-89 | five readings, in the order far left, left, center, right, far right, iff both far sensors exist; else three iff left, center and right exist; else none |
| DrivetrainSubsystem.Drivetrain.GetGyroAngle | src/subsystems/drivetrain.py:91-94 | with a gyro the cache becomes a fresh reading; without, the cached value is kept; the cache is returned |
| DrivetrainSubsystem.Drivetrain.ResetGyroAngle | src/subsystems/drivetrain.py:96-101 | with a gyro it is reset and re-read into the cache; the cache is returned |
| DrivetrainSubsystem.Drivetrain.GetSonarDistance | src/subsystems/drivetrain.py:103-106 | with a sonar the cache becomes its distance; without, the cached value is kept |
| DrivetrainSubsystem.Drivetrain.IsGyroEnabled | src/subsystems/drivetrain.py:108-109 | true iff a gyro was constructed |
| DrivetrainSubsystem.Drivetrain.TankDrive | src/subsystems/drivetrain.py:114-121 | the drive gets both sides scaled by the maximum speed, not squared; both caches are refreshed |
| DrivetrainSubsystem.Drivetrain.ArcadeDrive | src/subsystems/drivetrain.py:123-130 | the drive, when present, gets the linear value and the negated turn; no call without a drive; both caches are refreshed |
| OperatorInput.DpadX | src/oi.py:97-104 | 1 iff the POV is 90, -1 iff 270, 0 for every other value |
| OperatorInput.DpadY | src/oi.py:105-112 | -1 iff the POV is 0, 1 iff 180, 0 for every other value |
| OperatorInput.ApplyDeadZone | src/oi.py:113-118 | 0 strictly inside the dead zone, the raw value otherwise |
| OperatorInput.OI.constructor | src/oi.py:55-62 | two controllers with their dead zones and the axis and button bindings |
| OperatorInput.OI.GetAxis | src/oi.py:85-120 | the horizontal D-pad id reads DpadX, then the vertical id reads DpadY, every other id the dead-zoned raw axis |
| OperatorInput.OI.GetButtonState | src/oi.py:122-123 | the raw button value unchanged |
| OperatorInput.OI.AxisInRange | src/oi.py:85-120 | the result is in [-1, 1] whenever the raw axis is |
| OperatorInput.OI.DpadIgnoresAnalog | src/oi.py:97-116 | a D-pad id gives -1, 0 or 1 determined by the POV alone |
| OperatorInput.DeadZoneIsStrict | src/oi.py:117 | a reading of magnitude exactly the dead zone passes through |
| Lifecycle.Step | src/commands/set_elevator_to_position.py:15-44 | a terminated command ignores further events, and hooks are only ever appended |
| Lifecycle.StepPreservesShape | src/commands/set_elevator_to_position.py:15-44 | one event keeps the trace well formed |
| Lifecycle.RunIsWellFormed | src/commands/set_elevator_to_position.py:15-44 | every run is: nothing while idle; initialize, then executes, then one cleanup matching how it ended |
| Lifecycle.CleanupRunsOnce | src/commands/set_elevator_to_position.py:38-44 | a terminated run has exactly one cleanup hook, an unterminated one none |
| Lifecycle.TerminationIsFinal | src/commands/set_elevator_to_position.py:38-40 | after termination no event changes the trace |
| Lifecycle.LastHookIsCleanup | src/commands/set_elevator_to_position.py:38-44 | the last hook is end after finishing and interrupted after cancellation |
| Lifecycle.NeverFinishedWithoutReport | src/commands/move_elevator.py:22-24 | a command whose isFinished never answers true never reaches end |
| Lifecycle.RunExtends | src/commands/set_elevator_to_position.py:15-44 | running one more event is one more Step on the earlier run |
| Lifecycle.CancelInterruptsRunning | src/commands/set_elevator_to_position.py:42-44 | cancelling a running command calls interrupted, last |
| Completion.TimeUpStaysUp | src/commands/move_elevator_time.py:25-27 | a timed command that is done stays done as time passes |
| Completion.TimeUpAtDuration | src/commands/move_elevator_time.py:25-27 | the comparison is inclusive: done at the duration, not before |
| SetElevatorToPositionCommand.Direction | src/commands/set_elevator_to_position.py:23-28 | +1 iff the target is at or above the current count, else -1; direction × remaining distance is the distance's magnitude |
| SetElevatorToPositionCommand.SetElevatorToPosition.constructor | src/commands/set_elevator_to_position.py:7-13 | timeout 15 by default; requires the elevator |
| SetElevatorToPositionCommand.SetElevatorToPosition.Execute | src/commands/set_elevator_to_position.py:19-31 | requests speed × Direction once |
| SetElevatorToPositionCommand.SetElevatorToPosition.IsFinished | src/commands/set_elevator_to_position.py:33-36 | true on timeout; otherwise iff the count lies within the threshold on either side of the target |
| SetElevatorToPositionCommand.SetElevatorToPosition.End | src/commands/set_elevator_to_position.py:38-40 | requests 0 once |
| SetElevatorToPositionCommand.SetElevatorToPosition.Interrupted | src/commands/set_elevator_to_position.py:42-44 | the same effect as End |
| SetElevatorToPositionCommand.SetElevatorToPosition.UnfinishedMovesTowardTarget | src/commands/set_elevator_to_position.py:23-36 | while not finished, a positive speed always pushes toward the target |
| SetElevatorToPositionCommand.SetElevatorToPosition.EventFor | src/commands/set_elevator_to_position.py:33-36 | a scheduled pass finishes iff the encoder reading is within the threshold of the target or the command timed out |
| SetElevatorToPositionCommand.SetElevatorToPosition.Schedule | src/commands/set_elevator_to_position.py:15-44 | each pass becomes the event its isFinished gives (a cancel on a cancelled pass), the loop stops exactly at termination, the hooks called are those of Lifecycle.Run on those events, and a terminated run leaves the elevator request at 0, a running one at the speed toward the target |
| RetractArmToPositionCommand.RetractArmToPosition.constructor | src/commands/retract_arm_to_position.py:6-11 | timeout 15 by default; requires the arm |
| RetractArmToPositionCommand.RetractArmToPosition.Execute | src/commands/retract_arm_to_position.py:17-20 | requests the negated speed, whatever the encoder reads |
| RetractArmToPositionCommand.RetractArmToPosition.IsFinished | src/commands/retract_arm_to_position.py:22-24 | not finished iff the encoder is below the target and there is no timeout |
| RetractArmToPositionCommand.RetractArmToPosition.End | src/commands/retract_arm_to_position.py:26-28 | requests 0 once |
| RetractArmToPositionCommand.RetractArmToPosition.Interrupted | src/commands/retract_arm_to_position.py:30-32 | the same effect as End |
| RetractArmToPositionCommand.RetractArmToPosition.EventFor | src/commands/retract_arm_to_position.py:22-24 | a scheduled pass finishes iff the encoder reading has reached the target or the command timed out |
| RetractArmToPositionCommand.RetractArmToPosition.Schedule | src/commands/retract_arm_to_position.py:13-32 | each pass becomes the event its isFinished gives (a cancel on a cancelled pass), the loop stops exactly at termination, the hooks called are those of Lifecycle.Run on those events, and a terminated run leaves the arm request at 0, a running one at minus the speed |
| MoveElevatorTimeCommand.MoveElevatorTime.constructor | src/commands/move_elevator_time.py:7-13 | name "MoveElevatorTime" and timeout 15 by default; a stopped stopwatch |
| MoveElevatorTimeCommand.MoveElevatorTime.Initialize | src/commands/move_elevator_time.py:15-18 | starts the clock at 0 |
| MoveElevatorTimeCommand.MoveElevatorTime.Execute | src/commands/move_elevator_time.py:20-23 | requests the constant speed on every pass |
| MoveElevatorTimeCommand.MoveElevatorTime.IsFinished | src/commands/move_elevator_time.py:25-27 | iff TimeUp of the elapsed time, with no timeout disjunct |
| MoveElevatorTimeCommand.MoveElevatorTime.End | src/commands/move_elevator_time.py:29-32 | stops the clock and requests 0 |
| MoveElevatorTimeCommand.MoveElevatorTime.Interrupted | src/commands/move_elevator_time.py:34-36 | the same effect as End |
| MoveElevatorTimeCommand.MoveElevatorTime.EventFor | src/commands/move_elevator_time.py:25-27 | a scheduled pass finishes iff the elapsed time has reached the duration |
| MoveElevatorTimeCommand.MoveElevatorTime.Schedule | src/commands/move_elevator_time.py:15-36 | each pass becomes the event its isFinished gives (a cancel on a cancelled pass), the loop stops exactly at termination, the hooks called are those of Lifecycle.Run on those events, and a terminated run leaves the elevator at 0 with the stopwatch stopped, a running one at the speed with the stopwatch running |
| TimedSpinCommand.TimedSpin.constructor | src/commands/timed_spin.py:10-17 | name "TimedSpin" and timeout 32 by default; requires the control panel |
| TimedSpinCommand.TimedSpin.Initialize | src/commands/timed_spin.py:19-22 | starts the clock at 0 |
| TimedSpinCommand.TimedSpin.Execute | src/commands/timed_spin.py:24-27 | moves the panel at the configured speed |
| TimedSpinCommand.TimedSpin.IsFinished | src/commands/timed_spin.py:29-31 | iff TimeUp or timed out |
| TimedSpinCommand.TimedSpin.End | src/commands/timed_spin.py:33-36 | stops the clock and moves the panel at 0 |
| TimedSpinCommand.TimedSpin.Interrupted | src/commands/timed_spin.py:38-40 | the same effect as End |
| TimedSpinCommand.TimedSpin.Schedule | src/commands/timed_spin.py:19-40 | each pass becomes the event its isFinished gives (a cancel on a cancelled pass), the loop stops exactly at termination, the hooks called are those of Lifecycle.Run on those events, and a terminated run leaves the panel motor at 0 with the stopwatch stopped, a running one at the spin speed with the stopwatch running |
| ShootLoadCommand.ShootLoad.constructor | src/commands/shoot_load.py:11-17 | speed 0.0 and timeout 5 by default; requires the feeder |
| ShootLoadCommand.ShootLoad.Initialize | src/commands/shoot_load.py:19-22 | starts the clock at 0 |
| ShootLoadCommand.ShootLoad.Execute | src/commands/shoot_load.py:24-28 | feeds at the configured speed |
| ShootLoadCommand.ShootLoad.IsFinished | src/commands/shoot_load.py:30-32 | iff TimeUp, with no timeout disjunct |
| ShootLoadCommand.ShootLoad.End | src/commands/shoot_load.py:34-37 | stops the clock; feeding at 0.0 writes 0 |
| ShootLoadCommand.ShootLoad.Interrupted | src/commands/shoot_load.py:39-41 | the same effect as End |
| ShootLoadCommand.ShootLoad.EventFor | src/commands/shoot_load.py:30-32 | a scheduled pass finishes iff the elapsed time has reached the duration |
| ShootLoadCommand.ShootLoad.Schedule | src/commands/shoot_load.py:19-40 | each pass becomes the event its isFinished gives (a cancel on a cancelled pass), the loop stops exactly at termination, the hooks called are those of Lifecycle.Run on those events, and a terminated run leaves the feeder at 0 with the stopwatch stopped, a running one at the feed speed with the stopwatch running |
| SpinToColorCommand.TargetFor | src/commands/spin_to_color.py:11-17 | "" → NONE, "R" → red, "G" → green, "B" → blue, "Y" → yellow, and no other message is known |
| SpinToColorCommand.EveryColorHasOneMessage | src/commands/spin_to_color.py:11-17 | every colour is asked for by exactly one message |
| SpinToColorCommand.SpinToColor.constructor | src/commands/spin_to_color.py:7-24 | the target starts as NONE; name "SpinToColor" and timeout 16 by default |
| SpinToColorCommand.SpinToColor.Initialize | src/commands/spin_to_color.py:26-32 | a known message sets the target; an unknown one keeps the old target |
| SpinToColorCommand.SpinToColor.Execute | src/commands/spin_to_color.py:34-37 | moves the panel at the configured speed |
| SpinToColorCommand.SpinToColor.IsFinished | src/commands/spin_to_color.py:39-43 | true at once without a target; otherwise iff timed out or the enabled panel scores the matched colour as the target |
| SpinToColorCommand.SpinToColor.DisabledPanelWaitsForTimeout | src/commands/spin_to_color.py:39-43 | with a disabled panel and a real target only the timeout ends the command |
| SpinToColorCommand.SpinToColor.End | src/commands/spin_to_color.py:45-47 | moves the panel at 0 |
| SpinToColorCommand.SpinToColor.Interrupted | src/commands/spin_to_color.py:49-51 | the same effect as End |
| SpinToColorCommand.SpinToColor.Schedule | src/commands/spin_to_color.py:26-51 | each pass becomes the event its isFinished gives (a cancel on a cancelled pass), the loop stops exactly at termination, the hooks called are those of Lifecycle.Run on those events, and ticks are judged against the target set by initialize; a terminated run leaves the panel motor at 0, a running one at the spin speed |
| LineFollowCommand.FirstActive | src/commands/line_follow.py:28-39 | the index of an active reading with no active reading before it, or none iff no reading is active |
| LineFollowCommand.ForwardOnlyOnInnerSensors | src/commands/line_follow.py:28-39 | forward speed is non-zero only when left, center or right is the first active sensor, and then it is the configured speed |
| LineFollowCommand.TurnsTowardTheLine | src/commands/line_follow.py:28-39 | the turn is negative exactly when a left-hand sensor is first active, and zero exactly when the center one is |
| LineFollowCommand.LatchAfterIsAnyShortPass | src/commands/line_follow.py:40-42 | after any run of executes the latch is set iff it started set or some pass lacked five readings |
| LineFollowCommand.LatchNeverClears | src/commands/line_follow.py:13-48 | once set the latch stays set |
| LineFollowCommand.LineFollow.constructor | src/commands/line_follow.py:8-13 | the latch starts clear |
| LineFollowCommand.LineFollow.Execute | src/commands/line_follow.py:19-44 | with five readings one drive call by the steering table of the first active sensor, not squared; otherwise the latch is set and no drive call is made |
| LineFollowCommand.LineFollow.IsFinished | src/commands/line_follow.py:46-48 | the latch |
| LineFollowCommand.LineFollow.End | src/commands/line_follow.py:50-52 | drives (0, 0), not squared |
| LineFollowCommand.LineFollow.Interrupted | src/commands/line_follow.py:54-56 | the same effect as End |
| LineFollowCommand.LineFollow.Schedule | src/commands/line_follow.py:15-56 | each pass becomes the event its isFinished gives (a cancel on a cancelled pass), the loop stops exactly at termination, the hooks called are those of Lifecycle.Run on those events, and each tick carries the latched finished flag; a terminated run's last drive call is a stop |
| FeedCubeCommand.FeedCube.constructor | src/commands/feed_cube.py:6-10 | speed 0.0 and timeout 5 by default |
| FeedCubeCommand.FeedCube.Execute | src/commands/feed_cube.py:16-20 | the scoring right-stick value goes to feed_cube unchanged |
| FeedCubeCommand.FeedCube.IsFinished | src/commands/feed_cube.py:22-27 | with a negative speed iff a cube is held; otherwise never, so with the default speed it never finishes |
| FeedCubeCommand.FeedCube.EventFor | src/commands/feed_cube.py:22-27 | a cancelled pass gives Cancel; a non-negative feeder speed never gives a finishing tick |
| FeedCubeCommand.FeedCube.Schedule | src/commands/feed_cube.py:12-34 | each pass becomes the event its isFinished gives (a cancel on a cancelled pass), the loop stops exactly at termination, the hooks called are those of Lifecycle.Run on those events, and with a non-negative feeder speed the run never reaches end; once started the feeder motor holds FeedSpeed of the scoring stick |
| MoveArmCommand.PositivePart | src/commands/move_arm.py:18-22 | never negative; the stick value when positive, else 0 |
| MoveArmCommand.MoveArm.constructor | src/commands/move_arm.py:6-10 | stores a speed that no hook reads |
| MoveArmCommand.MoveArm.Execute | src/commands/move_arm.py:16-23 | requests the positive part of the scoring right stick |
| MoveArmCommand.MoveArm.Schedule | src/commands/move_arm.py:12-35 | each pass becomes the event its isFinished gives (a cancel on a cancelled pass), the loop stops exactly at termination, the hooks called are those of Lifecycle.Run on those events, and the run never reaches end; once started the arm request is the positive part of the scoring right stick |
| MoveElevatorCommand.MoveElevator.constructor | src/commands/move_elevator.py:7-10 | name "MoveElevator" and timeout 15 by default; requires the elevator |
| MoveElevatorCommand.MoveElevator.Execute | src/commands/move_elevator.py:16-20 | requests the negated scoring left-stick value |
| MoveElevatorCommand.MoveElevator.Schedule | src/commands/move_elevator.py:12-32 | each pass becomes the event its isFinished gives (a cancel on a cancelled pass), the loop stops exactly at termination, the hooks called are those of Lifecycle.Run on those events, and the run never reaches end; once started the elevator request is the negated scoring left stick, also after cancellation |
| MoveArmLaterallyCommand.MoveArmLaterally.constructor | src/commands/move_arm_laterally.py:5-9 | the stored speed is the negated argument |
| MoveArmLaterallyCommand.MoveArmLaterally.Execute | src/commands/move_arm_laterally.py:15-18 | requests the stored speed through the arm's guard |
| MoveArmLaterallyCommand.MoveArmLaterally.End | src/commands/move_arm_laterally.py:24-26 | the lateral motor is set to 0 |
| MoveArmLaterallyCommand.MoveArmLaterally.Interrupted | src/commands/move_arm_laterally.py:28-30 | the same effect as End |
| MoveArmLaterallyCommand.MoveArmLaterally.Schedule | src/commands/move_arm_laterally.py:11-29 | each pass becomes the event its isFinished gives (a cancel on a cancelled pass), the loop stops exactly at termination, the hooks called are those of Lifecycle.Run on those events, and the run never reaches end; a terminated run leaves the lateral motor at 0 |
| MoveWinchCommand.MoveWinch.Execute | src/commands/move_winch.py:16-20 | the scoring left-stick value goes to move_winch unmodified |
| MoveWinchCommand.MoveWinch.End | src/commands/move_winch.py:26-28 | the winch is set to 0 |
| MoveWinchCommand.MoveWinch.Interrupted | src/commands/move_winch.py:30-32 | the same effect as End |
| MoveWinchCommand.MoveWinch.Schedule | src/commands/move_winch.py:12-32 | each pass becomes the event its isFinished gives (a cancel on a cancelled pass), the loop stops exactly at termination, the hooks called are those of Lifecycle.Run on those events, and the run never reaches end; a terminated run leaves the winch at 0, a running one at WinchSpeed of the stick |
| MoveControlPanelCommand.MoveControlPanel.Execute | src/commands/move_control_panel.py:16-20 | the scoring right-stick horizontal value goes to the panel |
| MoveControlPanelCommand.MoveControlPanel.End | src/commands/move_control_panel.py:26-28 | moves the panel at 0 |
| MoveControlPanelCommand.MoveControlPanel.Interrupted | src/commands/move_control_panel.py:30-32 | the same effect as End |
| MoveControlPanelCommand.MoveControlPanel.Schedule | src/commands/move_control_panel.py:12-32 | each pass becomes the event its isFinished gives (a cancel on a cancelled pass), the loop stops exactly at termination, the hooks called are those of Lifecycle.Run on those events, and the run never reaches end; a terminated run leaves the panel motor at 0, a running one at the stick-driven value |
| ReleasePanelCommand.ReleasePanel.constructor | src/commands/release_panel.py:5-8 | no timeout by default |
| ReleasePanelCommand.ReleasePanel.Execute | src/commands/release_panel.py:14-17 | sets the release to false |
| ReleasePanelCommand.ReleasePanel.End | src/commands/release_panel.py:23-25 | sets the release to true |
| ReleasePanelCommand.ReleasePanel.Interrupted | src/commands/release_panel.py:27-29 | the same effect as End |
| ReleasePanelCommand.ReleasePanel.Schedule | src/commands/release_panel.py:10-29 | each pass becomes the event its isFinished gives (a cancel on a cancelled pass), the loop stops exactly at termination, the hooks called are those of Lifecycle.Run on those events, and the run never reaches end; a terminated run leaves the grabber solenoid set, a running one cleared |
| ShootCommand.Shoot.Execute | src/commands/shoot.py:15-18 | moves the shooter at 1.0, so the motor gets the maximum speed |
| ShootCommand.Shoot.End | src/commands/shoot.py:24-26 | moves the shooter at 0 |
| ShootCommand.Shoot.Interrupted | src/commands/shoot.py:28-30 | the same effect as End |
| ShootCommand.Shoot.Schedule | src/commands/shoot.py:11-30 | each pass becomes the event its isFinished gives (a cancel on a cancelled pass), the loop stops exactly at termination, the hooks called are those of Lifecycle.Run on those events, and the run never reaches end; a terminated run leaves the shooter at 0, a running one at its maximum speed |
| Autonomous.UseDriveGyro | src/commands/autonomous.py:8-9 | true iff the drivetrain has a gyro |
| Autonomous.LoadConfig | src/commands/autonomous.py:31-33 | the speed and time from DRIVE_SPEED and DRIVE_TIME of section MoveFromLine, and an error iff either is missing |
| Autonomous.LoadConfigReadsOnlyItsKeys | src/commands/autonomous.py:31-33 | no other section or key affects the result |
| Autonomous.MoveFromLine.constructor | src/commands/autonomous.py:22-37 | exactly one step, DriveTime(time, speed), built with no actuation |
| Autonomous.MoveFromLine.InitializeCommands | src/commands/autonomous.py:35-37 | appends DriveTime with the time as duration and the speed as speed, in that order |

The `isFinished` of MoveArm, MoveElevator, MoveArmLaterally, MoveWinch,
MoveControlPanel, ReleasePanel and Shoot is the constant `false`, and that of
FeedCube is false for a non-negative feeder speed; their `Schedule` methods
apply `Lifecycle.NeverFinishedWithoutReport` to the events they produced, so
such a command only ends by cancellation. The `end` of FeedCube, MoveArm and
MoveElevator and the `interrupted` of MoveElevator have empty bodies and no
`modifies` clause, so they change nothing: after MoveElevator is cancelled the elevator keeps
its last request.

## Left out

- Configuration parsing: every configured value (channels, scales, maximum speeds, inversion flags, enabled flags, colour targets and the scoring map entries) is a constructor parameter; motor inversion is the motor controller's business and is not modelled.
- SmartDashboard telemetry: `Climbing.MoveWinch`, `Shooter.Move` and `Vacuum.Move` return nothing in the source; their out-parameter is the value they put on the dashboard. The rest of the telemetry is left out, including the `get_current_color` call at the end of `ControlPanel.move`, whose result is only displayed.
- The command framework itself: the scheduler, `requires` and preemption (only the set of required subsystems is recorded), `isTimedOut` (an input flag), and when `initialize` runs; `Lifecycle` is the assumed calling order.
- Inside a `Schedule` run the environment supplies only what a pass carries (encoder readings, elapsed time, the cube switch, the colour match result, the game message, the timed-out flag); the operator sticks and LineFollow's line sensors, gyro and sonar stay fixed for the whole run.
- SpinToColorCommand.SpinToColor.Schedule: states the target its ticks are judged against as the command's final target field, which only the first scheduled pass sets; it does not restate which game message that was.
- The `initialize` hooks that only call the base class have no effect and are not written out.
- Colour matching (`ColorMatch`, `ColorSensorV3`): the match result is an input of `GetCurrentColor` and `SpinToColor.IsFinished`.
- The game message: `oi.get_game_message` does not exist, so `SpinToColor.Initialize` takes the message as a parameter; `ControlPanel.PanelColor` at src/commands/spin_to_color.py:7 is taken to mean the module's `PanelColor`.
- The Elevator subsystem, `LowerElevatorToPosition` and `DriveTime` are not part of this model; `ElevatorInterface` and `ArmDriveInterface` only record what the commands request and let the environment set the encoder.
- tests/test_move_elevator.py:80-96 expects the elevator output to equal the stick value, while src/commands/move_elevator.py:18 negates it; the elevator's own configuration, which could reconcile the two, is not part of this model, and the model follows the command's code.
- DrivetrainSubsystem.Drivetrain.GetSonarDistance: the source calls `getDistance`, which the sonar does not define; the model uses `get_distance`.
- DrivetrainSubsystem.Drivetrain.TankDrive: the source calls the drive without checking that one exists; the model requires it.
- Crashes of the source are not modelled: the wrong dashboard calls in src/subsystems/climbing.py:30 and 67, the empty-tuple indexing in src/subsystems/drivetrain.py:153-155, a five-tuple read with only the far sensors configured (excluded by the drivetrain's `Valid`), a sonar with vcc 0 (excluded by the requires of `Sonar.MaxSonar.constructor`, `Sonar.MaxSonar.CalculateScaling` and `Sonar.MaxSonar.SetVcc`), and a missing autonomous key (the MoveFromLine constructor requires both keys; `LoadConfig` reports the error).
- The class-level `_controllers` list and the global rebinding of `JoystickAxis` / `JoystickButtons` in src/oi.py: the bindings and the two controllers are the `OI` constructor's parameters; button-to-command wiring, choosers and dashboard buttons are left out.
- `wheel_lift`, `do_nothing_shooter`, `raise_arm` and `find_line`: they only set a solenoid when present or do nothing; `raise_arm` calls a method `ControlPanel` does not have and `find_line` calls the unseen `move_arm`.
- The sonar's base-class `close`, resource reporting and naming; `AnalogInput.Close` only records that the input is closed.
- The differential drive records the calls it receives instead of computing motor outputs.
