/**
 * The drivetrain: two motors behind a differential drive, an optional gyro
 * and sonar whose last readings are cached, and up to five line sensors.
 */
module DrivetrainSubsystem {
  import opened Devices
  import Sonar

  /** The drive expects rotation with the opposite sign; every turn angle is multiplied by -1. */
  const ArcadeRotationModifier: real := -1.0

  /** _modify_turn_angle: the rotation actually passed to the drive. */
  function ModifyTurnAngle(turnAngle: real): (r: real)
    ensures r == -turnAngle
  {
    ArcadeRotationModifier * turnAngle
  }

  /** Applying the modifier twice gives back the operator's angle; a turn changes direction, never size. */
  lemma ModifyTurnAngleIsInvolution(turnAngle: real)
    ensures ModifyTurnAngle(ModifyTurnAngle(turnAngle)) == turnAngle
    ensures (turnAngle > 0.0 <==> ModifyTurnAngle(turnAngle) < 0.0)
  {
  }

  class Drivetrain {
    const leftMotor: Motor?
    const rightMotor: Motor?
    const drive: DifferentialDrive?
    const gyro: Gyro?
    const sonar: Sonar.MaxSonar?
    const farLeftLine: DigitalInput?
    const leftLine: DigitalInput?
    const centerLine: DigitalInput?
    const rightLine: DigitalInput?
    const farRightLine: DigitalInput?
    const maxSpeed: real
    var gyroAngle: real
    var sonarDistance: real

    /**
     * A drive exists exactly when both motors do; the far line sensors are
     * configured only together with the three inner ones (reading a 5-tuple
     * otherwise fails in the source).
     */
    ghost predicate Valid() {
      (drive != null <==> leftMotor != null && rightMotor != null) &&
      (farLeftLine != null && farRightLine != null ==>
         leftLine != null && centerLine != null && rightLine != null)
    }

    constructor (leftMotor: Motor?, rightMotor: Motor?, gyro: Gyro?, sonar: Sonar.MaxSonar?,
                 farLeftLine: DigitalInput?, leftLine: DigitalInput?, centerLine: DigitalInput?,
                 rightLine: DigitalInput?, farRightLine: DigitalInput?, maxSpeed: real := 0.0)
      requires farLeftLine != null && farRightLine != null ==>
                 leftLine != null && centerLine != null && rightLine != null
      ensures Valid()
      ensures this.leftMotor == leftMotor && this.rightMotor == rightMotor
      ensures drive != null ==> fresh(drive) && drive.calls == []
      ensures this.gyro == gyro && this.sonar == sonar && this.maxSpeed == maxSpeed
      ensures this.farLeftLine == farLeftLine && this.leftLine == leftLine && this.centerLine == centerLine
      ensures this.rightLine == rightLine && this.farRightLine == farRightLine
      ensures gyroAngle == 0.0 && sonarDistance == 0.0
    {
      this.leftMotor := leftMotor;
      this.rightMotor := rightMotor;
      this.gyro := gyro;
      this.sonar := sonar;
      this.farLeftLine := farLeftLine;
      this.leftLine := leftLine;
      this.centerLine := centerLine;
      this.rightLine := rightLine;
      this.farRightLine := farRightLine;
      this.maxSpeed := maxSpeed;
      gyroAngle := 0.0;
      sonarDistance := 0.0;
      if leftMotor != null && rightMotor != null {
        drive := new DifferentialDrive();
      } else {
        drive := null;
      }
    }

    /**
     * get_line_follow_state: (far_left, left, center, right, far_right) when
     * both far sensors exist; else (left, center, right) when those three
     * exist; else the empty tuple.
     */
    function GetLineFollowState(): (r: seq<bool>)
      requires Valid()
      reads farLeftLine, leftLine, centerLine, rightLine, farRightLine
      ensures |r| == 5 <==> farLeftLine != null && farRightLine != null
      ensures |r| == 3 <==> !(farLeftLine != null && farRightLine != null) &&
                            leftLine != null && centerLine != null && rightLine != null
      ensures |r| == 0 || |r| == 3 || |r| == 5
      ensures |r| == 5 ==> r == [farLeftLine.level, leftLine.level, centerLine.level,
                                 rightLine.level, farRightLine.level]
      ensures |r| == 3 ==> r == [leftLine.level, centerLine.level, rightLine.level]
    {
      if farLeftLine != null && farRightLine != null then
        [farLeftLine.level, leftLine.level, centerLine.level, rightLine.level, farRightLine.level]
      else if leftLine != null && centerLine != null && rightLine != null then
        [leftLine.level, centerLine.level, rightLine.level]
      else
        []
    }

    /** get_gyro_angle: a fresh reading, cached, when a gyro exists; otherwise the cached value. */
    method GetGyroAngle() returns (angle: real)
      modifies this`gyroAngle
      ensures gyroAngle == (if gyro != null then gyro.angle else old(gyroAngle))
      ensures angle == gyroAngle
    {
      if gyro != null {
        gyroAngle := gyro.angle;
      }
      angle := gyroAngle;
    }

    method ResetGyroAngle() returns (angle: real)
      modifies this`gyroAngle, gyro
      ensures gyro == null ==> gyroAngle == old(gyroAngle)
      ensures gyro != null ==> gyroAngle == gyro.angle
      ensures angle == gyroAngle
    {
      if gyro != null {
        gyro.Reset();
        gyroAngle := gyro.angle;
      }
      angle := gyroAngle;
    }

    /** get_sonar_distance: a fresh reading, cached, when a sonar exists; otherwise the cached value. */
    method GetSonarDistance() returns (distance: real)
      modifies this`sonarDistance
      ensures sonarDistance == (if sonar != null then sonar.GetDistance() else old(sonarDistance))
      ensures distance == sonarDistance
    {
      if sonar != null {
        sonarDistance := sonar.GetDistance();
      }
      distance := sonarDistance;
    }

    /** is_gyro_enabled: whether a gyro was constructed. */
    predicate IsGyroEnabled()
      ensures IsGyroEnabled() <==> gyro != null
    {
      gyro != null
    }

    /** tank_drive scales both sides by the maximum speed; it assumes the drive exists. */
    method TankDrive(leftSpeed: real, rightSpeed: real)
      requires drive != null
      modifies drive, this`gyroAngle, this`sonarDistance
      ensures drive.calls == old(drive.calls) + [Tank(leftSpeed * maxSpeed, rightSpeed * maxSpeed, false)]
      ensures gyroAngle == (if gyro != null then gyro.angle else old(gyroAngle))
      ensures sonarDistance == (if sonar != null then sonar.GetDistance() else old(sonarDistance))
    {
      var left := leftSpeed * maxSpeed;
      var right := rightSpeed * maxSpeed;
      drive.TankDrive(left, right, false);
      var _ := GetGyroAngle();
      var _ := GetSonarDistance();
    }

    /** arcade_drive passes the negated turn angle to the drive, and makes no drive call without one. */
    method ArcadeDrive(linearDistance: real, turnAngle: real, squaredInputs: bool := true)
      modifies drive, this`gyroAngle, this`sonarDistance
      ensures drive != null ==>
        drive.calls == old(drive.calls) + [Arcade(linearDistance, -turnAngle, squaredInputs)]
      ensures gyroAngle == (if gyro != null then gyro.angle else old(gyroAngle))
      ensures sonarDistance == (if sonar != null then sonar.GetDistance() else old(sonarDistance))
    {
      var determinedTurnAngle := ModifyTurnAngle(turnAngle);
      if drive != null {
        drive.ArcadeDrive(linearDistance, determinedTurnAngle, squaredInputs);
      }
      var _ := GetGyroAngle();
      var _ := GetSonarDistance();
    }
  }
}
