/** The autonomous programs: whether the drive uses its gyro, and the single-step "move from line" routine. */
module Autonomous {
  import opened Wrappers
  import opened DrivetrainSubsystem

  /** use_drive_gyro: the drivetrain was built with a gyro. */
  predicate UseDriveGyro(drivetrain: Drivetrain)
    ensures UseDriveGyro(drivetrain) <==> drivetrain.gyro != null
  {
    drivetrain.IsGyroEnabled()
  }

  /** A step of a command group. DriveTime is not part of this model; only its arguments are recorded. */
  datatype Step = DriveTime(duration: real, speed: real)

  const Section: string := "MoveFromLine"
  const DriveSpeedKey: string := "DRIVE_SPEED"
  const DriveTimeKey: string := "DRIVE_TIME"

  /** A parsed configuration: (section, key) to float value. */
  type Config = map<(string, string), real>

  /**
   * _load_config: the drive speed and time from section MoveFromLine; a
   * missing key is an error (the parser raises).
   */
  function LoadConfig(config: Config): (r: Option<(real, real)>)
    ensures r.Some? <==> (Section, DriveSpeedKey) in config && (Section, DriveTimeKey) in config
    ensures r.Some? ==> r.value == (config[(Section, DriveSpeedKey)], config[(Section, DriveTimeKey)])
  {
    if (Section, DriveSpeedKey) in config && (Section, DriveTimeKey) in config then
      Some((config[(Section, DriveSpeedKey)], config[(Section, DriveTimeKey)]))
    else
      None
  }

  /** Values under any other section or key do not matter. */
  lemma LoadConfigReadsOnlyItsKeys(config: Config, section: string, key: string, value: real)
    requires (section, key) != (Section, DriveSpeedKey) && (section, key) != (Section, DriveTimeKey)
    ensures LoadConfig(config[(section, key) := value]) == LoadConfig(config)
  {
    var updated := config[(section, key) := value];
    assert (Section, DriveSpeedKey) in updated <==> (Section, DriveSpeedKey) in config;
    assert (Section, DriveTimeKey) in updated <==> (Section, DriveTimeKey) in config;
  }

  class MoveFromLine {
    const driveSpeed: real
    const driveTime: real
    var steps: seq<Step>

    /** Composition happens entirely here, with no actuation: one sequential DriveTime(time, speed). */
    constructor (config: Config)
      requires LoadConfig(config).Some?
      ensures (driveSpeed, driveTime) == LoadConfig(config).value
      ensures steps == [DriveTime(driveTime, driveSpeed)]
    {
      var loaded := LoadConfig(config).value;
      driveSpeed := loaded.0;
      driveTime := loaded.1;
      new;
      steps := [];
      InitializeCommands();
    }

    method InitializeCommands()
      modifies this`steps
      ensures steps == old(steps) + [DriveTime(driveTime, driveSpeed)]
    {
      var command := DriveTime(driveTime, driveSpeed);
      steps := steps + [command];
    }
  }
}
