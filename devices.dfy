/**
 * The hardware boundary. Each class is the part of a wpilib device that the
 * robot code observes: what was last written to an output, and what an input
 * currently reports. Inputs are fields that only the environment changes.
 */
module Devices {

  /** A speed controller (Talon, PWMVictorSPX, PWMTalonSRX): the last value set and how many times set was called. */
  class Motor {
    var output: real
    var writes: nat

    constructor ()
      ensures output == 0.0 && writes == 0
    {
      output := 0.0;
      writes := 0;
    }

    method Set(speed: real)
      modifies this
      ensures output == speed && writes == old(writes) + 1
    {
      output := speed;
      writes := writes + 1;
    }
  }

  /** A pneumatic solenoid: the last state set and how many times set was called. */
  class Solenoid {
    var state: bool
    var writes: nat

    constructor ()
      ensures !state && writes == 0
    {
      state := false;
      writes := 0;
    }

    method Set(on: bool)
      modifies this
      ensures state == on && writes == old(writes) + 1
    {
      state := on;
      writes := writes + 1;
    }
  }

  /** A digital input (limit switch, cube switch, line sensor); `level` is what get() returns. */
  class DigitalInput {
    var level: bool

    constructor (level: bool)
      ensures this.level == level
    {
      this.level := level;
    }
  }

  /** A switch wired active-low: it reports true when present and its input reads false. */
  function ActiveLow(sw: DigitalInput?): bool
    reads sw
  {
    sw != null && !sw.level
  }

  /** A switch wired active-high: it reports true when present and its input reads true. */
  function ActiveHigh(sw: DigitalInput?): bool
    reads sw
  {
    sw != null && sw.level
  }

  /** A gyro; `angle` is what getAngle() returns. */
  class Gyro {
    var angle: real

    constructor (angle: real)
      ensures this.angle == angle
    {
      this.angle := angle;
    }

    /** reset(): the device re-zeroes; the model makes no claim about the next reading. */
    method Reset()
      modifies this
    {
    }
  }

  /** An analog input channel; `averageVoltage` is what getAverageVoltage() returns. */
  class AnalogInput {
    var averageVoltage: real
    var open: bool

    constructor (averageVoltage: real)
      ensures this.averageVoltage == averageVoltage && open
    {
      this.averageVoltage := averageVoltage;
      open := true;
    }

    method Close()
      modifies this
      ensures !open && averageVoltage == old(averageVoltage)
    {
      open := false;
    }
  }

  /** One call made on a DifferentialDrive. */
  datatype DriveCall =
    | Arcade(linear: real, rotation: real, squared: bool)
    | Tank(left: real, right: real, squared: bool)

  /** A differential drive: the log of every call made on it. */
  class DifferentialDrive {
    var calls: seq<DriveCall>

    constructor ()
      ensures calls == []
    {
      calls := [];
    }

    method ArcadeDrive(linear: real, rotation: real, squared: bool)
      modifies this
      ensures calls == old(calls) + [Arcade(linear, rotation, squared)]
    {
      calls := calls + [Arcade(linear, rotation, squared)];
    }

    method TankDrive(left: real, right: real, squared: bool)
      modifies this
      ensures calls == old(calls) + [Tank(left, right, squared)]
    {
      calls := calls + [Tank(left, right, squared)];
    }
  }

  /**
   * A stopwatch; the environment advances `elapsed` (seconds since the
   * last start) as time passes.
   */
  class Stopwatch {
    var running: bool
    var elapsed: real

    constructor ()
      ensures !running && elapsed == 0.0
    {
      running := false;
      elapsed := 0.0;
    }

    method Start()
      modifies this
      ensures running && elapsed == 0.0
    {
      running := true;
      elapsed := 0.0;
    }

    method Stop()
      modifies this
      ensures !running && elapsed == old(elapsed)
    {
      running := false;
    }

    function ElapsedTimeInSecs(): real
      reads this
    {
      elapsed
    }
  }
}
