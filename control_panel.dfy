/**
 * The control panel spinner: a motor, a colour sensor whose reading is
 * matched against four configured target colours, and a map from the colour
 * seen under the robot's sensor to the colour scored under the field's sensor.
 */
module ControlPanelSubsystem {
  import opened Devices

  /** PanelColor; NoColor is NONE. */
  datatype PanelColor = NoColor | Red | Green | Blue | Yellow

  /** A wpilib Color (red, green and blue components). */
  datatype Color = Color(red: real, green: real, blue: real)

  function Abs(x: real): real {
    if x < 0.0 then -x else x
  }

  /** The speed move keeps before scaling: clamped into [-1, 1], unchanged when already inside. */
  function Clamp(speed: real): (r: real)
    ensures -1.0 <= r <= 1.0
    ensures -1.0 <= speed <= 1.0 ==> r == speed
    ensures speed < -1.0 ==> r == -1.0
    ensures speed > 1.0 ==> r == 1.0
  {
    if speed < -1.0 then -1.0
    else if speed > 1.0 then 1.0
    else speed
  }

  /** |c * m| <= |m| whenever |c| <= 1. */
  lemma MagnitudeOfProduct(c: real, m: real)
    requires -1.0 <= c <= 1.0
    ensures Abs(c * m) <= Abs(m)
  {
    if c >= 0.0 && m >= 0.0 {
      assert c * m <= 1.0 * m;
    } else if c >= 0.0 {
      assert c * m >= 1.0 * m;
    } else if m >= 0.0 {
      assert c * m >= -1.0 * m;
    } else {
      assert c * m >= 0.0 * m;
      assert c * m <= -1.0 * m;
    }
  }

  /** The value move writes: a clamped request scaled by the maximum speed; never larger in magnitude than the maximum. */
  function PanelMotorValue(speed: real, maxSpeed: real): (r: real)
    ensures Abs(r) <= Abs(maxSpeed)
    ensures -1.0 <= speed <= 1.0 ==> r == speed * maxSpeed
  {
    var c := Clamp(speed);
    MagnitudeOfProduct(c, maxSpeed);
    c * maxSpeed
  }

  /**
   * get_current_color's dispatch on the match result: the first target in
   * the order red, blue, yellow, green that equals it; NoColor when none does.
   */
  function MatchedColor(matchResult: Color, redTarget: Color, blueTarget: Color,
                        yellowTarget: Color, greenTarget: Color): (c: PanelColor)
    ensures c == Red <==> matchResult == redTarget
    ensures c == Blue <==> matchResult != redTarget && matchResult == blueTarget
    ensures c == Yellow <==> matchResult != redTarget && matchResult != blueTarget && matchResult == yellowTarget
    ensures c == Green <==> matchResult != redTarget && matchResult != blueTarget &&
                            matchResult != yellowTarget && matchResult == greenTarget
    ensures c == NoColor <==> matchResult !in {redTarget, blueTarget, yellowTarget, greenTarget}
  {
    if matchResult == redTarget then Red
    else if matchResult == blueTarget then Blue
    else if matchResult == yellowTarget then Yellow
    else if matchResult == greenTarget then Green
    else NoColor
  }

  /** A map with an entry for each of the five values has an entry for every PanelColor. */
  lemma EveryColorIsListed(m: map<PanelColor, PanelColor>)
    requires NoColor in m && Red in m && Green in m && Blue in m && Yellow in m
    ensures forall c: PanelColor :: c in m
  {
    forall c: PanelColor ensures c in m {
      match c
      case NoColor =>
      case Red =>
      case Green =>
      case Blue =>
      case Yellow =>
    }
  }

  /** The scoring map _load_color_map builds: total over the five colours, NoColor to NoColor. */
  function ScoringMap(redMap: PanelColor, blueMap: PanelColor, yellowMap: PanelColor,
                      greenMap: PanelColor): (m: map<PanelColor, PanelColor>)
    ensures forall c: PanelColor :: c in m
    ensures m[NoColor] == NoColor
    ensures m[Red] == redMap && m[Blue] == blueMap && m[Yellow] == yellowMap && m[Green] == greenMap
  {
    var m := map[Red := redMap, Blue := blueMap, Yellow := yellowMap, Green := greenMap, NoColor := NoColor];
    EveryColorIsListed(m);
    m
  }

  class ControlPanel {
    const enabled: bool
    const motor: Motor?
    const maxSpeed: real
    const redTarget: Color
    const blueTarget: Color
    const yellowTarget: Color
    const greenTarget: Color
    const scoringMap: map<PanelColor, PanelColor>

    /** Enabled panels have a motor and a total scoring map. */
    ghost predicate Valid() {
      (enabled ==> motor != null) &&
      (enabled ==> (forall c: PanelColor :: c in scoringMap) && scoringMap[NoColor] == NoColor)
    }

    /** The motor and the four targets are stored whatever `enabled` is; only the scoring map depends on it and stays empty on a disabled panel. */
    constructor (enabled: bool, motor: Motor?, maxSpeed: real,
                 redTarget: Color, blueTarget: Color, yellowTarget: Color, greenTarget: Color,
                 redMap: PanelColor, blueMap: PanelColor, yellowMap: PanelColor, greenMap: PanelColor)
      requires enabled ==> motor != null
      ensures Valid()
      ensures this.enabled == enabled && this.motor == motor && this.maxSpeed == maxSpeed
      ensures this.redTarget == redTarget && this.blueTarget == blueTarget
      ensures this.yellowTarget == yellowTarget && this.greenTarget == greenTarget
      ensures scoringMap == if enabled then ScoringMap(redMap, blueMap, yellowMap, greenMap) else map[]
    {
      this.enabled := enabled;
      this.motor := motor;
      this.maxSpeed := maxSpeed;
      this.redTarget := redTarget;
      this.blueTarget := blueTarget;
      this.yellowTarget := yellowTarget;
      this.greenTarget := greenTarget;
      scoringMap := if enabled then ScoringMap(redMap, blueMap, yellowMap, greenMap) else map[];
    }

    /** get_current_color, given the colour matcher's result for the current reading. */
    function GetCurrentColor(matchResult: Color): (c: PanelColor)
      ensures !enabled ==> c == NoColor
      ensures enabled ==> c == MatchedColor(matchResult, redTarget, blueTarget, yellowTarget, greenTarget)
    {
      if !enabled then NoColor
      else MatchedColor(matchResult, redTarget, blueTarget, yellowTarget, greenTarget)
    }

    /** get_scored_color: NoColor when disabled, the scoring map's entry otherwise. */
    function GetScoredColor(found: PanelColor): (c: PanelColor)
      requires Valid()
      ensures !enabled ==> c == NoColor
      ensures enabled ==> c == scoringMap[found]
      ensures found == NoColor ==> c == NoColor
    {
      if !enabled then NoColor else scoringMap[found]
    }

    method Move(speed: real)
      requires Valid()
      modifies motor
      ensures enabled ==> motor.output == PanelMotorValue(speed, maxSpeed) &&
                          motor.writes == old(motor.writes) + 1
      ensures !enabled && motor != null ==> motor.output == old(motor.output) &&
                                            motor.writes == old(motor.writes)
    {
      if !enabled {
        return;
      }
      var s := speed;
      if s < -1.0 {
        s := -1.0;
      } else if s > 1.0 {
        s := 1.0;
      }
      motor.Set(s * maxSpeed);
    }
  }
}
