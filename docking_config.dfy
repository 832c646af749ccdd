/** Docking rules for a harbour: compass headings, the size and speed
  * windows a docking zone admits, the per-type zone presets, and the
  * clamps the editor applies. */
module DockingConfig {
  import opened Mathf

  datatype DockingType = Pier | Berth | Anchor | Mooring

  datatype CardinalDirection = North | South | East | West | Northeast | Northwest | Southeast | Southwest

  datatype Vector3 = Vector3(x: real, y: real, z: real)

  datatype DockingAnimation = DockingAnimation(
    dockingDuration: real, undockingDuration: real, undockingDelay: real,
    disablePhysicsDuringDocking: bool, smoothPhysicsTransition: bool, physicsTransitionTime: real)

  datatype DockingZoneSettings = DockingZoneSettings(
    dockingType: DockingType, facingDirection: CardinalDirection, dockingOffset: Vector3,
    detectionRadius: real, minimumDockingSpeed: real, maximumDockingSpeed: real,
    minimumShipSize: real, maximumShipSize: real, approachAngle: real, approachDistance: real)

  datatype UndockingSettings = UndockingSettings(
    exitDirection: CardinalDirection, exitDistance: real, exitSpeed: real,
    clearanceDistance: real, undockingCooldown: real, returnToAutopilot: bool)

  /** The defaults a new zone gets. */
  const DefaultZone := DockingZoneSettings(Pier, North, Vector3(0.0, 0.0, 0.0), 30.0, 0.5, 8.0, 0.0, 50.0, 0.0, 80.0)

  /** The heading half a turn away. */
  function Opposite(d: CardinalDirection): CardinalDirection {
    match d
    case North => South
    case South => North
    case East => West
    case West => East
    case Northeast => Southwest
    case Southwest => Northeast
    case Northwest => Southeast
    case Southeast => Northwest
  }

  /** The heading one eighth of a turn clockwise. */
  function Clockwise(d: CardinalDirection): CardinalDirection {
    match d
    case North => Northeast
    case Northeast => East
    case East => Southeast
    case Southeast => South
    case South => Southwest
    case Southwest => West
    case West => Northwest
    case Northwest => North
  }

  /** `GetDirectionAngle`, in whole degrees clockwise from north. */
  function GetDirectionAngle(direction: CardinalDirection): (angle: int)
    ensures 0 <= angle <= 315 && angle % 45 == 0
  {
    match direction
    case North => 0
    case Northeast => 45
    case East => 90
    case Southeast => 135
    case South => 180
    case Southwest => 225
    case West => 270
    case Northwest => 315
  }

  /** An eighth of a turn clockwise adds 45 degrees, wrapping at 360. */
  lemma ClockwiseAddsEighth(d: CardinalDirection)
    ensures GetDirectionAngle(Clockwise(d)) == (GetDirectionAngle(d) + 45) % 360
  {
  }

  /** Different headings have different angles. */
  lemma DirectionAnglesDistinct(a: CardinalDirection, b: CardinalDirection)
    requires a != b
    ensures GetDirectionAngle(a) != GetDirectionAngle(b)
  {
  }

  /** Opposite headings are half a turn apart. */
  lemma OppositeIsHalfTurn(d: CardinalDirection)
    ensures GetDirectionAngle(Opposite(d)) == (GetDirectionAngle(d) + 180) % 360
  {
    var c := Clockwise(d);
    var c2 := Clockwise(c);
    var c3 := Clockwise(c2);
    assert Opposite(d) == Clockwise(c3);
    ClockwiseAddsEighth(d);
    ClockwiseAddsEighth(c);
    ClockwiseAddsEighth(c2);
    ClockwiseAddsEighth(c3);
  }

  /** `IsShipSizeCompatible`: an inclusive range test. */
  predicate IsShipSizeCompatible(shipSize: real, zone: DockingZoneSettings)
    ensures IsShipSizeCompatible(shipSize, zone) ==> zone.minimumShipSize <= zone.maximumShipSize
  {
    shipSize >= zone.minimumShipSize && shipSize <= zone.maximumShipSize
  }

  /** `IsSpeedValidForDocking`: an inclusive range test. */
  predicate IsSpeedValidForDocking(speed: real, zone: DockingZoneSettings)
    ensures IsSpeedValidForDocking(speed, zone) ==> zone.minimumDockingSpeed <= zone.maximumDockingSpeed
  {
    speed >= zone.minimumDockingSpeed && speed <= zone.maximumDockingSpeed
  }

  /** Both ends of an ordered window pass the check. */
  lemma WindowEndsAdmitted(zone: DockingZoneSettings)
    requires zone.minimumShipSize <= zone.maximumShipSize
    requires zone.minimumDockingSpeed <= zone.maximumDockingSpeed
    ensures IsShipSizeCompatible(zone.minimumShipSize, zone) && IsShipSizeCompatible(zone.maximumShipSize, zone)
    ensures IsSpeedValidForDocking(zone.minimumDockingSpeed, zone) && IsSpeedValidForDocking(zone.maximumDockingSpeed, zone)
  {
  }

  /** Each check admits a whole interval: whatever lies between two
    * admitted values is admitted too. */
  lemma WindowsAreIntervals(zone: DockingZoneSettings, low: real, high: real, x: real)
    requires low <= x <= high
    ensures IsShipSizeCompatible(low, zone) && IsShipSizeCompatible(high, zone) ==> IsShipSizeCompatible(x, zone)
    ensures IsSpeedValidForDocking(low, zone) && IsSpeedValidForDocking(high, zone) ==> IsSpeedValidForDocking(x, zone)
  {
  }

  /** The preset ship-size window of each docking type. */
  function SizeWindow(t: DockingType): (w: (real, real))
    ensures 0.0 <= w.0 < w.1
  {
    match t
    case Pier => (5.0, 80.0)
    case Berth => (10.0, 120.0)
    case Anchor => (0.0, 200.0)
    case Mooring => (3.0, 40.0)
  }

  /** The factor each docking type applies to the detection radius. */
  function DetectionFactor(t: DockingType): (f: real)
    ensures f > 0.0
  {
    match t
    case Pier => 1.0
    case Berth => 1.2
    case Anchor => 1.5
    case Mooring => 0.8
  }

  class DockingConfiguration {
    var animationSettings: DockingAnimation
    var defaultZoneSettings: DockingZoneSettings
    var undockingSettings: UndockingSettings
    var undockingHoldTime: real
    var updateInterval: real
    var maxSimultaneousDockings: int

    /** The asset's defaults. */
    constructor()
      ensures animationSettings == DockingAnimation(3.0, 2.0, 0.5, true, true, 0.5)
      ensures defaultZoneSettings == DefaultZone
      ensures undockingSettings == UndockingSettings(South, 40.0, 5.0, 60.0, 2.0, false)
      ensures undockingHoldTime == 1.0 && updateInterval == 0.1 && maxSimultaneousDockings == 3
    {
      animationSettings := DockingAnimation(3.0, 2.0, 0.5, true, true, 0.5);
      defaultZoneSettings := DefaultZone;
      undockingSettings := UndockingSettings(South, 40.0, 5.0, 60.0, 2.0, false);
      undockingHoldTime := 1.0;
      updateInterval := 0.1;
      maxSimultaneousDockings := 3;
    }

    /** `CreateZoneSettingsForType`: a copy of the default zone with the
      * type's size window and its detection radius scaled by the type's
      * factor; facing, offset, speeds and approach are the default's. */
    function CreateZoneSettingsForType(t: DockingType): (zone: DockingZoneSettings)
      reads this`defaultZoneSettings
      ensures zone.dockingType == t
      ensures zone.minimumShipSize < zone.maximumShipSize
      ensures (zone.minimumShipSize, zone.maximumShipSize) == SizeWindow(t)
      ensures zone.detectionRadius == defaultZoneSettings.detectionRadius * DetectionFactor(t)
      ensures zone.(dockingType := Pier, detectionRadius := 0.0, minimumShipSize := 0.0, maximumShipSize := 0.0) ==
              defaultZoneSettings.(dockingType := Pier, detectionRadius := 0.0, minimumShipSize := 0.0, maximumShipSize := 0.0)
    {
      var d := defaultZoneSettings;
      var settings := d.(dockingType := t, minimumShipSize := 0.0, maximumShipSize := 50.0);
      match t
      case Pier => settings.(minimumShipSize := 5.0, maximumShipSize := 80.0)
      case Berth => settings.(minimumShipSize := 10.0, maximumShipSize := 120.0, detectionRadius := d.detectionRadius * 1.2)
      case Anchor => settings.(minimumShipSize := 0.0, maximumShipSize := 200.0, detectionRadius := d.detectionRadius * 1.5)
      case Mooring => settings.(minimumShipSize := 3.0, maximumShipSize := 40.0, detectionRadius := d.detectionRadius * 0.8)
    }

    /** Every ship from 10 to 40 units fits a zone of every type, and an
      * anchorage takes any size the other presets take. */
    lemma PresetsOverlap(shipSize: real, t: DockingType)
      ensures 10.0 <= shipSize <= 40.0 ==> IsShipSizeCompatible(shipSize, CreateZoneSettingsForType(t))
      ensures IsShipSizeCompatible(shipSize, CreateZoneSettingsForType(t)) ==>
        IsShipSizeCompatible(shipSize, CreateZoneSettingsForType(Anchor))
    {
    }

    /** `OnValidate`: positive durations, a speed window at least 0.1 wide
      * and a size window at least 1 wide from non-negative minimums, and
      * the remaining clamps. */
    method OnValidate()
      modifies this
      ensures animationSettings.dockingDuration >= 0.1 && animationSettings.undockingDuration >= 0.1
      ensures animationSettings.undockingDelay >= 0.0 && animationSettings.physicsTransitionTime >= 0.1
      ensures var z := defaultZoneSettings;
        z.detectionRadius >= 5.0 && z.approachDistance >= 10.0 &&
        0.0 <= z.minimumDockingSpeed && z.maximumDockingSpeed >= z.minimumDockingSpeed + 0.1 &&
        0.0 <= z.minimumShipSize && z.maximumShipSize >= z.minimumShipSize + 1.0
      ensures undockingSettings.exitDistance >= 5.0 && undockingSettings.exitSpeed >= 0.1
      ensures undockingSettings.clearanceDistance >= 10.0 && undockingSettings.undockingCooldown >= 0.0
      ensures 0.02 <= updateInterval <= 2.0 && maxSimultaneousDockings >= 1 && undockingHoldTime >= 0.1
      // Each field below is its old value raised to its floor (or clamped);
      // every other field of the three settings keeps its old value.
      ensures var a := old(animationSettings);
        animationSettings == a.(dockingDuration := Max(0.1, a.dockingDuration),
                                undockingDuration := Max(0.1, a.undockingDuration),
                                undockingDelay := Max(0.0, a.undockingDelay),
                                physicsTransitionTime := Max(0.1, a.physicsTransitionTime))
      ensures var z := old(defaultZoneSettings);
        var minSpeed := Max(0.0, z.minimumDockingSpeed);
        var minSize := Max(0.0, z.minimumShipSize);
        defaultZoneSettings == z.(detectionRadius := Max(5.0, z.detectionRadius),
                                  minimumDockingSpeed := minSpeed,
                                  maximumDockingSpeed := Max(minSpeed + 0.1, z.maximumDockingSpeed),
                                  minimumShipSize := minSize,
                                  maximumShipSize := Max(minSize + 1.0, z.maximumShipSize),
                                  approachDistance := Max(10.0, z.approachDistance))
      ensures var u := old(undockingSettings);
        undockingSettings == u.(exitDistance := Max(5.0, u.exitDistance), exitSpeed := Max(0.1, u.exitSpeed),
                                clearanceDistance := Max(10.0, u.clearanceDistance),
                                undockingCooldown := Max(0.0, u.undockingCooldown))
      ensures updateInterval == Clamp(old(updateInterval), 0.02, 2.0)
      ensures maxSimultaneousDockings == MaxInt(1, old(maxSimultaneousDockings))
      ensures undockingHoldTime == Max(0.1, old(undockingHoldTime))
    {
      var a := animationSettings;
      animationSettings := a.(dockingDuration := Max(0.1, a.dockingDuration),
                              undockingDuration := Max(0.1, a.undockingDuration),
                              undockingDelay := Max(0.0, a.undockingDelay),
                              physicsTransitionTime := Max(0.1, a.physicsTransitionTime));
      var z := defaultZoneSettings;
      z := z.(detectionRadius := Max(5.0, z.detectionRadius));
      z := z.(minimumDockingSpeed := Max(0.0, z.minimumDockingSpeed));
      z := z.(maximumDockingSpeed := Max(z.minimumDockingSpeed + 0.1, z.maximumDockingSpeed));
      z := z.(minimumShipSize := Max(0.0, z.minimumShipSize));
      z := z.(maximumShipSize := Max(z.minimumShipSize + 1.0, z.maximumShipSize));
      z := z.(approachDistance := Max(10.0, z.approachDistance));
      defaultZoneSettings := z;
      var u := undockingSettings;
      undockingSettings := u.(exitDistance := Max(5.0, u.exitDistance), exitSpeed := Max(0.1, u.exitSpeed),
                              clearanceDistance := Max(10.0, u.clearanceDistance),
                              undockingCooldown := Max(0.0, u.undockingCooldown));
      updateInterval := Clamp(updateInterval, 0.02, 2.0);
      maxSimultaneousDockings := MaxInt(1, maxSimultaneousDockings);
      undockingHoldTime := Max(0.1, undockingHoldTime);
    }

    /** After validation the default zone admits a ship at its own minimum
      * size and speed, and a zone made from it for any type admits a ship
      * at the default's minimum speed. */
    lemma ValidatedZonesUsable(t: DockingType)
      requires defaultZoneSettings.minimumDockingSpeed >= 0.0
      requires defaultZoneSettings.maximumDockingSpeed >= defaultZoneSettings.minimumDockingSpeed + 0.1
      requires defaultZoneSettings.maximumShipSize >= defaultZoneSettings.minimumShipSize + 1.0
      ensures IsShipSizeCompatible(defaultZoneSettings.minimumShipSize, defaultZoneSettings)
      ensures IsSpeedValidForDocking(defaultZoneSettings.minimumDockingSpeed, CreateZoneSettingsForType(t))
    {
    }
  }
}
