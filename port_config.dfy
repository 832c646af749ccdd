/** Core settings of one harbour: its protection zone, the number of
  * docking spots suggested for its size, which named services it offers,
  * and the clamps the editor applies to its fields. */
module PortConfig {
  import opened Strings
  import opened Mathf

  datatype PortType = TradingPort | MilitaryBase | FishingVillage | IndustrialPort | CulturalHub

  datatype PortSize = Small | Medium | Large | Massive

  /** Rank of a size, smallest first. */
  function SizeRank(size: PortSize): (n: nat)
    ensures n < 4
  {
    match size
    case Small => 0
    case Medium => 1
    case Large => 2
    case Massive => 3
  }

  /** The docking-zone range each size stands for: 1-3, 4-6, 7-10 and 11
    * or more (no upper bound for `Massive`). */
  predicate InSizeRange(size: PortSize, zones: int) {
    match size
    case Small => 1 <= zones <= 3
    case Medium => 4 <= zones <= 6
    case Large => 7 <= zones <= 10
    case Massive => 11 <= zones
  }

  datatype ServiceAvailability = ServiceAvailability(
    hasRepairService: bool, hasRefuelService: bool, hasTradingService: bool, hasUpgradeService: bool,
    hasStorageService: bool, hasCrewService: bool, hasMissionService: bool, hasBankingService: bool,
    serviceQuality: real, priceMultiplier: real)

  /** The eight service names `IsServiceAvailable` recognises. */
  const ServiceNames: set<string> := {"repair", "refuel", "trading", "upgrade", "storage", "crew", "mission", "banking"}

  class PortConfiguration {
    var portName: string
    var portType: PortType
    var portSize: PortSize
    var protectionRadius: real
    var protectionWarningDistance: real
    var services: ServiceAvailability
    var prosperityLevel: real
    var securityLevel: real
    var shelterLevel: real
    var waterDepth: real
    var infrastructureQuality: real

    /** The asset's defaults. */
    constructor()
      ensures portName == "New Harbor" && portType == TradingPort && portSize == Medium
      ensures protectionRadius == 800.0 && protectionWarningDistance == 150.0
      ensures services == ServiceAvailability(true, true, true, false, false, false, true, false, 1.0, 1.0)
      ensures prosperityLevel == 0.6 && securityLevel == 0.7 && shelterLevel == 0.8
      ensures waterDepth == 0.7 && infrastructureQuality == 0.6
    {
      portName := "New Harbor";
      portType := TradingPort;
      portSize := Medium;
      protectionRadius := 800.0;
      protectionWarningDistance := 150.0;
      services := ServiceAvailability(true, true, true, false, false, false, true, false, 1.0, 1.0);
      prosperityLevel := 0.6;
      securityLevel := 0.7;
      shelterLevel := 0.8;
      waterDepth := 0.7;
      infrastructureQuality := 0.6;
    }

    /** `IsWithinProtectionZone`, on the player's distance from the port. */
    predicate IsWithinProtectionZone(distance: real)
      reads this`protectionRadius
    {
      distance <= protectionRadius
    }

    /** The zone is the warning band at its edge together with the area
      * inside the band; its boundary belongs to it, and so does the port
      * itself; whoever is in it is still in it nearer the port. */
    lemma ProtectionZoneLayout(distance: real, nearer: real)
      requires protectionWarningDistance >= 0.0
      ensures IsWithinProtectionZone(distance) <==>
        IsApproachingProtectionBoundary(distance) || distance < protectionRadius - protectionWarningDistance
      ensures IsWithinProtectionZone(protectionRadius)
      ensures protectionRadius >= 0.0 ==> IsWithinProtectionZone(0.0)
      ensures IsWithinProtectionZone(distance) && nearer <= distance ==> IsWithinProtectionZone(nearer)
    {
    }

    /** `IsApproachingProtectionBoundary`: within the warning band at the
      * edge of the zone, which lies inside the zone. */
    predicate IsApproachingProtectionBoundary(distance: real)
      reads this`protectionRadius, this`protectionWarningDistance
      ensures IsApproachingProtectionBoundary(distance) ==> IsWithinProtectionZone(distance)
      ensures IsApproachingProtectionBoundary(distance) ==> protectionRadius - protectionWarningDistance <= distance
    {
      distance >= protectionRadius - protectionWarningDistance && distance <= protectionRadius
    }

    /** Once the settings have been validated, the warning band is a
      * non-empty band at least 10 units wide that keeps at least 10 units
      * away from the port. */
    lemma WarningBandAfterValidation(distance: real)
      requires protectionRadius >= 100.0
      requires 10.0 <= protectionWarningDistance <= protectionRadius - 10.0
      ensures IsApproachingProtectionBoundary(protectionRadius)
      ensures IsApproachingProtectionBoundary(protectionRadius - 10.0)
      ensures IsApproachingProtectionBoundary(distance) ==> distance >= 10.0
    {
    }

    /** `GetSuggestedDockingLocations`: one count per size. */
    function GetSuggestedDockingLocations(): (n: int)
      reads this`portSize
      ensures InSizeRange(portSize, n)
    {
      match portSize
      case Small => 3
      case Medium => 6
      case Large => 10
      case Massive => 15
    }

    /** `IsServiceAvailable`: a recognised name (in any letter case) reports
      * its switch; any other name is unavailable. */
    predicate IsServiceAvailable(serviceType: string)
      reads this`services
      ensures IsServiceAvailable(serviceType) ==> ToLower(serviceType) in ServiceNames
      ensures ToLower(serviceType) == "repair" ==> (IsServiceAvailable(serviceType) <==> services.hasRepairService)
      ensures ToLower(serviceType) == "refuel" ==> (IsServiceAvailable(serviceType) <==> services.hasRefuelService)
      ensures ToLower(serviceType) == "trading" ==> (IsServiceAvailable(serviceType) <==> services.hasTradingService)
      ensures ToLower(serviceType) == "upgrade" ==> (IsServiceAvailable(serviceType) <==> services.hasUpgradeService)
      ensures ToLower(serviceType) == "storage" ==> (IsServiceAvailable(serviceType) <==> services.hasStorageService)
      ensures ToLower(serviceType) == "crew" ==> (IsServiceAvailable(serviceType) <==> services.hasCrewService)
      ensures ToLower(serviceType) == "mission" ==> (IsServiceAvailable(serviceType) <==> services.hasMissionService)
      ensures ToLower(serviceType) == "banking" ==> (IsServiceAvailable(serviceType) <==> services.hasBankingService)
    {
      match ToLower(serviceType)
      case "repair" => services.hasRepairService
      case "refuel" => services.hasRefuelService
      case "trading" => services.hasTradingService
      case "upgrade" => services.hasUpgradeService
      case "storage" => services.hasStorageService
      case "crew" => services.hasCrewService
      case "mission" => services.hasMissionService
      case "banking" => services.hasBankingService
      case _ => false
    }

    /** `OnValidate`: restores the default name, keeps the radius at least
      * 100 and the warning band between 10 and radius - 10, and clamps the
      * levels to [0, 1] and the service multipliers to their ranges. */
    method OnValidate()
      modifies this
      ensures portName == (if old(portName) == "" then "New Harbor" else old(portName))
      ensures portType == old(portType) && portSize == old(portSize)
      ensures protectionRadius == Max(100.0, old(protectionRadius))
      ensures 10.0 <= protectionWarningDistance <= protectionRadius - 10.0
      ensures 10.0 <= old(protectionWarningDistance) <= old(protectionRadius) - 10.0 && old(protectionRadius) >= 100.0 ==>
        protectionWarningDistance == old(protectionWarningDistance)
      ensures 0.0 <= prosperityLevel <= 1.0 && 0.0 <= securityLevel <= 1.0 && 0.0 <= shelterLevel <= 1.0
      ensures 0.0 <= waterDepth <= 1.0 && 0.0 <= infrastructureQuality <= 1.0
      ensures 0.1 <= services.serviceQuality <= 3.0 && 0.1 <= services.priceMultiplier <= 5.0
      ensures services.(serviceQuality := 0.0, priceMultiplier := 0.0) == old(services).(serviceQuality := 0.0, priceMultiplier := 0.0)
      ensures protectionWarningDistance == Max(10.0, Min(old(protectionWarningDistance), protectionRadius - 10.0))
      ensures prosperityLevel == Clamp01(old(prosperityLevel)) && securityLevel == Clamp01(old(securityLevel))
      ensures shelterLevel == Clamp01(old(shelterLevel)) && waterDepth == Clamp01(old(waterDepth))
      ensures infrastructureQuality == Clamp01(old(infrastructureQuality))
      ensures services.serviceQuality == Clamp(old(services.serviceQuality), 0.1, 3.0)
      ensures services.priceMultiplier == Clamp(old(services.priceMultiplier), 0.1, 5.0)
    {
      if portName == "" {
        portName := "New Harbor";
      }
      protectionRadius := Max(100.0, protectionRadius);
      protectionWarningDistance := Max(10.0, Min(protectionWarningDistance, protectionRadius - 10.0));
      prosperityLevel := Clamp01(prosperityLevel);
      securityLevel := Clamp01(securityLevel);
      shelterLevel := Clamp01(shelterLevel);
      waterDepth := Clamp01(waterDepth);
      infrastructureQuality := Clamp01(infrastructureQuality);
      services := services.(serviceQuality := Clamp(services.serviceQuality, 0.1, 3.0),
                            priceMultiplier := Clamp(services.priceMultiplier, 0.1, 5.0));
    }
  }

  /** A larger port is never suggested fewer docking locations. */
  lemma SuggestedLocationsGrow(smaller: PortConfiguration, larger: PortConfiguration)
    requires SizeRank(smaller.portSize) < SizeRank(larger.portSize)
    ensures smaller.GetSuggestedDockingLocations() < larger.GetSuggestedDockingLocations()
  {
  }
}
