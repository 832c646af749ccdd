/** How the port system plugs into the camera, input, LOD, save and debug
  * systems: string-keyed switches (compared after `ToLower`) and a
  * distance-band LOD query, plus the clamps the editor applies. */
module PortIntegration {
  import opened Strings
  import opened Mathf
  import opened EnvironmentLod

  datatype CameraMode = Automatic | FollowOnly | FocusPort | FreeLook

  datatype CameraIntegrationSettings = CameraIntegrationSettings(
    dockedCameraMode: CameraMode, approachingCameraMode: CameraMode, undockingCameraMode: CameraMode,
    cameraTransitionTime: real, dockedZoomLevel: real)

  datatype InputIntegrationSettings = InputIntegrationSettings(
    lockShipMovementInUI: bool, lockCameraInputInUI: bool, inputHintDuration: real)

  datatype LODIntegrationSettings = LODIntegrationSettings(
    portLODPriority: real, portLODUpdateFrequency: real, portVisibilityRange: real,
    highDetailRange: real, mediumDetailRange: real, lowDetailRange: real,
    performanceThreshold: real, recoveryThreshold: real)

  datatype PerformanceIntegrationSettings = PerformanceIntegrationSettings(
    frameTimeThreshold: real, memoryThreshold: real,
    particleQualityScale: real, audioQualityScale: real, uiAnimationQualityScale: real)

  datatype SaveSystemIntegrationSettings = SaveSystemIntegrationSettings(
    autoSaveOnDocking: bool, autoSaveOnUndocking: bool, saveServiceTransactions: bool,
    autoSaveDelay: real, maxAutoSavesPerSession: int)

  datatype DebugIntegrationSettings = DebugIntegrationSettings(
    useWOSDebugging: bool, logLevel: int, logPerformanceWarnings: bool)

  /** `ShouldLogMessage` on the debug settings alone. */
  predicate LogsMessage(debug: DebugIntegrationSettings, messageType: string) {
    debug.useWOSDebugging &&
    match ToLower(messageType)
    case "error" => debug.logLevel >= 0
    case "warning" => debug.logLevel >= 1
    case "info" => debug.logLevel >= 2
    case "verbose" => debug.logLevel >= 3
    case "performance" => debug.logPerformanceWarnings && debug.logLevel >= 1
    case _ => debug.logLevel >= 2
  }

  /** Raising the log level never silences a message. */
  lemma LogLevelMonotone(debug: DebugIntegrationSettings, higher: int, messageType: string)
    requires higher >= debug.logLevel && LogsMessage(debug, messageType)
    ensures LogsMessage(debug.(logLevel := higher), messageType)
  {
  }

  class PortIntegrationConfiguration {
    var cameraIntegration: CameraIntegrationSettings
    var inputIntegration: InputIntegrationSettings
    var lodIntegration: LODIntegrationSettings
    var performanceIntegration: PerformanceIntegrationSettings
    var saveSystemIntegration: SaveSystemIntegrationSettings
    var debugIntegration: DebugIntegrationSettings
    var minimumRequiredMemory: real

    /** The asset's defaults. */
    constructor()
      ensures cameraIntegration == CameraIntegrationSettings(FocusPort, Automatic, FollowOnly, 2.0, 1.2)
      ensures inputIntegration == InputIntegrationSettings(true, false, 3.0)
      ensures lodIntegration == LODIntegrationSettings(0.8, 0.5, 1500.0, 400.0, 800.0, 1200.0, 0.7, 0.8)
      ensures performanceIntegration == PerformanceIntegrationSettings(20.0, 200.0, 1.0, 1.0, 1.0)
      ensures saveSystemIntegration == SaveSystemIntegrationSettings(true, false, true, 3.0, 20)
      ensures debugIntegration == DebugIntegrationSettings(true, 1, true)
      ensures minimumRequiredMemory == 500.0
    {
      cameraIntegration := CameraIntegrationSettings(FocusPort, Automatic, FollowOnly, 2.0, 1.2);
      inputIntegration := InputIntegrationSettings(true, false, 3.0);
      lodIntegration := LODIntegrationSettings(0.8, 0.5, 1500.0, 400.0, 800.0, 1200.0, 0.7, 0.8);
      performanceIntegration := PerformanceIntegrationSettings(20.0, 200.0, 1.0, 1.0, 1.0);
      saveSystemIntegration := SaveSystemIntegrationSettings(true, false, true, 3.0, 20);
      debugIntegration := DebugIntegrationSettings(true, 1, true);
      minimumRequiredMemory := 500.0;
    }

    /** `GetCameraModeForState`: the configured mode for "docked",
      * "approaching" and "undocking" in any letter case, `Automatic` for
      * anything else. */
    function GetCameraModeForState(portState: string): (mode: CameraMode)
      reads this`cameraIntegration
      ensures ToLower(portState) !in {"docked", "approaching", "undocking"} ==> mode == Automatic
      ensures ToLower(portState) == "docked" ==> mode == cameraIntegration.dockedCameraMode
      ensures ToLower(portState) == "approaching" ==> mode == cameraIntegration.approachingCameraMode
      ensures ToLower(portState) == "undocking" ==> mode == cameraIntegration.undockingCameraMode
    {
      match ToLower(portState)
      case "docked" => cameraIntegration.dockedCameraMode
      case "approaching" => cameraIntegration.approachingCameraMode
      case "undocking" => cameraIntegration.undockingCameraMode
      case _ => Automatic
    }

    /** `ShouldLockInput`: nothing is locked while the UI is closed; then
      * ship or camera input by their switches, anything else never. */
    predicate ShouldLockInput(inputType: string, uiActive: bool)
      reads this`inputIntegration
      ensures ShouldLockInput(inputType, uiActive) ==> uiActive && ToLower(inputType) in {"ship", "camera"}
    {
      uiActive &&
      match ToLower(inputType)
      case "ship" => inputIntegration.lockShipMovementInUI
      case "camera" => inputIntegration.lockCameraInputInUI
      case _ => false
    }

    /** `GetLODForDistance`: the three detail ranges scaled by the
      * multiplier, then the unscaled visibility range. */
    function GetLODForDistance(distance: real, performanceMultiplier: real): (l: LODLevel)
      reads this`lodIntegration
      ensures l == Culled <==>
        distance > lodIntegration.portVisibilityRange &&
        distance > lodIntegration.highDetailRange * performanceMultiplier &&
        distance > lodIntegration.mediumDetailRange * performanceMultiplier &&
        distance > lodIntegration.lowDetailRange * performanceMultiplier
    {
      var s := lodIntegration;
      Classify(distance, s.highDetailRange * performanceMultiplier, s.mediumDetailRange * performanceMultiplier,
               s.lowDetailRange * performanceMultiplier, s.portVisibilityRange)
    }

    /** A farther port never gets a finer level. */
    lemma LODForDistanceMonotone(d1: real, d2: real, performanceMultiplier: real)
      requires d1 <= d2
      ensures Rank(GetLODForDistance(d1, performanceMultiplier)) <= Rank(GetLODForDistance(d2, performanceMultiplier))
    {
      var s := lodIntegration;
      ClassifyMonotone(d1, d2, s.highDetailRange * performanceMultiplier, s.mediumDetailRange * performanceMultiplier,
                       s.lowDetailRange * performanceMultiplier, s.portVisibilityRange);
    }

    /** `ShouldAutoSave`: never once the session's saves reach the maximum;
      * otherwise docking, undocking and service transactions by their
      * switches. */
    predicate ShouldAutoSave(saveEvent: string, currentSaveCount: int)
      reads this`saveSystemIntegration
      ensures ShouldAutoSave(saveEvent, currentSaveCount) ==>
        currentSaveCount < saveSystemIntegration.maxAutoSavesPerSession &&
        ToLower(saveEvent) in {"docking", "undocking", "service_transaction"}
    {
      currentSaveCount < saveSystemIntegration.maxAutoSavesPerSession &&
      match ToLower(saveEvent)
      case "docking" => saveSystemIntegration.autoSaveOnDocking
      case "undocking" => saveSystemIntegration.autoSaveOnUndocking
      case "service_transaction" => saveSystemIntegration.saveServiceTransactions
      case _ => false
    }

    /** `ShouldLogMessage`. */
    predicate ShouldLogMessage(messageType: string)
      reads this`debugIntegration
      ensures ShouldLogMessage(messageType) ==> debugIntegration.useWOSDebugging
      ensures debugIntegration.useWOSDebugging && debugIntegration.logLevel >= 0 && ToLower(messageType) == "error" ==>
        ShouldLogMessage(messageType)
    {
      LogsMessage(debugIntegration, messageType)
    }

    /** `OnValidate`: the clamps and the chain that keeps the detail ranges
      * at least 50 apart and the visibility range 100 past them. */
    method OnValidate()
      modifies this
      ensures cameraIntegration.cameraTransitionTime >= 0.1 && 0.1 <= cameraIntegration.dockedZoomLevel <= 5.0
      ensures inputIntegration.inputHintDuration >= 0.5
      ensures var s := lodIntegration;
        0.0 <= s.portLODPriority <= 1.0 && s.portLODUpdateFrequency >= 0.1 &&
        50.0 <= s.highDetailRange < s.mediumDetailRange < s.lowDetailRange < s.portVisibilityRange &&
        0.1 <= s.performanceThreshold <= 0.95 && s.recoveryThreshold >= s.performanceThreshold + 0.05
      ensures performanceIntegration.frameTimeThreshold >= 8.0 && performanceIntegration.memoryThreshold >= 50.0
      ensures saveSystemIntegration.autoSaveDelay >= 0.0 && saveSystemIntegration.maxAutoSavesPerSession >= 1
      ensures 0 <= debugIntegration.logLevel <= 3
      ensures minimumRequiredMemory >= 100.0
      ensures (old(lodIntegration.highDetailRange) >= 50.0 &&
               old(lodIntegration.mediumDetailRange) >= old(lodIntegration.highDetailRange) + 50.0 &&
               old(lodIntegration.lowDetailRange) >= old(lodIntegration.mediumDetailRange) + 50.0 &&
               old(lodIntegration.portVisibilityRange) >= old(lodIntegration.lowDetailRange) + 100.0) ==>
        lodIntegration.highDetailRange == old(lodIntegration.highDetailRange) &&
        lodIntegration.portVisibilityRange == old(lodIntegration.portVisibilityRange)
      // Each clamped field in terms of its old value; every other field of
      // the settings keeps its old value.
      ensures var c := old(cameraIntegration);
        cameraIntegration == c.(cameraTransitionTime := Max(0.1, c.cameraTransitionTime),
                                dockedZoomLevel := Clamp(c.dockedZoomLevel, 0.1, 5.0))
      ensures inputIntegration == old(inputIntegration).(inputHintDuration := Max(0.5, old(inputIntegration.inputHintDuration)))
      ensures var l := old(lodIntegration);
        var high := Max(50.0, l.highDetailRange);
        var medium := Max(high + 50.0, l.mediumDetailRange);
        var low := Max(medium + 50.0, l.lowDetailRange);
        var performance := Clamp(l.performanceThreshold, 0.1, 0.95);
        lodIntegration == l.(portLODPriority := Clamp01(l.portLODPriority),
                             portLODUpdateFrequency := Max(0.1, l.portLODUpdateFrequency),
                             highDetailRange := high, mediumDetailRange := medium, lowDetailRange := low,
                             portVisibilityRange := Max(low + 100.0, l.portVisibilityRange),
                             performanceThreshold := performance,
                             recoveryThreshold := Max(performance + 0.05, l.recoveryThreshold))
      ensures var p := old(performanceIntegration);
        performanceIntegration == p.(frameTimeThreshold := Max(8.0, p.frameTimeThreshold),
                                     memoryThreshold := Max(50.0, p.memoryThreshold),
                                     particleQualityScale := Max(0.1, p.particleQualityScale),
                                     audioQualityScale := Max(0.1, p.audioQualityScale),
                                     uiAnimationQualityScale := Max(0.1, p.uiAnimationQualityScale))
      ensures var v := old(saveSystemIntegration);
        saveSystemIntegration == v.(autoSaveDelay := Max(0.0, v.autoSaveDelay),
                                    maxAutoSavesPerSession := MaxInt(1, v.maxAutoSavesPerSession))
      ensures debugIntegration == old(debugIntegration).(logLevel := ClampInt(old(debugIntegration.logLevel), 0, 3))
      ensures minimumRequiredMemory == Max(100.0, old(minimumRequiredMemory))
    {
      var camera := cameraIntegration;
      cameraIntegration := camera.(cameraTransitionTime := Max(0.1, camera.cameraTransitionTime),
                                   dockedZoomLevel := Clamp(camera.dockedZoomLevel, 0.1, 5.0));
      inputIntegration := inputIntegration.(inputHintDuration := Max(0.5, inputIntegration.inputHintDuration));

      var lod := lodIntegration;
      lod := lod.(portLODPriority := Clamp01(lod.portLODPriority));
      lod := lod.(portLODUpdateFrequency := Max(0.1, lod.portLODUpdateFrequency));
      lod := lod.(highDetailRange := Max(50.0, lod.highDetailRange));
      lod := lod.(mediumDetailRange := Max(lod.highDetailRange + 50.0, lod.mediumDetailRange));
      lod := lod.(lowDetailRange := Max(lod.mediumDetailRange + 50.0, lod.lowDetailRange));
      lod := lod.(portVisibilityRange := Max(lod.lowDetailRange + 100.0, lod.portVisibilityRange));
      lod := lod.(performanceThreshold := Clamp(lod.performanceThreshold, 0.1, 0.95));
      lod := lod.(recoveryThreshold := Max(lod.performanceThreshold + 0.05, lod.recoveryThreshold));
      lodIntegration := lod;

      var perf := performanceIntegration;
      performanceIntegration := perf.(frameTimeThreshold := Max(8.0, perf.frameTimeThreshold),
                                      memoryThreshold := Max(50.0, perf.memoryThreshold),
                                      particleQualityScale := Max(0.1, perf.particleQualityScale),
                                      audioQualityScale := Max(0.1, perf.audioQualityScale),
                                      uiAnimationQualityScale := Max(0.1, perf.uiAnimationQualityScale));
      var save := saveSystemIntegration;
      saveSystemIntegration := save.(autoSaveDelay := Max(0.0, save.autoSaveDelay),
                                     maxAutoSavesPerSession := MaxInt(1, save.maxAutoSavesPerSession));
      debugIntegration := debugIntegration.(logLevel := ClampInt(debugIntegration.logLevel, 0, 3));
      minimumRequiredMemory := Max(100.0, minimumRequiredMemory);
    }
  }
}
