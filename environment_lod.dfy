/** Level-of-detail control for the environment: a rolling average of the
  * last 30 frame times steers a performance multiplier and a global LOD,
  * and each ocean tile's LOD comes from its distance to the camera, capped
  * by the global LOD. Frame times, distances and the scene's tiles are
  * parameters. */
module EnvironmentLod {
  import opened Mathf

  datatype LODLevel = High | Medium | Low | VeryLow | Culled

  /** The enum's integer value: higher is coarser. */
  function Rank(l: LODLevel): (r: nat)
    ensures r <= 4 && (r == 4 <==> l == Culled)
  {
    match l
    case High => 0
    case Medium => 1
    case Low => 2
    case VeryLow => 3
    case Culled => 4
  }

  lemma RankInjective(a: LODLevel, b: LODLevel)
    requires Rank(a) == Rank(b)
    ensures a == b
  {
  }

  /** The level of the first band, from the finest, whose limit the
    * distance does not exceed; `Culled` past all four limits. */
  function Classify(distance: real, high: real, medium: real, low: real, last: real): (l: LODLevel)
    ensures l == Culled <==> distance > high && distance > medium && distance > low && distance > last
    ensures l == High <==> distance <= high
  {
    if distance <= high then High
    else if distance <= medium then Medium
    else if distance <= low then Low
    else if distance <= last then VeryLow
    else Culled
  }

  /** A farther distance never gets a finer level, whatever the order of
    * the limits. */
  lemma ClassifyMonotone(d1: real, d2: real, high: real, medium: real, low: real, last: real)
    requires d1 <= d2
    ensures Rank(Classify(d1, high, medium, low, last)) <= Rank(Classify(d2, high, medium, low, last))
  {
  }

  /** `a < b ? a : b` on the enum: the finer of the two levels. */
  function Finer(a: LODLevel, b: LODLevel): (r: LODLevel)
    ensures Rank(r) <= Rank(a) && Rank(r) <= Rank(b) && (r == a || r == b)
  {
    if Rank(a) < Rank(b) then a else b
  }

  /** The coarser of the two levels. */
  function Coarser(a: LODLevel, b: LODLevel): (r: LODLevel)
    ensures Rank(r) >= Rank(a) && Rank(r) >= Rank(b) && (r == a || r == b)
  {
    if Rank(a) > Rank(b) then a else b
  }

  /** The sum of the recorded frame times. */
  function Sum(s: seq<real>): real {
    if s == [] then 0.0 else Sum(s[..|s| - 1]) + s[|s| - 1]
  }

  lemma {:induction false} SumBounds(s: seq<real>, lo: real, hi: real)
    requires forall i :: 0 <= i < |s| ==> lo <= s[i] <= hi
    ensures |s| as real * lo <= Sum(s) <= |s| as real * hi
  {
    if s != [] {
      SumBounds(s[..|s| - 1], lo, hi);
    }
  }

  const HistoryLength: int := 30

  /** An ocean tile's renderer switches. */
  class OceanTile {
    var visible: bool
    var highDetail: bool

    constructor()
      ensures visible && highDetail
    {
      visible := true;
      highDetail := true;
    }
  }

  class EnvironmentLODManager {
    var highDetailDistance: real
    var mediumDetailDistance: real
    var lowDetailDistance: real
    var cullDistance: real
    var targetFrameTime: real
    var enableDynamicLOD: bool
    var performanceSensitivity: real
    var frameTimeHistory: array<real>
    var frameTimeIndex: int
    var averageFrameTime: real
    var performanceMultiplier: real
    var currentGlobalLOD: LODLevel
    var lodUpdateInterval: real
    var manageOceanTiles: bool
    var lastLODUpdate: real

    /** The ring buffer holds 30 frames and its index stays inside it; the
      * multiplier stays in [0.5, 1.5]; the target frame time and the
      * sensitivity and the update interval keep to their editor ranges
      * ([8, 32], [0.1, 2] and [0.1, 2]). */
    ghost predicate Valid()
      reads this
    {
      frameTimeHistory.Length == HistoryLength && 0 <= frameTimeIndex < HistoryLength &&
      0.5 <= performanceMultiplier <= 1.5 &&
      8.0 <= targetFrameTime <= 32.0 && 0.1 <= performanceSensitivity <= 2.0 &&
      0.1 <= lodUpdateInterval <= 2.0
    }

    /** The component's defaults and `Awake`'s empty 30-frame history. */
    constructor()
      ensures Valid() && fresh(frameTimeHistory)
      ensures highDetailDistance == 1500.0 && mediumDetailDistance == 3000.0
      ensures lowDetailDistance == 5000.0 && cullDistance == 8000.0
      ensures frameTimeIndex == 0 && forall i :: 0 <= i < HistoryLength ==> frameTimeHistory[i] == 0.0
      ensures performanceMultiplier == 1.0 && currentGlobalLOD == High && enableDynamicLOD
      ensures lodUpdateInterval == 0.5 && manageOceanTiles && lastLODUpdate == 0.0
    {
      highDetailDistance := 1500.0;
      mediumDetailDistance := 3000.0;
      lowDetailDistance := 5000.0;
      cullDistance := 8000.0;
      targetFrameTime := 16.6;
      enableDynamicLOD := true;
      performanceSensitivity := 0.8;
      frameTimeHistory := new real[HistoryLength](_ => 0.0);
      frameTimeIndex := 0;
      averageFrameTime := 0.0;
      performanceMultiplier := 1.0;
      currentGlobalLOD := High;
      lodUpdateInterval := 0.5;
      manageOceanTiles := true;
      lastLODUpdate := 0.0;
    }

    /** `CalculateLODLevel`: the distance bands scaled by the multiplier,
      * then the cull distance. */
    function CalculateLODLevel(distance: real): (l: LODLevel)
      reads this`highDetailDistance, this`mediumDetailDistance, this`lowDetailDistance,
            this`cullDistance, this`performanceMultiplier
      ensures l == Culled <==>
        distance > cullDistance && distance > highDetailDistance * performanceMultiplier &&
        distance > mediumDetailDistance * performanceMultiplier && distance > lowDetailDistance * performanceMultiplier
    {
      Classify(distance, highDetailDistance * performanceMultiplier, mediumDetailDistance * performanceMultiplier,
               lowDetailDistance * performanceMultiplier, cullDistance)
    }

    /** `CalculateGlobalLOD`: the average frame time against the target,
      * relaxed by the multiplier. It is never `Culled`. */
    function CalculateGlobalLOD(): (l: LODLevel)
      reads this`averageFrameTime, this`targetFrameTime, this`performanceMultiplier
      requires targetFrameTime > 0.0 && performanceMultiplier > 0.0
      ensures l != Culled
      ensures l == High <==> averageFrameTime / targetFrameTime / performanceMultiplier <= 0.8
    {
      GlobalLevel(averageFrameTime, targetFrameTime, performanceMultiplier)
    }

    /** The level a tile at `distance` gets: the finer of its distance level
      * and the global level. */
    function TileLOD(distance: real): (l: LODLevel)
      reads this`highDetailDistance, this`mediumDetailDistance, this`lowDetailDistance,
            this`cullDistance, this`performanceMultiplier, this`currentGlobalLOD
      ensures Rank(l) <= Rank(currentGlobalLOD) && Rank(l) <= Rank(CalculateLODLevel(distance))
    {
      Finer(CalculateLODLevel(distance), currentGlobalLOD)
    }

    /** The tile level that lets the global level only lower the detail:
      * the coarser of the two. */
    function TileLODCorrected(distance: real): (l: LODLevel)
      reads this`highDetailDistance, this`mediumDetailDistance, this`lowDetailDistance,
            this`cullDistance, this`performanceMultiplier, this`currentGlobalLOD
      ensures Rank(l) >= Rank(currentGlobalLOD) && Rank(l) >= Rank(CalculateLODLevel(distance))
      ensures l == Culled <==> CalculateLODLevel(distance) == Culled || currentGlobalLOD == Culled
    {
      Coarser(CalculateLODLevel(distance), currentGlobalLOD)
    }

    /** As written, a global level of `High` makes every tile `High` at any
      * distance, and a global level other than `Culled` (every level
      * `CalculateGlobalLOD` gives) never lets a tile be culled. */
    lemma CappedTileIgnoresDistance(distance: real)
      ensures currentGlobalLOD == High ==> TileLOD(distance) == High
      ensures currentGlobalLOD != Culled ==> TileLOD(distance) != Culled
    {
    }

    /** Corrected, a tile beyond every band and the cull distance is culled
      * whatever the global level. */
    lemma CorrectedTileCulledFarAway(distance: real)
      requires distance > cullDistance && distance > highDetailDistance * performanceMultiplier
      requires distance > mediumDetailDistance * performanceMultiplier && distance > lowDetailDistance * performanceMultiplier
      ensures TileLODCorrected(distance) == Culled
    {
    }

    /** `ApplyTileLOD`: only `Culled` hides the tile; `High` and `Medium`
      * keep high detail, `Low` and `VeryLow` drop it. */
    method ApplyTileLOD(tile: OceanTile, lodLevel: LODLevel)
      modifies tile
      ensures tile.visible <==> lodLevel != Culled
      ensures lodLevel in {High, Medium} ==> tile.highDetail
      ensures lodLevel in {Low, VeryLow} ==> !tile.highDetail
      ensures lodLevel == Culled ==> tile.highDetail == old(tile.highDetail)
    {
      match lodLevel {
        case High =>
          tile.visible := true;
          tile.highDetail := true;
        case Medium =>
          tile.visible := true;
          tile.highDetail := true;
        case Low =>
          tile.visible := true;
          tile.highDetail := false;
        case VeryLow =>
          tile.visible := true;
          tile.highDetail := false;
        case Culled =>
          tile.visible := false;
      }
    }

    /** One tile's step of `UpdateOceanTilesLOD`. */
    method UpdateTileLOD(tile: OceanTile, distance: real)
      modifies tile
      ensures tile.visible <==> TileLOD(distance) != Culled
      ensures tile.highDetail <==> (TileLOD(distance) in {High, Medium} || (TileLOD(distance) == Culled && old(tile.highDetail)))
    {
      var tileLOD := CalculateLODLevel(distance);
      if Rank(currentGlobalLOD) < Rank(tileLOD) {
        tileLOD := currentGlobalLOD;
      }
      ApplyTileLOD(tile, tileLOD);
    }

    /** What `UpdateTileLOD` leaves on `tile`, for a tile at `distance`
      * from the camera, against the tile as it was in the first state. */
    twostate predicate TileApplied(tile: OceanTile, distance: real)
      reads this, tile
    {
      (tile.visible <==> TileLOD(distance) != Culled) &&
      (tile.highDetail <==> (TileLOD(distance) in {High, Medium} || (TileLOD(distance) == Culled && old(tile.highDetail))))
    }

    /** `UpdateOceanTilesLOD`: each tile of the list gets the level of its
      * distance to the camera (`distances[i]` for `tiles[i]`), and a
      * destroyed tile (`null`) is skipped. The list comes from a scene
      * query, so it holds each tile once. */
    method UpdateOceanTilesLOD(tiles: seq<OceanTile?>, distances: seq<real>)
      requires |distances| == |tiles|
      requires forall i, j :: 0 <= i < j < |tiles| && tiles[i] != null ==> tiles[i] != tiles[j]
      modifies set t: OceanTile | t in tiles
      ensures forall i :: 0 <= i < |tiles| && tiles[i] != null ==> TileApplied(tiles[i], distances[i])
    {
      for i := 0 to |tiles|
        invariant forall k :: 0 <= k < i && tiles[k] != null ==> TileApplied(tiles[k], distances[k])
        invariant forall k :: i <= k < |tiles| && tiles[k] != null ==> unchanged(tiles[k])
      {
        if tiles[i] != null {
          UpdateTileLOD(tiles[i], distances[i]);
        }
      }
    }

    /** The gate of `UpdateLODSystems` for the ocean tiles: tile management
      * is on, and the camera moved more than 50 units since the last pass
      * or the last LOD update is more than 2 s old. */
    predicate RefreshesTiles(cameraMoved: bool, now: real)
      reads this`manageOceanTiles, this`lastLODUpdate
    {
      manageOceanTiles && (cameraMoved || now - lastLODUpdate > 2.0)
    }

    /** `UpdateLODSystems`, for the ocean tiles: without a camera nothing
      * happens; otherwise, when the gate is open, the tiles a fresh scene
      * query finds (`tiles`) are brought to their levels. */
    method UpdateLODSystems(cameraPresent: bool, cameraMoved: bool, now: real,
                            tiles: seq<OceanTile?>, distances: seq<real>)
      requires |distances| == |tiles|
      requires forall i, j :: 0 <= i < j < |tiles| && tiles[i] != null ==> tiles[i] != tiles[j]
      modifies set t: OceanTile | t in tiles
      ensures cameraPresent && RefreshesTiles(cameraMoved, now) ==>
        forall i :: 0 <= i < |tiles| && tiles[i] != null ==> TileApplied(tiles[i], distances[i])
      ensures !(cameraPresent && RefreshesTiles(cameraMoved, now)) ==>
        forall t: OceanTile :: t in tiles ==> unchanged(t)
    {
      if !cameraPresent {
        return;
      }
      if RefreshesTiles(cameraMoved, now) {
        UpdateOceanTilesLOD(tiles, distances);
      }
    }

    /** `Update`: the frame's performance monitoring, then, once the LOD
      * update interval has passed since the last update, `UpdateLODSystems`
      * and a new update time. */
    method Update(now: real, unscaledDeltaTime: real, deltaTime: real, cameraPresent: bool, cameraMoved: bool,
                  tiles: seq<OceanTile?>, distances: seq<real>)
      requires Valid() && deltaTime >= 0.0
      requires |distances| == |tiles|
      requires forall i, j :: 0 <= i < j < |tiles| && tiles[i] != null ==> tiles[i] != tiles[j]
      modifies this`frameTimeIndex, this`averageFrameTime, this`performanceMultiplier, this`currentGlobalLOD,
               this`lastLODUpdate, frameTimeHistory, set t: OceanTile | t in tiles
      ensures Valid()
      ensures frameTimeHistory[..] == old(frameTimeHistory[..])[old(frameTimeIndex) := unscaledDeltaTime * 1000.0]
      ensures frameTimeIndex == (old(frameTimeIndex) + 1) % HistoryLength
      ensures averageFrameTime == Sum(frameTimeHistory[..]) / HistoryLength as real
      ensures enableDynamicLOD ==> currentGlobalLOD == CalculateGlobalLOD()
      ensures !enableDynamicLOD ==> performanceMultiplier == old(performanceMultiplier) && currentGlobalLOD == old(currentGlobalLOD)
      ensures var due := now - old(lastLODUpdate) >= lodUpdateInterval;
        (due ==> lastLODUpdate == now) && (!due ==> lastLODUpdate == old(lastLODUpdate))
      ensures var refresh := now - old(lastLODUpdate) >= lodUpdateInterval && cameraPresent &&
                             manageOceanTiles && (cameraMoved || now - old(lastLODUpdate) > 2.0);
        (refresh ==> forall i :: 0 <= i < |tiles| && tiles[i] != null ==> TileApplied(tiles[i], distances[i])) &&
        (!refresh ==> forall t: OceanTile :: t in tiles ==> unchanged(t))
    {
      UpdatePerformanceMonitoring(unscaledDeltaTime, deltaTime);
      if now - lastLODUpdate >= lodUpdateInterval {
        UpdateLODSystems(cameraPresent, cameraMoved, now, tiles, distances);
        lastLODUpdate := now;
      }
    }

    /** `UpdatePerformanceMonitoring`: record this frame's time in the
      * ring buffer, advance the index modulo 30, average the buffer, and
      * step the dynamic LOD when it is on. `deltaTime` is the scaled frame
      * time, never negative. */
    method UpdatePerformanceMonitoring(unscaledDeltaTime: real, deltaTime: real)
      requires Valid() && deltaTime >= 0.0
      modifies this`frameTimeIndex, this`averageFrameTime, this`performanceMultiplier, this`currentGlobalLOD, frameTimeHistory
      ensures Valid()
      ensures frameTimeHistory[..] == old(frameTimeHistory[..])[old(frameTimeIndex) := unscaledDeltaTime * 1000.0]
      ensures frameTimeIndex == (old(frameTimeIndex) + 1) % HistoryLength
      ensures averageFrameTime == Sum(frameTimeHistory[..]) / HistoryLength as real
      ensures !enableDynamicLOD ==> performanceMultiplier == old(performanceMultiplier) && currentGlobalLOD == old(currentGlobalLOD)
      ensures enableDynamicLOD ==> currentGlobalLOD == CalculateGlobalLOD()
    {
      frameTimeHistory[frameTimeIndex] := unscaledDeltaTime * 1000.0;
      frameTimeIndex := (frameTimeIndex + 1) % frameTimeHistory.Length;
      var total := HistoryTotal();
      averageFrameTime := total / frameTimeHistory.Length as real;
      if enableDynamicLOD {
        UpdateDynamicLOD(deltaTime);
      }
    }

    /** The summing loop of `UpdatePerformanceMonitoring`. */
    method HistoryTotal() returns (total: real)
      ensures total == Sum(frameTimeHistory[..])
    {
      total := 0.0;
      var i := 0;
      while i < frameTimeHistory.Length
        invariant 0 <= i <= frameTimeHistory.Length
        invariant total == Sum(frameTimeHistory[..i])
      {
        assert frameTimeHistory[..i + 1][..i] == frameTimeHistory[..i];
        total := total + frameTimeHistory[i];
        i := i + 1;
      }
      assert frameTimeHistory[..i] == frameTimeHistory[..];
    }

    /** `UpdateDynamicLOD`: a slow average (over 1.2 times the target)
      * lowers the multiplier, no lower than 0.5; a fast one (under 0.8
      * times) raises it at half the rate, no higher than 1.5; then the
      * global level is recomputed. */
    method UpdateDynamicLOD(deltaTime: real)
      requires Valid() && deltaTime >= 0.0
      modifies this`performanceMultiplier, this`currentGlobalLOD
      ensures Valid()
      ensures var pressure := averageFrameTime / targetFrameTime;
        (pressure > 1.2 ==> performanceMultiplier == Max(0.5, old(performanceMultiplier) - deltaTime * performanceSensitivity)) &&
        (pressure < 0.8 ==> performanceMultiplier == Min(1.5, old(performanceMultiplier) + deltaTime * performanceSensitivity * 0.5)) &&
        (0.8 <= pressure <= 1.2 ==> performanceMultiplier == old(performanceMultiplier))
      ensures averageFrameTime / targetFrameTime > 1.2 ==> performanceMultiplier <= old(performanceMultiplier)
      ensures averageFrameTime / targetFrameTime < 0.8 ==> performanceMultiplier >= old(performanceMultiplier)
      ensures currentGlobalLOD == CalculateGlobalLOD()
    {
      var performancePressure := averageFrameTime / targetFrameTime;
      var step := deltaTime * performanceSensitivity;
      assert step >= 0.0;
      if performancePressure > 1.2 {
        performanceMultiplier := Max(0.5, performanceMultiplier - step);
      } else if performancePressure < 0.8 {
        performanceMultiplier := Min(1.5, performanceMultiplier + step * 0.5);
      }
      var newGlobalLOD := CalculateGlobalLOD();
      if newGlobalLOD != currentGlobalLOD {
        currentGlobalLOD := newGlobalLOD;
      }
      assert averageFrameTime / targetFrameTime == performancePressure;
    }

    /** `SetManualLOD`: dynamic LOD off, the given global level, the
      * multiplier back at 1. */
    method SetManualLOD(lodLevel: LODLevel)
      requires Valid()
      modifies this`enableDynamicLOD, this`currentGlobalLOD, this`performanceMultiplier
      ensures Valid()
      ensures !enableDynamicLOD && currentGlobalLOD == lodLevel && performanceMultiplier == 1.0
    {
      enableDynamicLOD := false;
      currentGlobalLOD := lodLevel;
      performanceMultiplier := 1.0;
    }

    /** `EnableDynamicLOD`. */
    method EnableDynamicLOD()
      modifies this`enableDynamicLOD
      ensures enableDynamicLOD
    {
      enableDynamicLOD := true;
    }
  }

  /** The global level for an average frame time: its ratio to the target,
    * divided by the multiplier, against 0.8, 1.2 and 1.8. */
  function GlobalLevel(averageFrameTime: real, targetFrameTime: real, multiplier: real): (l: LODLevel)
    requires targetFrameTime > 0.0 && multiplier > 0.0
    ensures l != Culled
    ensures l == High <==> averageFrameTime / targetFrameTime / multiplier <= 0.8
  {
    var adjustedPerformance := averageFrameTime / targetFrameTime / multiplier;
    if adjustedPerformance <= 0.8 then High
    else if adjustedPerformance <= 1.2 then Medium
    else if adjustedPerformance <= 1.8 then Low
    else VeryLow
  }

  /** Slower frames never give a finer global level. */
  lemma GlobalLevelMonotone(avg1: real, avg2: real, target: real, multiplier: real)
    requires avg1 <= avg2 && target > 0.0 && multiplier > 0.0
    ensures Rank(GlobalLevel(avg1, target, multiplier)) <= Rank(GlobalLevel(avg2, target, multiplier))
  {
    assert avg1 / target <= avg2 / target;
    assert avg1 / target / multiplier <= avg2 / target / multiplier;
  }
}
