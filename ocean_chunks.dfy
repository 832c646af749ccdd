/** The ocean tile manager: a dictionary of active tiles keyed by chunk
  * coordinates, a spawn queue and a despawn queue that follow the camera's
  * chunk, and a per-frame budget for working through the queues. */
module OceanChunks {
  import opened Wrappers

  /** A chunk coordinate (`Vector2Int`). */
  datatype Coord = Coord(x: int, z: int)

  /** An instantiated tile: the chunk it covers and the prefab it came from. */
  datatype Tile = Tile(coord: Coord, prefab: nat)

  predicate NoDup<T(==)>(s: seq<T>) {
    forall i, j :: 0 <= i < j < |s| ==> s[i] != s[j]
  }

  /** `c` lies in the square window of radius `r` around `center`. */
  predicate InWindow(c: Coord, center: Coord, r: int) {
    -r <= c.x - center.x <= r && -r <= c.z - center.z <= r
  }

  /** `Vector2.Distance(c, center) > r + 1`, compared on squares so that it
    * stays in integers. */
  predicate BeyondRadius(c: Coord, center: Coord, r: int) {
    var dx, dz := c.x - center.x, c.z - center.z;
    r + 1 < 0 || dx * dx + dz * dz > (r + 1) * (r + 1)
  }

  /** The chunks of column `x` of the window, `z` running from `-r` to `hi`,
    * in the order of the inner loop. */
  function Column(center: Coord, r: int, x: int, hi: int): seq<Coord>
    decreases hi + r + 1
  {
    if hi < -r then [] else Column(center, r, x, hi - 1) + [Coord(center.x + x, center.z + hi)]
  }

  /** The chunks of columns `-r` to `hi`, in the order of the nested loops. */
  function Grid(center: Coord, r: int, hi: int): seq<Coord>
    decreases hi + r + 1
  {
    if hi < -r then [] else Grid(center, r, hi - 1) + Column(center, r, hi, r)
  }

  /** The whole window, in the order the nested loops visit it. */
  function Window(center: Coord, r: int): seq<Coord> {
    Grid(center, r, r)
  }

  /** The chunks of `s` that are not active, in order. */
  function Pending(s: seq<Coord>, active: set<Coord>): seq<Coord> {
    if s == [] then []
    else Pending(s[..|s| - 1], active) + (if s[|s| - 1] in active then [] else [s[|s| - 1]])
  }

  lemma PendingSnoc(s: seq<Coord>, c: Coord, active: set<Coord>)
    ensures Pending(s + [c], active) == Pending(s, active) + (if c in active then [] else [c])
  {
    assert (s + [c])[..|s|] == s;
  }

  lemma {:induction false} PendingAppend(a: seq<Coord>, b: seq<Coord>, active: set<Coord>)
    ensures Pending(a + b, active) == Pending(a, active) + Pending(b, active)
    decreases |b|
  {
    if b != [] {
      var b', c := b[..|b| - 1], b[|b| - 1];
      assert b == b' + [c];
      assert a + b == (a + b') + [c];
      PendingSnoc(a + b', c, active);
      PendingSnoc(b', c, active);
      PendingAppend(a, b', active);
    } else {
      assert a + b == a;
    }
  }

  lemma {:induction false} PendingMembers(s: seq<Coord>, active: set<Coord>, c: Coord)
    ensures c in Pending(s, active) <==> c in s && c !in active
  {
    if s != [] {
      PendingMembers(s[..|s| - 1], active, c);
      assert s == s[..|s| - 1] + [s[|s| - 1]];
    }
  }

  lemma {:induction false} PendingNoDup(s: seq<Coord>, active: set<Coord>)
    requires NoDup(s)
    ensures NoDup(Pending(s, active))
  {
    if s != [] {
      var s', last := s[..|s| - 1], s[|s| - 1];
      assert NoDup(s');
      PendingNoDup(s', active);
      assert last !in s';
      PendingMembers(s', active, last);
      var p := Pending(s', active);
      if last !in active {
        assert Pending(s, active) == p + [last];
        forall i, j | 0 <= i < j < |p + [last]| ensures (p + [last])[i] != (p + [last])[j] {
          if j == |p| {
            assert p[i] in p;
          }
        }
      }
    }
  }

  /** With nothing active, every chunk is pending. */
  lemma {:induction false} PendingNoneActive(s: seq<Coord>)
    ensures Pending(s, {}) == s
  {
    if s != [] {
      PendingNoneActive(s[..|s| - 1]);
      assert s == s[..|s| - 1] + [s[|s| - 1]];
    }
  }

  lemma {:induction false} ColumnLength(center: Coord, r: int, x: int, hi: int)
    requires hi >= -r - 1
    ensures |Column(center, r, x, hi)| == hi + r + 1
    decreases hi + r + 1
  {
    if hi >= -r {
      ColumnLength(center, r, x, hi - 1);
    }
  }

  lemma {:induction false} ColumnMembers(center: Coord, r: int, x: int, hi: int, c: Coord)
    ensures c in Column(center, r, x, hi) <==> c.x == center.x + x && -r <= c.z - center.z <= hi
    decreases hi + r + 1
  {
    if hi >= -r {
      ColumnMembers(center, r, x, hi - 1, c);
      assert Column(center, r, x, hi) == Column(center, r, x, hi - 1) + [Coord(center.x + x, center.z + hi)];
    }
  }

  /** Two duplicate-free lists with no common element append to a
    * duplicate-free list. */
  lemma NoDupAppend<T>(a: seq<T>, b: seq<T>)
    requires NoDup(a) && NoDup(b)
    requires forall k :: 0 <= k < |a| ==> a[k] !in b
    ensures NoDup(a + b)
  {
    forall i, j | 0 <= i < j < |a + b| ensures (a + b)[i] != (a + b)[j] {
      if i < |a| && j >= |a| {
        assert (a + b)[j] == b[j - |a|];
      }
    }
  }

  lemma {:induction false} ColumnNoDup(center: Coord, r: int, x: int, hi: int)
    ensures NoDup(Column(center, r, x, hi))
    decreases hi + r + 1
  {
    if hi >= -r {
      var col := Column(center, r, x, hi - 1);
      var c := Coord(center.x + x, center.z + hi);
      assert Column(center, r, x, hi) == col + [c];
      ColumnNoDup(center, r, x, hi - 1);
      forall k | 0 <= k < |col| ensures col[k] !in [c] {
        ColumnMembers(center, r, x, hi - 1, col[k]);
      }
      NoDupAppend(col, [c]);
    }
  }

  lemma {:induction false} GridMembers(center: Coord, r: int, hi: int, c: Coord)
    requires r >= 0 && hi >= -r - 1
    ensures c in Grid(center, r, hi) <==> -r <= c.x - center.x <= hi && -r <= c.z - center.z <= r
    decreases hi + r + 1
  {
    if hi >= -r {
      assert Grid(center, r, hi) == Grid(center, r, hi - 1) + Column(center, r, hi, r);
      GridMembers(center, r, hi - 1, c);
      ColumnMembers(center, r, hi, r, c);
    }
  }

  lemma {:induction false} GridLength(center: Coord, r: int, hi: int)
    requires r >= 0 && hi >= -r - 1
    ensures |Grid(center, r, hi)| == (hi + r + 1) * (2 * r + 1)
    decreases hi + r + 1
  {
    if hi >= -r {
      GridLength(center, r, hi - 1);
      ColumnLength(center, r, hi, r);
      var w := 2 * r + 1;
      assert (hi + r) * w + w == (hi + r + 1) * w;
    }
  }

  /** Column `hi` shares no chunk with the columns before it. */
  lemma GridColumnDisjoint(center: Coord, r: int, hi: int, g: seq<Coord>, col: seq<Coord>)
    requires r >= 0 && hi >= -r
    requires g == Grid(center, r, hi - 1) && col == Column(center, r, hi, r)
    ensures forall k :: 0 <= k < |g| ==> g[k] !in col
  {
    forall k | 0 <= k < |g| ensures g[k] !in col {
      GridMembers(center, r, hi - 1, g[k]);
      ColumnMembers(center, r, hi, r, g[k]);
    }
  }

  lemma {:induction false} GridNoDup(center: Coord, r: int, hi: int)
    requires r >= 0 && hi >= -r - 1
    ensures NoDup(Grid(center, r, hi))
    decreases hi + r + 1
  {
    if hi >= -r {
      var g := Grid(center, r, hi - 1);
      var col := Column(center, r, hi, r);
      assert Grid(center, r, hi) == g + col;
      GridNoDup(center, r, hi - 1);
      ColumnNoDup(center, r, hi, r);
      GridColumnDisjoint(center, r, hi, g, col);
      NoDupAppend(g, col);
    }
  }

  /** The window around `center` lists each of its `(2r+1)²` chunks exactly
    * once, and nothing else. */
  lemma WindowFacts(center: Coord, r: int)
    requires r >= 0
    ensures |Window(center, r)| == (2 * r + 1) * (2 * r + 1)
    ensures NoDup(Window(center, r))
    ensures forall c :: c in Window(center, r) <==> InWindow(c, center, r)
  {
    GridLength(center, r, r);
    GridNoDup(center, r, r);
    forall c ensures c in Window(center, r) <==> InWindow(c, center, r) {
      GridMembers(center, r, r, c);
    }
  }

  /** What `SpawnInitialTiles` queues: every chunk of the window that is
    * not active, once each, and no other chunk. */
  lemma InitialQueueFacts(center: Coord, r: int, active: set<Coord>)
    requires r >= 0
    ensures NoDup(Pending(Window(center, r), active))
    ensures forall c :: c in Pending(Window(center, r), active) <==> InWindow(c, center, r) && c !in active
    ensures |Pending(Window(center, r), {})| == (2 * r + 1) * (2 * r + 1)
  {
    WindowFacts(center, r);
    PendingNoDup(Window(center, r), active);
    forall c ensures c in Pending(Window(center, r), active) <==> InWindow(c, center, r) && c !in active {
      PendingMembers(Window(center, r), active, c);
    }
    PendingNoneActive(Window(center, r));
  }

  /** One step of the outer loop of `SpawnInitialTiles`. */
  lemma GridStep(q0: seq<Coord>, q: seq<Coord>, center: Coord, r: int, x: int, active: set<Coord>)
    requires -r <= x && q == q0 + Pending(Grid(center, r, x - 1), active)
    ensures q + Pending(Column(center, r, x, r), active) == q0 + Pending(Grid(center, r, x), active)
  {
    var g, col := Grid(center, r, x - 1), Column(center, r, x, r);
    assert Grid(center, r, x) == g + col;
    PendingAppend(g, col, active);
    assert q0 + (Pending(g, active) + Pending(col, active)) == (q0 + Pending(g, active)) + Pending(col, active);
  }

  lemma ColumnSnoc(center: Coord, r: int, x: int, z: int)
    requires -r <= z
    ensures Column(center, r, x, z) == Column(center, r, x, z - 1) + [Coord(center.x + x, center.z + z)]
  {
  }

  /** Where the outer loop of `SpawnInitialTiles` stops, the columns it has
    * visited make up the whole window (none at all for a negative radius). */
  lemma LoopEndIsWindow(center: Coord, r: int, x: int)
    requires -r <= x && (x <= r + 1 || x == -r) && x > r
    ensures Grid(center, r, x - 1) == Window(center, r)
  {
    if r < 0 {
      assert Grid(center, r, x - 1) == [] == Grid(center, r, r);
    }
  }

  /** One step of the inner loop of `SpawnInitialTiles`: the chunk is
    * queued exactly when it is not active. */
  lemma QueueStep(q0: seq<Coord>, q: seq<Coord>, center: Coord, r: int, x: int, z: int, active: set<Coord>)
    requires -r <= z && q == q0 + Pending(Column(center, r, x, z - 1), active)
    ensures Coord(center.x + x, center.z + z) in active ==> q == q0 + Pending(Column(center, r, x, z), active)
    ensures Coord(center.x + x, center.z + z) !in active ==>
      q + [Coord(center.x + x, center.z + z)] == q0 + Pending(Column(center, r, x, z), active)
  {
    var c := Coord(center.x + x, center.z + z);
    var col := Column(center, r, x, z - 1);
    ColumnSnoc(center, r, x, z);
    PendingSnoc(col, c, active);
    if c in active {
      assert Pending(col + [c], active) == Pending(col, active);
    } else {
      assert Pending(col + [c], active) == Pending(col, active) + [c];
      assert q0 + (Pending(col, active) + [c]) == (q0 + Pending(col, active)) + [c];
    }
  }

  /** `SpawnTile`: nothing happens without a prefab or when the chunk is
    * already active; otherwise a tile for that chunk is added. */
  function SpawnOne(tiles: map<Coord, Tile>, prefab: Option<nat>, c: Coord): map<Coord, Tile> {
    if prefab.None? || c in tiles then tiles else tiles[c := Tile(c, prefab.value)]
  }

  /** `SpawnTile` applied to each chunk of `s` in order. */
  function SpawnAll(tiles: map<Coord, Tile>, prefab: Option<nat>, s: seq<Coord>): map<Coord, Tile> {
    if s == [] then tiles else SpawnOne(SpawnAll(tiles, prefab, s[..|s| - 1]), prefab, s[|s| - 1])
  }

  /** `DespawnTile` applied to each chunk of `s` in order. */
  function DespawnAll(tiles: map<Coord, Tile>, s: seq<Coord>): map<Coord, Tile> {
    if s == [] then tiles else DespawnAll(tiles, s[..|s| - 1]) - {s[|s| - 1]}
  }

  lemma SpawnAllSnoc(tiles: map<Coord, Tile>, prefab: Option<nat>, s: seq<Coord>, n: nat)
    requires n < |s|
    ensures SpawnAll(tiles, prefab, s[..n + 1]) == SpawnOne(SpawnAll(tiles, prefab, s[..n]), prefab, s[n])
  {
    assert s[..n + 1][..n] == s[..n];
  }

  lemma DespawnAllSnoc(tiles: map<Coord, Tile>, s: seq<Coord>, n: nat)
    requires n < |s|
    ensures DespawnAll(tiles, s[..n + 1]) == DespawnAll(tiles, s[..n]) - {s[n]}
  {
    assert s[..n + 1][..n] == s[..n];
  }

  /** Spawning never replaces a tile that exists; with a prefab it adds
    * exactly the requested chunks, without one it adds nothing. */
  lemma {:induction false} SpawnAllFacts(tiles: map<Coord, Tile>, prefab: Option<nat>, s: seq<Coord>)
    ensures forall c :: c in tiles ==> c in SpawnAll(tiles, prefab, s) && SpawnAll(tiles, prefab, s)[c] == tiles[c]
    ensures prefab.Some? ==> SpawnAll(tiles, prefab, s).Keys == tiles.Keys + set c | c in s
    ensures prefab.None? ==> SpawnAll(tiles, prefab, s) == tiles
    ensures forall c :: c in SpawnAll(tiles, prefab, s) && c !in tiles ==>
      SpawnAll(tiles, prefab, s)[c] == Tile(c, prefab.value)
  {
    if s != [] {
      var s' := s[..|s| - 1];
      SpawnAllFacts(tiles, prefab, s');
      assert s == s' + [s[|s| - 1]];
      assert (set c | c in s) == (set c | c in s') + {s[|s| - 1]};
    }
  }

  /** Despawning removes exactly the listed chunks and leaves every other
    * tile as it was. */
  lemma {:induction false} DespawnAllFacts(tiles: map<Coord, Tile>, s: seq<Coord>)
    ensures DespawnAll(tiles, s) == map c | c in tiles && c !in s :: tiles[c]
  {
    if s != [] {
      DespawnAllFacts(tiles, s[..|s| - 1]);
      assert s == s[..|s| - 1] + [s[|s| - 1]];
    }
  }

  /** How many entries a queue loop processes: it stops when the queue is
    * empty or when the frame counter reaches the per-frame limit. */
  function Quota(queued: nat, used: int, limit: int): (n: nat)
    ensures n <= queued
    ensures used < limit ==> n == if queued < limit - used then queued else limit - used
    ensures used >= limit ==> n == 0
  {
    if used >= limit then 0 else if queued < limit - used then queued else limit - used
  }

  class OceanChunkManager {
    var activeTiles: map<Coord, Tile>
    var tilesToSpawn: seq<Coord>
    var tilesToDespawn: seq<Coord>
    var defaultOceanTilePrefab: Option<nat>
    var gridRadius: int
    var runtimeGridRadius: int
    var tilesPerFrame: int
    var tilesSpawnedThisFrame: int
    var tilesDespawnedThisFrame: int
    var hasCamera: bool
    var lastCameraChunk: Coord
    var lastUpdateTime: real
    var updateInterval: real

    /** Every active tile sits at the chunk it is filed under. */
    ghost predicate Valid()
      reads this
    {
      forall c :: c in activeTiles ==> activeTiles[c].coord == c
    }

    /** `Awake`: empty dictionary and queues, serialized defaults. */
    constructor (prefab: Option<nat>, cameraFound: bool)
      ensures Valid()
      ensures activeTiles == map[] && tilesToSpawn == [] && tilesToDespawn == []
      ensures defaultOceanTilePrefab == prefab && hasCamera == cameraFound
      ensures gridRadius == 4 && runtimeGridRadius == 5 && tilesPerFrame == 25
      ensures tilesSpawnedThisFrame == 0 && tilesDespawnedThisFrame == 0
      ensures updateInterval == 0.2
    {
      activeTiles := map[];
      tilesToSpawn := [];
      tilesToDespawn := [];
      defaultOceanTilePrefab := prefab;
      gridRadius := 4;
      runtimeGridRadius := 5;
      tilesPerFrame := 25;
      tilesSpawnedThisFrame := 0;
      tilesDespawnedThisFrame := 0;
      hasCamera := cameraFound;
      lastCameraChunk := Coord(0, 0);
      lastUpdateTime := 0.0;
      updateInterval := 0.2;
    }

    /** Queues, in loop order, every chunk of the window around `center` that
    * is not active yet. */
    method SpawnInitialTiles(center: Coord)
      modifies this`tilesToSpawn
      ensures tilesToSpawn == old(tilesToSpawn) + Pending(Window(center, gridRadius), activeTiles.Keys)
    {
      ghost var q0 := tilesToSpawn;
      ghost var keys := activeTiles.Keys;
      var r := gridRadius;
      var x := -r;
      while x <= r
        invariant -r <= x && (x <= r + 1 || x == -r)
        invariant tilesToSpawn == q0 + Pending(Grid(center, r, x - 1), keys)
      {
        ghost var q := tilesToSpawn;
        QueueColumn(center, r, x);
        GridStep(q0, q, center, r, x, keys);
        x := x + 1;
      }
      LoopEndIsWindow(center, r, x);
    }

    /** The inner loop of `SpawnInitialTiles`: queues the inactive chunks of
    * column `x` of the window, `z` running upward. */
    method QueueColumn(center: Coord, r: int, x: int)
      requires -r <= x <= r
      modifies this`tilesToSpawn
      ensures tilesToSpawn == old(tilesToSpawn) + Pending(Column(center, r, x, r), activeTiles.Keys)
    {
      ghost var q0 := tilesToSpawn;
      ghost var keys := activeTiles.Keys;
      var z := -r;
      while z <= r
        invariant -r <= z <= r + 1
        invariant tilesToSpawn == q0 + Pending(Column(center, r, x, z - 1), keys)
      {
        var c := Coord(center.x + x, center.z + z);
        QueueStep(q0, tilesToSpawn, center, r, x, z, keys);
        if c !in activeTiles {
          tilesToSpawn := tilesToSpawn + [c];
        }
        z := z + 1;
      }
    }

    /** Recomputes both queues for a new camera chunk: the spawn queue holds
    * the inactive chunks of the window, the despawn queue the active chunks
    * outside it that lie more than `gridRadius + 1` away. */
    method UpdateOceanChunks(newCenter: Coord)
      modifies this`tilesToSpawn, this`tilesToDespawn
      ensures forall c :: c in tilesToSpawn <==> InWindow(c, newCenter, gridRadius) && c !in activeTiles
      ensures NoDup(tilesToSpawn)
      ensures forall c :: c in tilesToDespawn <==>
        c in activeTiles && !InWindow(c, newCenter, gridRadius) && BeyondRadius(c, newCenter, gridRadius)
      ensures NoDup(tilesToDespawn)
    {
      tilesToSpawn := [];
      tilesToDespawn := [];
      var r := gridRadius;
      var required := RequiredTiles(newCenter, r);
      QueueMissing(required);
      QueueFarAway(required, newCenter, r);
    }

    /** The nested loops of `UpdateOceanChunks`: the set of chunks in the
    * window of radius `r` around `center`. */
    static method RequiredTiles(center: Coord, r: int) returns (required: set<Coord>)
      ensures forall c :: c in required <==> InWindow(c, center, r)
    {
      required := {};
      var x := -r;
      while x <= r
        invariant -r <= x && (x <= r + 1 || x == -r)
        invariant forall c :: c in required <==> -r <= c.x - center.x < x && -r <= c.z - center.z <= r
      {
        var z := -r;
        while z <= r
          invariant -r <= z <= r + 1
          invariant forall c :: c in required <==>
            (-r <= c.x - center.x < x && -r <= c.z - center.z <= r) ||
            (c.x - center.x == x && -r <= c.z - center.z < z)
        {
          required := required + {Coord(center.x + x, center.z + z)};
          z := z + 1;
        }
        x := x + 1;
      }
    }

    /** The first `foreach` of `UpdateOceanChunks`: queues each required
    * chunk that has no tile, once. */
    method QueueMissing(required: set<Coord>)
      requires tilesToSpawn == []
      modifies this`tilesToSpawn
      ensures forall c :: c in tilesToSpawn <==> c in required && c !in activeTiles
      ensures NoDup(tilesToSpawn)
    {
      var toVisit := required;
      while toVisit != {}
        invariant toVisit <= required
        invariant forall c :: c in tilesToSpawn <==> c in required && c !in toVisit && c !in activeTiles
        invariant NoDup(tilesToSpawn)
        decreases |toVisit|
      {
        var c :| c in toVisit;
        if c !in activeTiles {
          tilesToSpawn := tilesToSpawn + [c];
        }
        toVisit := toVisit - {c};
      }
    }

    /** The second `foreach` of `UpdateOceanChunks`: queues each active
    * chunk that is not required and lies more than `r + 1` from `center`,
    * once. */
    method QueueFarAway(required: set<Coord>, center: Coord, r: int)
      requires tilesToDespawn == []
      modifies this`tilesToDespawn
      ensures forall c :: c in tilesToDespawn <==> c in activeTiles && c !in required && BeyondRadius(c, center, r)
      ensures NoDup(tilesToDespawn)
    {
      var keys := activeTiles.Keys;
      while keys != {}
        invariant keys <= activeTiles.Keys
        invariant forall c :: c in tilesToDespawn <==>
          c in activeTiles && c !in keys && c !in required && BeyondRadius(c, center, r)
        invariant NoDup(tilesToDespawn)
        decreases |keys|
      {
        var c :| c in keys;
        if c !in required && BeyondRadius(c, center, r) {
          tilesToDespawn := tilesToDespawn + [c];
        }
        keys := keys - {c};
      }
    }

    /** Works through the queues, at most `tilesPerFrame` spawns and
    * `tilesPerFrame` despawns per frame counted since the last reset. */
    method ProcessTileQueues()
      requires Valid()
      modifies this`activeTiles, this`tilesToSpawn, this`tilesToDespawn
      modifies this`tilesSpawnedThisFrame, this`tilesDespawnedThisFrame
      ensures Valid()
      ensures var ns := Quota(|old(tilesToSpawn)|, old(tilesSpawnedThisFrame), tilesPerFrame);
              var nd := Quota(|old(tilesToDespawn)|, old(tilesDespawnedThisFrame), tilesPerFrame);
              && tilesToSpawn == old(tilesToSpawn)[ns..]
              && tilesToDespawn == old(tilesToDespawn)[nd..]
              && tilesSpawnedThisFrame == old(tilesSpawnedThisFrame) + ns
              && tilesDespawnedThisFrame == old(tilesDespawnedThisFrame) + nd
              && activeTiles == DespawnAll(SpawnAll(old(activeTiles), defaultOceanTilePrefab, old(tilesToSpawn)[..ns]),
                                           old(tilesToDespawn)[..nd])
    {
      SpawnQueued();
      DespawnQueued();
    }

    /** The first loop of `ProcessTileQueues`: spawns from the front of the
    * spawn queue until it is empty or the frame's spawn budget is used. */
    method SpawnQueued()
      requires Valid()
      modifies this`activeTiles, this`tilesToSpawn, this`tilesSpawnedThisFrame
      ensures Valid()
      ensures var ns := Quota(|old(tilesToSpawn)|, old(tilesSpawnedThisFrame), tilesPerFrame);
              && tilesToSpawn == old(tilesToSpawn)[ns..]
              && tilesSpawnedThisFrame == old(tilesSpawnedThisFrame) + ns
              && activeTiles == SpawnAll(old(activeTiles), defaultOceanTilePrefab, old(tilesToSpawn)[..ns])
    {
      ghost var spawnQ := tilesToSpawn;
      ghost var t0 := activeTiles;
      while |tilesToSpawn| > 0 && tilesSpawnedThisFrame < tilesPerFrame
        invariant Valid()
        invariant 0 <= tilesSpawnedThisFrame - old(tilesSpawnedThisFrame) <= |spawnQ|
        invariant tilesSpawnedThisFrame > old(tilesSpawnedThisFrame) ==> tilesSpawnedThisFrame <= tilesPerFrame
        invariant var n := tilesSpawnedThisFrame - old(tilesSpawnedThisFrame);
                  tilesToSpawn == spawnQ[n..] && activeTiles == SpawnAll(t0, defaultOceanTilePrefab, spawnQ[..n])
        decreases |tilesToSpawn|
      {
        ghost var n := tilesSpawnedThisFrame - old(tilesSpawnedThisFrame);
        var c := tilesToSpawn[0];
        tilesToSpawn := tilesToSpawn[1..];
        SpawnTile(c);
        SpawnAllSnoc(t0, defaultOceanTilePrefab, spawnQ, n);
        tilesSpawnedThisFrame := tilesSpawnedThisFrame + 1;
      }
    }

    /** The second loop of `ProcessTileQueues`: despawns from the front of
    * the despawn queue until it is empty or the frame's despawn budget is
    * used. */
    method DespawnQueued()
      requires Valid()
      modifies this`activeTiles, this`tilesToDespawn, this`tilesDespawnedThisFrame
      ensures Valid()
      ensures var nd := Quota(|old(tilesToDespawn)|, old(tilesDespawnedThisFrame), tilesPerFrame);
              && tilesToDespawn == old(tilesToDespawn)[nd..]
              && tilesDespawnedThisFrame == old(tilesDespawnedThisFrame) + nd
              && activeTiles == DespawnAll(old(activeTiles), old(tilesToDespawn)[..nd])
    {
      ghost var despawnQ := tilesToDespawn;
      ghost var t1 := activeTiles;
      while |tilesToDespawn| > 0 && tilesDespawnedThisFrame < tilesPerFrame
        invariant Valid()
        invariant 0 <= tilesDespawnedThisFrame - old(tilesDespawnedThisFrame) <= |despawnQ|
        invariant tilesDespawnedThisFrame > old(tilesDespawnedThisFrame) ==> tilesDespawnedThisFrame <= tilesPerFrame
        invariant var n := tilesDespawnedThisFrame - old(tilesDespawnedThisFrame);
                  tilesToDespawn == despawnQ[n..] && activeTiles == DespawnAll(t1, despawnQ[..n])
        decreases |tilesToDespawn|
      {
        ghost var n := tilesDespawnedThisFrame - old(tilesDespawnedThisFrame);
        var c := tilesToDespawn[0];
        tilesToDespawn := tilesToDespawn[1..];
        DespawnTile(c);
        DespawnAllSnoc(t1, despawnQ, n);
        tilesDespawnedThisFrame := tilesDespawnedThisFrame + 1;
      }
    }

    /** Instantiates a tile for `c` unless there is no prefab or the chunk is
    * already active. */
    method SpawnTile(c: Coord)
      requires Valid()
      modifies this`activeTiles
      ensures Valid()
      ensures activeTiles == SpawnOne(old(activeTiles), defaultOceanTilePrefab, c)
      ensures defaultOceanTilePrefab.None? || c in old(activeTiles) ==> activeTiles == old(activeTiles)
    {
      if defaultOceanTilePrefab.None? || c in activeTiles {
        return;
      }
      activeTiles := activeTiles[c := Tile(c, defaultOceanTilePrefab.value)];
    }

    /** Removes the tile of chunk `c`, if there is one, and nothing else. */
    method DespawnTile(c: Coord)
      requires Valid()
      modifies this`activeTiles
      ensures Valid()
      ensures activeTiles == old(activeTiles) - {c}
      ensures c !in old(activeTiles) ==> activeTiles == old(activeTiles)
    {
      if c in activeTiles {
        activeTiles := activeTiles - {c};
      }
    }

    /** Destroys every tile and queues the whole window around the camera's
    * current chunk. Without a camera nothing changes. */
    method RebuildOcean(currentChunk: Coord)
      requires Valid()
      modifies this`activeTiles, this`tilesToSpawn, this`lastCameraChunk
      ensures Valid()
      ensures !old(hasCamera) ==> unchanged(this)
      ensures hasCamera ==> activeTiles == map[] && lastCameraChunk == currentChunk
      ensures hasCamera ==> tilesToSpawn == old(tilesToSpawn) + Window(currentChunk, gridRadius)
    {
      if !hasCamera {
        return;
      }
      activeTiles := map[];
      assert activeTiles.Keys == {};
      SpawnInitialTiles(currentChunk);
      PendingNoneActive(Window(currentChunk, gridRadius));
      lastCameraChunk := currentChunk;
    }

    /** `Start`: with a camera, records the camera's chunk and queues the
    * inactive chunks of the window around it; without one nothing changes. */
    method Start(startChunk: Coord)
      requires Valid()
      modifies this`tilesToSpawn, this`lastCameraChunk
      ensures Valid()
      ensures !old(hasCamera) ==> unchanged(this)
      ensures hasCamera ==> lastCameraChunk == startChunk
      ensures hasCamera ==> tilesToSpawn == old(tilesToSpawn) + Pending(Window(startChunk, gridRadius), activeTiles.Keys)
    {
      if !hasCamera {
        return;
      }
      lastCameraChunk := startChunk;
      SpawnInitialTiles(startChunk);
    }

    /** Rebuilds the queues when the camera has moved to another chunk. */
    method FollowCamera(cameraChunk: Coord)
      modifies this`tilesToSpawn, this`tilesToDespawn, this`lastCameraChunk
      ensures lastCameraChunk == cameraChunk
      ensures cameraChunk == old(lastCameraChunk) ==> tilesToSpawn == old(tilesToSpawn) && tilesToDespawn == old(tilesToDespawn)
    {
      if cameraChunk != lastCameraChunk {
        UpdateOceanChunks(cameraChunk);
        lastCameraChunk := cameraChunk;
      }
    }

    /** The runtime override replaces the grid radius. */
    method ApplyRuntimeCullingOverrides()
      modifies this`gridRadius
      ensures gridRadius == runtimeGridRadius
    {
      if runtimeGridRadius != gridRadius {
        gridRadius := runtimeGridRadius;
      }
    }

    /** One frame: reset the per-frame counters, and once `updateInterval`
    * has passed, rebuild the queues if the camera changed chunk, work
    * through the queues and apply the runtime radius. */
    method Update(now: real, cameraChunk: Coord)
      requires Valid()
      modifies this`activeTiles, this`tilesToSpawn, this`tilesToDespawn, this`gridRadius
      modifies this`tilesSpawnedThisFrame, this`tilesDespawnedThisFrame, this`lastCameraChunk, this`lastUpdateTime
      ensures Valid()
      ensures !old(hasCamera) ==> unchanged(this)
      ensures old(hasCamera) && now - old(lastUpdateTime) < updateInterval ==>
        tilesSpawnedThisFrame == 0 && tilesDespawnedThisFrame == 0 &&
        activeTiles == old(activeTiles) && tilesToSpawn == old(tilesToSpawn) && tilesToDespawn == old(tilesToDespawn) &&
        lastUpdateTime == old(lastUpdateTime) && lastCameraChunk == old(lastCameraChunk) && gridRadius == old(gridRadius)
      ensures old(hasCamera) && now - old(lastUpdateTime) >= updateInterval && cameraChunk == old(lastCameraChunk) ==>
        var ns := Quota(|old(tilesToSpawn)|, 0, tilesPerFrame);
        var nd := Quota(|old(tilesToDespawn)|, 0, tilesPerFrame);
        && tilesToSpawn == old(tilesToSpawn)[ns..]
        && tilesToDespawn == old(tilesToDespawn)[nd..]
        && tilesSpawnedThisFrame == ns && tilesDespawnedThisFrame == nd
        && activeTiles == DespawnAll(SpawnAll(old(activeTiles), defaultOceanTilePrefab, old(tilesToSpawn)[..ns]),
                                     old(tilesToDespawn)[..nd])
      ensures old(hasCamera) && now - old(lastUpdateTime) >= updateInterval ==>
        lastUpdateTime == now && lastCameraChunk == cameraChunk && gridRadius == runtimeGridRadius &&
        0 <= tilesSpawnedThisFrame && 0 <= tilesDespawnedThisFrame &&
        (tilesPerFrame >= 0 ==> tilesSpawnedThisFrame <= tilesPerFrame && tilesDespawnedThisFrame <= tilesPerFrame)
      ensures defaultOceanTilePrefab == old(defaultOceanTilePrefab) && hasCamera == old(hasCamera)
      ensures tilesPerFrame == old(tilesPerFrame) && runtimeGridRadius == old(runtimeGridRadius)
      ensures updateInterval == old(updateInterval)
    {
      if !hasCamera {
        return;
      }
      tilesSpawnedThisFrame := 0;
      tilesDespawnedThisFrame := 0;
      if now - lastUpdateTime < updateInterval {
        return;
      }
      lastUpdateTime := now;
      FollowCamera(cameraChunk);
      ProcessTileQueues();
      ApplyRuntimeCullingOverrides();
    }
  }
}
