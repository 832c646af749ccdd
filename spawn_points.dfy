/** Where the network manager spawns a player's ship: at a random spawn
  * point, at the next one in turn, or at the first; the spawn points are
  * re-collected from each newly loaded scene. Transforms are modelled by
  * integer ids. */
module SpawnPoints {
  import opened Wrappers
  import opened Numbers

  datatype PlayerSpawnMethod = Random | RoundRobin | Specific

  /** The outcome of choosing a spawn point: none configured (the world
    * origin is used), a spawn point, or the `IndexOutOfRangeException` an
    * array access past the end throws. */
  datatype SpawnChoice = Origin | Point(transform: int) | IndexOutOfRange

  /** `s` without the elements equal to `x`, in order. */
  function Without(s: seq<int>, x: int): (r: seq<int>)
    ensures x !in r
    ensures forall y :: y in r <==> y in s && y != x
    ensures |r| <= |s|
  {
    if s == [] then []
    else if s[0] == x then Without(s[1..], x)
    else [s[0]] + Without(s[1..], x)
  }

  /** The objects the scene offers as spawn points: those tagged
    * "SpawnPoint"; failing that, the transforms under the object named
    * "SpawnPoints" (its `GetComponentsInChildren` list), without that
    * object itself. */
  function CollectSpawnPoints(tagged: seq<int>, parent: Option<int>, childTransforms: seq<int>): (r: seq<int>)
    ensures |tagged| > 0 ==> r == tagged
    ensures |tagged| == 0 && parent.None? ==> r == []
    ensures |tagged| == 0 && parent.Some? ==>
      parent.value !in r && forall y :: y in r <==> y in childTransforms && y != parent.value
  {
    if |tagged| > 0 then tagged
    else match parent
      case None => []
      case Some(p) => Without(childTransforms, p)
  }

  /** The first `count` round-robin picks from `points`, starting at index
    * `start`. */
  function Turns(points: seq<int>, start: nat, count: nat): (r: seq<SpawnChoice>)
    requires |points| > 0
    ensures |r| == count
    ensures forall j :: 0 <= j < count ==> r[j] == Point(points[(start + j) % |points|])
  {
    seq(count, j requires 0 <= j < count => Point(points[(start + j) % |points|]))
  }

  lemma TurnsSnoc(points: seq<int>, start: nat, count: nat)
    requires |points| > 0
    ensures Turns(points, start, count + 1) == Turns(points, start, count) + [Point(points[(start + count) % |points|])]
  {
  }

  class WOSNetworkManager {
    var oceanSpawnPoints: array?<int>
    var spawnMethod: PlayerSpawnMethod
    var nextSpawnPointIndex: int

    /** The round-robin index can be used on the current array. */
    predicate IndexInRange()
      reads this
    {
      oceanSpawnPoints == null || oceanSpawnPoints.Length == 0 ||
      0 <= nextSpawnPointIndex < oceanSpawnPoints.Length
    }

    constructor (method_: PlayerSpawnMethod)
      ensures oceanSpawnPoints == null && spawnMethod == method_ && nextSpawnPointIndex == 0
    {
      oceanSpawnPoints := null;
      spawnMethod := method_;
      nextSpawnPointIndex := 0;
    }

    /** Chooses the spawn point for a new player. The random pick is any
      * index of the array. Round-robin uses the stored index and advances
      * it modulo the array length; the index is not checked first, so an
      * index past the end throws. */
    method GetNextSpawnPoint() returns (choice: SpawnChoice)
      modifies this`nextSpawnPointIndex
      ensures oceanSpawnPoints == null || oceanSpawnPoints.Length == 0 ==>
        choice == Origin && nextSpawnPointIndex == old(nextSpawnPointIndex)
      ensures oceanSpawnPoints != null && oceanSpawnPoints.Length > 0 ==>
        match spawnMethod
        case Random => choice.Point? && choice.transform in oceanSpawnPoints[..] &&
          nextSpawnPointIndex == old(nextSpawnPointIndex)
        case Specific => choice == Point(oceanSpawnPoints[0]) && nextSpawnPointIndex == old(nextSpawnPointIndex)
        case RoundRobin =>
          if 0 <= old(nextSpawnPointIndex) < oceanSpawnPoints.Length then
            choice == Point(oceanSpawnPoints[old(nextSpawnPointIndex)]) &&
            nextSpawnPointIndex == (old(nextSpawnPointIndex) + 1) % oceanSpawnPoints.Length
          else
            choice == IndexOutOfRange && nextSpawnPointIndex == old(nextSpawnPointIndex)
      ensures old(IndexInRange()) ==> IndexInRange()
    {
      if oceanSpawnPoints == null || oceanSpawnPoints.Length == 0 {
        return Origin;
      }
      match spawnMethod {
        case Random =>
          var k :| 0 <= k < oceanSpawnPoints.Length;
          choice := Point(oceanSpawnPoints[k]);
        case RoundRobin =>
          if !(0 <= nextSpawnPointIndex < oceanSpawnPoints.Length) {
            return IndexOutOfRange;
          }
          choice := Point(oceanSpawnPoints[nextSpawnPointIndex]);
          nextSpawnPointIndex := (nextSpawnPointIndex + 1) % oceanSpawnPoints.Length;
        case Specific =>
          choice := Point(oceanSpawnPoints[0]);
      }
    }

    /** `count` players joining in turn under round-robin take the points
      * in order from the stored index, wrapping at the end; after as many
      * players as there are points the index is back where it started. */
    method SpawnInTurn(count: nat) returns (choices: seq<SpawnChoice>)
      requires spawnMethod == RoundRobin && oceanSpawnPoints != null && oceanSpawnPoints.Length > 0
      requires IndexInRange()
      modifies this`nextSpawnPointIndex
      ensures |choices| == count
      ensures forall j :: 0 <= j < count ==>
        choices[j] == Point(oceanSpawnPoints[(old(nextSpawnPointIndex) + j) % oceanSpawnPoints.Length])
      ensures nextSpawnPointIndex == (old(nextSpawnPointIndex) + count) % oceanSpawnPoints.Length
      ensures count == oceanSpawnPoints.Length ==> nextSpawnPointIndex == old(nextSpawnPointIndex)
    {
      var n := oceanSpawnPoints.Length;
      var start := nextSpawnPointIndex;
      ghost var points := oceanSpawnPoints[..];
      choices := [];
      while |choices| < count
        invariant |choices| <= count
        invariant nextSpawnPointIndex == (start + |choices|) % n
        invariant choices == Turns(points, start, |choices|)
      {
        var choice := NextTurn(start, |choices|, points);
        TurnsSnoc(points, start, |choices|);
        choices := choices + [choice];
      }
      ModUnique(start + n, n, 1, start);
    }

    /** One round-robin pick, `k` picks after index `start`. */
    method NextTurn(start: nat, k: nat, ghost points: seq<int>) returns (choice: SpawnChoice)
      requires spawnMethod == RoundRobin && oceanSpawnPoints != null && oceanSpawnPoints.Length > 0
      requires points == oceanSpawnPoints[..] && nextSpawnPointIndex == (start + k) % |points|
      modifies this`nextSpawnPointIndex
      ensures choice == Point(points[(start + k) % |points|])
      ensures nextSpawnPointIndex == (start + k + 1) % |points|
    {
      ghost var i := (start + k) % |points|;
      assert 0 <= i < oceanSpawnPoints.Length;
      choice := GetNextSpawnPoint();
      assert choice == Point(oceanSpawnPoints[i]) && nextSpawnPointIndex == (i + 1) % |points|;
      ModSucc(start + k, |points|);
    }

    /** Replaces the spawn array by the points the new scene offers (an
      * empty array when it offers none). The round-robin index is kept as
      * it was. */
    method FindSpawnPointsInScene(tagged: seq<int>, parent: Option<int>, childTransforms: seq<int>)
      modifies this`oceanSpawnPoints
      ensures oceanSpawnPoints != null && fresh(oceanSpawnPoints)
      ensures oceanSpawnPoints[..] == CollectSpawnPoints(tagged, parent, childTransforms)
    {
      var spawnPointObjects := CollectSpawnPoints(tagged, parent, childTransforms);
      var points := new int[|spawnPointObjects|];
      var i := 0;
      while i < |spawnPointObjects|
        invariant 0 <= i <= |spawnPointObjects|
        invariant points[..i] == spawnPointObjects[..i]
      {
        points[i] := spawnPointObjects[i];
        i := i + 1;
      }
      oceanSpawnPoints := points;
    }

    /** The same, restarting the round-robin at the first point, so the
      * index always fits the new array. */
    method FindSpawnPointsInSceneCorrected(tagged: seq<int>, parent: Option<int>, childTransforms: seq<int>)
      modifies this`oceanSpawnPoints, this`nextSpawnPointIndex
      ensures oceanSpawnPoints != null && fresh(oceanSpawnPoints)
      ensures oceanSpawnPoints[..] == CollectSpawnPoints(tagged, parent, childTransforms)
      ensures nextSpawnPointIndex == 0 && IndexInRange()
    {
      FindSpawnPointsInScene(tagged, parent, childTransforms);
      nextSpawnPointIndex := 0;
    }
  }

  /** Round-robin over three points, twice, then a scene with one tagged
    * point: the stored index 2 is past the end of the new array. */
  method RoundRobinAfterShrink() returns (choice: SpawnChoice)
    ensures choice == IndexOutOfRange
  {
    var manager := new WOSNetworkManager(RoundRobin);
    manager.FindSpawnPointsInScene([10, 11, 12], None, []);
    var first := manager.GetNextSpawnPoint();
    var second := manager.GetNextSpawnPoint();
    manager.FindSpawnPointsInScene([20], None, []);
    choice := manager.GetNextSpawnPoint();
  }

  /** The same sequence with the index restarted on each scene change. */
  method RoundRobinAfterShrinkCorrected() returns (choice: SpawnChoice)
    ensures choice == Point(20)
  {
    var manager := new WOSNetworkManager(RoundRobin);
    manager.FindSpawnPointsInSceneCorrected([10, 11, 12], None, []);
    var first := manager.GetNextSpawnPoint();
    var second := manager.GetNextSpawnPoint();
    manager.FindSpawnPointsInSceneCorrected([20], None, []);
    choice := manager.GetNextSpawnPoint();
  }
}
