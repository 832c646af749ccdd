/** The cargo hold: a grid with an empty border, a weight capacity and the
  * table of cargo item definitions. */
module CargoConfig {
  import opened Mathf
  import opened CargoItems

  /** `lo <= v < hi`: one axis of a valid grid position. */
  predicate InBand(v: int, lo: int, hi: int) {
    lo <= v && v < hi
  }

  /** The number of `x` in `[0, n)` that lie in `[b, w - b)`. */
  function CountInBand(n: nat, w: int, b: int): (count: nat)
    ensures count <= n
  {
    if n == 0 then 0 else CountInBand(n - 1, w, b) + (if InBand(n - 1, b, w - b) then 1 else 0)
  }

  /** The number of cells `(x, y)` of a `w` by `rows` grid that lie inside
    * the border on both axes. */
  function CountValidCells(rows: nat, w: nat, h: int, b: int): (count: nat)
  {
    if rows == 0 then 0
    else CountValidCells(rows - 1, w, h, b) + (if InBand(rows - 1, b, h - b) then CountInBand(w, w, b) else 0)
  }

  /** Of the first `n` cells on an axis, those in the band are the ones past
    * the border and not yet at the far border. */
  lemma {:induction false} CountInBandIs(n: nat, w: int, b: int)
    requires 0 <= b && 2 * b < w && n <= w
    ensures CountInBand(n, w, b) == if n <= b then 0 else if n <= w - b then n - b else w - 2 * b
  {
    if n > 0 {
      CountInBandIs(n - 1, w, b);
    }
  }

  lemma {:induction false} CountValidCellsIs(rows: nat, w: nat, h: int, b: int)
    requires 0 <= b && 2 * b < w && 2 * b < h && rows <= h
    ensures CountValidCells(rows, w, h, b) ==
      (if rows <= b then 0 else if rows <= h - b then rows - b else h - 2 * b) * (w - 2 * b)
  {
    CountInBandIs(w, w, b);
    if rows > 0 {
      CountValidCellsIs(rows - 1, w, h, b);
      var k := rows - 1;
      if k < b {
      } else if k < h - b {
        assert (k + 1 - b) * (w - 2 * b) == (k - b) * (w - 2 * b) + (w - 2 * b);
      }
    }
  }

  class CargoConfiguration {
    var gridWidth: int
    var gridHeight: int
    var borderSize: int
    var maxWeight: real
    var cargoTypes: array?<CargoItemType?>

    /** The asset's defaults: a 12 by 10 grid, a border of 1, 500 tons. */
    constructor(types: array?<CargoItemType?>)
      ensures gridWidth == 12 && gridHeight == 10 && borderSize == 1 && maxWeight == 500.0
      ensures cargoTypes == types
    {
      gridWidth := 12;
      gridHeight := 10;
      borderSize := 1;
      maxWeight := 500.0;
      cargoTypes := types;
    }

    /** `GetTotalGridArea`. */
    function GetTotalGridArea(): (area: int)
      reads this`gridWidth, this`gridHeight
      ensures gridWidth >= 0 && gridHeight >= 0 ==> area >= 0
      ensures gridWidth > 0 && gridHeight > 0 ==> area >= gridWidth && area >= gridHeight
    {
      gridWidth * gridHeight
    }

    /** The total area counts every cell of the grid (the valid positions
      * of a border-less grid), and a border that leaves room keeps the
      * usable area within it. */
    lemma TotalAreaCountsCells()
      requires gridWidth > 0 && gridHeight > 0
      ensures GetTotalGridArea() == CountValidCells(gridHeight, gridWidth, gridHeight, 0)
      ensures 0 <= borderSize && 2 * borderSize < gridWidth && 2 * borderSize < gridHeight ==>
        GetUsableGridArea() <= GetTotalGridArea()
    {
      CountValidCellsIs(gridHeight, gridWidth, gridHeight, 0);
      if 0 <= borderSize && 2 * borderSize < gridWidth && 2 * borderSize < gridHeight {
        var uw, uh := gridWidth - 2 * borderSize, gridHeight - 2 * borderSize;
        assert uw * uh <= gridWidth * uh;
        assert gridWidth * uh <= gridWidth * gridHeight;
      }
    }

    /** `GetUsableGridArea`: the grid without its border, each side counted
      * as at least one cell. */
    function GetUsableGridArea(): (area: int)
      reads this`gridWidth, this`gridHeight, this`borderSize
      ensures area >= 1
      ensures gridWidth > 2 * borderSize && gridHeight > 2 * borderSize ==>
        area == (gridWidth - 2 * borderSize) * (gridHeight - 2 * borderSize)
    {
      var usableWidth := MaxInt(1, gridWidth - borderSize * 2);
      var usableHeight := MaxInt(1, gridHeight - borderSize * 2);
      assert usableWidth * usableHeight >= usableWidth * 1;
      usableWidth * usableHeight
    }

    /** `IsValidGridPosition`: inside the border on both axes. A valid
      * position exists only when the border leaves an inner column and row,
      * and with a non-negative border it lies on the grid. */
    predicate IsValidGridPosition(x: int, y: int)
      reads this`gridWidth, this`gridHeight, this`borderSize
      ensures IsValidGridPosition(x, y) ==> 2 * borderSize < gridWidth && 2 * borderSize < gridHeight
      ensures IsValidGridPosition(x, y) && borderSize >= 0 ==> 0 <= x < gridWidth && 0 <= y < gridHeight
    {
      InBand(x, borderSize, gridWidth - borderSize) && InBand(y, borderSize, gridHeight - borderSize)
    }

    /** The number of grid cells that are valid positions. */
    function ValidPositionCount(): (count: nat)
      reads this`gridWidth, this`gridHeight, this`borderSize
      requires gridWidth >= 0
    {
      CountValidCells(if gridHeight < 0 then 0 else gridHeight, gridWidth, gridHeight, borderSize)
    }

    /** With a border leaving room on both axes, the usable area is the
      * number of valid positions on the grid. */
    lemma UsableAreaCountsValidPositions()
      requires 0 <= borderSize && 2 * borderSize < gridWidth && 2 * borderSize < gridHeight
      ensures GetUsableGridArea() == ValidPositionCount()
    {
      CountValidCellsIs(gridHeight, gridWidth, gridHeight, borderSize);
    }

    /** `CanAddWeight`: the new total stays within the capacity. A hold
      * already over capacity takes no further cargo, and one within it can
      * always give cargo up. */
    predicate CanAddWeight(currentWeight: real, additionalWeight: real)
      reads this`maxWeight
      ensures currentWeight > maxWeight && additionalWeight >= 0.0 ==> !CanAddWeight(currentWeight, additionalWeight)
      ensures currentWeight <= maxWeight && additionalWeight <= 0.0 ==> CanAddWeight(currentWeight, additionalWeight)
    {
      currentWeight + additionalWeight <= maxWeight
    }

    /** Loading `weights` one after another onto a hold of `currentWeight`,
      * taking each only when `CanAddWeight` allows it. */
    function LoadGuarded(currentWeight: real, weights: seq<real>): real
      reads this`maxWeight
      decreases |weights|
    {
      if weights == [] then currentWeight
      else LoadGuarded(if CanAddWeight(currentWeight, weights[0]) then currentWeight + weights[0] else currentWeight,
                       weights[1..])
    }

    /** Cargo taken only when `CanAddWeight` allows it never takes a hold
      * that starts within its capacity past that capacity. */
    lemma {:induction false} GuardedLoadingStaysWithinCapacity(currentWeight: real, weights: seq<real>)
      requires currentWeight <= maxWeight
      ensures LoadGuarded(currentWeight, weights) <= maxWeight
      decreases |weights|
    {
      if weights != [] {
        var next := if CanAddWeight(currentWeight, weights[0]) then currentWeight + weights[0] else currentWeight;
        GuardedLoadingStaysWithinCapacity(next, weights[1..]);
      }
    }

    /** `GetCargoType`: the foreach walks the table, failing on a null table
      * or on a null entry before a match. */
    method GetCargoType(typeId: int) returns (r: Lookup)
      ensures r.Found? ==>
        cargoTypes != null &&
        exists i :: 0 <= i < cargoTypes.Length && cargoTypes[i] == r.item && r.item.typeId == typeId &&
          Unmatched(cargoTypes[..i], typeId)
      ensures r.Missing? ==> cargoTypes != null && Unmatched(cargoTypes[..], typeId)
      ensures r.Throws? ==>
        cargoTypes == null ||
        exists i :: 0 <= i < cargoTypes.Length && cargoTypes[i] == null && Unmatched(cargoTypes[..i], typeId)
    {
      if cargoTypes == null {
        return Throws;
      }
      var i := 0;
      while i < cargoTypes.Length
        invariant 0 <= i <= cargoTypes.Length
        invariant Unmatched(cargoTypes[..i], typeId)
      {
        var cargoType := cargoTypes[i];
        if cargoType == null {
          return Throws;
        }
        if cargoType.typeId == typeId {
          return Found(cargoType);
        }
        assert cargoTypes[..i + 1] == cargoTypes[..i] + [cargoType];
        i := i + 1;
      }
      assert cargoTypes[..i] == cargoTypes[..];
      return Missing;
    }

    /** The cargo item definitions in the table. */
    function Items(): set<CargoItemType>
      reads this`cargoTypes, cargoTypes
    {
      if cargoTypes == null then {}
      else set i | 0 <= i < cargoTypes.Length && cargoTypes[i] != null :: cargoTypes[i]
    }

    /** `OnValidate`: the grid is at least 4 by 4, the border leaves at
      * least one row and column inside it, and every definition's id is the
      * last slot of the table that holds it (its own slot when no
      * definition appears twice). */
    method OnValidate()
      modifies this`gridWidth, this`gridHeight, this`borderSize, Items()`typeId
      ensures gridWidth == MaxInt(4, old(gridWidth)) && gridHeight == MaxInt(4, old(gridHeight))
      ensures borderSize == MinInt(old(borderSize), MinInt(gridWidth, gridHeight) / 2 - 1)
      ensures gridWidth > 2 * borderSize && gridHeight > 2 * borderSize
      ensures cargoTypes != null ==> forall i :: 0 <= i < cargoTypes.Length && cargoTypes[i] != null ==>
        LastSlot(cargoTypes[..], i, cargoTypes[i].typeId)
      ensures cargoTypes != null && NoDuplicates(cargoTypes[..]) ==>
        forall i :: 0 <= i < cargoTypes.Length && cargoTypes[i] != null ==> cargoTypes[i].typeId == i
    {
      gridWidth := MaxInt(4, gridWidth);
      gridHeight := MaxInt(4, gridHeight);
      borderSize := MinInt(borderSize, MinInt(gridWidth, gridHeight) / 2 - 1);
      if cargoTypes != null {
        var i := 0;
        while i < cargoTypes.Length
          invariant 0 <= i <= cargoTypes.Length
          invariant gridWidth == MaxInt(4, old(gridWidth)) && gridHeight == MaxInt(4, old(gridHeight))
          invariant borderSize == MinInt(old(borderSize), MinInt(gridWidth, gridHeight) / 2 - 1)
          invariant forall k :: 0 <= k < i && cargoTypes[k] != null ==> LastSlot(cargoTypes[..i], k, cargoTypes[k].typeId)
        {
          if cargoTypes[i] != null {
            cargoTypes[i].typeId := i;
          }
          i := i + 1;
        }
        assert cargoTypes[..i] == cargoTypes[..];
        if NoDuplicates(cargoTypes[..]) {
          forall k | 0 <= k < cargoTypes.Length && cargoTypes[k] != null
            ensures cargoTypes[k].typeId == k
          {
            assert LastSlot(cargoTypes[..], k, cargoTypes[k].typeId);
          }
        }
      }
    }
  }

  /** The answer of `GetCargoType`: the definition, none (`null`), or the
    * `NullReferenceException` the loop raises. */
  datatype Lookup = Found(item: CargoItemType) | Missing | Throws

  /** Every entry is a definition whose id is not `typeId`. */
  ghost predicate Unmatched(entries: seq<CargoItemType?>, typeId: int)
    reads set k | 0 <= k < |entries| && entries[k] != null :: entries[k]
  {
    forall k :: 0 <= k < |entries| ==> entries[k] != null && entries[k].typeId != typeId
  }

  /** `j` is the last slot of `entries` holding the definition in slot `i`. */
  ghost predicate LastSlot(entries: seq<CargoItemType?>, i: int, j: int) {
    0 <= i < |entries| && 0 <= j < |entries| && entries[j] == entries[i] &&
    forall k :: j < k < |entries| ==> entries[k] != entries[i]
  }

  /** No definition sits in two slots. */
  ghost predicate NoDuplicates(entries: seq<CargoItemType?>) {
    forall i, j :: 0 <= i < j < |entries| && entries[i] != null ==> entries[i] != entries[j]
  }
}
