/** A cargo item definition: its footprint on the cargo grid, optionally
  * turned a quarter, and its weight. */
module CargoItems {
  datatype CargoCategory = General | Food | Fuel | Equipment | Ammunition | Luxury | Raw
                         | Manufactured | Military | Medical | Hazardous

  /** A grid size or position, `Vector2Int`. */
  datatype Vector2Int = Vector2Int(x: int, y: int)

  /** The weight of `cols` cells, each weighing `unit`. */
  function RowLoad(cols: nat, unit: real): real {
    if cols == 0 then 0.0 else RowLoad(cols - 1, unit) + unit
  }

  /** The weight of `rows` rows of `cols` cells, each weighing `unit`. */
  function CellLoad(rows: nat, cols: nat, unit: real): real {
    if rows == 0 then 0.0 else CellLoad(rows - 1, cols, unit) + RowLoad(cols, unit)
  }

  lemma {:induction false} RowLoadIs(cols: nat, unit: real)
    ensures RowLoad(cols, unit) == cols as real * unit
  {
    if cols > 0 {
      RowLoadIs(cols - 1, unit);
    }
  }

  /** A block of cells weighs its cell count times the unit weight. */
  lemma {:induction false} CellLoadIs(rows: nat, cols: nat, unit: real)
    ensures CellLoad(rows, cols, unit) == (rows * cols) as real * unit
  {
    RowLoadIs(cols, unit);
    if rows > 0 {
      CellLoadIs(rows - 1, cols, unit);
      assert (rows * cols) as real == ((rows - 1) * cols) as real + cols as real;
    }
  }

  class CargoItemType {
    var typeId: int
    var itemName: string
    var width: int
    var height: int
    var unitWeight: real
    var canRotate: bool
    var category: CargoCategory

    constructor(id: int, w: int, h: int, weight: real, rotatable: bool)
      ensures typeId == id && width == w && height == h && unitWeight == weight && canRotate == rotatable
      ensures itemName == "Cargo Container" && category == General
    {
      typeId := id;
      itemName := "Cargo Container";
      width := w;
      height := h;
      unitWeight := weight;
      canRotate := rotatable;
      category := General;
    }

    /** `GetArea`: the cells the item covers. */
    function GetArea(): (area: int)
      reads this`width, this`height
      ensures width >= 0 && height >= 0 ==> area >= 0
      ensures width >= 1 && height >= 1 ==> area >= width && area >= height
    {
      width * height
    }

    /** `GetTotalWeight`: the unit weight once per covered cell. An item
      * of non-negative size and unit weight weighs nothing negative, and
      * one that covers no cell weighs nothing. */
    function GetTotalWeight(): (weight: real)
      reads this`width, this`height, this`unitWeight
      ensures width >= 0 && height >= 0 && unitWeight >= 0.0 ==> weight >= 0.0
      ensures width == 0 || height == 0 ==> weight == 0.0
    {
      unitWeight * width as real * height as real
    }

    /** `GetRotatedDimensions`: width and height swap only when a turn is
      * asked for and the item allows it. */
    function GetRotatedDimensions(rotated: bool): (d: Vector2Int)
      reads this`width, this`height, this`canRotate
      ensures multiset{d.x, d.y} == multiset{width, height}
      ensures d != Vector2Int(width, height) ==> rotated && canRotate
      ensures rotated && canRotate ==> d == Vector2Int(height, width)
    {
      if rotated && canRotate then Vector2Int(height, width) else Vector2Int(width, height)
    }

    /** The total weight is the sum, over the cells the item covers in
      * either orientation, of the unit weight of each cell. */
    lemma TotalWeightIsCellSum(rotated: bool)
      requires width >= 0 && height >= 0
      ensures var d := GetRotatedDimensions(rotated);
        d.x >= 0 && d.y >= 0 && GetTotalWeight() == CellLoad(d.y, d.x, unitWeight)
    {
      var d := GetRotatedDimensions(rotated);
      CellLoadIs(d.y, d.x, unitWeight);
      RotationKeepsArea(rotated);
      assert (d.x * d.y) as real == d.x as real * d.y as real;
      assert GetTotalWeight() == unitWeight * (width * height) as real;
    }

    /** Turning an item never changes the cells it covers. */
    lemma RotationKeepsArea(rotated: bool)
      ensures GetRotatedDimensions(rotated).x * GetRotatedDimensions(rotated).y == GetArea()
    {
      var d := GetRotatedDimensions(rotated);
      if rotated && canRotate {
        assert d.x * d.y == height * width;
      }
    }
  }
}
