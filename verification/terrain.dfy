/**
 * The column writers of `generateTerrain`. Both generations lay a column
 * with the same loop (T2/world.js:109-120, T3/world.js:181-193); T3 then
 * fills the rows between the column top and the water table
 * (T3/world.js:196-201).
 */
module Terrain {
  import opened Voxels
  import opened Grid

  /**
   * The loop `for (y = 0; y < height; y++)`: every row below `h` of column
   * (x, z) gets the type of the biome rule and `instanceId` 1. Nothing else
   * changes, and rows outside the grid are skipped by the setters.
   */
  method LayColumn(w: World, x: int, z: int, h: int)
    requires w.Valid()
    modifies w.data
    ensures forall i, j, k :: 0 <= i < w.width && 0 <= j < w.width && 0 <= k < w.height ==>
      w.data[i, j, k] == if i == x && j == z then TerrainCell(old(w.data[i, j, k]), h, k, false)
                         else old(w.data[i, j, k])
  {
    var y := 0;
    while y < h
      invariant 0 <= y && (y <= h || y == 0)
      invariant forall i, j, k :: 0 <= i < w.width && 0 <= j < w.width && 0 <= k < w.height ==>
        w.data[i, j, k] == if i == x && j == z then TerrainCell(old(w.data[i, j, k]), y, k, false)
                           else old(w.data[i, j, k])
    {
      // The if-chain on `y` picks `Biome(y)`.
      w.SetBlockType(x, y, z, Biome(y));
      w.SetBlockId(x, y, z, Some(1));
      y := y + 1;
    }
  }

  /**
   * T3's loop `for (y = height; y < waterLevel; y++)`: rows `h` up to the
   * water table of column (x, z) become occupied water cells.
   */
  method FillWater(w: World, x: int, z: int, h: int)
    requires w.Valid()
    modifies w.data
    ensures forall i, j, k :: 0 <= i < w.width && 0 <= j < w.width && 0 <= k < w.height ==>
      w.data[i, j, k] == if i == x && j == z && h <= k < WaterLevel then Cell(Some(1), Some(Water))
                         else old(w.data[i, j, k])
  {
    var y := h;
    while y < WaterLevel
      invariant h <= y && (y <= WaterLevel || y == h)
      invariant forall i, j, k :: 0 <= i < w.width && 0 <= j < w.width && 0 <= k < w.height ==>
        w.data[i, j, k] == if i == x && j == z && h <= k < y then Cell(Some(1), Some(Water))
                           else old(w.data[i, j, k])
    {
      w.SetBlockType(x, y, z, Water);
      w.SetBlockId(x, y, z, Some(1));
      y := y + 1;
    }
  }
}
