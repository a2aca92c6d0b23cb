/**
 * Values shared by both generations of the voxel world (T2/world.js and
 * T3/world.js): the cell record, block types, the biome rule, the column
 * height clamp and the tree archetype choice.
 */
module Voxels {

  datatype Option<+T> = None | Some(value: T)

  /** The block-type tags the world writes into cells. */
  datatype BlockType = Stone | Sand | Dirt | Grass | Water | Tree

  /**
   * One grid cell. `instanceId` and `blockType` are JavaScript `null`
   * (here `None`) until a mutator writes them. T2 cells start without a
   * `type` property at all (`undefined`), which behaves like `null`.
   */
  datatype Cell = Cell(instanceId: Option<int>, blockType: Option<BlockType>)

  /** The cell `initTerrain` creates. */
  const EmptyCell := Cell(None, None)

  /** A grid coordinate; the grid stores it at `data[x][z][y]`. */
  datatype Pos = Pos(x: int, y: int, z: int)

  /** No element occurs twice in `s`. */
  predicate Distinct<T(==)>(s: seq<T>) {
    forall i, j :: 0 <= i < j < |s| ==> s[i] != s[j]
  }

  /** JavaScript truthiness of an `instanceId`: neither `null` nor `0`. */
  predicate Truthy(id: Option<int>) {
    id.Some? && id.value != 0
  }

  // Generation parameters (`params.biome` and the water table of T3).
  const SandLevel := 2
  const StoneLevel := 3
  const WaterLevel := 3

  /** The biome rule: the type of the row `y` of a generated column. */
  function Biome(y: int): BlockType {
    if y == 0 then Stone
    else if y < SandLevel then Sand
    else if y < StoneLevel then Dirt
    else Grass
  }

  /** The position of a biome tier in the order stone, sand, dirt, grass. */
  function Tier(t: BlockType): nat {
    match t
    case Stone => 0
    case Sand => 1
    case Dirt => 2
    case _ => 3
  }

  /** Scanning a column upward never goes back to an earlier biome tier. */
  lemma BiomeMonotone(y1: int, y2: int)
    requires 0 <= y1 <= y2
    ensures Tier(Biome(y1)) <= Tier(Biome(y2))
  {
  }

  /** Each row is classified by the fixed thresholds, bottom-up. */
  lemma BiomeThresholds(y: int)
    requires 0 <= y
    ensures Biome(y) == Stone <==> y == 0
    ensures Biome(y) == Sand <==> 0 < y < SandLevel
    ensures Biome(y) == Dirt <==> SandLevel <= y < StoneLevel
    ensures Biome(y) == Grass <==> StoneLevel <= y
    ensures Biome(y) != Water && Biome(y) != Tree
  {
  }

  /**
   * `Math.max(1, Math.min(raw, height))`: the clamped height of a column
   * whose unclamped height is `raw` (`Math.floor(height * scaledNoise)`).
   */
  function ColumnHeight(raw: int, height: int): (h: int)
    ensures 1 <= h
    ensures height >= 1 ==> h <= height
    ensures 1 <= raw <= height ==> h == raw
    ensures raw < 1 ==> h == 1
    ensures raw > height >= 1 ==> h == height
  {
    if raw < height then (if raw < 1 then 1 else raw)
    else (if height < 1 then 1 else height)
  }

  /**
   * What `generateTerrain` leaves in the cell at row `y` of a column whose
   * clamped height is `h`, given the cell `c` it found there. T3 passes
   * `withWater` and fills valleys up to the water table; T2 does not.
   */
  function TerrainCell(c: Cell, h: int, y: int, withWater: bool): Cell {
    if 0 <= y < h then Cell(Some(1), Some(Biome(y)))
    else if withWater && h <= y < WaterLevel then Cell(Some(1), Some(Water))
    else c
  }

  /**
   * Row `y` of a generated column is occupied exactly below the column
   * height, or below the water table when water is added; its type follows
   * the biome rule under `h` and is water between `h` and the table.
   */
  lemma TerrainCellShape(c: Cell, h: int, y: int, withWater: bool)
    requires 0 <= y
    ensures var r := TerrainCell(c, h, y, withWater);
      (y < h ==> Truthy(r.instanceId) && r.blockType == Some(Biome(y))) &&
      (h <= y < WaterLevel && withWater ==> Truthy(r.instanceId) && r.blockType == Some(Water)) &&
      (y >= h && (!withWater || y >= WaterLevel) ==> r == c)
  {
  }

  /** The tree archetypes `generateRandomThree` chooses between. */
  datatype Archetype = Autumn | Oak | Default

  /** The asset each archetype is loaded from. */
  function AssetFile(a: Archetype): string {
    match a
    case Autumn => "./assets/autumn.json"
    case Oak => "./assets/oak.json"
    case Default => "./assets/default.json"
  }

  /**
   * The archetype for a draw `rand` of `Math.random()`: half-open buckets
   * [0, 0.33), [0.33, 0.66) and [0.66, 1).
   */
  function ChooseArchetype(rand: real): (a: Archetype)
    ensures a == Autumn <==> rand < 0.33
    ensures a == Oak <==> 0.33 <= rand < 0.66
    ensures a == Default <==> 0.66 <= rand
  {
    if rand < 0.33 then Autumn
    else if rand < 0.66 then Oak
    else Default
  }

  /**
   * The cells `setTreeVoxel` types as "tree" for the archetype named
   * `kind`, anchored at `b`: a three-cell trunk and a crown above it. An
   * unknown name has no footprint.
   */
  function TreeFootprint(kind: string, b: Pos): (fp: set<Pos>)
    ensures kind == "autumn" || kind == "oak" || kind == "default" ==>
      b in fp && Pos(b.x, b.y + 1, b.z) in fp && Pos(b.x, b.y + 2, b.z) in fp
    ensures kind != "autumn" && kind != "oak" && kind != "default" ==> fp == {}
  {
    var trunk := {b, Pos(b.x, b.y + 1, b.z), Pos(b.x, b.y + 2, b.z)};
    if kind == "autumn" then
      trunk + {Pos(b.x - 1, b.y + 3, b.z - 1), Pos(b.x + 1, b.y + 3, b.z + 1), Pos(b.x, b.y + 3, b.z)}
    else if kind == "oak" || kind == "default" then
      trunk + {Pos(b.x, b.y + 3, b.z), Pos(b.x - 1, b.y + 3, b.z), Pos(b.x + 1, b.y + 3, b.z), Pos(b.x, b.y + 4, b.z)}
    else {}
  }

  /** A tree occupies at most the 3 x 5 x 3 box above its anchor. */
  lemma TreeFootprintBounds(kind: string, b: Pos)
    ensures forall p :: p in TreeFootprint(kind, b) ==>
      b.y <= p.y <= b.y + 4 && b.x - 1 <= p.x <= b.x + 1 && b.z - 1 <= p.z <= b.z + 1
  {
  }

  /** The "oak" and "default" footprints are the same cells; the autumn crown is a diagonal. */
  lemma OakDefaultSameFootprint(b: Pos)
    ensures TreeFootprint("oak", b) == TreeFootprint("default", b)
    ensures TreeFootprint("autumn", b) != TreeFootprint("oak", b)
  {
    assert Pos(b.x, b.y + 4, b.z) in TreeFootprint("oak", b);
    assert Pos(b.x, b.y + 4, b.z) !in TreeFootprint("autumn", b);
  }
}
