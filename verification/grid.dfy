/**
 * The dense voxel grid of the `World` class. T2/world.js and T3/world.js
 * carry the same grid API line for line (setBlockId, setBlockType,
 * inBounds, hasVoxel, getCenterMap, getHeightByXZ, initTerrain,
 * buildModeling, setTreeVoxel); this module models it once. What the two
 * generations do differently (terrain and meshing) is in TerrainT2 and
 * TerrainT3.
 */
module Grid {
  import opened Voxels

  // ---------------------------------------------------------------------
  // The order in which `generateMesh` walks the grid: x outermost, then z,
  // then y.

  /** The first `n` cells of column (x, z), bottom-up. */
  function ColumnWalk(x: int, z: int, n: nat): (r: seq<Pos>)
    ensures |r| == n
  {
    if n == 0 then [] else ColumnWalk(x, z, n - 1) + [Pos(x, n - 1, z)]
  }

  /** The first `n` columns of slice x, each `height` cells tall. */
  function SliceWalk(x: int, height: nat, n: nat): seq<Pos> {
    if n == 0 then [] else SliceWalk(x, height, n - 1) + ColumnWalk(x, n - 1, height)
  }

  /** The first `n` slices of a `width` x `width` x `height` grid. */
  function GridWalk(width: nat, height: nat, n: nat): seq<Pos> {
    if n == 0 then [] else GridWalk(width, height, n - 1) + SliceWalk(n - 1, height, width)
  }

  /** One more row of a column walk, after any prefix. */
  lemma ColumnWalkStep(pre: seq<Pos>, x: int, z: int, y: nat)
    ensures pre + ColumnWalk(x, z, y + 1) == pre + ColumnWalk(x, z, y) + [Pos(x, y, z)]
  {
  }

  /** One more column of a slice walk, after any prefix. */
  lemma SliceWalkStep(pre: seq<Pos>, x: int, height: nat, z: nat)
    ensures pre + SliceWalk(x, height, z + 1) == pre + SliceWalk(x, height, z) + ColumnWalk(x, z, height)
  {
  }

  /** One more slice of the grid walk. */
  lemma GridWalkStep(width: nat, height: nat, x: nat)
    ensures GridWalk(width, height, x + 1) == GridWalk(width, height, x) + SliceWalk(x, height, width)
  {
  }

  lemma DistinctAppend(a: seq<Pos>, b: seq<Pos>)
    requires Distinct(a) && Distinct(b)
    requires forall p :: p in a ==> p !in b
    ensures Distinct(a + b)
  {
    forall i, j | 0 <= i < j < |a + b|
      ensures (a + b)[i] != (a + b)[j]
    {
      if j < |a| {
        assert (a + b)[i] == a[i] && (a + b)[j] == a[j];
      } else if i < |a| {
        assert (a + b)[i] == a[i] && (a + b)[j] == b[j - |a|];
        assert a[i] in a;
      } else {
        assert (a + b)[i] == b[i - |a|] && (a + b)[j] == b[j - |a|];
      }
    }
  }

  /** Cell p is visited by the walk of the first n rows of column (x, z) iff it is one of them. */
  lemma {:induction false} ColumnWalkHas(x: int, z: int, n: nat, p: Pos)
    ensures p in ColumnWalk(x, z, n) <==> p.x == x && p.z == z && 0 <= p.y < n
  {
    if n > 0 {
      var m: nat := n - 1;
      ColumnWalkHas(x, z, m, p);
      assert ColumnWalk(x, z, m + 1) == ColumnWalk(x, z, m) + [Pos(x, m, z)];
    }
  }

  /** Cell p is visited by the walk of the first n columns of slice x iff it lies in them. */
  lemma {:induction false} SliceWalkHas(x: int, height: nat, n: nat, p: Pos)
    ensures p in SliceWalk(x, height, n) <==> p.x == x && 0 <= p.z < n && 0 <= p.y < height
  {
    if n > 0 {
      var m: nat := n - 1;
      SliceWalkHas(x, height, m, p);
      ColumnWalkHas(x, m, height, p);
      assert SliceWalk(x, height, m + 1) == SliceWalk(x, height, m) + ColumnWalk(x, m, height);
    }
  }

  /** Cell p is visited by the walk of the first n slices iff it lies in them. */
  lemma {:induction false} GridWalkHas(width: nat, height: nat, n: nat, p: Pos)
    ensures p in GridWalk(width, height, n) <==> 0 <= p.x < n && 0 <= p.z < width && 0 <= p.y < height
  {
    if n > 0 {
      var m: nat := n - 1;
      GridWalkHas(width, height, m, p);
      SliceWalkHas(m, height, width, p);
      assert GridWalk(width, height, m + 1) == GridWalk(width, height, m) + SliceWalk(m, height, width);
    }
  }

  /** A column walk visits rows 0 .. n-1 of column (x, z), each once. */
  lemma {:induction false} ColumnWalkCovers(x: int, z: int, n: nat)
    ensures forall p :: p in ColumnWalk(x, z, n) <==> p.x == x && p.z == z && 0 <= p.y < n
    ensures Distinct(ColumnWalk(x, z, n))
  {
    forall p {
      ColumnWalkHas(x, z, n, p);
    }
    if n > 0 {
      var m: nat := n - 1;
      var pre := ColumnWalk(x, z, m);
      forall p | p in pre
        ensures p !in [Pos(x, m, z)]
      {
        ColumnWalkHas(x, z, m, p);
      }
      ColumnWalkCovers(x, z, m);
      DistinctAppend(pre, [Pos(x, m, z)]);
      assert ColumnWalk(x, z, m + 1) == pre + [Pos(x, m, z)];
    }
  }

  /** A slice walk visits columns 0 .. n-1 of slice x in full, each cell once. */
  lemma {:induction false} SliceWalkCovers(x: int, height: nat, n: nat)
    ensures forall p :: p in SliceWalk(x, height, n) <==> p.x == x && 0 <= p.z < n && 0 <= p.y < height
    ensures Distinct(SliceWalk(x, height, n))
  {
    forall p {
      SliceWalkHas(x, height, n, p);
    }
    if n > 0 {
      var m: nat := n - 1;
      var pre, column := SliceWalk(x, height, m), ColumnWalk(x, m, height);
      forall p | p in pre
        ensures p !in column
      {
        SliceWalkHas(x, height, m, p);
        ColumnWalkHas(x, m, height, p);
      }
      SliceWalkCovers(x, height, m);
      ColumnWalkCovers(x, m, height);
      DistinctAppend(pre, column);
      assert SliceWalk(x, height, m + 1) == pre + column;
    }
  }

  /** The walk of the first n slices visits each of their cells exactly once. */
  lemma {:induction false} GridWalkCovers(width: nat, height: nat, n: nat)
    ensures forall p :: p in GridWalk(width, height, n) <==>
      0 <= p.x < n && 0 <= p.z < width && 0 <= p.y < height
    ensures Distinct(GridWalk(width, height, n))
  {
    forall p {
      GridWalkHas(width, height, n, p);
    }
    if n > 0 {
      var m: nat := n - 1;
      var pre, slice := GridWalk(width, height, m), SliceWalk(m, height, width);
      forall p | p in pre
        ensures p !in slice
      {
        GridWalkHas(width, height, m, p);
        SliceWalkHas(m, height, width, p);
      }
      GridWalkCovers(width, height, m);
      SliceWalkCovers(m, height, width);
      DistinctAppend(pre, slice);
      assert GridWalk(width, height, m + 1) == pre + slice;
    }
  }

  // ---------------------------------------------------------------------
  // Instance batches. A batch collects the cells drawn with one material:
  // one block type, and in T3 also one side of the shadow split.

  datatype Shadow = AnyShadow | WithShadows | WithoutShadows

  /** Which cells a batch collects: a set of types and a shadow side. */
  datatype Selector = Selector(types: set<BlockType>, shadow: Shadow)

  /** Whether a cell of type `t`, exposed to the sky or not, belongs to batch `s`. */
  predicate Matches(s: Selector, t: Option<BlockType>, exposed: bool) {
    t.Some? && t.value in s.types &&
    match s.shadow
    case AnyShadow => true
    case WithShadows => exposed
    case WithoutShadows => !exposed
  }

  /** How many of the batches `sels` a cell of type `t` belongs to. */
  function Hits(sels: seq<Selector>, t: Option<BlockType>, exposed: bool): nat {
    if sels == [] then 0
    else (if Matches(sels[0], t, exposed) then 1 else 0) + Hits(sels[1..], t, exposed)
  }

  /** Batch lists can be counted piecewise. */
  lemma {:induction false} HitsAppend(a: seq<Selector>, b: seq<Selector>, t: Option<BlockType>, exposed: bool)
    ensures Hits(a + b, t, exposed) == Hits(a, t, exposed) + Hits(b, t, exposed)
    decreases |a|
  {
    if a != [] {
      assert (a + b)[0] == a[0] && (a + b)[1..] == a[1..] + b;
      HitsAppend(a[1..], b, t, exposed);
    } else {
      assert a + b == b;
    }
  }

  // ---------------------------------------------------------------------
  // Trees.

  /** The position of one box of a tree asset (`voxelData.position`). */
  datatype TreeRecord = TreeRecord(x: real, y: real, z: real)

  /** The cell `buildModeling` marks for record `r` of a tree anchored at `base`. */
  function RecordCell(r: TreeRecord, base: Pos): Pos {
    Pos((r.x + base.x as real).Floor, (r.y + base.y as real).Floor, (r.z + base.z as real).Floor)
  }

  /** The cells marked for `records`, in order. */
  function RecordCells(records: seq<TreeRecord>, base: Pos): (r: seq<Pos>)
    ensures |r| == |records|
  {
    if records == [] then []
    else RecordCells(records[..|records| - 1], base) + [RecordCell(records[|records| - 1], base)]
  }

  /** A tree `generateMesh` asks for: its anchor and its archetype. */
  datatype TreeSite = TreeSite(base: Pos, kind: Archetype)

  /** `getCenterMap`'s result. */
  datatype Center = Center(x: real, z: real, y: real)

  class World {
    /** `size.width`, the extent of both horizontal axes. */
    const width: nat
    /** `size.height`, the vertical extent. */
    const height: nat
    /** The cells, `data[x, z, y]`. */
    const data: array3<Cell>

    ghost predicate Valid() {
      data.Length0 == width && data.Length1 == width && data.Length2 == height
    }

    /** `initTerrain`: a `width` x `width` x `height` grid of empty cells. */
    constructor (width: nat, height: nat)
      ensures Valid() && this.width == width && this.height == height && fresh(data)
      ensures forall x, z, y :: 0 <= x < width && 0 <= z < width && 0 <= y < height ==>
        data[x, z, y] == EmptyCell
    {
      this.width := width;
      this.height := height;
      data := new Cell[width, width, height];
      new;
      var x := 0;
      while x < width
        invariant 0 <= x <= width
        invariant forall i, j, k :: 0 <= i < x && 0 <= j < width && 0 <= k < height ==>
          data[i, j, k] == EmptyCell
      {
        var z := 0;
        while z < width
          invariant 0 <= z <= width
          invariant forall i, j, k ::
            (0 <= i < width && 0 <= j < width && 0 <= k < height && (i < x || (i == x && j < z))) ==>
            data[i, j, k] == EmptyCell
        {
          var y := 0;
          while y < height
            invariant 0 <= y <= height
            invariant forall i, j, k ::
              (0 <= i < width && 0 <= j < width && 0 <= k < height &&
               (i < x || (i == x && j < z) || (i == x && j == z && k < y))) ==>
              data[i, j, k] == EmptyCell
          {
            data[x, z, y] := EmptyCell;
            y := y + 1;
          }
          z := z + 1;
        }
        x := x + 1;
      }
    }

    /** `inBounds(x, z, y)`: the coordinate names a stored cell. */
    predicate InBounds(x: int, z: int, y: int) {
      0 <= x < width && 0 <= z < width && 0 <= y < height
    }

    /**
     * `hasVoxel(x, z, y)`. Only `y` is checked: an out-of-range `y` reads
     * `undefined` and gives false, while an out-of-range `x` or `z` throws
     * in the source, so callers must keep those in range.
     */
    predicate HasVoxel(x: int, z: int, y: int)
      requires Valid() && 0 <= x < width && 0 <= z < width
      reads data
    {
      0 <= y < height && Truthy(data[x, z, y].instanceId)
    }

    /** `hasVoxel` is false off the column and otherwise reads the cell's id. */
    lemma HasVoxelMeaning(x: int, z: int, y: int)
      requires Valid() && 0 <= x < width && 0 <= z < width
      ensures !(0 <= y < height) ==> !HasVoxel(x, z, y)
      ensures 0 <= y < height ==>
        (HasVoxel(x, z, y) <==> data[x, z, y].instanceId.Some? && data[x, z, y].instanceId.value != 0)
    {
    }

    /**
     * `setBlockId(x, y, z, id)`: note the argument order; the cell written
     * is `data[x][z][y]`, and nothing is written out of bounds.
     */
    method SetBlockId(x: int, y: int, z: int, id: Option<int>)
      requires Valid()
      modifies data
      ensures forall i, j, k :: 0 <= i < width && 0 <= j < width && 0 <= k < height ==>
        data[i, j, k] == if InBounds(x, z, y) && i == x && j == z && k == y
                         then old(data[i, j, k]).(instanceId := id) else old(data[i, j, k])
    {
      if InBounds(x, z, y) {
        data[x, z, y] := data[x, z, y].(instanceId := id);
      }
    }

    /** `setBlockType(x, y, z, t)`: the same shape as `setBlockId`, for the type. */
    method SetBlockType(x: int, y: int, z: int, t: BlockType)
      requires Valid()
      modifies data
      ensures forall i, j, k :: 0 <= i < width && 0 <= j < width && 0 <= k < height ==>
        data[i, j, k] == if InBounds(x, z, y) && i == x && j == z && k == y
                         then old(data[i, j, k]).(blockType := Some(t)) else old(data[i, j, k])
    {
      if InBounds(x, z, y) {
        data[x, z, y] := data[x, z, y].(blockType := Some(t));
      }
    }

    /** `getCenterMap`: the grid midpoint, where the avatar is spawned. */
    function GetCenterMap(): (c: Center)
      ensures c.x == c.z && 2.0 * c.x == width as real && 2.0 * c.y == height as real
      ensures width >= 1 && height >= 1 ==> InBounds(c.x.Floor, c.z.Floor, c.y.Floor)
    {
      Center(width as real / 2.0, width as real / 2.0, height as real / 2.0)
    }

    /** The first row at or above `i` in column (x, z) without a voxel. */
    ghost function HeightFrom(x: int, z: int, i: int): (r: int)
      requires Valid() && 0 <= x < width && 0 <= z < width
      reads data
      ensures i <= r && r <= (if i < height then height else i)
      ensures forall j :: i <= j < r ==> HasVoxel(x, z, j)
      ensures !HasVoxel(x, z, r)
      decreases height - i
    {
      if HasVoxel(x, z, i) then HeightFrom(x, z, i + 1) else i
    }

    /** The row `getHeightByXZ` finds: the first free row from row 1 up. */
    ghost function Surface(x: int, z: int): int
      requires Valid() && 0 <= x < width && 0 <= z < width
      reads data
    {
      HeightFrom(x, z, 1)
    }

    /**
     * `getHeightByXZ(x, z)`: the least row `i >= 1` without a voxel. Row 0
     * is never looked at, and the scan stops at `height` at the latest.
     */
    method GetHeightByXZ(x: int, z: int) returns (i: int)
      requires Valid() && 0 <= x < width && 0 <= z < width
      ensures 1 <= i <= (if height < 1 then 1 else height)
      ensures forall j :: 1 <= j < i ==> HasVoxel(x, z, j)
      ensures !HasVoxel(x, z, i)
      ensures i == Surface(x, z)
    {
      i := 1;
      while HasVoxel(x, z, i)
        invariant 1 <= i <= (if height < 1 then 1 else height)
        invariant forall j :: 1 <= j < i ==> HasVoxel(x, z, j)
        invariant HeightFrom(x, z, i) == Surface(x, z)
        decreases height - i
      {
        i := i + 1;
      }
    }

    /**
     * A column whose cells are exactly what `generateTerrain` writes into a
     * fresh grid for height `h` has its surface at `h` (T2), or at the water
     * table when the column is lower and water is added (T3), capped by the
     * grid height.
     */
    lemma FreshColumnSurface(x: int, z: int, h: int, withWater: bool)
      requires Valid() && 0 <= x < width && 0 <= z < width && height >= 1
      requires 1 <= h <= height
      requires forall y :: 0 <= y < height ==> data[x, z, y] == TerrainCell(EmptyCell, h, y, withWater)
      ensures Surface(x, z) == (if withWater && h < WaterLevel then (if WaterLevel < height then WaterLevel else height) else h)
    {
      var m := if withWater && h < WaterLevel then (if WaterLevel < height then WaterLevel else height) else h;
      assert forall j :: 1 <= j < m ==> HasVoxel(x, z, j);
      assert !HasVoxel(x, z, m);
    }

    // -------------------------------------------------------------------
    // Batches over the grid.

    /** Every cell of the grid in walk order. */
    function Walk(): seq<Pos> {
      GridWalk(width, height, width)
    }

    /** The walk's test `data[x][z][y].instanceId !== null`. */
    ghost predicate Listed(p: Pos)
      requires Valid()
      reads data
    {
      InBounds(p.x, p.z, p.y) && data[p.x, p.z, p.y].instanceId.Some?
    }

    /** Cell `p` is listed and goes to batch `s`; exposed means no voxel above. */
    ghost predicate Qualifies(p: Pos, s: Selector)
      requires Valid()
      reads data
    {
      Listed(p) && Matches(s, data[p.x, p.z, p.y].blockType, !HasVoxel(p.x, p.z, p.y + 1))
    }

    /** The cells of `ps` that batch `s` collects, in order. */
    ghost function Selected(ps: seq<Pos>, s: Selector): (r: seq<Pos>)
      requires Valid()
      reads data
      ensures |r| <= |ps|
      decreases |ps|
    {
      if ps == [] then []
      else
        var p := ps[|ps| - 1];
        Selected(ps[..|ps| - 1], s) + (if Qualifies(p, s) then [p] else [])
    }

    /** Walking one more cell extends each batch by that cell exactly when it qualifies. */
    lemma SelectedSnoc(ps: seq<Pos>, p: Pos, ext: seq<Pos>)
      requires Valid() && ext == ps + [p]
      ensures forall s {:trigger Selected(ext, s)} ::
        Selected(ext, s) == Selected(ps, s) + (if Qualifies(p, s) then [p] else [])
    {
      assert ext[..|ps|] == ps;
    }

    lemma {:induction false} SelectedMembers(ps: seq<Pos>, s: Selector)
      requires Valid()
      ensures forall p :: p in Selected(ps, s) <==> p in ps && Qualifies(p, s)
      decreases |ps|
    {
      if ps != [] {
        var init, p := ps[..|ps| - 1], ps[|ps| - 1];
        assert ps == init + [p];
        SelectedMembers(init, s);
      }
    }

    /** The walk visits every stored cell, and each exactly once. */
    lemma WalkCovers()
      ensures forall p :: p in Walk() <==> InBounds(p.x, p.z, p.y)
      ensures Distinct(Walk())
    {
      GridWalkCovers(width, height, width);
    }

    /** A batch taken from a walk without repeats holds each cell at most once. */
    lemma {:induction false} SelectedDistinct(ps: seq<Pos>, s: Selector)
      requires Valid() && Distinct(ps)
      ensures Distinct(Selected(ps, s))
      decreases |ps|
    {
      if ps != [] {
        var init, p := ps[..|ps| - 1], ps[|ps| - 1];
        assert ps == init + [p];
        SelectedDistinct(init, s);
        SelectedMembers(init, s);
        DistinctAppend(Selected(init, s), if Qualifies(p, s) then [p] else []);
      }
    }

    /** The total size of the batches `sels` over `ps`. */
    ghost function SumCounts(ps: seq<Pos>, sels: seq<Selector>): nat
      requires Valid()
      reads data
    {
      if sels == [] then 0 else |Selected(ps, sels[0])| + SumCounts(ps, sels[1..])
    }

    /** The sizes of two groups of batches add up. */
    lemma {:induction false} SumCountsAppend(ps: seq<Pos>, a: seq<Selector>, b: seq<Selector>)
      requires Valid()
      ensures SumCounts(ps, a + b) == SumCounts(ps, a) + SumCounts(ps, b)
      decreases |a|
    {
      if a != [] {
        assert (a + b)[0] == a[0] && (a + b)[1..] == a[1..] + b;
        SumCountsAppend(ps, a[1..], b);
      } else {
        assert a + b == b;
      }
    }

    /** How many of the batches `sels` cell `p` is counted in. */
    ghost function Contribution(p: Pos, sels: seq<Selector>): nat
      requires Valid()
      reads data
    {
      if Listed(p) then Hits(sels, data[p.x, p.z, p.y].blockType, !HasVoxel(p.x, p.z, p.y + 1)) else 0
    }

    lemma {:induction false} SumCountsEmpty(sels: seq<Selector>)
      requires Valid()
      ensures SumCounts([], sels) == 0
      decreases |sels|
    {
      if sels != [] {
        SumCountsEmpty(sels[1..]);
      }
    }

    lemma {:induction false} SumCountsStep(ps: seq<Pos>, p: Pos, sels: seq<Selector>)
      requires Valid()
      ensures SumCounts(ps + [p], sels) == SumCounts(ps, sels) + Contribution(p, sels)
      decreases |sels|
    {
      assert (ps + [p])[..|ps|] == ps;
      if sels != [] {
        SumCountsStep(ps, p, sels[1..]);
      }
    }

    /**
     * Batches that split the cells of batch `all` between them, each such
     * cell in exactly one and no other cell in any, hold as many instances
     * together as `all` does.
     */
    lemma {:induction false} Conservation(ps: seq<Pos>, sels: seq<Selector>, all: Selector)
      requires Valid()
      requires forall t, e :: Hits(sels, t, e) == (if Matches(all, t, e) then 1 else 0)
      ensures SumCounts(ps, sels) == |Selected(ps, all)|
      decreases |ps|
    {
      if ps == [] {
        SumCountsEmpty(sels);
      } else {
        var init, p := ps[..|ps| - 1], ps[|ps| - 1];
        assert ps == init + [p];
        Conservation(init, sels, all);
        SumCountsStep(init, p, sels);
      }
    }

    // -------------------------------------------------------------------
    // Trees requested during the walk.

    /**
     * The walk asks for a tree at `p` when the cell is a listed "grass"
     * cell, its draw is below 0.003 and the cell above has no voxel.
     */
    ghost predicate SpawnsTree(p: Pos, treeDraw: Pos -> real)
      requires Valid()
      reads data
    {
      Listed(p) && data[p.x, p.z, p.y].blockType == Some(Grass) &&
      treeDraw(p) < 0.003 && !HasVoxel(p.x, p.z, p.y + 1)
    }

    /** The request for a tree at `p`: anchored on the column's surface row. */
    ghost function SiteFor(p: Pos, archetypeDraw: Pos -> real): TreeSite
      requires Valid() && 0 <= p.x < width && 0 <= p.z < width
      reads data
    {
      TreeSite(Pos(p.x, Surface(p.x, p.z), p.z), ChooseArchetype(archetypeDraw(p)))
    }

    /** The trees requested while walking `ps`, in order. */
    ghost function TreeSites(ps: seq<Pos>, treeDraw: Pos -> real, archetypeDraw: Pos -> real): (r: seq<TreeSite>)
      requires Valid()
      reads data
      ensures |r| <= |ps|
      decreases |ps|
    {
      if ps == [] then []
      else
        var p := ps[|ps| - 1];
        TreeSites(ps[..|ps| - 1], treeDraw, archetypeDraw) +
        (if SpawnsTree(p, treeDraw) then [SiteFor(p, archetypeDraw)] else [])
    }

    /** Walking one more cell requests a tree for it exactly when it spawns one. */
    lemma TreeSitesSnoc(ps: seq<Pos>, p: Pos, treeDraw: Pos -> real, archetypeDraw: Pos -> real)
      requires Valid() && 0 <= p.x < width && 0 <= p.z < width
      ensures TreeSites(ps + [p], treeDraw, archetypeDraw) ==
        TreeSites(ps, treeDraw, archetypeDraw) + (if SpawnsTree(p, treeDraw) then [SiteFor(p, archetypeDraw)] else [])
    {
      assert (ps + [p])[..|ps|] == ps;
    }

    /** Every requested tree stands on a qualifying grass cell of the walk. */
    lemma {:induction false} TreeSitesOrigin(ps: seq<Pos>, treeDraw: Pos -> real, archetypeDraw: Pos -> real)
      requires Valid()
      ensures forall k :: 0 <= k < |TreeSites(ps, treeDraw, archetypeDraw)| ==>
        exists p :: p in ps && SpawnsTree(p, treeDraw) && TreeSites(ps, treeDraw, archetypeDraw)[k] == SiteFor(p, archetypeDraw)
      decreases |ps|
    {
      if ps == [] {
        assert TreeSites(ps, treeDraw, archetypeDraw) == [];
      } else {
        var init, p := ps[..|ps| - 1], ps[|ps| - 1];
        assert ps == init + [p];
        TreeSitesOrigin(init, treeDraw, archetypeDraw);
        var r := TreeSites(ps, treeDraw, archetypeDraw);
        var r0 := TreeSites(init, treeDraw, archetypeDraw);
        assert r == r0 + (if SpawnsTree(p, treeDraw) then [SiteFor(p, archetypeDraw)] else []);
        forall k | 0 <= k < |r|
          ensures exists q :: q in ps && SpawnsTree(q, treeDraw) && r[k] == SiteFor(q, archetypeDraw)
        {
          if k < |r0| {
            assert r[k] == r0[k];
            var q :| q in init && SpawnsTree(q, treeDraw) && r0[k] == SiteFor(q, archetypeDraw);
            assert q in ps;
          } else {
            assert SpawnsTree(p, treeDraw) && r[k] == SiteFor(p, archetypeDraw);
            assert p in ps;
          }
        }
      }
    }

    /**
     * `buildModeling(records, base)` as it touches the grid: each record
     * marks the cell at the floor of its position plus `base` with
     * `instanceId` 1 (when in bounds). Types and all other cells are left
     * as they were.
     */
    method BuildModeling(records: seq<TreeRecord>, base: Pos)
      requires Valid()
      modifies data
      ensures forall x, z, y :: 0 <= x < width && 0 <= z < width && 0 <= y < height ==>
        data[x, z, y] == if Pos(x, y, z) in RecordCells(records, base)
                         then old(data[x, z, y]).(instanceId := Some(1)) else old(data[x, z, y])
    {
      var n := 0;
      while n < |records|
        invariant 0 <= n <= |records|
        invariant forall x, z, y :: 0 <= x < width && 0 <= z < width && 0 <= y < height ==>
          data[x, z, y] == if Pos(x, y, z) in RecordCells(records[..n], base)
                           then old(data[x, z, y]).(instanceId := Some(1)) else old(data[x, z, y])
      {
        var c := RecordCell(records[n], base);
        assert records[..n + 1][..n] == records[..n];
        SetBlockId(c.x, c.y, c.z, Some(1));
        n := n + 1;
      }
      assert records[..n] == records;
    }

    /** Since the previous state, exactly the in-bounds cells of `cells` were typed "tree". */
    twostate predicate TypedAsTree(cells: set<Pos>)
      requires Valid()
      reads data
    {
      forall i, j, k :: 0 <= i < width && 0 <= j < width && 0 <= k < height ==>
        data[i, j, k] == if Pos(i, k, j) in cells
                         then old(data[i, j, k]).(blockType := Some(Tree)) else old(data[i, j, k])
    }

    /** The trunk calls that open every branch of `setTreeVoxel`. */
    method SetTrunk(x: int, y: int, z: int)
      requires Valid()
      modifies data
      ensures TypedAsTree({Pos(x, y, z), Pos(x, y + 1, z), Pos(x, y + 2, z)})
    {
      SetBlockType(x, y, z, Tree);
      SetBlockType(x, y + 1, z, Tree);
      SetBlockType(x, y + 2, z, Tree);
    }

    /** The crown calls of the "autumn" branch of `setTreeVoxel`. */
    method SetAutumnCrown(x: int, y: int, z: int)
      requires Valid()
      modifies data
      ensures TypedAsTree({Pos(x - 1, y + 3, z - 1), Pos(x + 1, y + 3, z + 1), Pos(x, y + 3, z)})
    {
      SetBlockType(x - 1, y + 3, z - 1, Tree);
      SetBlockType(x + 1, y + 3, z + 1, Tree);
      SetBlockType(x, y + 3, z, Tree);
    }

    /** The crown calls of the "oak" and "default" branches of `setTreeVoxel`. */
    method SetOakCrown(x: int, y: int, z: int)
      requires Valid()
      modifies data
      ensures TypedAsTree({Pos(x, y + 3, z), Pos(x - 1, y + 3, z), Pos(x + 1, y + 3, z), Pos(x, y + 4, z)})
    {
      SetBlockType(x, y + 3, z, Tree);
      SetBlockType(x - 1, y + 3, z, Tree);
      SetBlockType(x + 1, y + 3, z, Tree);
      SetBlockType(x, y + 4, z, Tree);
    }

    /**
     * `setTreeVoxel(x, y, z, kind)`: types the footprint of archetype
     * `kind` as "tree", skipping cells out of bounds; ids are untouched and
     * an unknown `kind` changes nothing.
     */
    method SetTreeVoxel(x: int, y: int, z: int, kind: string)
      requires Valid()
      modifies data
      ensures TypedAsTree(TreeFootprint(kind, Pos(x, y, z)))
    {
      var trunk := {Pos(x, y, z), Pos(x, y + 1, z), Pos(x, y + 2, z)};
      if kind == "autumn" {
        SetTrunk(x, y, z);
        SetAutumnCrown(x, y, z);
        assert TreeFootprint(kind, Pos(x, y, z)) == trunk + {Pos(x - 1, y + 3, z - 1), Pos(x + 1, y + 3, z + 1), Pos(x, y + 3, z)};
      } else if kind == "oak" {
        SetTrunk(x, y, z);
        SetOakCrown(x, y, z);
        assert TreeFootprint(kind, Pos(x, y, z)) == trunk + {Pos(x, y + 3, z), Pos(x - 1, y + 3, z), Pos(x + 1, y + 3, z), Pos(x, y + 4, z)};
      } else if kind == "default" {
        SetTrunk(x, y, z);
        SetOakCrown(x, y, z);
        assert TreeFootprint(kind, Pos(x, y, z)) == trunk + {Pos(x, y + 3, z), Pos(x - 1, y + 3, z), Pos(x + 1, y + 3, z), Pos(x, y + 4, z)};
      }
    }
  }
}
