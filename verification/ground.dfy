/**
 * The flat voxel ground of T1/groundGenerator.js: a 35 x 35 field of
 * unit columns whose height is a threshold function of the distance from
 * the centre along x, each layer coloured by its row. Meshes become plain
 * voxel records (centre position and colour name).
 */
module Ground {

  const SizeX := 35
  const SizeZ := 35
  /** The tallest column. */
  const MaxHeight := 3

  /** `height_colors`: the colour of row 0, 1 and 2. */
  const HeightColors: seq<string> := ["green", "saddlebrown", "white"]

  /** `SIZE_X / 2` and `SIZE_Z / 2`; the loops start at minus these. */
  const HalfX: real := 17.5
  const HalfZ: real := 17.5

  /** One emitted voxel: the centre it is placed at and its colour. */
  datatype GroundVoxel = GroundVoxel(x: real, y: real, z: real, colour: string)

  function Abs(r: real): real {
    if r < 0.0 then -r else r
  }

  /**
   * `calculateHeight(x, z)`: 1 within 4 of the centre line x = 0, 2 up to
   * 13 from it, 3 beyond. Only the x distance is consulted.
   */
  function CalculateHeight(x: real, z: real): (h: int)
    ensures 1 <= h <= MaxHeight
    ensures h == 1 <==> Abs(x) <= 4.0
    ensures h == 2 <==> 4.0 < Abs(x) <= 13.0
    ensures h == 3 <==> 13.0 < Abs(x)
  {
    var distance := Abs(x);
    if distance <= 4.0 then 1
    else if distance <= 13.0 then 2
    else MaxHeight
  }

  /** The height ignores z and is symmetric about x = 0. */
  lemma HeightSymmetric(x: real, z1: real, z2: real)
    ensures CalculateHeight(x, z1) == CalculateHeight(x, z2)
    ensures CalculateHeight(-x, z1) == CalculateHeight(x, z1)
  {
  }

  /** Columns further from the centre line are never lower. */
  lemma HeightMonotone(x1: real, x2: real, z1: real, z2: real)
    requires Abs(x1) <= Abs(x2)
    ensures CalculateHeight(x1, z1) <= CalculateHeight(x2, z2)
  {
  }

  /** The value of the outer loop variable after `k` steps of size 1. */
  function XOf(k: int): real {
    -HalfX + k as real
  }

  /** The value of the middle loop variable after `j` steps of size 1. */
  function ZOf(j: int): real {
    -HalfZ + j as real
  }

  /** The voxel of row `y` of the column whose corner is (x, z): centred in the cell, coloured by row. */
  function Voxel(x: real, z: real, y: int): (v: GroundVoxel)
    requires 0 <= y < |HeightColors|
    ensures v.colour == HeightColors[y] && v.y == y as real
  {
    GroundVoxel(x + 0.5, y as real, z + 0.5, HeightColors[y])
  }

  /** The first `n` rows of column (x, z), bottom-up. */
  function Layers(x: real, z: real, n: nat): seq<GroundVoxel>
    requires n <= |HeightColors|
  {
    if n == 0 then [] else Layers(x, z, n - 1) + [Voxel(x, z, n - 1)]
  }

  /** The full column at (x, z). */
  function Column(x: real, z: real): seq<GroundVoxel> {
    Layers(x, z, CalculateHeight(x, z))
  }

  /** The concatenation of `parts`, in order. */
  function Flatten(parts: seq<seq<GroundVoxel>>): seq<GroundVoxel> {
    if |parts| == 0 then [] else Flatten(parts[..|parts| - 1]) + parts[|parts| - 1]
  }

  /** The columns of line `k` (fixed x), in the order the middle loop visits them. */
  function LineColumns(k: int): seq<seq<GroundVoxel>> {
    seq(SizeZ, j requires 0 <= j < SizeZ => Column(XOf(k), ZOf(j)))
  }

  /** What the middle loop emits for line `k`. */
  function Line(k: int): seq<GroundVoxel> {
    Flatten(LineColumns(k))
  }

  /** The lines in the order the outer loop visits them. */
  function Lines(): seq<seq<GroundVoxel>> {
    seq(SizeX, k requires 0 <= k < SizeX => Line(k))
  }

  /** Everything `generateGroundVoxelStyle` adds to its group, in order. */
  function Ground(): seq<GroundVoxel> {
    Flatten(Lines())
  }

  /** Extending a prefix by one part extends its concatenation by that part. */
  lemma FlattenSnoc(parts: seq<seq<GroundVoxel>>, n: nat)
    requires n < |parts|
    ensures Flatten(parts[..n + 1]) == Flatten(parts[..n]) + parts[n]
  {
    assert parts[..n + 1][..n] == parts[..n];
  }

  /**
   * `generateGroundVoxelStyle`: the three nested loops. x and z run from
   * minus half the size in unit steps while below half the size, and each
   * column gets one voxel per row below its height. The two inner loops
   * are the methods `EmitLine` and `EmitColumn`.
   */
  method GenerateGround() returns (group: seq<GroundVoxel>)
    ensures group == Ground()
  {
    group := [];
    var x := -HalfX;
    ghost var k := 0;
    while x < HalfX
      invariant 0 <= k <= SizeX && x == XOf(k)
      invariant group == Flatten(Lines()[..k])
    {
      group := EmitLine(group, x, k);
      FlattenSnoc(Lines(), k);
      x := x + 1.0;
      k := k + 1;
    }
    assert Lines()[..SizeX] == Lines();
  }

  /** The middle loop: appends the columns of the line at x, which the outer loop reaches after `k` steps. */
  method EmitLine(group0: seq<GroundVoxel>, x: real, ghost k: int) returns (group: seq<GroundVoxel>)
    requires x == XOf(k)
    ensures group == group0 + Line(k)
  {
    group := group0;
    var z := -HalfZ;
    ghost var j := 0;
    while z < HalfZ
      invariant 0 <= j <= SizeZ && z == ZOf(j)
      invariant group == group0 + Flatten(LineColumns(k)[..j])
    {
      group := EmitColumn(group, x, z);
      FlattenSnoc(LineColumns(k), j);
      z := z + 1.0;
      j := j + 1;
    }
    assert LineColumns(k)[..SizeZ] == LineColumns(k);
  }

  /** The innermost loop: one voxel per row below the column's height, coloured by row. */
  method EmitColumn(group0: seq<GroundVoxel>, x: real, z: real) returns (group: seq<GroundVoxel>)
    ensures group == group0 + Column(x, z)
  {
    group := group0;
    var height := CalculateHeight(x, z);
    var y := 0;
    while y < height
      invariant 0 <= y <= height
      invariant group == group0 + Layers(x, z, y)
    {
      group := group + [Voxel(x, z, y)];
      y := y + 1;
    }
  }

  /** A column of height `n` holds exactly the rows 0 to n - 1, each with the colour of its row. */
  lemma {:induction false} LayersShape(x: real, z: real, n: nat)
    requires n <= |HeightColors|
    ensures |Layers(x, z, n)| == n
    ensures forall y :: 0 <= y < n ==> Layers(x, z, n)[y] == Voxel(x, z, y)
  {
    if n > 0 {
      LayersShape(x, z, n - 1);
    }
  }

  /** Every column emits as many voxels as its height, and its colours are valid row colours. */
  lemma ColumnShape(x: real, z: real)
    ensures |Column(x, z)| == CalculateHeight(x, z)
    ensures forall y :: 0 <= y < CalculateHeight(x, z) ==>
      Column(x, z)[y].y == y as real && Column(x, z)[y].colour == HeightColors[y]
  {
    LayersShape(x, z, CalculateHeight(x, z));
  }

  /** A concatenation of parts that all have `n` elements has `n` per part. */
  lemma {:induction false} FlattenSize(parts: seq<seq<GroundVoxel>>, n: nat)
    requires forall i :: 0 <= i < |parts| ==> |parts[i]| == n
    ensures |Flatten(parts)| == |parts| * n
  {
    if |parts| > 0 {
      FlattenSize(parts[..|parts| - 1], n);
    }
  }

  /** An element is in a concatenation exactly when it is in one of the parts. */
  lemma {:induction false} FlattenMembers(parts: seq<seq<GroundVoxel>>, v: GroundVoxel)
    ensures v in Flatten(parts) <==> exists i :: 0 <= i < |parts| && v in parts[i]
  {
    if |parts| > 0 {
      var init := parts[..|parts| - 1];
      FlattenMembers(init, v);
      assert forall i :: 0 <= i < |init| ==> init[i] == parts[i];
    }
  }

  /** Line `k` holds `SizeZ` columns of the same height, since the height ignores z. */
  lemma LineSize(k: int)
    ensures |Line(k)| == SizeZ * CalculateHeight(XOf(k), 0.0)
  {
    var cols := LineColumns(k);
    forall j | 0 <= j < SizeZ
      ensures |cols[j]| == CalculateHeight(XOf(k), 0.0)
    {
      ColumnShape(XOf(k), ZOf(j));
      HeightSymmetric(XOf(k), ZOf(j), 0.0);
    }
    FlattenSize(cols, CalculateHeight(XOf(k), 0.0));
  }

  /**
   * The ground covers the 35 x 35 columns with corners x, z = -17.5 + k
   * for k in [0, 35): row y of such a column, below its height, is
   * emitted with the colour of row y.
   */
  lemma GroundCovers(k: int, j: int, y: int)
    requires 0 <= k < SizeX && 0 <= j < SizeZ && 0 <= y < CalculateHeight(XOf(k), ZOf(j))
    ensures Voxel(XOf(k), ZOf(j), y) in Ground()
  {
    var v := Voxel(XOf(k), ZOf(j), y);
    LayersShape(XOf(k), ZOf(j), CalculateHeight(XOf(k), ZOf(j)));
    assert Column(XOf(k), ZOf(j))[y] == v;
    assert v in LineColumns(k)[j];
    FlattenMembers(LineColumns(k), v);
    assert v in Lines()[k];
    FlattenMembers(Lines(), v);
  }

  /** ... and nothing else: every emitted voxel is a row of one of those columns, below its height. */
  lemma GroundOnly(v: GroundVoxel)
    requires v in Ground()
    ensures exists k, j, y ::
      0 <= k < SizeX && 0 <= j < SizeZ && 0 <= y < CalculateHeight(XOf(k), ZOf(j)) && v == Voxel(XOf(k), ZOf(j), y)
  {
    FlattenMembers(Lines(), v);
    var k :| 0 <= k < SizeX && v in Lines()[k];
    FlattenMembers(LineColumns(k), v);
    var j :| 0 <= j < SizeZ && v in LineColumns(k)[j];
    LayersShape(XOf(k), ZOf(j), CalculateHeight(XOf(k), ZOf(j)));
    var y :| 0 <= y < CalculateHeight(XOf(k), ZOf(j)) && Column(XOf(k), ZOf(j))[y] == v;
    assert v == Voxel(XOf(k), ZOf(j), y);
  }

  /** Every emitted voxel has a colour of `height_colors`, at the row that colour belongs to. */
  lemma GroundColours(v: GroundVoxel)
    requires v in Ground()
    ensures exists y :: 0 <= y < |HeightColors| && v.y == y as real && v.colour == HeightColors[y]
  {
    GroundOnly(v);
    var k, j, y :| 0 <= k < SizeX && 0 <= j < SizeZ && 0 <= y < CalculateHeight(XOf(k), ZOf(j)) &&
      v == Voxel(XOf(k), ZOf(j), y);
  }
}
