/**
 * The terrain and meshing of T2/world.js: columns without water, and one
 * instance batch per block type.
 */
module TerrainT2 {
  import opened Voxels
  import opened Grid
  import opened Terrain

  /**
   * `generateTerrain`, with the noise abstracted: `rawHeight(x, z)` is the
   * unclamped column height `Math.floor(size.height * scaledNoise)`. Each
   * cell ends as the column rule says, given what it held.
   */
  method GenerateTerrain(w: World, rawHeight: (int, int) -> int)
    requires w.Valid()
    modifies w.data
    ensures forall i, j, k :: 0 <= i < w.width && 0 <= j < w.width && 0 <= k < w.height ==>
      w.data[i, j, k] == TerrainCell(old(w.data[i, j, k]), ColumnHeight(rawHeight(i, j), w.height), k, false)
  {
    var x := 0;
    while x < w.width
      invariant 0 <= x <= w.width
      invariant forall i, j, k :: 0 <= i < w.width && 0 <= j < w.width && 0 <= k < w.height ==>
        w.data[i, j, k] == if i < x then TerrainCell(old(w.data[i, j, k]), ColumnHeight(rawHeight(i, j), w.height), k, false)
                           else old(w.data[i, j, k])
    {
      var z := 0;
      while z < w.width
        invariant 0 <= z <= w.width
        invariant forall i, j, k :: 0 <= i < w.width && 0 <= j < w.width && 0 <= k < w.height ==>
          w.data[i, j, k] == if i < x || (i == x && j < z)
                             then TerrainCell(old(w.data[i, j, k]), ColumnHeight(rawHeight(i, j), w.height), k, false)
                             else old(w.data[i, j, k])
      {
        LayColumn(w, x, z, ColumnHeight(rawHeight(x, z), w.height));
        z := z + 1;
      }
      x := x + 1;
    }
  }

  /**
   * On a grid that held only empty cells, the terrain leaves each column's
   * surface (what `getHeightByXZ` returns) at the column's clamped height.
   */
  lemma FreshTerrainSurface(w: World, rawHeight: (int, int) -> int)
    requires w.Valid() && w.height >= 1
    requires forall i, j, k :: 0 <= i < w.width && 0 <= j < w.width && 0 <= k < w.height ==>
      w.data[i, j, k] == TerrainCell(EmptyCell, ColumnHeight(rawHeight(i, j), w.height), k, false)
    ensures forall x, z :: 0 <= x < w.width && 0 <= z < w.width ==>
      w.Surface(x, z) == ColumnHeight(rawHeight(x, z), w.height)
  {
    forall x, z | 0 <= x < w.width && 0 <= z < w.width
      ensures w.Surface(x, z) == ColumnHeight(rawHeight(x, z), w.height)
    {
      w.FreshColumnSurface(x, z, ColumnHeight(rawHeight(x, z), w.height), false);
    }
  }

  /** The types `typesMeshes` has a batch for; water, "tree" and untyped cells have none. */
  const Meshed: set<BlockType> := {Grass, Dirt, Stone, Sand}

  /** The four batches of `generateMesh`, in the order the source adds them to the scene. */
  const Batches: seq<Selector> :=
    [Selector({Grass}, AnyShadow), Selector({Dirt}, AnyShadow), Selector({Stone}, AnyShadow), Selector({Sand}, AnyShadow)]

  /** Every listed cell of a meshed type lands in exactly one of the four batches, any other in none. */
  lemma BatchesSplitMeshed(t: Option<BlockType>, exposed: bool)
    ensures Hits(Batches, t, exposed) == if Matches(Selector(Meshed, AnyShadow), t, exposed) then 1 else 0
  {
    var b := Batches;
    assert b[1..] == [Selector({Dirt}, AnyShadow), Selector({Stone}, AnyShadow), Selector({Sand}, AnyShadow)];
    assert b[1..][1..] == [Selector({Stone}, AnyShadow), Selector({Sand}, AnyShadow)];
    assert b[1..][1..][1..] == [Selector({Sand}, AnyShadow)];
    assert b[1..][1..][1..][1..] == [];
    assert Hits(b[1..][1..][1..], t, exposed) == if Matches(b[3], t, exposed) then 1 else 0;
    assert Hits(b[1..][1..], t, exposed) == Hits(b[1..][1..][1..], t, exposed) + if Matches(b[2], t, exposed) then 1 else 0;
    assert Hits(b[1..], t, exposed) == Hits(b[1..][1..], t, exposed) + if Matches(b[1], t, exposed) then 1 else 0;
  }

  /** The instances of the batch of type `t`. */
  ghost function Batch(w: World, t: BlockType): seq<Pos>
    requires w.Valid()
    reads w.data
  {
    w.Selected(w.Walk(), Selector({t}, AnyShadow))
  }

  /** The batches after walking `visited`: for each meshed type, its listed cells in order. */
  ghost function BatchesOf(w: World, visited: seq<Pos>): map<BlockType, seq<Pos>>
    requires w.Valid()
    reads w.data
  {
    map t | t in Meshed :: w.Selected(visited, Selector({t}, AnyShadow))
  }

  /** Walking one more cell appends it to the batch of its type, if it has one, and leaves the rest. */
  lemma BatchesOfSnoc(w: World, visited: seq<Pos>, p: Pos)
    requires w.Valid()
    ensures var b := BatchesOf(w, visited);
      BatchesOf(w, visited + [p]) ==
        if w.Qualifies(p, Selector(Meshed, AnyShadow))
        then b[w.data[p.x, p.z, p.y].blockType.value := b[w.data[p.x, p.z, p.y].blockType.value] + [p]]
        else b
  {
    var b := BatchesOf(w, visited);
    var b' := BatchesOf(w, visited + [p]);
    w.SelectedSnoc(visited, p, visited + [p]);
    if w.Qualifies(p, Selector(Meshed, AnyShadow)) {
      var u := w.data[p.x, p.z, p.y].blockType.value;
      var m := b[u := b[u] + [p]];
      forall t | t in Meshed
        ensures b'[t] == m[t]
      {
        assert w.Qualifies(p, Selector({t}, AnyShadow)) <==> t == u;
      }
      assert b' == m;
    } else {
      forall t | t in Meshed
        ensures b'[t] == b[t]
      {
        assert !w.Qualifies(p, Selector({t}, AnyShadow));
      }
      assert b' == b;
    }
  }

  /** The state of `generateMesh` after walking `visited`: the batches and the tree requests. */
  ghost predicate Collected(w: World, visited: seq<Pos>, meshes: map<BlockType, seq<Pos>>, trees: seq<TreeSite>,
                            treeDraw: Pos -> real, archetypeDraw: Pos -> real)
    requires w.Valid()
    reads w.data
  {
    meshes == BatchesOf(w, visited) && trees == w.TreeSites(visited, treeDraw, archetypeDraw)
  }

  /**
   * `generateMesh`'s walk over the grid (x, then z, then y). A cell whose
   * `instanceId` is not null and whose type has a batch is added to it;
   * `meshes` holds each batch's cells in the order they were added. A
   * grass cell whose draw is below 0.003 and that has no voxel above it
   * asks for a tree anchored at the column's surface, whose archetype comes
   * from the second draw; `trees` lists those requests. The grid is not
   * changed: tree assets load asynchronously, after the walk.
   */
  method GenerateMesh(w: World, treeDraw: Pos -> real, archetypeDraw: Pos -> real)
    returns (meshes: map<BlockType, seq<Pos>>, trees: seq<TreeSite>)
    requires w.Valid()
    ensures forall t :: t in Meshed ==> t in meshes && meshes[t] == Batch(w, t)
    ensures trees == w.TreeSites(w.Walk(), treeDraw, archetypeDraw)
    ensures |meshes[Grass]| + |meshes[Dirt]| + |meshes[Stone]| + |meshes[Sand]| ==
            |w.Selected(w.Walk(), Selector(Meshed, AnyShadow))|
  {
    meshes := map[Grass := [], Dirt := [], Stone := [], Sand := []];
    trees := [];
    ghost var visited: seq<Pos> := [];
    assert Collected(w, visited, meshes, trees, treeDraw, archetypeDraw);
    var x := 0;
    while x < w.width
      invariant 0 <= x <= w.width
      invariant visited == GridWalk(w.width, w.height, x)
      invariant Collected(w, visited, meshes, trees, treeDraw, archetypeDraw)
    {
      meshes, trees := MeshSlice(w, x, meshes, trees, visited, treeDraw, archetypeDraw);
      visited := visited + SliceWalk(x, w.height, w.width);
      GridWalkStep(w.width, w.height, x);
      x := x + 1;
    }
    WalkTotal(w);
  }

  /** The middle loop of `generateMesh`: slice x, column by column. */
  method MeshSlice(w: World, x: int, meshes: map<BlockType, seq<Pos>>, trees: seq<TreeSite>,
                   ghost visited: seq<Pos>, treeDraw: Pos -> real, archetypeDraw: Pos -> real)
    returns (meshes': map<BlockType, seq<Pos>>, trees': seq<TreeSite>)
    requires w.Valid() && 0 <= x < w.width
    requires Collected(w, visited, meshes, trees, treeDraw, archetypeDraw)
    ensures Collected(w, visited + SliceWalk(x, w.height, w.width), meshes', trees', treeDraw, archetypeDraw)
  {
    meshes', trees' := meshes, trees;
    ghost var seen := visited;
    assert visited + SliceWalk(x, w.height, 0) == visited;
    var z := 0;
    while z < w.width
      invariant 0 <= z <= w.width
      invariant seen == visited + SliceWalk(x, w.height, z)
      invariant Collected(w, seen, meshes', trees', treeDraw, archetypeDraw)
    {
      meshes', trees' := MeshColumn(w, x, z, meshes', trees', seen, treeDraw, archetypeDraw);
      SliceWalkStep(visited, x, w.height, z);
      seen := seen + ColumnWalk(x, z, w.height);
      z := z + 1;
    }
    assert seen == visited + SliceWalk(x, w.height, w.width);
  }

  /** The innermost loop of `generateMesh`: column (x, z), bottom-up. */
  method MeshColumn(w: World, x: int, z: int, meshes: map<BlockType, seq<Pos>>, trees: seq<TreeSite>,
                    ghost visited: seq<Pos>, treeDraw: Pos -> real, archetypeDraw: Pos -> real)
    returns (meshes': map<BlockType, seq<Pos>>, trees': seq<TreeSite>)
    requires w.Valid() && 0 <= x < w.width && 0 <= z < w.width
    requires Collected(w, visited, meshes, trees, treeDraw, archetypeDraw)
    ensures Collected(w, visited + ColumnWalk(x, z, w.height), meshes', trees', treeDraw, archetypeDraw)
  {
    meshes', trees' := meshes, trees;
    ghost var seen := visited;
    assert visited + ColumnWalk(x, z, 0) == visited;
    var y := 0;
    while y < w.height
      invariant 0 <= y <= w.height
      invariant seen == visited + ColumnWalk(x, z, y)
      invariant Collected(w, seen, meshes', trees', treeDraw, archetypeDraw)
    {
      meshes', trees' := VisitCell(w, x, z, y, meshes', trees', seen, treeDraw, archetypeDraw);
      ColumnWalkStep(visited, x, z, y);
      seen := seen + [Pos(x, y, z)];
      y := y + 1;
    }
    assert seen == visited + ColumnWalk(x, z, w.height);
  }

  /** The body of the innermost loop of `generateMesh`, for cell (x, z, y). */
  method VisitCell(w: World, x: int, z: int, y: int, meshes: map<BlockType, seq<Pos>>, trees: seq<TreeSite>,
                   ghost visited: seq<Pos>, treeDraw: Pos -> real, archetypeDraw: Pos -> real)
    returns (meshes': map<BlockType, seq<Pos>>, trees': seq<TreeSite>)
    requires w.Valid() && w.InBounds(x, z, y)
    requires Collected(w, visited, meshes, trees, treeDraw, archetypeDraw)
    ensures Collected(w, visited + [Pos(x, y, z)], meshes', trees', treeDraw, archetypeDraw)
  {
    var p := Pos(x, y, z);
    w.TreeSitesSnoc(visited, p, treeDraw, archetypeDraw);
    BatchesOfSnoc(w, visited, p);
    meshes', trees' := meshes, trees;
    if w.data[x, z, y].instanceId.Some? {
      var t := w.data[x, z, y].blockType;
      if t == Some(Grass) && treeDraw(p) < 0.003 {
        if !w.HasVoxel(x, z, y + 1) {
          var terrainHeight := w.GetHeightByXZ(x, z);
          trees' := trees + [TreeSite(Pos(x, terrainHeight, z), ChooseArchetype(archetypeDraw(p)))];
        }
      }
      if t.Some? && t.value in Meshed {
        meshes' := meshes[t.value := meshes[t.value] + [p]];
      }
    }
  }

  /** The four batches together hold every listed cell of a meshed type once. */
  lemma WalkTotal(w: World)
    requires w.Valid()
    ensures |Batch(w, Grass)| + |Batch(w, Dirt)| + |Batch(w, Stone)| + |Batch(w, Sand)| ==
            |w.Selected(w.Walk(), Selector(Meshed, AnyShadow))|
  {
    var ps := w.Walk();
    forall t, e ensures Hits(Batches, t, e) == if Matches(Selector(Meshed, AnyShadow), t, e) then 1 else 0 {
      BatchesSplitMeshed(t, e);
    }
    w.Conservation(ps, Batches, Selector(Meshed, AnyShadow));
    var b := Batches;
    assert b[1..] == [Selector({Dirt}, AnyShadow), Selector({Stone}, AnyShadow), Selector({Sand}, AnyShadow)];
    assert b[1..][1..] == [Selector({Stone}, AnyShadow), Selector({Sand}, AnyShadow)];
    assert b[1..][1..][1..] == [Selector({Sand}, AnyShadow)];
    assert b[1..][1..][1..][1..] == [];
    assert w.SumCounts(ps, b[1..][1..][1..]) == |Batch(w, Sand)|;
    assert w.SumCounts(ps, b[1..][1..]) == |Batch(w, Stone)| + |Batch(w, Sand)|;
    assert w.SumCounts(ps, b[1..]) == |Batch(w, Dirt)| + |Batch(w, Stone)| + |Batch(w, Sand)|;
  }

  /**
   * Batch membership: a stored cell is in the batch of type `t` exactly
   * when it is listed and has type `t`; no batch holds a cell twice.
   */
  lemma BatchMembers(w: World, p: Pos, t: BlockType)
    requires w.Valid() && w.InBounds(p.x, p.z, p.y) && t in Meshed
    ensures p in Batch(w, t) <==> w.Listed(p) && w.data[p.x, p.z, p.y].blockType == Some(t)
    ensures Distinct(Batch(w, t))
  {
    w.WalkCovers();
    w.SelectedMembers(w.Walk(), Selector({t}, AnyShadow));
    w.SelectedDistinct(w.Walk(), Selector({t}, AnyShadow));
  }

  /**
   * `generate()`: `clear()` drops the scene's children but not the grid,
   * then the terrain is written and the grid is walked.
   */
  method Generate(w: World, rawHeight: (int, int) -> int, treeDraw: Pos -> real, archetypeDraw: Pos -> real)
    returns (meshes: map<BlockType, seq<Pos>>, trees: seq<TreeSite>)
    requires w.Valid()
    modifies w.data
    ensures forall i, j, k :: 0 <= i < w.width && 0 <= j < w.width && 0 <= k < w.height ==>
      w.data[i, j, k] == TerrainCell(old(w.data[i, j, k]), ColumnHeight(rawHeight(i, j), w.height), k, false)
    ensures forall t :: t in Meshed ==> t in meshes && meshes[t] == Batch(w, t)
    ensures trees == w.TreeSites(w.Walk(), treeDraw, archetypeDraw)
  {
    GenerateTerrain(w, rawHeight);
    meshes, trees := GenerateMesh(w, treeDraw, archetypeDraw);
  }
}
