/**
 * The terrain and meshing of T3/world.js: columns with water in the
 * valleys, and instance batches split by whether a cell is exposed to the
 * sky (drawn with shadows) or buried (drawn without).
 */
module TerrainT3 {
  import opened Voxels
  import opened Grid
  import opened Terrain

  /**
   * `generateTerrain`, with the noise abstracted: `rawHeight(x, z)` is the
   * unclamped column height `Math.floor(size.height * scaledNoise)`. Each
   * cell ends as the column rule with water says, given what it held.
   */
  method GenerateTerrain(w: World, rawHeight: (int, int) -> int)
    requires w.Valid()
    modifies w.data
    ensures forall i, j, k :: 0 <= i < w.width && 0 <= j < w.width && 0 <= k < w.height ==>
      w.data[i, j, k] == TerrainCell(old(w.data[i, j, k]), ColumnHeight(rawHeight(i, j), w.height), k, true)
  {
    var x := 0;
    while x < w.width
      invariant 0 <= x <= w.width
      invariant forall i, j, k :: 0 <= i < w.width && 0 <= j < w.width && 0 <= k < w.height ==>
        w.data[i, j, k] == if i < x then TerrainCell(old(w.data[i, j, k]), ColumnHeight(rawHeight(i, j), w.height), k, true)
                           else old(w.data[i, j, k])
    {
      var z := 0;
      while z < w.width
        invariant 0 <= z <= w.width
        invariant forall i, j, k :: 0 <= i < w.width && 0 <= j < w.width && 0 <= k < w.height ==>
          w.data[i, j, k] == if i < x || (i == x && j < z)
                             then TerrainCell(old(w.data[i, j, k]), ColumnHeight(rawHeight(i, j), w.height), k, true)
                             else old(w.data[i, j, k])
      {
        var h := ColumnHeight(rawHeight(x, z), w.height);
        LayColumn(w, x, z, h);
        if h < WaterLevel {
          FillWater(w, x, z, h);
        }
        z := z + 1;
      }
      x := x + 1;
    }
  }

  /**
   * On a grid that held only empty cells, the terrain leaves each column's
   * surface at its clamped height, raised to the water table (3) where
   * the column is lower, and capped by the grid height.
   */
  lemma FreshTerrainSurface(w: World, rawHeight: (int, int) -> int)
    requires w.Valid() && w.height >= 1
    requires forall i, j, k :: 0 <= i < w.width && 0 <= j < w.width && 0 <= k < w.height ==>
      w.data[i, j, k] == TerrainCell(EmptyCell, ColumnHeight(rawHeight(i, j), w.height), k, true)
    ensures forall x, z :: 0 <= x < w.width && 0 <= z < w.width ==>
      var h := ColumnHeight(rawHeight(x, z), w.height);
      w.Surface(x, z) == (if h < WaterLevel then (if WaterLevel < w.height then WaterLevel else w.height) else h)
  {
    forall x, z | 0 <= x < w.width && 0 <= z < w.width
      ensures var h := ColumnHeight(rawHeight(x, z), w.height);
        w.Surface(x, z) == (if h < WaterLevel then (if WaterLevel < w.height then WaterLevel else w.height) else h)
    {
      w.FreshColumnSurface(x, z, ColumnHeight(rawHeight(x, z), w.height), true);
    }
  }

  /** The types `typesMeshes` has batches for; "tree" and untyped cells have none. */
  const Meshed: set<BlockType> := {Grass, Dirt, Stone, Sand, Water}

  /** The two batches of type `t`: exposed cells, drawn with shadows, and buried ones. */
  function Split(t: BlockType): seq<Selector> {
    [Selector({t}, WithShadows), Selector({t}, WithoutShadows)]
  }

  /** A cell of type `t` is in exactly one of the two batches of `t`, and in neither of another type's. */
  lemma SplitHits(t: BlockType, u: Option<BlockType>, exposed: bool)
    ensures Hits(Split(t), u, exposed) == if u == Some(t) then 1 else 0
  {
    var sp := Split(t);
    assert sp[1..] == [Selector({t}, WithoutShadows)] && sp[1..][1..] == [];
    assert Hits(sp[1..], u, exposed) == if Matches(Selector({t}, WithoutShadows), u, exposed) then 1 else 0;
  }

  /** The ten batches of `generateMesh`, in the order the source adds them to the scene. */
  const Batches: seq<Selector> := Split(Grass) + Split(Dirt) + Split(Stone) + Split(Sand) + Split(Water)

  /** Every listed cell of a meshed type lands in exactly one of the ten batches, any other in none. */
  lemma BatchesSplitMeshed(t: Option<BlockType>, exposed: bool)
    ensures Hits(Batches, t, exposed) == if Matches(Selector(Meshed, AnyShadow), t, exposed) then 1 else 0
  {
    HitsAppend(Split(Grass), Split(Dirt), t, exposed);
    HitsAppend(Split(Grass) + Split(Dirt), Split(Stone), t, exposed);
    HitsAppend(Split(Grass) + Split(Dirt) + Split(Stone), Split(Sand), t, exposed);
    HitsAppend(Split(Grass) + Split(Dirt) + Split(Stone) + Split(Sand), Split(Water), t, exposed);
    SplitHits(Grass, t, exposed);
    SplitHits(Dirt, t, exposed);
    SplitHits(Stone, t, exposed);
    SplitHits(Sand, t, exposed);
    SplitHits(Water, t, exposed);
  }

  /** The instances of one batch of `generateMesh`: the cells of type `t` on shadow side `s`. */
  ghost function Batch(w: World, t: BlockType, s: Shadow): seq<Pos>
    requires w.Valid()
    reads w.data
  {
    w.Selected(w.Walk(), Selector({t}, s))
  }

  /** The batches of side `s` after walking `visited`: for each meshed type, its qualifying cells in order. */
  ghost function BatchesOf(w: World, visited: seq<Pos>, s: Shadow): map<BlockType, seq<Pos>>
    requires w.Valid()
    reads w.data
  {
    map t | t in Meshed :: w.Selected(visited, Selector({t}, s))
  }

  /**
   * Walking one more cell appends it to the batch of its type on side `s`
   * when it qualifies there, and leaves every other batch as it was.
   */
  lemma BatchesOfSnoc(w: World, visited: seq<Pos>, p: Pos, s: Shadow)
    requires w.Valid()
    ensures var b := BatchesOf(w, visited, s);
      BatchesOf(w, visited + [p], s) ==
        if w.Qualifies(p, Selector(Meshed, s))
        then b[w.data[p.x, p.z, p.y].blockType.value := b[w.data[p.x, p.z, p.y].blockType.value] + [p]]
        else b
  {
    var b := BatchesOf(w, visited, s);
    var b' := BatchesOf(w, visited + [p], s);
    w.SelectedSnoc(visited, p, visited + [p]);
    if w.Qualifies(p, Selector(Meshed, s)) {
      var u := w.data[p.x, p.z, p.y].blockType.value;
      var m := b[u := b[u] + [p]];
      forall t | t in Meshed
        ensures b'[t] == m[t]
      {
        assert w.Qualifies(p, Selector({t}, s)) <==> t == u;
      }
      assert b' == m;
    } else {
      forall t | t in Meshed
        ensures b'[t] == b[t]
      {
        assert !w.Qualifies(p, Selector({t}, s));
      }
      assert b' == b;
    }
  }

  /**
   * The state of `generateMesh` after walking `visited`: the batches of
   * both sides, and the tree requests.
   */
  ghost predicate Collected(w: World, visited: seq<Pos>,
                            lit: map<BlockType, seq<Pos>>, unlit: map<BlockType, seq<Pos>>, trees: seq<TreeSite>,
                            treeDraw: Pos -> real, archetypeDraw: Pos -> real)
    requires w.Valid()
    reads w.data
  {
    lit == BatchesOf(w, visited, WithShadows) && unlit == BatchesOf(w, visited, WithoutShadows) &&
    trees == w.TreeSites(visited, treeDraw, archetypeDraw)
  }

  /**
   * `generateMesh`'s walk over the grid (x, then z, then y). A cell whose
   * `instanceId` is not null and whose type has batches is added to the
   * batch with shadows when no voxel is above it and to the one without
   * otherwise; `lit` and `unlit` hold those batches' cells in the order
   * they were added. A grass cell whose draw is below 0.003 and that is
   * exposed asks for a tree anchored at the column's surface, whose
   * archetype comes from the second draw; `trees` lists those requests.
   * The grid is not changed: tree assets load asynchronously, after the
   * walk.
   */
  method GenerateMesh(w: World, treeDraw: Pos -> real, archetypeDraw: Pos -> real)
    returns (lit: map<BlockType, seq<Pos>>, unlit: map<BlockType, seq<Pos>>, trees: seq<TreeSite>)
    requires w.Valid()
    ensures forall t :: t in Meshed ==>
      t in lit && lit[t] == Batch(w, t, WithShadows) && t in unlit && unlit[t] == Batch(w, t, WithoutShadows)
    ensures trees == w.TreeSites(w.Walk(), treeDraw, archetypeDraw)
    ensures |lit[Grass]| + |unlit[Grass]| + |lit[Dirt]| + |unlit[Dirt]| + |lit[Stone]| + |unlit[Stone]| +
            |lit[Sand]| + |unlit[Sand]| + |lit[Water]| + |unlit[Water]| ==
            |w.Selected(w.Walk(), Selector(Meshed, AnyShadow))|
  {
    lit := map[Grass := [], Dirt := [], Stone := [], Sand := [], Water := []];
    unlit := lit;
    trees := [];
    ghost var visited: seq<Pos> := [];
    assert Collected(w, visited, lit, unlit, trees, treeDraw, archetypeDraw);
    var x := 0;
    while x < w.width
      invariant 0 <= x <= w.width
      invariant visited == GridWalk(w.width, w.height, x)
      invariant Collected(w, visited, lit, unlit, trees, treeDraw, archetypeDraw)
    {
      lit, unlit, trees := MeshSlice(w, x, lit, unlit, trees, visited, treeDraw, archetypeDraw);
      visited := visited + SliceWalk(x, w.height, w.width);
      GridWalkStep(w.width, w.height, x);
      x := x + 1;
    }
    WalkTotal(w);
  }

  /** The middle loop of `generateMesh`: slice x, column by column. */
  method MeshSlice(w: World, x: int,
                   lit: map<BlockType, seq<Pos>>, unlit: map<BlockType, seq<Pos>>, trees: seq<TreeSite>,
                   ghost visited: seq<Pos>, treeDraw: Pos -> real, archetypeDraw: Pos -> real)
    returns (lit': map<BlockType, seq<Pos>>, unlit': map<BlockType, seq<Pos>>, trees': seq<TreeSite>)
    requires w.Valid() && 0 <= x < w.width
    requires Collected(w, visited, lit, unlit, trees, treeDraw, archetypeDraw)
    ensures Collected(w, visited + SliceWalk(x, w.height, w.width), lit', unlit', trees', treeDraw, archetypeDraw)
  {
    lit', unlit', trees' := lit, unlit, trees;
    ghost var seen := visited;
    assert visited + SliceWalk(x, w.height, 0) == visited;
    var z := 0;
    while z < w.width
      invariant 0 <= z <= w.width
      invariant seen == visited + SliceWalk(x, w.height, z)
      invariant Collected(w, seen, lit', unlit', trees', treeDraw, archetypeDraw)
    {
      lit', unlit', trees' := MeshColumn(w, x, z, lit', unlit', trees', seen, treeDraw, archetypeDraw);
      SliceWalkStep(visited, x, w.height, z);
      seen := seen + ColumnWalk(x, z, w.height);
      z := z + 1;
    }
    assert seen == visited + SliceWalk(x, w.height, w.width);
  }

  /** The innermost loop of `generateMesh`: column (x, z), bottom-up. */
  method MeshColumn(w: World, x: int, z: int,
                    lit: map<BlockType, seq<Pos>>, unlit: map<BlockType, seq<Pos>>, trees: seq<TreeSite>,
                    ghost visited: seq<Pos>, treeDraw: Pos -> real, archetypeDraw: Pos -> real)
    returns (lit': map<BlockType, seq<Pos>>, unlit': map<BlockType, seq<Pos>>, trees': seq<TreeSite>)
    requires w.Valid() && 0 <= x < w.width && 0 <= z < w.width
    requires Collected(w, visited, lit, unlit, trees, treeDraw, archetypeDraw)
    ensures Collected(w, visited + ColumnWalk(x, z, w.height), lit', unlit', trees', treeDraw, archetypeDraw)
  {
    lit', unlit', trees' := lit, unlit, trees;
    ghost var seen := visited;
    assert visited + ColumnWalk(x, z, 0) == visited;
    var y := 0;
    while y < w.height
      invariant 0 <= y <= w.height
      invariant seen == visited + ColumnWalk(x, z, y)
      invariant Collected(w, seen, lit', unlit', trees', treeDraw, archetypeDraw)
    {
      lit', unlit', trees' := VisitCell(w, x, z, y, lit', unlit', trees', seen, treeDraw, archetypeDraw);
      ColumnWalkStep(visited, x, z, y);
      seen := seen + [Pos(x, y, z)];
      y := y + 1;
    }
    assert seen == visited + ColumnWalk(x, z, w.height);
  }

  /** The body of the innermost loop of `generateMesh`, for cell (x, z, y). */
  method VisitCell(w: World, x: int, z: int, y: int,
                   lit: map<BlockType, seq<Pos>>, unlit: map<BlockType, seq<Pos>>, trees: seq<TreeSite>,
                   ghost visited: seq<Pos>, treeDraw: Pos -> real, archetypeDraw: Pos -> real)
    returns (lit': map<BlockType, seq<Pos>>, unlit': map<BlockType, seq<Pos>>, trees': seq<TreeSite>)
    requires w.Valid() && w.InBounds(x, z, y)
    requires Collected(w, visited, lit, unlit, trees, treeDraw, archetypeDraw)
    ensures Collected(w, visited + [Pos(x, y, z)], lit', unlit', trees', treeDraw, archetypeDraw)
  {
    var p := Pos(x, y, z);
    w.TreeSitesSnoc(visited, p, treeDraw, archetypeDraw);
    lit', unlit', trees' := lit, unlit, trees;
    if w.data[x, z, y].instanceId.Some? {
      var t := w.data[x, z, y].blockType;
      var isTopBlock := !w.HasVoxel(x, z, y + 1);
      lit', unlit' := AddInstance(w, p, t, isTopBlock, lit, unlit, visited);
      if t == Some(Grass) && treeDraw(p) < 0.003 && isTopBlock {
        if !w.HasVoxel(x, z, y + 1) {
          var terrainHeight := w.GetHeightByXZ(x, z);
          trees' := trees + [TreeSite(Pos(x, terrainHeight, z), ChooseArchetype(archetypeDraw(p)))];
        }
      }
    } else {
      SkipCell(w, p, lit, unlit, visited);
    }
  }

  /**
   * `if (meshes) { ... count++ }` for a listed cell `p` of type `t`: it goes
   * to its type's batch on the side `isTopBlock` says, if its type has batches.
   */
  method AddInstance(w: World, p: Pos, t: Option<BlockType>, isTopBlock: bool,
                     lit: map<BlockType, seq<Pos>>, unlit: map<BlockType, seq<Pos>>, ghost visited: seq<Pos>)
    returns (lit': map<BlockType, seq<Pos>>, unlit': map<BlockType, seq<Pos>>)
    requires w.Valid() && w.Listed(p)
    requires t == w.data[p.x, p.z, p.y].blockType && isTopBlock == !w.HasVoxel(p.x, p.z, p.y + 1)
    requires lit == BatchesOf(w, visited, WithShadows) && unlit == BatchesOf(w, visited, WithoutShadows)
    ensures lit' == BatchesOf(w, visited + [p], WithShadows) && unlit' == BatchesOf(w, visited + [p], WithoutShadows)
  {
    BatchesOfSnoc(w, visited, p, WithShadows);
    BatchesOfSnoc(w, visited, p, WithoutShadows);
    lit', unlit' := lit, unlit;
    if t.Some? && t.value in Meshed {
      if isTopBlock {
        lit' := lit[t.value := lit[t.value] + [p]];
      } else {
        unlit' := unlit[t.value := unlit[t.value] + [p]];
      }
    }
  }

  /** A cell whose `instanceId` is null is in no batch. */
  lemma SkipCell(w: World, p: Pos, lit: map<BlockType, seq<Pos>>, unlit: map<BlockType, seq<Pos>>, visited: seq<Pos>)
    requires w.Valid() && !w.Listed(p)
    requires lit == BatchesOf(w, visited, WithShadows) && unlit == BatchesOf(w, visited, WithoutShadows)
    ensures lit == BatchesOf(w, visited + [p], WithShadows) && unlit == BatchesOf(w, visited + [p], WithoutShadows)
  {
    BatchesOfSnoc(w, visited, p, WithShadows);
    BatchesOfSnoc(w, visited, p, WithoutShadows);
  }

  /** The ten batches together hold every listed cell of a meshed type once. */
  lemma WalkTotal(w: World)
    requires w.Valid()
    ensures |Batch(w, Grass, WithShadows)| + |Batch(w, Grass, WithoutShadows)| +
            |Batch(w, Dirt, WithShadows)| + |Batch(w, Dirt, WithoutShadows)| +
            |Batch(w, Stone, WithShadows)| + |Batch(w, Stone, WithoutShadows)| +
            |Batch(w, Sand, WithShadows)| + |Batch(w, Sand, WithoutShadows)| +
            |Batch(w, Water, WithShadows)| + |Batch(w, Water, WithoutShadows)| ==
            |w.Selected(w.Walk(), Selector(Meshed, AnyShadow))|
  {
    var ps := w.Walk();
    forall t, e ensures Hits(Batches, t, e) == if Matches(Selector(Meshed, AnyShadow), t, e) then 1 else 0 {
      BatchesSplitMeshed(t, e);
    }
    w.Conservation(ps, Batches, Selector(Meshed, AnyShadow));
    w.SumCountsAppend(ps, Split(Grass), Split(Dirt));
    w.SumCountsAppend(ps, Split(Grass) + Split(Dirt), Split(Stone));
    w.SumCountsAppend(ps, Split(Grass) + Split(Dirt) + Split(Stone), Split(Sand));
    w.SumCountsAppend(ps, Split(Grass) + Split(Dirt) + Split(Stone) + Split(Sand), Split(Water));
    forall t ensures w.SumCounts(ps, Split(t)) == |Batch(w, t, WithShadows)| + |Batch(w, t, WithoutShadows)| {
      var sp := Split(t);
      assert sp[1..] == [Selector({t}, WithoutShadows)] && sp[1..][1..] == [];
      assert w.SumCounts(ps, sp[1..]) == |Batch(w, t, WithoutShadows)|;
    }
  }

  /**
   * Batch membership: a stored cell is in the batch with shadows of type
   * `t` exactly when it is listed, has type `t` and no voxel above it, and
   * in the one without shadows exactly when a voxel is above it; no batch
   * holds a cell twice.
   */
  lemma BatchMembers(w: World, p: Pos, t: BlockType)
    requires w.Valid() && w.InBounds(p.x, p.z, p.y) && t in Meshed
    ensures p in Batch(w, t, WithShadows) <==>
      w.Listed(p) && w.data[p.x, p.z, p.y].blockType == Some(t) && !w.HasVoxel(p.x, p.z, p.y + 1)
    ensures p in Batch(w, t, WithoutShadows) <==>
      w.Listed(p) && w.data[p.x, p.z, p.y].blockType == Some(t) && w.HasVoxel(p.x, p.z, p.y + 1)
    ensures Distinct(Batch(w, t, WithShadows)) && Distinct(Batch(w, t, WithoutShadows))
  {
    w.WalkCovers();
    w.SelectedMembers(w.Walk(), Selector({t}, WithShadows));
    w.SelectedMembers(w.Walk(), Selector({t}, WithoutShadows));
    w.SelectedDistinct(w.Walk(), Selector({t}, WithShadows));
    w.SelectedDistinct(w.Walk(), Selector({t}, WithoutShadows));
  }

  /**
   * `generate()`: `clear()` drops the scene's children but not the grid,
   * then the terrain is written and the grid is walked.
   */
  method Generate(w: World, rawHeight: (int, int) -> int, treeDraw: Pos -> real, archetypeDraw: Pos -> real)
    returns (lit: map<BlockType, seq<Pos>>, unlit: map<BlockType, seq<Pos>>, trees: seq<TreeSite>)
    requires w.Valid()
    modifies w.data
    ensures forall i, j, k :: 0 <= i < w.width && 0 <= j < w.width && 0 <= k < w.height ==>
      w.data[i, j, k] == TerrainCell(old(w.data[i, j, k]), ColumnHeight(rawHeight(i, j), w.height), k, true)
    ensures forall t :: t in Meshed ==>
      t in lit && lit[t] == Batch(w, t, WithShadows) && t in unlit && unlit[t] == Batch(w, t, WithoutShadows)
    ensures trees == w.TreeSites(w.Walk(), treeDraw, archetypeDraw)
  {
    GenerateTerrain(w, rawHeight);
    lit, unlit, trees := GenerateMesh(w, treeDraw, archetypeDraw);
  }
}
