# Voxel world, avatar input and voxel editor

This project models the logic of a browser voxel game (three.js) in Dafny
and proves properties of it. It has three generations.

- **T2 and T3 `World`**: a dense `width x width x height` grid of cells, each
  with an `instanceId` and a block `type`.
  - `generateTerrain` fills each column up to a noise-driven height and
    classifies its rows with a fixed biome rule (stone, sand, dirt, grass).
    T3 also fills valleys with water up to a water table of 3.
  - `generateMesh` walks the grid (x, then z, then y) and sorts every
    occupied cell into instance batches by type. T3 also splits each type by
    whether the cell is exposed to the sky (drawn with shadows) or buried.
  - While walking, `generateMesh` asks for trees on exposed grass cells.
    The tree archetype is chosen by a random draw. A loaded tree asset marks
    its cells occupied (`buildModeling`).
  - `setTreeVoxel` types a fixed footprint per archetype as "tree". Neither
    world calls it: it is modelled as the method the class offers, not as a
    step of tree placement.
  - The grid API that both generations share line for line is modelled once,
    as class `Grid.World`: `setBlockId`, `setBlockType`, `inBounds`,
    `hasVoxel`, `getHeightByXZ`, `getCenterMap`, `initTerrain`,
    `buildModeling` and `setTreeVoxel`. The generation-specific parts are in
    the modules `TerrainT2` and `TerrainT3`.
- **T3 `Player`**: key handlers that set and clear movement flags, the shift
  sprint, the guarded jump and the inverted look toggle. Also the cell rule
  that decides whether the avatar may step into a cell, and the clamp of the
  shadow volume.
- **T1 ground and editor**:
  - The flat 35 x 35 ground of `groundGenerator.js`: its height is a
    threshold function of the distance along x, and its layers are coloured
    by row.
  - The voxel editor of `modeling/index.js`: a cursor confined to a box, a
    palette index cycled with wrap-around, and a list of placed voxels that
    supports append and remove-first-match.

Modelling choices:

- The grid is an `array3<Cell>` indexed `[x, z, y]`, as the source indexes
  `data[x][z][y]`. The setters take `(x, y, z)`, as in the source.
- `null` and an absent `type` are `None`.
- `hasVoxel` is JavaScript truthiness of the id (neither null nor 0). The
  mesh walk tests `instanceId !== null`. Both are kept apart, as in the
  source.
- The simplex noise is a function parameter `rawHeight(x, z)`, the
  unclamped `Math.floor(size.height * scaledNoise)`.
- Each `Math.random()` call of the mesh walk is a per-cell oracle:
  `treeDraw` for the 0.003 test and `archetypeDraw` for the archetype.
- The mesh walk returns the batches as ordered lists of cells, and the tree
  requests as `TreeSite` values. Tree assets are fetched asynchronously, so
  the grid writes of `buildModeling` happen after the walk. `buildModeling`
  is modelled on its own, over a given record list.
- The avatar's and the editor's module-level state are classes whose
  methods update fields in place.
  - Each avatar handler is proved against a pure transition function
    (`KeyDown`, `KeyUp`, `Jumped`, `ToggleY`). The lemmas are about those
    functions.
  - Key names are lower-cased, then looked up in a map of the `switch`'s
    case labels.
- `getHeightByXZ` returns the first free row scanning up from row 1. On a
  fresh column of height `h` that is `h` itself: T2 proves `Surface == h`,
  and T3 proves the same with the water table. The scan result is not
  `h + 1`, and the model follows the code.

## Model

| member | source | states |
|---|---|---|
| Voxels.Biome | T3/world.js:182-191 | the biome rule the generated rows follow: stone at row 0, then sand, dirt and grass by the two level thresholds |
| Voxels.BiomeThresholds | T3/world.js:182-191 | row 0 is stone, rows below `sandLevel` 2 are sand, rows below `stoneLevel` 3 are dirt, the rest grass; never water or tree (both directions) |
| Voxels.BiomeMonotone | T3/world.js:182-191 | scanning a column upward never returns to an earlier tier of stone, sand, dirt, grass |
| Voxels.ColumnHeight | T3/world.js:178-179 | `max(1, min(raw, height))` is at least 1, at most the grid height when that is positive, and equal to `raw` inside `[1, height]` |
| Voxels.TerrainCell | T3/world.js:181-201 | what the column loops leave in a cell, given the column's clamped height and whether water is added |
| Voxels.TerrainCellShape | T3/world.js:181-201 | a generated row below the column height is occupied with its biome type; between the height and the water table it is occupied water (T3 only); above it is what it was |
| Voxels.ChooseArchetype | T3/world.js:358-369 | the draw picks autumn iff below 0.33, oak iff in [0.33, 0.66), default iff at least 0.66 |
| Voxels.AssetFile | T3/world.js:362-368 | the asset each archetype is loaded from: `./assets/autumn.json`, `./assets/oak.json`, `./assets/default.json` |
| Voxels.TreeFootprint | T3/world.js:573-607 | every known archetype types the three trunk cells (x,y,z), (x,y+1,z), (x,y+2,z); an unknown name types nothing |
| Voxels.TreeFootprintBounds | T3/world.js:573-607 | a tree stays in the 3 x 5 x 3 box above its anchor |
| Voxels.OakDefaultSameFootprint | T3/world.js:584-606 | the "oak" and "default" footprints are the same cells; the autumn footprint differs |
| Grid.GridWalkCovers | T3/world.js:301-303 | the x, z, y loop nest visits exactly the cells of the grid, each once |
| Grid.World.WalkCovers | T3/world.js:301-303 | the mesh walk of a world visits each in-bounds cell exactly once |
| Grid.World.constructor | T3/world.js:147-164 | `initTerrain` builds a `width x width x height` grid whose every cell has null id and null type (equivalent in T2/world.js:77-93, whose cells have no `type` key, read as null) |
| Grid.World.InBounds | T3/world.js:110-119 | the bounds test of the setters: x and z below the width, y below the height, none negative |
| Grid.World.HasVoxel | T3/world.js:121-123 | `hasVoxel`: the row is on the column and the id is truthy |
| Grid.World.HasVoxelMeaning | T3/world.js:121-123 | `hasVoxel` is false off the column's rows and otherwise true iff the id is neither null nor 0 |
| Grid.World.SetBlockId | T3/world.js:48-52 | writes the id of cell `data[x][z][y]` only when in bounds; every other cell and the type are unchanged (T2/world.js:28-32) |
| Grid.World.SetBlockType | T3/world.js:104-108 | writes the type of `data[x][z][y]` only when in bounds; nothing else changes (T2/world.js:34-38) |
| Grid.World.GetCenterMap | T3/world.js:131-137 | the centre is (width/2, width/2, height/2), and its floor is an in-bounds cell of a non-empty grid |
| Grid.World.GetHeightByXZ | T3/world.js:139-145 | returns the least row `i >= 1` without a voxel: all rows from 1 below it hold voxels, and it is at most the grid height |
| Grid.World.FreshColumnSurface | T3/world.js:139-145 | on a freshly generated column of height `h`, the scan returns `h`, or the water table (capped by the grid height) for a lower column when water is added |
| Grid.World.Conservation | T3/world.js:313-326 | batches that split the cells of one selection between them hold together exactly as many instances as that selection |
| Grid.World.SpawnsTree | T3/world.js:329-330 | the tree test of a walked cell: grass, draw below 0.003, no voxel above |
| Grid.World.SiteFor | T3/world.js:331-336 | the request for such a cell: anchored at `getHeightByXZ` of its column, archetype by the second draw |
| Grid.World.TreeSites | T3/world.js:301-341 | the tree requests of a walk, in walk order |
| Grid.World.TreeSitesOrigin | T3/world.js:329-339 | every tree request comes from a walked grass cell that is occupied, exposed and whose draw is below 0.003 |
| Grid.RecordCell | T2/world.js:252-256 | the cell a record marks: the floor of its position plus the base, per axis |
| Grid.World.BuildModeling | T2/world.js:224-267 | each record sets id 1 at the floor of its position plus the base, when in bounds; types and all other cells are unchanged |
| Grid.World.SetTreeVoxel | T3/world.js:573-607 | exactly the in-bounds cells of the archetype's footprint get type "tree"; ids are untouched; an unknown name changes nothing |
| Terrain.LayColumn | T3/world.js:182-193 | rows below `h` of column (x, z) get their biome type and id 1; every other cell is unchanged |
| Terrain.FillWater | T3/world.js:196-201 | rows from `h` up to the water table of column (x, z) become occupied water; nothing else changes |
| TerrainT3.GenerateTerrain | T3/world.js:166-204 | every cell ends as the column rule with water says for the clamped height of its column |
| TerrainT3.FreshTerrainSurface | T3/world.js:166-204 | after generating into an empty grid, every column's `getHeightByXZ` is its clamped height, raised to the water table where lower |
| TerrainT3.BatchesSplitMeshed | T3/world.js:291-327 | each occupied cell of grass, dirt, stone, sand or water is counted in exactly one of the ten batches; a cell of another type (tree) or untyped is in none |
| TerrainT3.BatchesOfSnoc | T3/world.js:313-327 | visiting one more cell appends it to its type's batch on its shadow side when it qualifies, and changes no other batch |
| TerrainT3.GenerateMesh | T3/world.js:270-356 | each batch is the ordered list of occupied cells of its type, exposed (with shadows) or covered (without); the tree requests are those of the walk; the ten sizes sum to the number of occupied meshed cells |
| TerrainT3.MeshSlice | T3/world.js:302-342 | walking slice x extends the batches and tree requests by that slice's cells |
| TerrainT3.MeshColumn | T3/world.js:303-341 | walking column (x, z) extends the batches and tree requests by that column's cells |
| TerrainT3.VisitCell | T3/world.js:304-340 | one cell: batched if occupied and meshed; a tree is requested for exposed grass under the draw, anchored at `getHeightByXZ` |
| TerrainT3.AddInstance | T3/world.js:313-327 | an occupied cell of a meshed type goes to the batch with shadows iff no voxel is above it |
| TerrainT3.SkipCell | T3/world.js:304 | a cell whose id is null is in no batch |
| TerrainT3.WalkTotal | T3/world.js:270-356 | the ten batch sizes add up to the number of occupied cells of the five meshed types |
| TerrainT3.BatchMembers | T3/world.js:304-327 | a cell is in the shadowed batch of its type iff it is occupied and exposed, in the unshadowed one iff occupied and covered; no batch repeats a cell |
| TerrainT3.Generate | T3/world.js:125-129 | `generate` leaves the generated terrain in the grid and returns the batches and tree requests of walking it |
| TerrainT2.GenerateTerrain | T2/world.js:95-123 | every cell ends as the column rule without water says for the clamped height of its column |
| TerrainT2.FreshTerrainSurface | T2/world.js:95-123 | after generating into an empty grid, every column's `getHeightByXZ` is exactly its clamped height |
| TerrainT2.BatchesSplitMeshed | T2/world.js:152-186 | each occupied cell of grass, dirt, stone or sand is in exactly one of the four batches; water, tree and untyped cells in none |
| TerrainT2.BatchesOfSnoc | T2/world.js:182-186 | visiting one more cell appends it to its type's batch when it qualifies and changes no other batch |
| TerrainT2.GenerateMesh | T2/world.js:142-196 | each of the four batches is the ordered list of occupied cells of its type; the tree requests are those of the walk; the sizes sum to the occupied meshed cells |
| TerrainT2.MeshSlice | T2/world.js:162-189 | walking slice x extends the batches and tree requests by that slice's cells |
| TerrainT2.MeshColumn | T2/world.js:163-188 | walking column (x, z) extends the batches and tree requests by that column's cells |
| TerrainT2.VisitCell | T2/world.js:164-187 | one cell: a tree is requested for grass under the draw with no voxel above; then the cell is batched if its type has a batch |
| TerrainT2.WalkTotal | T2/world.js:142-196 | the four batch sizes add up to the number of occupied grass, dirt, stone and sand cells |
| TerrainT2.BatchMembers | T2/world.js:164-186 | a cell is in the batch of type `t` iff it is occupied and of type `t`; no batch repeats a cell |
| TerrainT2.Generate | T2/world.js:55-59 | `generate` leaves the generated terrain in the grid and returns the batches and tree requests of walking it |
| Player.LowerChar | T3/Player.js:120 | upper-case ASCII letters map to their lower-case letter, every other character to itself |
| Player.Lower | T3/Player.js:120 | the lower-cased key has the same length as the key, each character mapped by LowerChar |
| Player.KeyOf | T3/Player.js:119-139 | a key selects no case exactly when its lower-cased name is not a case label |
| Player.ForwardKeyNames | T3/Player.js:121 | "w", "W" and "ArrowUp" select the first case |
| Player.BackwardKeyNames | T3/Player.js:122 | "s", "S" and "ArrowDown" select the second case |
| Player.LeftKeyNames | T3/Player.js:123 | "a", "A" and "ArrowLeft" select the third case |
| Player.RightKeyNames | T3/Player.js:124 | "d", "D" and "ArrowRight" select the fourth case |
| Player.ControlKeyNames | T3/Player.js:125-137 | space, "Shift" in either case, "y"/"Y", "q" and "e" select their cases |
| Player.KeyDown | T3/Player.js:119-140 | the press transition of each case of `handleKeyDown` |
| Player.KeyUp | T3/Player.js:142-159 | the release transition of each case of `handleKeyUp` |
| Player.Jumped | T3/Player.js:179-184 | `jump`: starts a jump with velocity 0.15 when grounded and a model exists |
| Player.ToggleY | T3/Player.js:175-177 | `toggleYInversion`: flips the inversion |
| Player.SpeedFollowsShiftPreserved | T3/Player.js:119-159 | the speed is twice the base speed exactly while shift is held: true initially and kept by every key, jump and toggle |
| Player.ShiftSpeed | T3/Player.js:126-151 | shift down sets the flag and speed 0.36, shift up clears it and restores 0.18, whatever the speed was |
| Player.PressThenRelease | T3/Player.js:119-159 | for every key but space and "y", pressing then releasing ends where releasing alone would |
| Player.InvertedMapping | T3/Player.js:121-124 | "w" raises `backward`, "s" `forward`, "a" `right`, "d" `left`, each and nothing else, and release lowers it |
| Player.ToggleTwice | T3/Player.js:175-177 | "y" and `toggleYInversion` flip the inversion, two flips restore it, releasing "y" does nothing |
| Player.JumpGuard | T3/Player.js:179-184 | a jump starts iff grounded and a model exists, sets velocity 0.15 and nothing else; a mid-air jump is a no-op; space is a jump |
| Player.UnhandledKeys | T3/Player.js:119-159 | a key that is no case label changes nothing on press or release |
| Player.Avatar.constructor | T3/Player.js:11-22 | no flag held, speed 0.18, not inverted, not jumping, velocity 0, no model |
| Player.Avatar.LoadModel | T3/Player.js:50-68 | after `loadModel` a model exists; the input state is otherwise unchanged |
| Player.Avatar.Jump | T3/Player.js:179-184 | the fields change as the jump guard says |
| Player.Avatar.ToggleYInversion | T3/Player.js:175-177 | flips `yInverted` and nothing else |
| Player.Avatar.HandleMouseDown | T3/Player.js:161-165 | button 2 jumps, any other button changes nothing |
| Player.Avatar.HandleKeyDown | T3/Player.js:119-140 | the fields change exactly as the press transition of the key's case says |
| Player.Avatar.HandleKeyUp | T3/Player.js:142-159 | the fields change exactly as the release transition of the key's case says |
| Player.CanMoveCell | T3/Player.js:232-239 | a move is refused iff the target is in bounds, not water and holds a voxel |
| Player.TargetCell | T3/Player.js:228-230 | the target is the floor of the stepped position, one row below the avatar's floored height |
| Player.CanMoveOnTerrain | T3/Player.js:228-239 | on a generated column of height `h`, row `y` may be entered iff `y >= h`: water and air never block |
| Player.ShadowHalfExtent | T3/Player.js:335-336 | the shadow half-extent is the fog value clamped into [0, 250] |
| Ground.CalculateHeight | T1/groundGenerator.js:24-30 | always 1, 2 or 3: 1 iff `|x| <= 4`, 2 iff `4 < |x| <= 13`, 3 otherwise |
| Ground.HeightSymmetric | T1/groundGenerator.js:24-30 | the height ignores z and is the same at x and -x |
| Ground.HeightMonotone | T1/groundGenerator.js:24-30 | a column further from the line x = 0 is never lower |
| Ground.Layers | T1/groundGenerator.js:45-52 | the first n rows of a column, bottom-up |
| Ground.Column | T1/groundGenerator.js:43-52 | a full column: `calculateHeight` rows |
| Ground.Line | T1/groundGenerator.js:42-53 | the 35 columns of one x, in z order |
| Ground.Ground | T1/groundGenerator.js:41-54 | the 35 lines in x order: everything added to the group |
| Ground.Voxel | T1/groundGenerator.js:46-48 | the voxel of row y has height y and colour `height_colors[y]` |
| Ground.GenerateGround | T1/groundGenerator.js:32-57 | the three loops emit exactly the specified sequence of ground voxels, in loop order |
| Ground.EmitLine | T1/groundGenerator.js:42-53 | the middle loop appends the 35 columns of one line, in order |
| Ground.EmitColumn | T1/groundGenerator.js:45-52 | the inner loop appends one voxel per row below the column's height |
| Ground.LayersShape | T1/groundGenerator.js:45-52 | a column of height n holds exactly rows 0 to n-1, each with its row's colour |
| Ground.ColumnShape | T1/groundGenerator.js:43-52 | each column emits as many voxels as `calculateHeight` says, at rows 0 up, with valid colours |
| Ground.LineSize | T1/groundGenerator.js:42-53 | a line of constant x emits 35 times that line's height |
| Ground.GroundCovers | T1/groundGenerator.js:41-54 | every row below the height of each of the 35 x 35 columns at x, z = -17.5 + k is emitted |
| Ground.GroundOnly | T1/groundGenerator.js:41-54 | every emitted voxel is a row below the height of one of those columns |
| Ground.GroundColours | T1/groundGenerator.js:45-46 | every emitted colour is an entry of the three-entry `height_colors`, at its own row |
| Editor.KindOf | T1/modeling/index.js:70-98 | a type with a `create` function places a "tree", any other a "block" |
| Editor.PaletteShape | T1/modeling/voxelTypes.js:7-33 | the palette has five entries, all plain blocks |
| Editor.CodeOf | T1/modeling/index.js:146-204 | a code selects no case exactly when it is not one of the fourteen case labels |
| Editor.Moved | T1/modeling/index.js:147-170 | the cursor cases of `keydown`: a unit step per key, skipped at the box edge |
| Editor.CursorStaysInBox | T1/modeling/index.js:147-169 | the cursor starts in the box `|x|, |z| <= 5`, `0 <= y <= 10`, and no key moves it out |
| Editor.CursorStep | T1/modeling/index.js:147-169 | a key moves the cursor by one unit along one axis or not at all; after a move the opposite key undoes it |
| Editor.JsRem | T1/modeling/index.js:178-183 | JavaScript `%`: the Euclidean remainder for a non-negative dividend; for a negative one, that remainder minus n (or 0 when it divides), so in (-n, 0] |
| Editor.Cycled | T1/modeling/index.js:177-185 | the "." and "," cases of `keydown`, with JavaScript `%` |
| Editor.PaletteCycle | T1/modeling/index.js:177-184 | "." and "," keep the index in [0, 5), step to the next or previous entry with wrap-around, and undo each other |
| Editor.UnhandledCodes | T1/modeling/index.js:145-206 | a code without a case leaves the cursor and the type unchanged |
| Editor.FirstAt | T1/modeling/index.js:123-137 | `find` returns the first voxel at the cursor; there is none exactly when no voxel sits there |
| Editor.Without | T1/modeling/index.js:141 | `filter` keeps every entry but the found one, and nothing new |
| Editor.WithoutDistinct | T1/modeling/index.js:139-142 | in a list without repeated objects, filtering out the found voxel removes exactly its slot |
| Editor.WithoutOnly | T1/modeling/index.js:139-142 | filtering out an object listed only at slot i removes exactly that slot |
| Editor.CountAtAppend | T1/modeling/index.js:107 | `push` counts the new voxel at its own position and nowhere else |
| Editor.CountAtRemove | T1/modeling/index.js:139-142 | removing the slot of a voxel at the cursor lowers the count there by one |
| Editor.Editor.constructor | T1/modeling/index.js:20-22 | the editor starts with type 0, the cursor at (0.5, 0.5, 0.5) and no voxels |
| Editor.Editor.AddVoxel | T1/modeling/index.js:66-108 | appends one new voxel at the cursor with the current type's name; duplicates at one position are allowed |
| Editor.Editor.RemoveVoxel | T1/modeling/index.js:122-143 | removes only the first voxel at the cursor, so the count there drops by one; without one, nothing changes |
| Editor.Editor.OnKeyDown | T1/modeling/index.js:145-206 | the cursor moves, the type cycles; Q appends a fresh voxel at the cursor with the current type's name and kind, raising the count there by one; E removes the first voxel at the cursor, lowering the count by one; any other code changes nothing |

## Left out

- Rendering is not modelled. This covers materials, textures, `InstancedMesh`
  objects and matrices, the skybox, fog and its toggle, lights, shadows,
  cameras, the crosshair and mouse picking. Batches are lists of cells.
- The simplex noise is a parameter, and so are the `Math.random()` draws
  (per-cell oracles). Floating-point rounding of the noise scaling is
  inside the parameter.
- `loadTreeFromFile` is not modelled. It uses the network (`fetch`, JSON).
  `buildModeling` is modelled on a given record list, and the walk returns
  the tree requests instead.
- The stray `this.add(tree)` of a Promise in `generateMesh` is a
  scene-graph call and is not modelled.
- `clear()` in `generate` removes scene children only. The grid is not
  reset by it, and the model keeps that.
- `Player.update`, `fall` and the camera updates are not modelled. They are
  per-frame floating-point vector physics. `canMove` is modelled from the
  target cell onward, and the direction vector is a parameter.
- `Player.Lower`: only ASCII letters are lower-cased. The full Unicode
  `toLowerCase` is not modelled.
- `Player.ShadowHalfExtent`: a NaN fog value is not modelled, because reals
  have no NaN.
- `Player.Avatar.HandleKeyDown`: the invariant that the speed follows
  shift is proved as a lemma over the transition functions
  (`SpeedFollowsShiftPreserved`), not carried as a class invariant.
- `Grid.World.SetTreeVoxel`: the helpers `SetTrunk`, `SetAutumnCrown` and
  `SetOakCrown` group the source's consecutive `setBlockType` calls.
- `Ground.GenerateGround`: the two inner loops are the methods `EmitLine`
  and `EmitColumn`. Mesh objects are reduced to centre position and colour
  name.
- `Editor.Editor.OnKeyDown`: the "KeyS" and "KeyL" cases are file I/O. They
  change none of the modelled editor state. "KeyS" calls
  `saveScene("scene.json")` (T1/modeling/index.js:187) without the voxel
  list, so `voxels.map` on `undefined` throws a TypeError and the save key
  never writes a file; the model's "nothing changes" is about the editor
  state only. The file dialog of "KeyL" and `io.js` are not part of this
  model.
- `Grid.RecordCell`: floors the exact real sum of the record position and
  the base. JavaScript floors the sum rounded to a double, so near an
  integer the two can differ (`0.9999999999999999 + 1` rounds to 2 in
  JavaScript, so the floor is 2 there and 1 in the model).
- `Grid.World.HasVoxel`: an `x` or `z` off the grid throws in the source
  (indexing `undefined`, T3/world.js:122). The model requires both in range
  instead. The walks keep them in range by their loop bounds, and `canMove`
  and `fall` test `inBounds` first. `getHeightByXZ` does not check them: it
  passes its `x` and `z` straight through.
- `Grid.World.GetHeightByXZ`: requires `x` and `z` on the grid, like
  `HasVoxel`. One caller does not ensure this: the landing check of a jump
  in `Player.update` (T3/Player.js:289) passes the floored avatar position
  with no `inBounds` test. Since `canMove` allows a step to a cell off the
  grid (T3/Player.js:239), a jump over the edge reaches `this.data[-1]` and
  throws a TypeError inside the frame loop. `Player.update` is not
  modelled, so this path is outside the model.
- The wireframe preview updates of the editor are not modelled, nor is its
  GUI.
- The editor is modelled as its handlers are written. T1/modeling/index.js:4
  imports `generateTrunk` and `createWireframe` by name from
  `voxelTypes.js`, which has only a default export
  (T1/modeling/voxelTypes.js:36); what happens when the module is linked
  is not modelled.
- `Editor.Editor.AddVoxel` does not model the tree branch (`create`). No
  palette entry has one, so only its `userData.type` is modelled.
