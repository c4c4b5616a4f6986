# Blockforge core, modelled in Dafny

Blockforge is a voxel sandbox game written in Python on Panda3D. This
project models its block-grid engine and the item bookkeeping around it,
one Dafny module per source file, and proves what that code promises.

- `Util` (voxel/util.py): floored world-to-chunk and local coordinates,
  packed cell indices, clamping, axis-aligned boxes, the clamped terrain
  height, biome classification, the grid-snapped tree and cactus
  predicates, the tree and cactus shapes and the cave carve set. The
  simplex noise is an arbitrary function into [-1, 1].
- `Chunks` (voxel/chunk.py): a chunk's block list and `dirty` flag, cell
  reads and writes, and the visible-face mesher. The mesher emits quad
  records (corners, shade, UVs) instead of Panda3D vertex writers.
- `Worlds` (voxel/world.py): the analytic block query, `is_solid` and
  `get_block` over the loaded chunks, the four population passes (column
  fill with caves and ores, trees, cacti, cactus cleanup), chunk creation,
  the spiral chunk order, streaming with per-frame budgets, and block
  placement and removal with neighbour dirtying.
- `Collision` (the three identical copies of `_sweep_axis` in
  voxel/player.py, voxel/mob_system.py and voxel/drop_system.py, and
  `_approach`): modelled once and used by all three entities.
- `Players` (voxel/player.py): look clamping, block breaking, survival
  stats, the block raycast and the collision part of the physics step,
  with fall damage.
- `Mobs` and `MobSystems` (voxel/mob_system.py): per-type configuration,
  damage, drops, AI, physics, spawning, despawning, the per-frame update
  and the two picking queries.
- `Drops` (voxel/drop_system.py): dropped-item ageing, physics and
  collection.
- `Slots`, `Crafting`, `InventoryScreens` and `Creative` (voxel/crafting.py,
  voxel/inventory_ui.py, voxel/creative_inventory_ui.py): item slots,
  recipes, crafting in place, and the slot handlers of the crafting
  screens. `InventoryUI` and `CraftingTableUI` carry the same slot logic
  and differ only in grid size, recipe list and navigation table, so they
  are one `CraftingScreen` class told apart by its `Layout`. Rows below
  cite the `InventoryUI` copy; the `CraftingTableUI` copy
  (voxel/inventory_ui.py:852-1625) is covered by the 3x3 layout.
- `Game` (main.py): collecting mined blocks into the hotbar, scrolling,
  using up the selected item, the HUD icon thresholds and the day clock.
- `Saves` (voxel/save_system.py): the chunk diff against the analytic
  terrain, restoring it, the world save and load, and the hotbar and
  inventory restore. The file system is a map.
- `WorldManagement` (voxel/world_manager.py): world records, their dict
  form, folder-name generation, and creating, finding, deleting and
  sorting worlds.
- `Textures` (voxel/texture_manager.py): block texture names and the
  atlas grid and UV layout.
- `Settings` and `Wrappers`: the constants of voxel/settings.py and an
  `Option` type for Python's `None`.

Objects whose fields the source updates in place are classes (`Chunk`,
`World`, `Player`, `DropSystem`, `MobSystem`, `CraftingSystem`,
`CraftingScreen`, `App`, `WorldManager`, `TextureAtlas`). Their methods are
proved against specification functions, and the lemmas beside those
functions state the source's promises.

## Model

| member | source | states |
|---|---|---|
| Chunks.IsBlockSolid | voxel/chunk.py:92-93 | a block is solid exactly when it is not air |
| Chunks.Rgba.Scaled | voxel/chunk.py:421-424 | shading multiplies r, g, b, keeps alpha, and keeps an opaque unit-range colour opaque for factors in [0, 1] |
| Chunks.FaceColor | voxel/chunk.py:96-179 | the colour table per block and face: grass top and sides tinted by the jungle biome, grass bottom and dirt the dirt colour, stone and ores the stone colour, the wood, birch and jungle logs' top and side colours, the fallback magenta; every colour is opaque |
| Chunks.Shade | voxel/chunk.py:408-419 | the face shade factor lies in [0.5, 1] |
| Chunks.ShadeOfFaces | voxel/chunk.py:408-419 | top faces shade 1.0, bottom 0.5, east and west 0.75, north and south 0.85 |
| Chunks.Corners | voxel/chunk.py:274-382 | a face has four corners, all on the cell's unit cube and all on the face's plane |
| Chunks.AddQuadShape | voxel/chunk.py:405-469 | adding a quad appends four vertices and two triangles, keeps what was there, and the new triangles index only the new vertices, so a well-formed mesh stays well-formed |
| Chunks.AddQuadShading | voxel/chunk.py:408-466 | each new vertex carries the face normal and the face colour times the face shade |
| Chunks.MeshOfCounts | voxel/chunk.py:228-383 | the mesh of n quads has 4n vertices and 2n triangles and is well-formed |
| Chunks.MeshOfSnoc | voxel/chunk.py:228-383 | the mesh of a list of quads is built by adding them one at a time in order |
| Chunks.ResolveUvs | voxel/chunk.py:267-272 | a face uses its texture's UVs, falls back to the stone texture, and then to the unit square |
| Chunks.QuadColor | voxel/chunk.py:250-266 | a face colour is opaque, with the biome looked up only for grass |
| Chunks.CellQuadsAt | voxel/chunk.py:264-383 | every face a cell emits sits at that cell and carries its block |
| Chunks.CellQuadsSound | voxel/chunk.py:256-383 | a cell emits at most six faces, each one visible: a solid block on a face whose neighbour is not solid |
| Chunks.CellQuadsComplete | voxel/chunk.py:256-383 | a solid cell that is not buried emits a face toward every exposed side |
| Chunks.BuriedMeansHidden | voxel/chunk.py:256-262 | above the bottom layer, the early skip for buried cells drops exactly the cells with no exposed side |
| Chunks.BottomLayerSkipped | voxel/chunk.py:256-262 | a buried cell on the bottom layer is skipped even though its bottom face is exposed |
| Chunks.Cell | voxel/chunk.py:206-209 | inside the chunk a cell read gives the entry at its packed index; outside it gives air |
| Chunks.WithCell | voxel/chunk.py:201-204 | a write keeps the array's size, changes only the entry of an in-chunk cell and stores the block there |
| Chunks.ReadAfterWrite | voxel/chunk.py:201-209 | reading after a write gives the written block at that cell and the old block everywhere else |
| Chunks.ChunkQuadsInRange | voxel/chunk.py:240-383 | every face of the first n cells belongs to an in-chunk cell among them and carries that cell's block |
| Chunks.ChunkQuadsSound | voxel/chunk.py:240-383 | every face the chunk emits is visible |
| Chunks.ChunkQuadsComplete | voxel/chunk.py:240-383 | every exposed side of every solid, not buried cell is emitted |
| Chunks.ChunkQuadsEmpty | voxel/chunk.py:385-387 | the chunk emits no face exactly when no cell does |
| Chunks.BareIff | voxel/chunk.py:385-387 | a chunk is bare (no cell emits a face) exactly when its face list is empty |
| Chunks.ChunkQuadsStep | voxel/chunk.py:240-243 | the cells are visited x-fastest, then z, then y: each cell's faces follow those of the cell before it |
| Chunks.RowEnds | voxel/chunk.py:240-242 | the end of an x-row is the start of the next z-row, and the end of the last row the start of the next layer |
| Chunks.Chunk.constructor | voxel/chunk.py:193-199 | a new chunk has its coordinates, all cells air, no mesh node and is dirty |
| Chunks.Chunk.SetBlockLocal | voxel/chunk.py:201-204 | the write is WithCell on the old cells; the chunk becomes dirty when the cell is inside it; the node is kept |
| Chunks.Chunk.GetBlockLocal | voxel/chunk.py:206-209 | returns the cell's block, air outside the chunk |
| Chunks.Chunk.BuildMesh | voxel/chunk.py:211-396 | with no visible face the result and node are None and dirtiness is kept; otherwise the result is the mesh of the visible faces, stored as the node, and the chunk is clean; None exactly when the chunk is bare |
| Chunks.Chunk.VisibleQuads | voxel/chunk.py:240-383 | the triple loop collects exactly the chunk's faces in visiting order |
| Chunks.EmitCell | voxel/chunk.py:243-383 | one cell appends exactly its own faces |
| Chunks.EmitFace | voxel/chunk.py:264-383 | one face test appends exactly the face's quads |
| Collision.Shift | voxel/util.py:579-580 | shifting a box along one axis moves both of its faces on that axis and keeps the other axes |
| Collision.IntersectsByAxes | voxel/util.py:569-577 | two boxes overlap exactly when they overlap across the other two axes and along the chosen one |
| Collision.ColumnCells | voxel/player.py:579 | the inner `bz` loop visits exactly the cells of one column |
| Collision.PlaneCells | voxel/player.py:578-579 | the `by`, `bz` loops visit exactly the cells of one plane |
| Collision.BoxCells | voxel/player.py:577-579 | the three nested loops visit exactly the cells of the sweep box |
| Collision.SweepCellsInRange | voxel/player.py:559-619 | the cells swept are exactly the cells between the floored bounds of the box extended by the move |
| Collision.ScanSpec | voxel/player.py:573-604 | the scan never moves further than asked nor past any blocking block met, and it is cut short only by a block it met, with the hit flag set exactly then |
| Collision.SweepAxis | voxel/player.py:546-699 | the sweep method computes exactly the sweep function for its axis |
| Collision.ScanBox | voxel/player.py:577-602 | the `bx` loop computes the scan over the whole sweep box |
| Collision.ScanPlane | voxel/player.py:578-602 | the `by` loop computes the scan over one more plane |
| Collision.ScanColumn | voxel/player.py:579-602 | the `bz` loop computes the scan over one more column |
| Collision.ScanCell | voxel/player.py:580-602 | one cell: air and blocks not overlapping across the other axes are skipped; a block ahead within reach cuts the move to its face less EPSILON and sets the hit |
| Collision.SweepSpec | voxel/player.py:546-699 | a zero move gives (0, no hit); otherwise the allowed move never exceeds the asked one nor passes any blocking block in range, and is shorter only because of one |
| Collision.SweepKeepsClear | voxel/player.py:546-699 | a box clear of solid blocks stays clear after moving by the allowed amount when that amount keeps the asked direction |
| Collision.SweepsKeepClear | voxel/player.py:546-699 | the X, Y, Z sweeps in turn keep a clear box clear |
| Collision.AheadInRange | voxel/player.py:561-597 | a block that would be hit moving forward lies in the cells swept |
| Collision.BehindInRange | voxel/player.py:564-602 | a block that would be hit moving backward lies in the cells swept |
| Collision.ApproachSpec | voxel/player.py:525-530 | `_approach` moves toward the target by at most delta, never passes it, reaches it when within delta, and otherwise moves by exactly delta |
| Crafting.Recipes | voxel/crafting.py:53-101 | the recipe table holds its 33 recipes in table order, each with distinct ingredient blocks and positive counts |
| Crafting.ByTable | voxel/crafting.py:111-112 | each comprehension keeps exactly the recipes with the given `requires_3x3` flag, in order |
| Crafting.ByTableAppend | voxel/crafting.py:111-112 | the split keeps the table order |
| Crafting.ByTablePartition | voxel/crafting.py:109-112 | the 2x2 and 3x3 lists together hold every recipe exactly as often as the table |
| Crafting.CountInventoryItems | voxel/crafting.py:206-214 | the count map has a key exactly for each block some slot holds, mapped to that block's total over the slots |
| Crafting.Enough | voxel/crafting.py:158-169 | a recipe can be crafted exactly when every ingredient's total is at least its count |
| Crafting.Craftable | voxel/crafting.py:138-156 | the available recipes are exactly the craftable ones of the list, in order |
| Crafting.TakenShape | voxel/crafting.py:186-198 | the consume pass only changes stacks of the ingredient's block and empties no slot |
| Crafting.TakenTotal | voxel/crafting.py:186-198 | the consume pass takes the required amount of the block, or all of it when there is less |
| Crafting.TotalOther | voxel/crafting.py:186-198 | the pass leaves the totals of every other block alone |
| Crafting.ConsumedShape | voxel/crafting.py:186-198 | consuming every ingredient keeps each slot's occupancy and block |
| Crafting.NeedOfIngredient | voxel/crafting.py:186-189 | with distinct ingredient blocks, an ingredient's need is its own count |
| Crafting.ConsumedTotals | voxel/crafting.py:186-198 | when every ingredient is available, consuming lowers each block's total by exactly what the recipe asks |
| Crafting.CraftTotals | voxel/crafting.py:171-204 | crafting succeeds exactly when the recipe is craftable; then each block's total drops by its need and the output block gains the output count when there is room |
| Crafting.CraftUsesIngredients | voxel/crafting.py:186-198 | each ingredient of a crafted recipe is used up in exactly its required amount |
| Crafting.AddToInventory | voxel/crafting.py:216-233 | adding stacks onto the first slot of the block, else fills the first empty slot, else changes nothing |
| Crafting.TakenCons | voxel/crafting.py:188-198 | one step of the pass: a stack of the block at most the remainder is emptied, a bigger one loses the remainder and ends the pass |
| Crafting.TakenStep | voxel/crafting.py:188-194 | a slot that does not end the pass is emptied when it holds the block and left alone otherwise |
| Crafting.TakenLast | voxel/crafting.py:195-198 | a slot holding more than the remainder keeps the difference and the rest stay as they are |
| Crafting.ConsumeIngredient | voxel/crafting.py:186-198 | the in-place loop for one ingredient computes exactly the consume pass on the list |
| Crafting.ConsumeSlot | voxel/crafting.py:189-198 | one iteration of the loop: either it ends the pass with the final list or it extends the done prefix by the new slot |
| Crafting.CraftRecipe | voxel/crafting.py:171-204 | the in-place craft returns true exactly when the crafted list exists and then the list is it; on failure nothing changes |
| Crafting.OutputIndex | voxel/crafting.py:240-243 | the index of the first recipe producing the block, or -1 when none does |
| Crafting.FindByOutput | voxel/crafting.py:235-243 | None exactly when no recipe produces the block; otherwise the first recipe that does |
| Crafting.CraftingSystem.constructor | voxel/crafting.py:109-112 | the system holds the recipe table and its two sub-lists |
| Crafting.CraftingSystem.Partition | voxel/crafting.py:111-112 | `recipes_2x2` and `recipes_3x3` partition the recipes by flag, as a multiset |
| Crafting.CraftingSystem.AvailableRecipes | voxel/crafting.py:127-156 | the result holds exactly the craftable recipes among all on a table, among the 2x2 ones otherwise |
| Crafting.CraftingSystem.RecipeByOutput | voxel/crafting.py:235-243 | the first recipe producing the block, None exactly when none does |
| Slots.TotalUpdate | voxel/crafting.py:206-214 | replacing one slot changes a block's total by the difference of the two slots |
| Slots.FindBlock | voxel/crafting.py:220-224 | the first slot holding the block, or -1 when none does |
| Slots.FindEmpty | voxel/crafting.py:226-230 | the first empty slot, or -1 when none is |
| Slots.AddedTotals | voxel/crafting.py:216-233 | adding raises the block's total by the count exactly when there is room, keeps other totals and the list length, and never empties a slot |
| Slots.AddedNonNegative | voxel/crafting.py:216-233 | adding a non-negative count keeps every count non-negative |
| Creative.StockedSlot | voxel/creative_inventory_ui.py:243-265 | the slot a click writes is the first slot holding the item; else the first empty slot; else the selected slot |
| Creative.StockedChangesOneSlot | voxel/creative_inventory_ui.py:243-265 | a click changes exactly one slot, which then holds 64 of the item and is the first slot holding it; the hotbar length is kept |
| Creative.StockedIdempotent | voxel/creative_inventory_ui.py:243-265 | clicking the same item twice leaves the hotbar as one click does |
| Creative.StockedTotals | voxel/creative_inventory_ui.py:243-265 | a click keeps every other block's total, except what an overwritten selected slot held |
| Creative.CreativeScreen.OnItemClick | voxel/creative_inventory_ui.py:243-265 | the in-place scans leave the hotbar as the click function says |
| Drops.NewItem | voxel/drop_system.py:19-27 | a new dropped item has the given type, position and velocity, age zero and is airborne, and is neither collectable nor due to despawn |
| Drops.ItemBox | voxel/drop_system.py:29-39 | an item's box is the proper cube of half-size 0.25 centred on its position |
| Drops.MovedKeepsClear | voxel/drop_system.py:240-278 | an item clear of solid cells whose sweeps each move toward the wish stays clear, its box moved by the three allowed amounts |
| Drops.ItemPhysics | voxel/drop_system.py:240-278 | the physics step applies gravity and then the X, Y, Z sweeps: blocked X or Z stops that axis, a blocked fall lands with 0.85 ground friction, a free Y move clears on_ground |
| Drops.ItemMoves | voxel/drop_system.py:248-278 | the three sweeps move the item by what each allows and update velocity and ground contact as the collision rules say |
| Drops.Visit | voxel/drop_system.py:206-226 | an item ages by dt first; an item of age 300 or more is removed without moving; otherwise it falls and is collected, and removed, exactly when it is at least 0.5 old and within the collection radius |
| Drops.DropSystem.constructor | voxel/drop_system.py:53-86 | a new drop system holds no items |
| Drops.DropSystem.SpawnDrop | voxel/drop_system.py:88-104 | spawning appends exactly one new item of the type at the position, with the given velocity or the scatter draw |
| Drops.DropSystem.Update | voxel/drop_system.py:198-238 | each item is visited in list order; the items that stay keep their order and no other item is removed, and the collected types are returned in list order |
| Game.Scrolled | main.py:1032-1039 | the scrolled hotbar slot is a valid slot congruent to the old slot plus the direction, modulo the hotbar size |
| Game.ScrollBack | main.py:1032-1039 | scrolling one way and then back returns to the same slot |
| Game.ScrollStep | main.py:1032-1039 | scrolling right from the last slot wraps to the first, scrolling left from the first wraps to the last, and otherwise moves by one |
| Game.Decremented | main.py:1191-1195 | using one item of a stack leaves an empty slot exactly when the stack held at most one, and otherwise the same block with one fewer |
| Game.UsedOneTotals | main.py:1191-1195 | using one item of the selected slot keeps the hotbar's size and lowers only that block's total, by exactly one |
| Game.IronToolsPassFilter | main.py:1173-1184 | the placement filter as written lets the four iron tools through although they are tools |
| Game.PlaceableCorrectsFilter | main.py:1173-1184 | the corrected filter refuses exactly what the filter as written refuses plus the four iron tools, so it refuses every tool, every food and sticks |
| Game.IconsFillFromLeft | main.py:812-833 | a heart or hunger icon that shows at all has every icon to its left full |
| Game.IconsOfPoints | main.py:812-833 | for whole points h, icon i is full exactly when i < h div 2, half exactly when h is odd and i == h div 2, and hidden otherwise |
| Game.DayAfter | main.py:1757-1760 | the clock advances by dt and wraps once past the day length, staying within a day for a step of at most a day |
| Game.TimeOfDay | main.py:1762-1763 | the time of day is a fraction in [0, 1) for a clock within the day |
| Game.App.constructor | main.py:47-223 | a new game has an empty hotbar and inventory, the first slot selected, is not ready and starts the day at zero |
| Game.App.AddBlockToHotbar | main.py:1127-1145 | a mined block, except bedrock, is stacked onto the first stack of its kind, else put into the first empty slot, else lost |
| Game.App.ScrollHotbar | main.py:1032-1039 | scrolling moves the selection by the scroll rule once the game is ready, and is ignored before |
| Game.App.EatSelected | main.py:590-609 | meat in the selected slot is eaten exactly when the player is hungry, adding 4 hunger and 2 saturation, and outside Creative uses up one piece; otherwise nothing changes |
| Game.App.PlaceSelected | main.py:1160-1196 | a block is placed only when the player is not in the cell and the selected slot holds a placeable block, the world then holds that block in that cell, and outside Creative one item is used; a refused placement leaves the world unchanged |
| Game.App.AdvanceDayTime | main.py:1757-1760 | the game clock advances as the day rule says |
| InventoryScreens.GetPut | voxel/inventory_ui.py:444-464 | writing a slot and reading it back gives the written value, every other slot keeps its content, and the output changes only when written directly or recomputed after a grid write |
| InventoryScreens.SlotsHolding | voxel/inventory_ui.py:707-713 | the number of grid slots holding a block lies between zero and the grid size |
| InventoryScreens.SlotsHoldingAbsent | voxel/inventory_ui.py:707-713 | a block counts zero slots exactly when no grid slot holds it |
| InventoryScreens.MatchedNeeds | voxel/inventory_ui.py:726-740 | a matching grid fills, for every block, exactly as many slots as the recipe needs of it |
| InventoryScreens.MatchesIff | voxel/inventory_ui.py:726-740 | a recipe matches exactly when every block fills as many grid slots as the recipe needs of it, in both directions |
| InventoryScreens.FirstMatch | voxel/inventory_ui.py:719-744 | the index found is -1 or a matching recipe, and no earlier recipe matches |
| InventoryScreens.Output | voxel/inventory_ui.py:704-750 | the output is empty exactly for an empty grid or when no recipe matches, and otherwise is the output of the first matching recipe |
| InventoryScreens.Shadowed | voxel/inventory_ui.py:719-744 | a recipe whose ingredients repeat an earlier recipe's is never the first match |
| InventoryScreens.NoAxeOutput | voxel/inventory_ui.py:719-744 | when every axe recipe repeats the ingredients of an earlier recipe, no grid yields an axe |
| InventoryScreens.TableAxeEntries | voxel/crafting.py:53-101 | the axes in the recipe table are entries 12 to 14, 22 and 26 |
| InventoryScreens.TableWoodAxePairs | voxel/crafting.py:53-101 | each wooden axe recipe asks for the same ingredients as the wooden pickaxe recipe of the same planks |
| InventoryScreens.TableStoneIronAxePairs | voxel/crafting.py:53-101 | the stone and iron axe recipes ask for the same ingredients as the pickaxe recipe of their tier |
| InventoryScreens.TableAxesRepeat | voxel/crafting.py:53-101 | every axe recipe in the table repeats the ingredients of an earlier recipe |
| InventoryScreens.NoAxeFromTable | voxel/inventory_ui.py:1494-1536 | the crafting table screen, matching slot counts without shape against the whole recipe table, never yields an axe from any grid |
| InventoryScreens.SetAmount | voxel/inventory_ui.py:455-464 | writing one slot changes a block's amount on screen by the difference between the old and new content |
| InventoryScreens.TakeOneEach | voxel/inventory_ui.py:693-702 | taking one item from each stack keeps the grid's size |
| InventoryScreens.TakeOneEachTotals | voxel/inventory_ui.py:693-702 | taking one item from each stack lowers each block's total by the number of slots holding it |
| InventoryScreens.ClickOutputAmount | voxel/inventory_ui.py:610-624 | taking the output turns one item from each occupied grid slot into the output stack on the cursor, for every block |
| InventoryScreens.LeftClickKeepsAmounts | voxel/inventory_ui.py:626-649 | a left click on a normal slot (pick up, put down, merge or swap) keeps every block's amount |
| InventoryScreens.RightClickSplits | voxel/inventory_ui.py:658-672 | right-clicking a stack of n with an empty cursor puts (n+1) div 2 on the cursor, leaves the rest or nothing in the slot, and keeps every amount |
| InventoryScreens.RightClickPlacesOne | voxel/inventory_ui.py:674-689 | right-clicking an empty slot or a same-block stack with a held stack moves exactly one item and keeps every amount |
| InventoryScreens.DistributeTotals | voxel/inventory_ui.py:416-442 | distributing stores the whole item when the hotbar or inventory has a stack of its block or an empty slot, and loses it otherwise; no other block moves and no stack changes its block |
| InventoryScreens.DistributePrefersStacks | voxel/inventory_ui.py:419-435 | an inventory stack of the block is preferred to an empty hotbar slot |
| InventoryScreens.DistributeStoresOnly | voxel/inventory_ui.py:416-442 | where a distributed item goes depends on the hotbar and inventory only |
| InventoryScreens.ReturnAllTotals | voxel/inventory_ui.py:296-301 | returning items to a hotbar and inventory that already stack a block loses none of that block, and the stack stays |
| InventoryScreens.Closed | voxel/inventory_ui.py:280-303 | closing leaves the grid, the output and the cursor empty and keeps the grid size |
| InventoryScreens.ClosedKeepsStackedItems | voxel/inventory_ui.py:280-303 | closing returns every cursor and grid item of a block the hotbar or inventory already stacks |
| InventoryScreens.Navigated | voxel/inventory_ui.py:333-398 | navigation always ends on a slot of the screen and equals the move table whenever that already lands on one |
| InventoryScreens.NavStaysOnScreen | voxel/inventory_ui.py:333-398 | from any slot of the screen the move table lands on a slot, so the final clamp never acts |
| InventoryScreens.NavUpDown | voxel/inventory_ui.py:345-369 | up then down returns to the same slot from the lower two inventory rows and the hotbar |
| InventoryScreens.NavRightLeft | voxel/inventory_ui.py:370-392 | right then left returns to the same slot inside an inventory or hotbar row |
| InventoryScreens.CraftingScreen.constructor | voxel/inventory_ui.py:10-55 | a new screen has an empty grid of its layout's size, no output, nothing held, and is closed |
| InventoryScreens.CraftingScreen.InventoryOutputNeedsNoTable | voxel/inventory_ui.py:718-744 | the 2x2 inventory screen only ever offers a recipe that does not need a crafting table |
| InventoryScreens.CraftingScreen.Open | voxel/inventory_ui.py:248-264 | opening marks the screen open and selects the first inventory slot |
| InventoryScreens.CraftingScreen.WriteSlot | voxel/inventory_ui.py:455-464 | a slot written in place changes that slot of the screen state and nothing else |
| InventoryScreens.CraftingScreen.SetSlotData | voxel/inventory_ui.py:455-464 | setting a slot writes it and, for a grid slot, recomputes the output |
| InventoryScreens.CraftingScreen.CountGrid | voxel/inventory_ui.py:707-713 | the counting loop maps exactly the blocks in the grid to their slot counts, lists each once, and counts no occupied slot exactly for an empty grid |
| InventoryScreens.CraftingScreen.CheckCrafting | voxel/inventory_ui.py:704-750 | the check sets the output to the first matching recipe's output, or none |
| InventoryScreens.CraftingScreen.RecipeMatches | voxel/inventory_ui.py:726-740 | the two comparison loops accept a recipe exactly when it matches the grid |
| InventoryScreens.CraftingScreen.ConsumeCraftingIngredients | voxel/inventory_ui.py:693-702 | consuming takes one item from every grid stack, empties exhausted slots and recomputes the output |
| InventoryScreens.CraftingScreen.OnSlotClick | voxel/inventory_ui.py:606-649 | a left click changes the screen state as the left-click rules say |
| InventoryScreens.CraftingScreen.OnSlotRightClick | voxel/inventory_ui.py:651-691 | a right click changes the screen state as the right-click rules say, the output slot behaving as a left click |
| InventoryScreens.CraftingScreen.DistributeItem | voxel/inventory_ui.py:416-442 | returning an item changes the hotbar and inventory as distribution says |
| InventoryScreens.CraftingScreen.ReturnGrid | voxel/inventory_ui.py:296-301 | the grid loop returns every grid stack in slot order and empties the grid |
| InventoryScreens.CraftingScreen.Close | voxel/inventory_ui.py:280-313 | closing an open screen returns the cursor and grid and clears the output; a closed screen ignores it |
| InventoryScreens.CraftingScreen.OnNav | voxel/inventory_ui.py:333-398 | navigation moves the selection as the move table says while open, and is ignored while closed |
| MobSystems.MobsInChunk | voxel/mob_system.py:735-737 | the count of mobs in a chunk never exceeds the number of mobs |
| MobSystems.MobsInChunkAppend | voxel/mob_system.py:735-737 | adding a mob raises a chunk's count by one exactly when the mob stands in that chunk |
| MobSystems.Candidates | voxel/mob_system.py:759-783 | the spawn candidates are never empty; at night they are all hostile, by day all animals |
| MobSystems.InsideChunk | voxel/mob_system.py:743-744 | a position drawn between 1 and size-1 into a chunk lies in that chunk |
| MobSystems.AttemptSpec | voxel/mob_system.py:727-787 | a successful spawn attempt puts a new mob in the drawn chunk within render distance, in a chunk below its cap, one block above the ground and between heights 5 and 50, in an air cell under air, hostile only at night outside Peaceful and an animal by day |
| MobSystems.FirstSpawnSpec | voxel/mob_system.py:718-790 | a spawn cycle spawns nothing exactly when every attempt fails, and otherwise the mob of the first attempt that succeeds |
| MobSystems.SpawnKeepsCap | voxel/mob_system.py:734-740 | a spawn cycle never takes a chunk that is within its cap above it |
| MobSystems.TryAttempt | voxel/mob_system.py:727-787 | one spawn attempt computes the spawn-attempt result |
| MobSystems.ReachIgnoresCooldown | voxel/mob_system.py:654-664 | restarting a mob's attack cooldown does not change whether the player is in its reach |
| MobSystems.TurnOf | voxel/mob_system.py:676-681 | a mob's turn drops at most 3 items |
| MobSystems.TurnRemoves | voxel/mob_system.py:628-683 | a mob leaves the list exactly when it is out of range, a hostile by day or on Peaceful, or dead longer than 0.1 seconds; only a dead mob that leaves drops items, and a dead mob's drops are its drop roll |
| MobSystems.TurnKeepsBody | voxel/mob_system.py:628-683 | a turn never changes a mob's type, hostility, life, health, attack damage or size, and a dead mob that stays only ages |
| MobSystems.MobTurn | voxel/mob_system.py:628-683 | one pass of the update loop over a mob computes that mob's turn |
| MobSystems.Hurt | voxel/mob_system.py:661-663 | a strike takes the attack damage off the player's health, floored at zero, as the player's own damage does |
| MobSystems.KnockbackAway | voxel/mob_system.py:665-673 | knockback pushes the player away from the mob horizontally and lifts it by 4, or is no push at all when the mob stands on the player |
| MobSystems.DroppedBy | voxel/mob_system.py:676-681 | each drop of a dying mob becomes one dropped item of that type at the mob's position, in order |
| MobSystems.AfterKept | voxel/mob_system.py:698-703 | the mobs left listed after a frame are the kept mobs, in their old order |
| MobSystems.AfterHealth | voxel/mob_system.py:649-673 | the frame's strikes never raise the player's health nor take it below zero, and without a strike health and velocity are unchanged |
| MobSystems.AfterItems | voxel/mob_system.py:675-683 | a frame only appends dropped items, each one dropped by a mob that left the list at that mob's position |
| MobSystems.MobSystem.constructor | voxel/mob_system.py:516-538 | a new mob system has no mobs, the given difficulty, a zero spawn timer and the difficulty's per-chunk cap |
| MobSystems.MobSystem.SpawnMob | voxel/mob_system.py:540-548 | spawning appends one new mob of the type at the position |
| MobSystems.MobSystem.TrySpawn | voxel/mob_system.py:718-790 | a spawn cycle appends the first successful attempt's mob, or nothing |
| MobSystems.MobSystem.UpdateMobs | voxel/mob_system.py:625-703 | the update loop gives each mob its turn in order, and the new mob list, player health and velocity and dropped items are the totals of those turns |
| MobSystems.MobSystem.Update | voxel/mob_system.py:612-703 | the spawn timer wraps to zero and runs a spawn cycle when it reaches the interval, and then every listed mob, the spawned one included, takes its turn |
| MobSystems.MobSystem.Visit | voxel/mob_system.py:628-683 | one pass over a mob takes its turn, applies its strike's damage and knockback to the player and spawns its drops |
| MobSystems.MobSystem.SpawnDrops | voxel/mob_system.py:676-681 | the mob's drops are appended to the drop system's items |
| MobSystems.MobSystem.GetMobAtPosition | voxel/mob_system.py:792-811 | the closest live mob strictly within the distance is returned, and none when no live mob is that close |
| MobSystems.MobSystem.RaycastMob | voxel/mob_system.py:813-830 | the ray returns the live mob with the nearest hit under the maximum distance, and none when no live mob is hit that close |
| MobSystems.MobSystem.Cleanup | voxel/mob_system.py:874-883 | cleanup empties the mob list |
| Mobs.ProfileOf | voxel/mob_system.py:81-126 | each mob type gets a positive size and health; hostile types (zombie, skeleton, creeper) have 20 health, speed 2 and positive attack damage, animals have no attack, speed 1.5 and at most 10 health |
| Mobs.Mob.Box | voxel/mob_system.py:128-139 | the mob's box stands on its feet, has the mob's size, is centred on its position in X and Z, and is proper for a non-negative size |
| Mobs.NewMob | voxel/mob_system.py:37-79 | a new mob is at the given position, at rest and airborne, idle with the drawn idle time and heading, at full health of its type and with its type's profile |
| Mobs.Damage | voxel/mob_system.py:141-157 | a dead mob or one still in its hit cooldown ignores a hit; otherwise health drops by the amount, the hit cooldown restarts, and the mob dies (health 0) exactly when health would reach zero or below |
| Mobs.DamageOnce | voxel/mob_system.py:141-157 | a second hit straight after a first is ignored, a hit that kills leaves health 0, and health never goes negative from a non-negative start |
| Mobs.GetDrops | voxel/mob_system.py:159-179 | the drops are copies of the type's one drop item, their number within the type's randint bounds; types with no drop give nothing |
| Mobs.DropsByKind | voxel/mob_system.py:159-179 | a mob drops at most 3 items; an animal drops at least one, all of meat, chicken or pork; a hostile mob drops only rotten flesh, bone or gunpowder |
| Mobs.OutsideRenderDistance | voxel/mob_system.py:705-716 | a mob is out of range exactly when its chunk is more than RENDER_DISTANCE chunks from the player's chunk along X or Z |
| Mobs.MaxMobsPerChunk | voxel/mob_system.py:527-538 | the per-chunk cap lies between 2 and 8 |
| Mobs.CapsGrow | voxel/mob_system.py:527-538 | a harder difficulty never lowers the per-chunk mob cap |
| Mobs.RayAabb | voxel/mob_system.py:832-872 | the slab test returns no hit or an entry distance that is non-negative (or unbounded) |
| Mobs.SlabAroundOrigin | voxel/mob_system.py:841-866 | a slab containing the origin keeps an interval that contains distance zero |
| Mobs.RayFromInside | voxel/mob_system.py:832-872 | a ray starting inside a box always hits it |
| Mobs.ParallelOutsideMisses | voxel/mob_system.py:841-848 | a ray parallel to an axis and outside that slab misses the box |
| Mobs.CountDown | voxel/mob_system.py:186-196 | a running cooldown drops by dt and a finished one stays put |
| Mobs.Cooled | voxel/mob_system.py:186-196 | an update counts down the hit, attack and jump cooldowns and nothing else |
| Mobs.CountDownBounds | voxel/mob_system.py:186-196 | counting down never raises a cooldown, a running one stays above -dt, and a finished one stays finished |
| Mobs.ApproachSteers | voxel/mob_system.py:504-510 | the approach moves a velocity toward its target by at most the step, never overshooting |
| Mobs.WanderKeepsRest | voxel/mob_system.py:258-285 | wandering changes only the wander state and horizontal velocity |
| Mobs.WanderIdle | voxel/mob_system.py:260-266 | an idle mob counts its idle time down and starts walking, with a wander time in 2..4 and a heading in 0..360, exactly when the idle time runs out |
| Mobs.WanderStops | voxel/mob_system.py:268-272 | a walking mob whose wander time runs out goes idle for 2..5 seconds without changing its velocity |
| Mobs.WanderWalks | voxel/mob_system.py:273-285 | a walking mob still in its wander time steers its velocity toward 1.5 along its heading, by at most 10·dt on the ground and 2·dt in the air |
| Mobs.AiSpec | voxel/mob_system.py:205-256 | a hostile mob in Peaceful stops; one chasing in Survival within detection range steers toward the player at its (Hard-boosted) speed and restarts its attack cooldown exactly when in attack range with the cooldown run out; every other mob wanders |
| Mobs.ChaseTargetAims | voxel/mob_system.py:227-238 | the chase velocity points at the player with the mob's speed, 1.2 times that on Hard |
| Mobs.Bump | voxel/mob_system.py:322-332 | a blocked horizontal move changes only the mob's motion state, never its position or horizontal velocity |
| Mobs.AfterX | voxel/mob_system.py:318-335 | the X move shifts the mob by the allowed amount only along X and stops X velocity when cut short |
| Mobs.AfterY | voxel/mob_system.py:337-345 | the Y move shifts the mob by the allowed amount only along Y and leaves horizontal velocity alone |
| Mobs.AfterYKeepingJump | voxel/mob_system.py:337-345 | the corrected Y move also shifts only along Y and leaves horizontal velocity alone |
| Mobs.AfterZ | voxel/mob_system.py:347-363 | the Z move shifts the mob by the allowed amount only along Z and stops Z velocity when cut short |
| Mobs.Friction | voxel/mob_system.py:367-370 | idle friction never moves the mob and keeps a stopped axis stopped |
| Mobs.Gravity | voxel/mob_system.py:309-310 | gravity lowers vertical velocity by GRAVITY·dt and changes nothing else |
| Mobs.MovedShifts | voxel/mob_system.py:307-370 | the physics moves the mob by exactly the three allowed amounts and keeps its size |
| Mobs.MovedOnlyMotion | voxel/mob_system.py:307-370 | the physics changes only the mob's motion state |
| Mobs.MovedKeepsClear | voxel/mob_system.py:307-370 | a mob that starts clear of solid cells and whose sweeps each move toward the wish ends clear, its box moved by the three allowed amounts |
| Mobs.BlockedStops | voxel/mob_system.py:318-363 | a cut-short X or Z move stops that velocity component |
| Mobs.MovedLands | voxel/mob_system.py:337-370 | with free horizontal moves, a cut-short downward move lands the mob with zero vertical velocity, idle friction applying |
| Mobs.MovedJumps | voxel/mob_system.py:318-363 | with the corrected moves, a grounded mob with its jump ready that is blocked along X or Z jumps: vertical velocity jump_force, airborne, jump cooldown 0.5 |
| Mobs.XJumpLost | voxel/mob_system.py:322-345 | as written, an X-blocked jump while the downward move is also cut ends grounded with vertical velocity 0 and the jump cooldown spent, while a Z-blocked jump survives |
| Mobs.MovedAgrees | voxel/mob_system.py:307-370 | the corrected moves agree with the moves as written whenever no jump starts at the X move |
| Mobs.StepKeepsBody | voxel/mob_system.py:181-203 | an update never changes type, size, health or life; a dead mob only advances its death timer |
| Mobs.MobPhysics | voxel/mob_system.py:307-370 | the physics step computes the gravity-then-sweeps motion of the mob |
| Mobs.MobMoves | voxel/mob_system.py:312-370 | the three sweeps and their bumps compute the corrected mob moves |
| Mobs.MobUpdate | voxel/mob_system.py:181-203 | the update computes the death-timer step for a dead mob and cooldowns, AI and physics for a live one |
| Players.BreakStage | voxel/player.py:258-263 | the animation stage lies in 0..BREAK_STAGES-1, is 0 with no progress, is the integer part of progress times BREAK_STAGES below completion, and is the last stage from 0.9 on |
| Players.FallDamage | voxel/player.py:472-479 | fall damage is zero exactly for falls under 4 blocks, and otherwise is the whole number d with d+3 <= fall < d+4 |
| Players.LandingHealth | voxel/player.py:468-481 | landing never raises health nor takes it below zero, and changes it only for an airborne, non-Creative player falling at least 4 blocks |
| Players.ResolvedKeepsClear | voxel/player.py:451-519 | after the X, Y, Z sweeps the player box is the start box shifted by the three allowed moves, and a box that started clear of solid cells stays clear when each allowed move is toward its wish |
| Players.PlayerBox | voxel/player.py:535-544 | the player box is proper, has the player's width, height and depth, stands on the feet and is centred on the position in X and Z |
| Players.OccupiedCells | voxel/player.py:195-202 | a block placed in the cell of the feet or the cell one above the feet always intersects the player, so placement there is refused |
| Players.ClearAboveAndBelow | voxel/player.py:195-202 | a block wholly below the feet or wholly above the head never intersects the player |
| Players.DamageSpec | voxel/player.py:268-275 | damage sets health to max(health - amount, 0), never raises it, keeps the vitals sane and changes nothing else |
| Players.HealSpec | voxel/player.py:279-283 | healing sets health to min(health + amount, max health), never lowers it, keeps the vitals sane and changes nothing else |
| Players.FedSpec | voxel/player.py:285-290 | eating caps hunger at its maximum, adds the saturation uncapped and keeps the vitals sane |
| Players.DrainSpec | voxel/player.py:292-305 | consuming hunger takes saturation first, takes only the remainder from hunger, floors both at zero and keeps the vitals sane |
| Players.SurvivedSpec | voxel/player.py:307-332 | a survival tick leaves positive health; when the player survives the ticks hunger never rises and health rises by at most one, and a death restores full health and hunger |
| Players.FirstSolidSpec | voxel/player.py:171-193 | the ray march finds nothing exactly when no sampled cell is solid, and otherwise returns the first solid sample, all earlier samples being air |
| Players.RayResultSpec | voxel/player.py:133-193 | the raycast returns None exactly when no sample is solid, and otherwise the first solid cell, or the air cell just before it when the previous cell is asked for |
| Players.Player.constructor | voxel/player.py:22-85 | a new player stands 3 blocks above the spawn column's ground, at rest, with full health and hunger, 5 saturation, no breaking state and the given game mode |
| Players.Player.AddLook | voxel/player.py:86-94 | mouse motion turns yaw by the scaled x motion and pitch by the scaled y motion, with pitch clamped to plus or minus MAX_PITCH |
| Players.Player.RaycastBlock | voxel/player.py:133-193 | the raycast from the eye is the ray result over int(max distance / 0.1) samples |
| Players.Player.StartBreaking | voxel/player.py:207-212 | starting to break the block already being broken keeps its progress; a new block restarts progress at zero with the new block's type |
| Players.Player.UpdateBreaking | voxel/player.py:214-248 | nothing breaks without a target, bedrock never breaks, Creative breaks once per click, and in Survival progress grows by dt over the block's hardness and the block breaks and the state resets when it reaches 1 |
| Players.Player.ResetBreaking | voxel/player.py:250-256 | resetting clears the target, the progress, the block type and the per-click Creative flag |
| Players.Player.GetBreakStage | voxel/player.py:258-263 | the stage shown is between 0 and BREAK_STAGES-1 and is 0 with no progress |
| Players.Player.TakeDamage | voxel/player.py:268-277 | taking damage is ignored in Creative and is otherwise the floored damage of the vitals |
| Players.Player.Heal | voxel/player.py:279-283 | healing updates the vitals by the capped heal |
| Players.Player.AddHunger | voxel/player.py:285-290 | eating updates the vitals by the capped feed |
| Players.Player.ConsumeHunger | voxel/player.py:292-305 | consuming hunger updates the vitals by the saturation-first drain |
| Players.Player.Respawn | voxel/player.py:334-349 | respawning puts the player at rest 3 blocks above the ground at the origin column, with full health and hunger and the fall start at the new height |
| Players.Player.UpdateSurvival | voxel/player.py:307-332 | outside Creative the vitals follow the survival tick, a death respawns the player at the origin column and otherwise position and velocity are untouched; Creative changes nothing |
| Players.Player.Tick | voxel/player.py:314-328 | the regeneration and hunger timers advance as the survival tick before the death check |
| Players.Player.Regenerate | voxel/player.py:314-320 | with hunger above 16 and health below maximum, the regeneration timer heals 1 and costs 0.25 hunger every 4 seconds and then restarts |
| Players.Player.MoveX | voxel/player.py:458-463 | the X move is the swept allowed distance, the position and box shift by it, and X velocity is zeroed when the move was cut short |
| Players.Player.MoveZ | voxel/player.py:514-519 | the Z move is the swept allowed distance, the position and box shift by it, and Z velocity is zeroed when the move was cut short |
| Players.Player.MoveY | voxel/player.py:465-512 | the Y move is the swept allowed distance, and landing, ground contact, fall damage and the fall start follow the vertical settle rules |
| Players.Player.Settle | voxel/player.py:466-512 | after the Y sweep the vertical state follows the settle rules: stop on a hit, land when a downward move is cut, leave the ground on a full upward move, track the peak while rising |
| Players.Player.Land | voxel/player.py:468-482 | landing puts the player on the ground, resets the fall start to the landing height and applies the fall damage to health |
| Players.Player.Integrate | voxel/player.py:447-519 | gravity applies unless flying, the wish moves are velocity times dt, and the resulting motion is resolved by the three sweeps |
| Players.Player.Resolve | voxel/player.py:451-519 | the X, then Y, then Z sweeps move the player as the resolved-motion relation says |
| Saves.PlainBlocks | voxel/save_system.py:425-430 | the reference chunk that saves are diffed against has one cell per chunk position, each being what block_id_at generates there |
| Saves.DiffSound | voxel/save_system.py:419-439 | every listed edit names an in-chunk cell that differs from the generated reference and carries the chunk's block there, in strictly increasing (y, z, x) order |
| Saves.DiffComplete | voxel/save_system.py:419-439 | every cell that differs from the generated reference has an edit |
| Saves.DiffEmpty | voxel/save_system.py:440-444 | a chunk has no edits exactly when it equals its generated reference, so only modified chunks are saved |
| Saves.Applied | voxel/save_system.py:464-471 | applying a list of edits keeps the chunk's size |
| Saves.DiffApplied | voxel/save_system.py:419-471 | the edits of the cells diffed so far turn the reference into the chunk there and change nothing elsewhere |
| Saves.DiffRoundTrip | voxel/save_system.py:410-471 | restoring a chunk's saved edits onto the reference it was diffed against gives the chunk back |
| Saves.UnlistedCellKeepsBase | voxel/save_system.py:459-471 | a cell the save does not list keeps whatever the rebuilt chunk holds there, which need not be the saved block |
| Saves.AppliedUnlisted | voxel/save_system.py:464-471 | a cell that no edit names keeps its base value |
| Saves.SerializedChunks | voxel/save_system.py:410-448 | a save lists exactly the loaded chunks that differ from the generator, and restoring each listed edit list onto the generated chunk gives back every loaded chunk |
| Saves.RecordedAgreesWithFullSave | voxel/save_system.py:215-283 | saving one chunk touches only its own entry, and saving a loaded chunk into a full save of the same world changes nothing |
| Saves.EditChunk | voxel/save_system.py:204-205 | the chunk of a block edit, by floor division, is the chunk whose columns contain the block |
| Saves.EditChunkIsWorldChunk | voxel/save_system.py:204-210 | a block edit is saved to the chunk the world reads that block from |
| Saves.SavedEditReadsBack | voxel/save_system.py:198-213 | after a block edit is saved, the chunk file of a loaded chunk holds the block the world shows at the edited cell; an unloaded chunk writes no file |
| Saves.ClampedSelection | voxel/save_system.py:395-398 | the restored hotbar selection is a valid slot, kept when valid and clamped to the nearer end otherwise |
| Saves.Overlaid | voxel/save_system.py:403-408 | the restored inventory keeps its length, takes the saved entries where they exist and keeps its own beyond them |
| Saves.PlayerRoundTrip | voxel/save_system.py:390-408 | restoring the hotbar selection and inventory saved from the same game gives them back unchanged |
| Saves.ChunkDiff | voxel/save_system.py:257-271 | the diff loops over one chunk compute exactly its edit list against the generator |
| Saves.LayerDiff | voxel/save_system.py:258-271 | the loop over one layer extends the diff of the layers below by that layer's edits |
| Saves.RowDiff | voxel/save_system.py:259-271 | the loop over one row extends the diff by that row's edits |
| Saves.DiffCell | voxel/save_system.py:261-271 | one cell of the loop appends an edit exactly when the chunk's block differs from the generated one |
| Saves.SerializeWorld | voxel/save_system.py:410-448 | serialising the world records, for every loaded chunk, its edit list when it is not empty, and nothing else |
| Saves.SerializeChunk | voxel/save_system.py:417-444 | one turn of the world loop records one more chunk's non-empty edit list |
| Saves.SaveModifiedChunk | voxel/save_system.py:215-283 | saving one chunk loads or generates it without disturbing loaded chunks and replaces its entry by its current edits, dropping the entry when there are none |
| Saves.RestoreSlots | voxel/save_system.py:390-408 | the saved slot list becomes the hotbar, the selection is clamped into it, and the saved inventory is copied over the first entries in place |
| Saves.ApplyEdits | voxel/save_system.py:464-471 | the inner restore loop writes each edit in turn, giving the applied edits |
| Saves.RestoreLoaded | voxel/save_system.py:464-474 | restoring onto a loaded chunk writes its edits, marks it dirty and changes no other chunk |
| Saves.LoadChunk | voxel/save_system.py:459-462 | the chunk of an entry is the loaded one, or a freshly generated one that is stored and dirty |
| Saves.RestoreChunk | voxel/save_system.py:459-474 | restoring one entry leaves its chunk as its loaded or generated content with the edits applied, marked dirty |
| Saves.RestoreEntry | voxel/save_system.py:457-474 | one turn of the restore loop restores its entry and changes only that chunk |
| Saves.RestoreAll | voxel/save_system.py:455-474 | the restore loop restores every entry in turn |
| Saves.DeserializeWorld | voxel/save_system.py:450-476 | afterwards the world's chunks are the earlier ones overlaid with the restored ones, each its loaded or generated base with its edits applied, and exactly the restored chunks are newly dirty |
| Settings.Hardness | voxel/player.py:222 | the hardness used for breaking is positive for every block, the table's value or 1.0 for blocks not listed, and absent exactly for bedrock, which never breaks |
| Textures.GetBlockTextureName | voxel/texture_manager.py:237-265 | grass shows dirt underneath and grass elsewhere; wood, jungle and birch logs show their `_top` texture on top and bottom and their bark on the sides; other blocks use the block texture table |
| Textures.TextureNamesAreNeeded | voxel/texture_manager.py:31-36 | every texture name a block face asks for is among the textures the manager sets out to load |
| Textures.StrLeTotal | voxel/texture_manager.py:187 | the name order `sorted` uses is total |
| Textures.StrLeTrans | voxel/texture_manager.py:187 | the name order is transitive |
| Textures.StrLeAntisym | voxel/texture_manager.py:187 | the name order is antisymmetric |
| Textures.MinExists | voxel/texture_manager.py:187 | every non-empty set of names has a least one |
| Textures.SortedNames | voxel/texture_manager.py:187 | `sorted(self.textures.keys())` lists every name exactly once, in ascending order |
| Textures.CeilSqrtIsCeiling | voxel/texture_manager.py:177 | `ceil(sqrt(count))` is the least c with c*c >= count |
| Textures.CeilDivIsCeiling | voxel/texture_manager.py:178 | `ceil(count / cols)` is the least q with q*cols >= count |
| Textures.CellUvInUnitSquare | voxel/texture_manager.py:189-223 | the UV rectangle of the i-th texture lies in the unit square and spans exactly one column and one row of the atlas |
| Textures.GridRectInUnitSquare | voxel/texture_manager.py:193-221 | the rectangle of grid cell (col, row) lies in the unit square, with v flipped, one cell wide and high |
| Textures.RowInGrid | voxel/texture_manager.py:190-191 | the row of every texture index is inside the grid |
| Textures.CellsDistinct | voxel/texture_manager.py:190-191 | distinct indices land in distinct grid cells |
| Textures.LayoutComplete | voxel/texture_manager.py:187-223 | after the build every texture has its own cell's UVs and other entries of the map are kept |
| Textures.PlaceNames | voxel/texture_manager.py:189-223 | the placement loop gives each listed name the UVs of its cell and keeps other entries |
| Textures.ExtendLayout | voxel/texture_manager.py:223 | placing one more name extends the layout by that name's cell |
| Textures.AtlasGridFits | voxel/texture_manager.py:177-178 | the atlas grid has at least one column and row and room for every texture |
| Textures.TextureAtlas.constructor | voxel/texture_manager.py:160-164 | a new atlas has its texture size, no textures, no UVs and no atlas texture |
| Textures.TextureAtlas.AddTexture | voxel/texture_manager.py:166-167 | adding a texture adds its name and changes nothing else |
| Textures.TextureAtlas.Build | voxel/texture_manager.py:169-231 | an empty atlas is left as is; otherwise every texture gets the UVs of its cell in the sorted order and the atlas texture exists |
| Textures.TextureAtlas.GetUvs | voxel/texture_manager.py:233-234 | the lookup returns the stored UVs, and None exactly for an unknown name |
| Util.Trunc | voxel/util.py:544 | `int()` on a float truncates toward zero: the result is within one below a non-negative argument and within one above a negative one |
| Util.WorldToChunk | voxel/util.py:10-14 | the chunk coordinates are the floored quotients: the block lies in [cx*SX, cx*SX+SX) and [cz*SZ, cz*SZ+SZ) |
| Util.LocalCoords | voxel/util.py:17-22 | local coordinates lie in [0,SX) and [0,SZ), keep y, and chunk origin plus local offset gives back the world coordinate |
| Util.Index3D | voxel/util.py:25-27 | every in-chunk cell packs to an index in [0, CHUNK_VOLUME) |
| Util.Index3DInjective | voxel/util.py:25-27 | two in-chunk cells with the same packed index are the same cell |
| Util.UnpackIndex3D | voxel/util.py:25-27 | unpacking the index of an in-chunk cell gives the cell back |
| Util.Unpack | voxel/util.py:25-27 | every index of the block array stands for an in-chunk cell that packs back to it |
| Util.Clamp | voxel/util.py:30-31 | the result lies in [lo, hi] when lo <= hi, is v when v is already inside, lo below it and hi above it |
| Util.Aabb.Moved | voxel/util.py:579-580 | a moved box keeps its extents on all three axes and its minimum corner is shifted by the offset |
| Util.IntersectsSymmetric | voxel/util.py:569-577 | box overlap does not depend on the order of the operands |
| Util.TouchingDoesNotIntersect | voxel/util.py:569-577 | boxes that only share a face (strict inequalities) do not overlap |
| Util.IntersectsTranslationInvariant | voxel/util.py:569-580 | moving both boxes by the same offset keeps whether they overlap |
| Util.BlockAabb | voxel/util.py:583-585 | the box of a block is the unit cube at the block's integer corner |
| Util.OctaveSumBounded | voxel/util.py:432-436 | the sum of k octaves lies within plus or minus the sum of their amplitudes, for noise in [-1, 1] |
| Util.OctaveBounded | voxel/util.py:433 | one octave is bounded by its amplitude, the persistence to the power i |
| Util.OctaveNoise | voxel/util.py:426-439 | the octave loop computes the sum of OCTAVE_COUNT octaves divided by the sum of their amplitudes |
| Util.AmplitudeSumTotal | voxel/util.py:427-436 | the amplitudes of the octaves add up to 1.5, so the normalising division is never by zero |
| Util.NormalisedOctavesBounded | voxel/util.py:438-439 | the normalised octave noise lies in [-1, 1] |
| Util.ClampHeight | voxel/util.py:543-552 | the final clamp gives a height in [1, SY-1]: unchanged inside, 1 below, SY-1 at or above the top |
| Util.TerrainHeight | voxel/util.py:415-552 | the method computes the height function of the noise and the biome weight, and that height lies in [1, SY-1] whatever the noise |
| Util.HeightOf | voxel/util.py:415-552 | the terrain height lies in [1, SY-1] for every noise function, biome and desert weight |
| Util.ThresholdVariation | voxel/util.py:618 | the biome threshold wobble lies in [-0.1, 0.1] |
| Util.GetBiome | voxel/util.py:588-631 | desert exactly when the combined noise is below -0.5 plus the wobble; jungle exactly when it is not desert and above 0.3 plus the wobble |
| Util.BiomeBands | voxel/util.py:616-631 | combined noise below -0.6 is always desert, above 0.4 always jungle, and in [-0.4, 0.2] always plains |
| Util.ShouldPlaceTree | voxel/util.py:634-675 | a tree only stands outside the desert on the 10-block grid, and in the jungle also on the 4-block grid |
| Util.JungleTreeGrid | voxel/util.py:645-671 | jungle trees stand on the 20-block grid |
| Util.ShouldPlaceCactus | voxel/util.py:771-795 | a cactus only stands in the desert on the 5-block grid |
| Util.TreeAndCactusExclusive | voxel/util.py:634-795 | no column gets both a tree and a cactus |
| Util.OakTrunkHeight | voxel/util.py:703-704 | an oak trunk is 4 or 5 blocks high |
| Util.GenerateTree | voxel/util.py:692-768 | the list starts with the trunk of wood blocks straight up from the base, and every later entry is a leaf around the trunk top |
| Util.OakLeavesMissTrunk | voxel/util.py:714-766 | no oak leaf occupies a trunk cell |
| Util.CactusHeight | voxel/util.py:806-808 | a cactus is 1 to 4 blocks high |
| Util.GenerateCactus | voxel/util.py:798-814 | the list is a vertical stack of 1 to 4 cactus blocks from the base up |
| Util.JungleTrunkHeight | voxel/util.py:824-825 | a jungle trunk is 8 to 12 blocks high |
| Util.GenerateJungleTree | voxel/util.py:817-853 | the list starts with the jungle-log trunk and every later entry is a canopy leaf, never in the trunk column below the trunk top |
| Util.BirchTrunkHeight | voxel/util.py:864-865 | a birch trunk is 5 or 6 blocks high |
| Util.GenerateBirchTree | voxel/util.py:856-905 | the list starts with the birch-log trunk and every later entry is a leaf within radius sqrt 5 of the trunk, never in the trunk column |
| Util.GenerateChunkCaves | voxel/util.py:298-412 | every carved cell lies in the chunk, off the bottom and top layers, strictly inside the sphere of some worm step |
| Worlds.BlockIdAt | voxel/world.py:60-77 | the generated-terrain fallback is bedrock at and below y = 0 and air at and above the world top |
| Worlds.ColumnProfile | voxel/world.py:60-77 | each fallback column is solid below its grass surface, grass at the plains height (which lies in [1, SY-1]) and air above |
| Worlds.SolidAgreesWithBlock | voxel/world.py:581-604 | `is_solid` is `get_block` followed by the solidity test outside the height range and in loaded chunks; on an unloaded chunk `is_solid` says air while `get_block` gives the generated block |
| Worlds.BlockInLocal | voxel/world.py:593-601 | a world position inside a loaded chunk reads that chunk's local cell |
| Worlds.ChunkOfLocal | voxel/world.py:93-100 | chunk origin plus local offset maps back to that chunk and that offset |
| Worlds.ColumnHeight | voxel/world.py:120-131 | a cached column height lies in [1, SY-1] |
| Worlds.OreHash | voxel/world.py:183-184 | the ore hash is reduced to 32 bits |
| Worlds.OreFor | voxel/world.py:178-194 | a stone cell stays stone or becomes an ore; diamond only below 16, gold below 32, iron below 64 |
| Worlds.FillLayers | voxel/world.py:146-175 | bedrock at y = 0 is never carved, a carved cell is air, and otherwise the column is sand then four sandstone layers in the desert or grass then three dirt layers elsewhere, stone below |
| Worlds.NeighbourKeysAcrossBorders | voxel/world.py:547-572 | the chunks dirtied by an edit are exactly the other chunks holding one of the four horizontal neighbours of the edited cell |
| Worlds.Ring | voxel/world.py:329-337 | ring r of the spiral has 8r entries |
| Worlds.RingAtOnRing | voxel/world.py:329-337 | every entry of ring r is at Chebyshev distance r from the centre |
| Worlds.RingAtInjective | voxel/world.py:329-337 | the entries of one ring are distinct |
| Worlds.RingComplete | voxel/world.py:329-337 | every coordinate at Chebyshev distance r is on ring r |
| Worlds.SpiralExactlyOnce | voxel/world.py:325-341 | the spiral starts at the centre and yields each coordinate within the radius exactly once, (2r+1)^2 of them |
| Worlds.SpiralFirst | voxel/world.py:328 | the spiral starts with the centre |
| Worlds.SpiralLength | voxel/world.py:325-341 | the spiral has (2r+1)^2 entries |
| Worlds.SpiralMembers | voxel/world.py:325-341 | a coordinate is in the spiral exactly when it is within Chebyshev distance r |
| Worlds.SpiralNoDup | voxel/world.py:325-341 | the spiral repeats no coordinate |
| Worlds.DedupNoDup | voxel/world.py:432-438 | the `seen` filter leaves a list without repetitions unchanged |
| Worlds.Desired | voxel/world.py:432-438 | the loop building `desired` gives exactly the spiral, without repetitions |
| Worlds.HeightTable | voxel/world.py:118-131 | the height cache has one entry per column |
| Worlds.HeightAt | voxel/world.py:142 | `heights[lz][lx]` is the terrain height of column (lx, lz) |
| Worlds.HeightTableEntry | voxel/world.py:120-131 | cache entry lz*SX+lx is the height of column (lx, lz) |
| Worlds.ColumnHeightAt | voxel/world.py:124-128 | one column's height is `terrain_height` with its biome and weight, in [1, SY-1] |
| Worlds.ColumnHeights | voxel/world.py:118-131 | the nested loop builds the whole height cache, every entry in range |
| Worlds.RowHeights | voxel/world.py:121-130 | one row of the loop appends that row's heights |
| Worlds.HeightTableInRange | voxel/world.py:118-131 | every cached height lies in [1, SY-1] |
| Worlds.FillCell | voxel/world.py:149-194 | the block written for one cell is its layer block, carved to air by a cave, then rolled into an ore if stone |
| Worlds.FillStep | voxel/world.py:149-196 | writing one cell extends the filled prefix of the column by that cell |
| Worlds.FillColumnDone | voxel/world.py:146-149 | a column is finished once the loop passes its height or the chunk top |
| Worlds.FillTerrain | voxel/world.py:140-196 | after the fill every cell up to its column height holds its layer block and every cell above keeps its block |
| Worlds.FillColumn | voxel/world.py:142-196 | one column gets its cells from 0 to min(th, SY-1) filled and nothing else changes |
| Worlds.PlacedStep | voxel/world.py:223-231 | writing one placement keeps every changed cell explained by a placement |
| Worlds.PlacedSkip | voxel/world.py:225-227 | skipping a placement outside the chunk changes nothing |
| Worlds.PlaceInChunk | voxel/world.py:223-254 | after writing a placement list every changed cell holds a placement made at its world position |
| Worlds.OakShape | voxel/util.py:692-768 | an oak stays within three blocks of its trunk horizontally, at or above its base, and only places tree blocks |
| Worlds.JungleShape | voxel/util.py:817-853 | a jungle tree stays within three blocks of its trunk, at or above its base, and only places tree blocks |
| Worlds.BirchShape | voxel/util.py:856-905 | a birch stays within three blocks of its trunk, at or above its base, and only places tree blocks |
| Worlds.BirchLeafNear | voxel/util.py:884-898 | a birch leaf is within two blocks of the trunk on both axes |
| Worlds.TreeStep | voxel/world.py:206-231 | writing one tree keeps every change a tree block near a tree column, two or more blocks up |
| Worlds.PlaceTrees | voxel/world.py:199-231 | the tree pass only changes cells to tree blocks, at y >= 2, within reach of a tree column |
| Worlds.GrowTree | voxel/world.py:212-220 | the tree grown is a jungle tree in the jungle, else a birch or an oak by tree type, each with the tree shape |
| Worlds.PlantTree | voxel/world.py:200-231 | one column of the tree pass keeps the pass's invariant |
| Worlds.PlaceTree | voxel/world.py:210-231 | the tree of one column, written into the chunk, keeps the pass's invariant |
| Worlds.CactusStep | voxel/world.py:243-254 | writing one cactus keeps every change a cactus above the ground of a cactus column |
| Worlds.PlaceCacti | voxel/world.py:234-254 | the cactus pass only changes cells to cactus, above the ground of a cactus column |
| Worlds.PlantCactus | voxel/world.py:235-254 | one column of the cactus pass keeps the pass's invariant |
| Worlds.PlaceCactus | voxel/world.py:241-254 | the cactus of one column, written into the chunk, keeps the pass's invariant |
| Worlds.CactusTouchingAnother | voxel/world.py:650-669 | the scan answers true exactly when one of the eight horizontal in-chunk neighbours at the same height is cactus |
| Worlds.RunTop | voxel/world.py:269-273 | the `remove_y` loop stops at the first non-cactus cell above or at the top, and every cell it passed was cactus |
| Worlds.ColumnCleared | voxel/world.py:267-273 | the removal turns exactly the cactus run of the column starting at the hit into air and changes no other cell |
| Worlds.RowCleanedFirstHit | voxel/world.py:259-274 | a row with no touching cactus is left alone; otherwise exactly its first touching cactus and the run above it are removed, then the row ends |
| Worlds.RowsCleanedStep | voxel/world.py:258-259 | one more z row of a layer is one more x scan of that row |
| Worlds.LayersCleanedStep | voxel/world.py:257-258 | one more layer of the cleanup pass is one more scan of all its rows |
| Worlds.CactusNeighbourWasThere | voxel/world.py:257-274 | the cleanup only removes cacti, so a cactus neighbour it still sees was already there |
| Worlds.RemoveCactusStep | voxel/world.py:265-271 | removing a touching cactus, or one standing on a removed cactus, keeps every change justified |
| Worlds.ClearedFromSound | voxel/world.py:267-273 | clearing a run from a removable cell keeps every change justified |
| Worlds.RowCleanedSound | voxel/world.py:259-274 | the scan of one row only makes justified removals |
| Worlds.RowsCleanedSound | voxel/world.py:258-274 | the scan of a layer only makes justified removals |
| Worlds.LayersCleanedSound | voxel/world.py:257-274 | every cell the cleanup changes was a cactus, now air, that touched another cactus or stood on a removed one |
| Worlds.RemoveCactusColumn | voxel/world.py:267-273 | the removal leaves exactly the cleared column run as its result |
| Worlds.RemoveTouchingCacti | voxel/world.py:257-274 | the cleanup loop computes exactly the layer-by-layer cleanup function, and all its changes are justified removals |
| Worlds.CleanLayer | voxel/world.py:258-274 | the z loop over a layer computes exactly the rows' cleanups in order |
| Worlds.CleanRow | voxel/world.py:259-274 | the x loop over a row computes exactly its first-hit cleanup |
| Worlds.FillPopulates | voxel/world.py:140-196 | the fill leaves every cell in the generated envelope: bedrock at 0, its layer block or carved air up to the surface, air above |
| Worlds.TreesKeepPopulated | voxel/world.py:199-231 | the tree pass keeps the chunk within the generated envelope |
| Worlds.CactiKeepPopulated | voxel/world.py:234-254 | the cactus pass keeps the chunk within the generated envelope |
| Worlds.CleanupKeepsPopulated | voxel/world.py:257-274 | the cleanup keeps the chunk within the generated envelope |
| Worlds.CactusCellToAir | voxel/world.py:267-271 | wherever a cactus may be generated, air may be too |
| Worlds.PopulateChunkBlocks | voxel/world.py:112-274 | the four passes leave the chunk within the generated envelope and keep its node |
| Worlds.WorldWrite | voxel/world.py:481-545 | a write through `remove_block` or `place_block` is read back at that position by `get_block` and nowhere else changes |
| Worlds.RebuildStep | voxel/world.py:468-476 | rebuilding one chunk keeps the others' flags, and counts it as newly meshed exactly when it ends clean with a node |
| Worlds.SettleStep | voxel/world.py:370-372 | one meshing step that settles its chunk extends the pass's facts by that chunk |
| Worlds.MeshProgressStep | voxel/world.py:468-476 | one meshing step extends the pass by its chunk, and by a build when it returned true |
| Worlds.UnloadThenCreate | voxel/world.py:440-465 | unloading outside the desired set then creating inside it only creates, seen from before the unload |
| Worlds.NewlyMeshedAcross | voxel/world.py:444-476 | creating or dropping chunks before the meshing pass does not change which builds count as new |
| Worlds.World.constructor | voxel/world.py:37-59 | a new world has no chunks, no nodes and preload not complete |
| Worlds.World.ApplySavedModifications | voxel/world.py:606-627 | saved data replaces the chunk's blocks and marks it dirty; with none the chunk is unchanged |
| Worlds.World.EnsureChunk | voxel/world.py:276-287 | a loaded chunk is returned unchanged; a missing one is generated, patched with saved data and stored, and nothing else changes |
| Worlds.World.BuildMeshFor | voxel/world.py:289-323 | an unloaded chunk, or a clean one with a node, is left alone and gives false; otherwise the chunk is rebuilt against the world and the result is true exactly when it has faces |
| Worlds.World.Remesh | voxel/world.py:298-323 | the rebuilt chunk gets the mesh of its visible faces as its node when it has faces, else loses its node |
| Worlds.World.SetNodeKey | voxel/world.py:300-320 | `chunk_nodes` keeps the key exactly when the chunk got a node |
| Worlds.World.MarkDirty | voxel/world.py:557-572 | marking dirties exactly that loaded chunk and leaves blocks and nodes alone |
| Worlds.World.MarkNeighborsDirty | voxel/world.py:547-572 | exactly the loaded chunks across the faces the edited cell touches become dirty |
| Worlds.World.RemoveBlock | voxel/world.py:481-513 | succeeds exactly for 0 < y < SY in a loaded chunk on a non-air cell, then that cell becomes air and its chunk and the touched neighbours are dirty; failure changes nothing |
| Worlds.World.PlaceBlock | voxel/world.py:515-545 | for 0 < y < SY the target chunk is loaded (generated if missing); placing succeeds exactly on air, writes the block and dirties as removal does; out of range nothing changes |
| Worlds.World.PlaceInLoaded | voxel/world.py:529-545 | in a loaded chunk placing succeeds exactly on air and writes the block there only |
| Worlds.World.Cleanup | voxel/world.py:629-648 | every chunk and node is dropped |
| Worlds.World.Unload | voxel/world.py:444-450 | dropping one chunk removes it and its node and keeps the rest |
| Worlds.World.UnloadOutside | voxel/world.py:440-452 | exactly the chunks outside the desired set are dropped, with their nodes; the others are untouched |
| Worlds.World.CreateChunk | voxel/world.py:276-287 | a missing chunk is created fresh, with the generated and saved blocks |
| Worlds.World.CreateWithinBudget | voxel/world.py:455-465 | missing desired chunks are created in order until MAX_CHUNK_CREATES_PER_FRAME is spent; existing ones are kept |
| Worlds.World.MeshKey | voxel/world.py:471-476 | one `_build_mesh_for` call on a loaded chunk that needs it settles that chunk only |
| Worlds.World.MeshStep | voxel/world.py:468-476 | one step of a meshing loop keeps the loop's bookkeeping of new builds |
| Worlds.World.MeshNext | voxel/world.py:370-372 | one step of the preload meshing loop extends its bookkeeping |
| Worlds.World.MeshWithinBudget | voxel/world.py:456-476 | at most MAX_CHUNK_MESHES_PER_FRAME builds with faces, each chunk at most once, and they are exactly the newly meshed chunks |
| Worlds.World.MeshAll | voxel/world.py:370-372 | every desired chunk goes through the build; the count is the number of new builds with faces |
| Worlds.World.MeshEach | voxel/world.py:370-372 | the preload meshing loop settles every desired chunk in order |
| Worlds.World.CreateAll | voxel/world.py:364-367 | every missing desired chunk is created, without budget, and counted |
| Worlds.World.Stream | voxel/world.py:440-476 | the three passes of `update`: the loaded chunks become the kept desired ones plus the created ones; kept chunks keep their blocks; at most the creation budget, earlier desired chunks first; at most the meshing budget of new builds |
| Worlds.World.Update | voxel/world.py:421-476 | `update` streams exactly the chunks within the render distance of the player, nearest first, within both budgets |
| Worlds.World.PreloadChunks | voxel/world.py:364-372 | the creation and meshing passes of the preload, without budgets |
| Worlds.World.PreloadAround | voxel/world.py:342-372 | both passes over the chunks within the render distance |
| Worlds.World.MarkPreloaded | voxel/world.py:374 | sets preload complete and changes nothing else |
| Worlds.World.Preload | voxel/world.py:342-375 | every chunk within the render distance is loaded and settled, nothing is unloaded, and the counts are the created chunks and the new builds |
| WorldManagement.MakeInfo | voxel/world_manager.py:16-24 | a new world record keeps the given fields and is well formed; its last-played time is the given one when present and non-empty, and the creation time otherwise |
| WorldManagement.ToDict | voxel/world_manager.py:26-37 | a world record serialises to exactly the eight keys name, folder, seed, created, last_played, screenshot, game_mode and difficulty |
| WorldManagement.FromDict | voxel/world_manager.py:40-51 | reading a record succeeds exactly when name, folder, seed and created are present and every present value has its field's type; the record then holds the values read, the defaults "Survival" and 2 for a missing mode and difficulty, no screenshot for a missing or null one, and the creation time for a missing, null or empty last-played time |
| WorldManagement.DictRoundTrip | voxel/world_manager.py:26-51 | reading back a serialised record gives the same record exactly when it is well formed |
| WorldManagement.ParseAll | voxel/world_manager.py:75 | parsing a world list succeeds with one record per entry, in order, or fails exactly when some entry fails |
| WorldManagement.LoadWorlds | voxel/world_manager.py:69-81 | loading the worlds file yields only well-formed records, an unreadable or missing file giving none |
| WorldManagement.SavedWorldsReload | voxel/world_manager.py:69-93 | loading what saving wrote gives back the same world list |
| WorldManagement.Sanitized | voxel/world_manager.py:145 | the sanitised name has the name's length; each character that `isalnum` accepts, and each '-' or '_', is kept, and every other one becomes '_' |
| WorldManagement.SanitizedAscii | voxel/world_manager.py:145 | on an ASCII name the sanitised name does not depend on how `isalnum` treats non-ASCII characters |
| WorldManagement.BaseName | voxel/world_manager.py:145-147 | the folder base is never empty and folder-safe: "world" for an empty name, the sanitised name otherwise |
| WorldManagement.DecimalInjective | voxel/world_manager.py:153 | different counters give different decimal strings |
| WorldManagement.CandidatesDiffer | voxel/world_manager.py:150-154 | the folder candidates base, base_1, base_2, ... are pairwise different |
| WorldManagement.Tried | voxel/world_manager.py:150-154 | the first n candidates are n different names |
| WorldManagement.FirstIndex | voxel/world_manager.py:158-163 | the index found is the first one satisfying the test, or the length when none does |
| WorldManagement.FirstWhere | voxel/world_manager.py:158-170 | a lookup finds something exactly when some entry satisfies the test, and then returns the first such entry |
| WorldManagement.Without | voxel/world_manager.py:204 | removal keeps exactly the records whose folder differs and never grows the list |
| WorldManagement.WithoutKeepsOrder | voxel/world_manager.py:204 | removal distributes over concatenation, so the kept records stay in order |
| WorldManagement.WithoutAbsent | voxel/world_manager.py:204 | removing a folder no record uses changes nothing |
| WorldManagement.TextLeTotal | voxel/world_manager.py:235-237 | the string order on timestamps is total |
| WorldManagement.TextLeTransitive | voxel/world_manager.py:235-237 | the string order on timestamps is transitive |
| WorldManagement.Insert | voxel/world_manager.py:235-237 | inserting into a list sorted newest first keeps it sorted and adds exactly the one record |
| WorldManagement.SortByLastPlayed | voxel/world_manager.py:235-237 | the sorted list is a permutation of the worlds, ordered newest last-played first |
| WorldManagement.WorldManager.constructor | voxel/world_manager.py:57-67 | a new manager holds the worlds loaded from the worlds file |
| WorldManagement.WorldManager.SaveWorlds | voxel/world_manager.py:83-93 | saving writes the serialised world list, and loading it back gives the same worlds |
| WorldManagement.WorldManager.InUse | voxel/world_manager.py:152 | a folder is in use exactly when some world has it |
| WorldManagement.WorldManager.GenerateFolderName | voxel/world_manager.py:142-156 | the folder chosen is the first candidate that no world uses, so it is new and every earlier candidate is taken |
| WorldManagement.WorldManager.CreateWorld | voxel/world_manager.py:95-140 | creating appends one world with the name, the given or drawn seed, the timestamp as creation and last-played time and a fresh folder, and saves the list |
| WorldManagement.WorldManager.GetWorld | voxel/world_manager.py:158-163 | the lookup by folder finds a world exactly when one has that folder, and returns the first |
| WorldManagement.WorldManager.GetWorldByName | voxel/world_manager.py:165-170 | the lookup by name finds a world exactly when one has that name, and returns the first |
| WorldManagement.WorldManager.DeleteWorld | voxel/world_manager.py:172-212 | deletion succeeds exactly when a world has the folder, then removes every record with it and saves; otherwise nothing changes |
| WorldManagement.WorldManager.UpdateFirst | voxel/world_manager.py:224-244 | an update changes only the first world with the folder and saves, and changes nothing when no world has it |
| WorldManagement.WorldManager.UpdateLastPlayed | voxel/world_manager.py:224-229 | only the first world with the folder gets the new last-played time; nothing changes when none has it |
| WorldManagement.WorldManager.SaveScreenshot | voxel/world_manager.py:239-244 | only the first world with the folder gets the screenshot path; nothing changes when none has it |
| WorldManagement.WorldManager.SortedByLastPlayed | voxel/world_manager.py:235-237 | the list returned is a permutation of the worlds, newest last-played first |

## Left out

- Util.Trunc: Python floats are modelled as exact `real` numbers, so rounding is not modelled anywhere in the model. `int()` on a float is `Trunc` (toward zero), and `//` and `%` are floored as in Python.
- Util.Sample: `_simplex_noise_2d` and the permutation-table seeding (voxel/util.py:38-245) are an arbitrary function into [-1, 1]. The properties hold for every such function.
- Util.GenerateChunkCaves: the worm walk of `get_chunk_worms` (voxel/util.py:251-295) is Python's random stream plus trigonometric steering. It is the `steps` parameter, and the carve set is stated as sound (every carved cell is a legal cell inside some worm sphere), not as a particular set.
- Worlds.WormsAt: the cave worm steps of each chunk are a fixed function in `Terrain`, not computed.
- Worlds.BlendAt: the cosine biome blend of `_get_biome_blend_weight` (voxel/world.py:377-416) is a parameter of `Terrain`; the terrain-height clamp holds for any weight.
- Worlds.SavedAt: the chunk files read by `load_chunk` are a fixed `Terrain.saved` map. Writing them during a session is modelled separately (`Saves.SaveModifiedChunk`), and the two are not linked in one run. Short or corrupt chunk files are not modelled: every saved block list is taken to have `CHUNK_VOLUME` entries, as `save_chunk` writes them, although `_apply_saved_modifications` assigns what it reads without checking its length.
- Worlds.PopulateChunkBlocks: stated as an envelope: every cell holds a block the generator may put there (bedrock at 0, layer block, ore or carved air below the surface, air above, tree or cactus blocks near their roots). The column fill alone is exact (`Worlds.FillTerrain`).
- Worlds.PlaceTrees: states that the pass changes only cells to tree blocks at y >= 2 within reach of a tree root. When the placements of neighbouring trees overlap, which one's block ends in a cell (the last write wins) is not stated.
- Worlds.PlaceCacti: states that the pass changes only cells to cactus above the ground of a cactus column. The exact stack heights are not stated for the whole pass.
- Mobs.RandInt: `random.uniform`, `random.randint` and `random.choice` in mobs, drops and spawning are draws passed as parameters, constrained to the ranges the source samples from. Which values Python's generator produces is not modelled.
- Mobs.GetDrops: the drop count is a draw `u` in [0, 1) mapped onto the type's range.
- Mobs.Wander: the wander heading's sine and cosine are the `heading` parameter.
- Mobs.Ai: `math.sqrt` of the player distance is the `sqrt` parameter. The chase direction is stated without assuming it is a true square root.
- Mobs.Moved: models the corrected X-jump; the code as written is `Mobs.MovedAsWritten` (see Findings).
- MobSystems.MobSystem.UpdateMobs: mobs are values in the `mobs` list, not objects, so aliasing of a mob object from outside the list is not modelled.
- Drops.DropSystem.Update: dropped items are values in the `items` list, not objects, so aliasing of an item object is not modelled.
- Slots.Total: slot dicts are values. A dict changed in place becomes a new value at the same position; sharing one dict between two slots is not modelled.
- Players.Player.Integrate: the movement-intent part of `update` (voxel/player.py:350-446) is not modelled. That part covers wish direction from yaw (trigonometry), sprinting, ground friction via `_approach`, jumping and the double-tap flight toggle, which reads `time.time()`. `Integrate` takes the velocity that part leaves.
- Players.Player.AddLook: the camera update `_update_camera` and its smoothing are Panda3D calls and are not modelled.
- Saves.RestoreSlots: of `_deserialize_player`, only the hotbar, the selection and the inventory are modelled. The position, velocity, orientation, health, hunger and saturation restore is left out.
- Saves.SerializeWorld: the JSON encoding, the file reads and writes, the `try`/`except` fallbacks and the prints of voxel/save_system.py are not modelled; a save is a value.
- Saves.SaveModifiedChunk: the chunk file store is a map; file names and directories are not modelled.
- WorldManagement.LoadWorlds: worlds.json is the `stored` field. Directory creation, `shutil.rmtree`, screenshot files and the clock are outside the model; the clock value and the random seed draw are parameters.
- WorldManagement.Sanitized: Python's Unicode-aware `str.isalnum` is the `AlnumTest` parameter, pinned down only on ASCII characters (letters and digits accepted, the rest refused). Which non-ASCII characters it accepts (the "é" of "Café", the letters of "日本") follows Python's Unicode tables, which are not tabulated here, so the model proves its folder-name properties for every such test.
- WorldManagement.FromDict: the source stores whatever JSON value each key holds; the record here has typed fields, so a dict with a value of another type (a text seed, a null game mode, a numeric last-played time) is rejected, and `ParseAll` then loads no worlds where the source would load the records with those values.
- WorldManagement.SortByLastPlayed: states a permutation in descending `last_played` order. Stability of Python's sort among equal timestamps is not stated.
- WorldManagement.WorldManager.CreateWorld: the seed drawn from `random.randint` is the `draw` parameter.
- Chunks.Chunk.BuildMesh: Panda3D geometry (vertex writers, `GeomTriangles`, node attachment) is replaced by the mesh value and quad records.
- Game.App.PlaceSelected: uses the corrected placeable filter (see Findings); the as-written filter is `Game.PlaceableAsWritten`. Placing the block into the world is `Worlds.World.PlaceBlock`, and the two are not composed.
- Game.IconsOfPoints: only the heart and hunger thresholds of `_update_hud` are modelled; layout, textures and the day/night colour lerps are display only.
- InventoryScreens.NoAxeFromTable: the axe recipes repeat the pickaxe ingredients exactly (voxel/crafting.py:53-101), so the first-match rule always gives the pickaxe. This is stated as a property of the code; no corrected recipe table is modelled, because the intended axe shapes are not recorded anywhere in the source.
- Crafting.CraftingSystem.Partition: `get_crafting_categories` (voxel/crafting.py:245-281) reads a key `_load_recipes` never sets and is not modelled.
- Creative.CreativeScreen.OnItemClick: the creative item grid, categories, tooltips and textures are display only.
- Textures.TextureAtlas.Build: image loading and pixel copying are not modelled; the atlas records names and UV rectangles.
- The menus, title screen, settings menu, input handler, asset generator and the diagnostic script have no data logic here and are not modelled.

## Findings

| source | as written | input that shows it | evidently intended | confidence | as-written member | corrected member |
|---|---|---|---|---|---|---|
| main.py:1173-1184 | the placeable filter excludes sticks, meat and the wood and stone tools only, so the iron pickaxe, axe, shovel and sword pass it and are placed as blocks | an iron pickaxe selected and right-clicked onto a free cell | no tool, stick or meat item is ever placed | not executed | Game.IronToolsPassFilter | Game.PlaceableCorrectsFilter |
| voxel/mob_system.py:322-345 | the jump set when the X move is blocked is cancelled in the same frame: the Y sweep uses the `dy` computed before the jump, so a blocked downward move sets `vy` to 0 and keeps the mob on the ground, with the jump cooldown spent | a grounded mob whose jump cooldown is over, blocked along X while its downward move is blocked | a mob blocked by a wall jumps, as it does when blocked along Z | not executed | Mobs.XJumpLost | Mobs.MovedJumps |
