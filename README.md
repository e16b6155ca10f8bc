# Voxel terrain: sectors, the sector cache and terrain streaming

This project models the terrain core of a small voxel engine written in Rust. It covers two layers.

**The voxel layer** (`src/terrain/voxel.rs`, module `Voxel` in `voxel.dfy`):
- A block is one of six kinds, and only air is not drawn.
- A sector is a cube of 32 x 32 x 32 blocks, held in a flat block list indexed by `x + 32 y + 1024 z`.
- Local coordinates are bounds-checked. Each has six neighbour accessors that return nothing at the matching face.
- The block list supports `get`, in-place `set` and an early-exit scan that asks whether anything must be drawn.
- An iterator walks the list as a counter state machine over `(x, y, z)`.
- A sector pairs its blocks with an optional model.

**The streaming layer** (`src/terrain/mod.rs`, modules `Terrain` in `terrain.dfy` and `TerrainGen` in `terrain_gen.dfy`). The consumer keeps a cache from sector coordinates to sectors. Each frame it does three things:
- It publishes the observer position.
- It drains the messages the worker sent:
  - a query for a missing sector sends a Need back to the worker;
  - a query for a cached sector either meshes it or ends the drain;
  - a generated sector is inserted only if none is cached at its coordinate.
- It evicts every sector whose squared sector distance to the observer's sector is not below 280.

One worker cycle queries the 245 sectors of a 7 x 5 x 7 box around the observer's sector, nearest first along x and z and bottom to top along y, then answers every pending Need with a generated block list.

## How the model is organised

- `wrappers.dfy`: the `Option` type.
- `voxel.dfy`:
  - `Block` is a datatype and `LocalCoords` a subset type of `Coords`.
  - `BlockList` is a class over an `array<Block>` of length 32768. `Set` writes in place and `NeedsRendering` scans with a loop.
  - `BlockListIter` is a class whose `Next` updates its `x`, `y` and `z` fields. It is proved against the function `Advance`, and the enumeration lemmas are stated over `Advance`.
  - `Sector` is a value: its blocks and an optional model handle.
- `terrain.dfy`:
  - `Terrain` is a class holding four fields: the cache (a `map`), the nearby channel (a `seq` of messages still to be taken), the needed channel (a `seq` of coordinates sent to the worker) and the shared observer position.
  - `Terrain.Update` runs the drain loop (`DrainNearby`, one `Handle` call per message), then evicts.
  - `Receive` and `Drain` are the specification functions that these methods are proved against.
  - The lemmas about `Drain` state the cache rules:
    - the first writer wins;
    - meshing passes the neighbour gate;
    - a model is never replaced;
    - blocks are never changed;
    - a drain only adds generated keys;
    - Need is sent only for queried, missing sectors.
- `terrain_gen.dfy`:
  - `CycleQueries` is the 245 queries of one cycle as a sequence. `WorkerCycle` appends them to the nearby channel with the source's three nested loops, then services the pending Needs.
  - Lemmas state the box coverage, the render rule, that rendered sectors have their neighbours queried in the same cycle, and that every sector a cycle queries lies within the eviction bound of the observer sector that cycle was computed around. Eviction uses the current frame's observer sector, so once the observer moves, sectors queried by an older cycle can still be evicted.

The source's two files disagree about `Sector`:
- `mod.rs` builds a sector from its blocks alone, then later attaches a model computed from the sector and its six neighbours (`create_model`, `set_model`).
- `voxel.rs` only has a four-argument constructor that builds the model eagerly.

The model follows `mod.rs`. A cached `Sector` starts with no model, and meshing replaces only its model field. The eager constructor is modelled too, as `NewEagerSector`. `voxel.rs` imports `SECTOR_SIZE_S` and `SECTOR_LEN` from `mod.rs`, which does not define them. Here they are the constants `SectorSize` (32, the value of `SECTOR_SIZE` in `mod.rs`) and `SectorLen` (32768). A sector's contents are the subset type `Blocks`, sequences of exactly `SectorLen` blocks, as the fixed-size array of a `BlockList` is.

## Model

| member | source | states |
|---|---|---|
| Voxel.Block.IsAir | src/terrain/voxel.rs:28-33 | a block is air exactly when it is `Air` |
| Voxel.Block.NeedsRendering | src/terrain/voxel.rs:36-38 | a block must be drawn exactly when it is not air |
| Voxel.New | src/terrain/voxel.rs:53-64 | builds a local coordinate with the given components; components outside [0, 32) are a panic in the source and excluded by the precondition |
| Voxel.Back | src/terrain/voxel.rs:68-74 | None exactly on the z = 0 face, otherwise the coordinate one step back on z with x and y unchanged |
| Voxel.Front | src/terrain/voxel.rs:78-84 | None exactly on the z = 31 face, otherwise one step forward on z with x and y unchanged |
| Voxel.Top | src/terrain/voxel.rs:88-94 | None exactly on the y = 31 face, otherwise one step up on y with x and z unchanged |
| Voxel.Bottom | src/terrain/voxel.rs:98-104 | None exactly on the y = 0 face, otherwise one step down on y with x and z unchanged |
| Voxel.Left | src/terrain/voxel.rs:108-114 | None exactly on the x = 0 face, otherwise one step left on x with y and z unchanged |
| Voxel.Right | src/terrain/voxel.rs:118-124 | None exactly on the x = 31 face, otherwise one step right on x with y and z unchanged |
| Voxel.NeighboursAreInverse | src/terrain/voxel.rs:68-124 | back and front, bottom and top, left and right undo each other: d is c's back neighbour iff c is d's front neighbour, and likewise on the other axes |
| Voxel.Index | src/terrain/voxel.rs:168-172 | the flat index of every valid coordinate lies in [0, 32768) |
| Voxel.CoordsOf | src/terrain/voxel.rs:168-172 | every flat position in [0, 32768) is the index of the valid coordinate it returns |
| Voxel.IndexRoundTrip | src/terrain/voxel.rs:168-172 | reading a coordinate back from its flat index gives the same coordinate |
| Voxel.IndexBijective | src/terrain/voxel.rs:168-172 | the index is a bijection between valid coordinates and [0, 32768): injective, and onto via CoordsOf |
| Voxel.AllAir | src/terrain/voxel.rs:142-144 | the all-air content has exactly 32768 blocks |
| Voxel.AirThenOneSolid | src/terrain/voxel.rs:142-144 | an all-air list needs no rendering, and setting one block makes it need rendering iff that block is not air |
| Voxel.SetThenGet | src/terrain/voxel.rs:147-154 | after writing b at p, reading p gives b and reading any other valid coordinate gives what it gave before |
| Voxel.BlockList.constructor | src/terrain/voxel.rs:137-139 | the new list holds exactly the given 32768 blocks |
| Voxel.BlockList.NewAir | src/terrain/voxel.rs:142-144 | the new list holds 32768 air blocks |
| Voxel.BlockList.Get | src/terrain/voxel.rs:147-149 | reads the block stored at the coordinate's flat index; what it returns is stated by GetReadsIndex, Set and SetThenGet |
| Voxel.GetReadsIndex | src/terrain/voxel.rs:147-149 | get returns the list's block at the coordinate's flat index, and a block read there that must be drawn makes the whole list need rendering |
| Voxel.BlockList.Set | src/terrain/voxel.rs:152-154 | the array is the old one with the block at the target's index replaced; get at the target returns the new block and get elsewhere is unchanged |
| Voxel.BlockList.NeedsRendering | src/terrain/voxel.rs:157-165 | returns true iff some block of the list is not air |
| Voxel.Advance | src/terrain/voxel.rs:216-238 | one step of the cursor stays in range, yields the cursor's new position, and yields None exactly when the cursor was on the last row of the last plane, x having reached 31 |
| Voxel.Yield | src/terrain/voxel.rs:234-238 | a yielded item pairs the coordinate with the block stored at its index |
| Voxel.After | src/terrain/voxel.rs:216-238 | any number of steps keeps the cursor in its valid range |
| Voxel.AdvanceSteps | src/terrain/voxel.rs:216-238 | from a cursor on flat index i < 32767, one step moves to and yields index i + 1; from index 32767 it yields None and leaves the cursor at (0, 0, 31) |
| Voxel.CursorAfter | src/terrain/voxel.rs:216-253 | after k + 1 steps from the initial cursor (-1, 0, 0), the cursor stands on flat index k |
| Voxel.NthItemIsIndex | src/terrain/voxel.rs:216-253 | call k from the initial cursor yields the coordinate with flat index k and its block |
| Voxel.EnumeratesInOrder | src/terrain/voxel.rs:216-253 | the first 32768 calls yield coordinates in flat index order, so x varies fastest, then y, then z, each with its stored block |
| Voxel.IterationEnds | src/terrain/voxel.rs:226-230 | call 32769 yields None and leaves the cursor at (0, 0, 31) |
| Voxel.IterationRestarts | src/terrain/voxel.rs:216-238 | the iterator is not fused: the call after the None yields (1, 0, 31) with its block |
| Voxel.EnumeratesEachOnce | src/terrain/voxel.rs:216-253 | every valid coordinate is yielded at the call numbered by its index, the first 32769 results are pairwise distinct, and the first is (0, 0, 0) |
| Voxel.ItemsDistinct | src/terrain/voxel.rs:216-253 | two different calls among the first 32769 from the initial cursor yield different results |
| Voxel.BlockListIter.constructor | src/terrain/voxel.rs:246-253 | a new iterator over the list starts at cursor (-1, 0, 0) |
| Voxel.BlockListIter.Next | src/terrain/voxel.rs:189-239 | the fields advance as Advance prescribes, and the item is None exactly when Advance yields None, otherwise Advance's coordinate paired with the list's block there |
| Voxel.NewEagerSector | src/terrain/voxel.rs:264-287 | the eager constructor keeps the blocks and builds a model iff some block must be drawn |
| Terrain.SectorAt | src/terrain/mod.rs:412-416 | on every axis the position lies in [32 c, 32 c + 32) of the returned sector coordinate c, so this is floor division by 32 |
| Terrain.Neighbours | src/terrain/mod.rs:130-135 | six neighbour coordinates of a sector |
| Terrain.NeighboursAtUnitDistance | src/terrain/mod.rs:130-135 | the six neighbours are exactly the sector coordinates at squared distance 1 |
| Terrain.Receive | src/terrain/mod.rs:111-182 | a query for a missing sector sends exactly that coordinate as a Need and continues; a query for a cached sector ends the drain unless it is to be rendered and passes the gate, and sends nothing either way; a query never changes the key set; a generated sector is inserted with no model iff its coordinate is absent, otherwise the cache is unchanged (the meshing case is ReceiveMeshes) |
| Terrain.ReceiveMeshes | src/terrain/mod.rs:120-175 | a render query for a sector that passes the gate attaches the model created from the sector and its six neighbours, changes nothing else, sends nothing and does not end the drain |
| Terrain.ReceiveFrame | src/terrain/mod.rs:123-181 | one message never changes a cached sector's blocks or replaces a model; a cached sector changes only when a render query for it passes the gate, and then only in its model field |
| Terrain.Drain | src/terrain/mod.rs:109-195 | the drain takes at least one message when there is one, and never more than are queued |
| Terrain.QueryStopsDrain | src/terrain/mod.rs:114-126 | a query for a cached sector that is not to be rendered, or fails the gate, ends the drain: that message is consumed, nothing is sent and the cache is unchanged |
| Terrain.QueryMeshes | src/terrain/mod.rs:120-175 | draining a render query for a sector that passes the gate, followed by anything, leaves the sector cached with its blocks and with the model created from it and its six neighbours |
| Terrain.DrainResume | src/terrain/mod.rs:109-195 | the final result of a drain in progress, with the Needs sent so far, is determined by handling the next message and then stopping or resuming |
| Terrain.TakenSplit | src/terrain/mod.rs:109 | proof helper for `DrainKeys` and `DrainNeedsQueried`: the generated and queried coordinates of the messages taken split into those of the first message and those of the rest |
| Terrain.DrainKeys | src/terrain/mod.rs:109-195 | a drain never removes a key, and only adds keys of sectors generated in the messages it took |
| Terrain.DrainKeepsCached | src/terrain/mod.rs:123-181 | a drain never changes a cached sector's blocks, and a sector that already has a model leaves the drain unchanged, so no sector is meshed twice |
| Terrain.DrainNeedsQueried | src/terrain/mod.rs:114-177 | every Need a drain sends is for a coordinate that a taken query asked about and that was not cached |
| Terrain.GeneratedInAppend | src/terrain/mod.rs:180-181 | proof helper for `DrainKeys`: the generated coordinates of two message sequences in a row are the union of each's |
| Terrain.QueriedInAppend | src/terrain/mod.rs:111 | proof helper for `DrainNeedsQueried`: the queried coordinates of two message sequences in a row are the union of each's |
| Terrain.DrainMeshesOnlyThroughGate | src/terrain/mod.rs:123-175 | a sector that leaves a drain with a model it did not have has something to draw and all six neighbours cached |
| Terrain.Evict | src/terrain/mod.rs:198-209 | a sector is kept iff it was cached and its squared sector distance to the observer's sector is below 280, and kept sectors are unchanged |
| Terrain.EvictsFarAxis | src/terrain/mod.rs:198-209 | a sector 17 or more sectors away on any single axis is always evicted |
| Terrain.Terrain.constructor | src/terrain/mod.rs:62-99 | the terrain starts with an empty cache and empty channels, with the observer at the origin |
| Terrain.Terrain.Handle | src/terrain/mod.rs:111-182 | handling one message sets the cache and appends the Needs as Receive prescribes, and reports whether the drain must stop; the nearby channel and the position are untouched |
| Terrain.Terrain.DrainNearby | src/terrain/mod.rs:108-195 | the drain loop leaves the cache and the sent Needs that Drain prescribes, and removes exactly the messages Drain takes from the front of the nearby channel |
| Terrain.Terrain.Update | src/terrain/mod.rs:104-210 | a frame publishes the position, drains as Drain prescribes, and leaves the drained cache evicted around the observer's sector |
| TerrainGen.SlotDecode | src/terrain/mod.rs:364-366 | position 35 i + 7 j + k of the nested loops decodes back to the loop indices (i, j, k) |
| TerrainGen.CycleQueries | src/terrain/mod.rs:364-377 | one cycle sends 245 queries |
| TerrainGen.CycleAtSlot | src/terrain/mod.rs:364-377 | query 35 i + 7 j + k is for the sector offset by (GENERATE_ORDER[i], j - 2, GENERATE_ORDER[k]) from the observer's, with the render flag of that offset |
| TerrainGen.CycleStep | src/terrain/mod.rs:364-377 | sending the query of loop indices (i, j, k) extends the prefix sent so far by exactly that query |
| TerrainGen.CycleAt | src/terrain/mod.rs:364-377 | every query of a cycle comes from one loop iteration (i, j, k) at position 35 i + 7 j + k |
| TerrainGen.GenerateOrderIsPermutation | src/terrain/mod.rs:331 | the generate order lists each offset in [-3, 3] exactly once |
| TerrainGen.OrderSlot | src/terrain/mod.rs:331 | every offset in [-3, 3] has a slot in the generate order |
| TerrainGen.CycleCoversBoxOnce | src/terrain/mod.rs:364-377 | a cycle queries every sector of the box [-3, 3] x [-2, 2] x [-3, 3] around the observer's sector, nothing outside it, and no sector twice |
| TerrainGen.OffsetQueried | src/terrain/mod.rs:364-377 | the query for any offset of the box is among a cycle's queries |
| TerrainGen.SlotsDistinct | src/terrain/mod.rs:364-377 | two different positions of a cycle query different sectors |
| TerrainGen.CentreColumnFirst | src/terrain/mod.rs:331-377 | the first query is offset (0, -2, 0) and not to be rendered, query 14 is the observer's own sector and is to be rendered, and dx is 0 for exactly the first 35 queries |
| TerrainGen.RenderBox | src/terrain/mod.rs:371-373 | every query asks for rendering exactly when its sector is within 2 sectors along x and z and 1 along y |
| TerrainGen.BoxQueried | src/terrain/mod.rs:364-377 | every sector of the box is queried in each cycle |
| TerrainGen.SlotQueried | src/terrain/mod.rs:364-377 | the sector of each loop iteration is among the queried coordinates |
| TerrainGen.QueriedAt | src/terrain/mod.rs:375 | a query sent at any position puts its sector among the queried coordinates |
| TerrainGen.NeighbourQueried | src/terrain/mod.rs:364-377 | each neighbour of a sector that a query asks to render is queried in the same cycle |
| TerrainGen.RenderedNeighboursQueried | src/terrain/mod.rs:364-377 | all six neighbours of every sector a cycle asks to render are queried in that cycle, so the meshing gate can be met |
| TerrainGen.QueriedNotEvicted | src/terrain/mod.rs:198-209 | every sector a cycle queries has squared distance at most 22 from the observer's sector, below the eviction bound 280 |
| TerrainGen.Serviced | src/terrain/mod.rs:394-402 | servicing answers each Need, in order, with one Generated message carrying the generated blocks of that coordinate |
| TerrainGen.WorkerCycle | src/terrain/mod.rs:353-404 | one worker cycle appends the 245 queries around the observer's sector and then the answers to every pending Need to the nearby channel, and empties the needed channel |
| TerrainGen.SendCycle | src/terrain/mod.rs:364-390 | the nested loops append exactly the cycle's queries, in order, to the nearby channel |
| TerrainGen.SendColumn | src/terrain/mod.rs:366-388 | the innermost loop appends the seven queries along z for one (dx, dy) |
| TerrainGen.ServiceNeeds | src/terrain/mod.rs:394-402 | every pending Need is taken in order and its Generated answer appended to the nearby channel |
| TerrainGen.DrainMissingQueries | src/terrain/mod.rs:114-177 | a drain of queries for uncached sectors with the budget never spent takes them all, caches nothing and sends one Need per query in order |
| TerrainGen.FirstFrameNeedsWholeBox | src/terrain/mod.rs:104-195 | on an empty cache with time to spare, the first frame after a cycle takes all 245 queries and sends a Need for each queried sector in query order |

## Left out

- Rendering: `Drawable::draw`, the shader uniforms and the tessellation, texture and translation built inside the four-argument sector constructor. A model is an opaque `ModelHandle`.
- Meshing and world generation are not part of this model. `create_model` and the world generator's `generate` are parameters (`CreateModel`, `Generate`) that stand for arbitrary functions.
- Threads and channels: the worker's thread, the mutex around the shared position and the two channels. The channels are the `nearby` and `needed` sequence fields of `Terrain`. The interleaving of the two threads is not modelled: a worker cycle and a frame each run whole.
- The worker's endless loop and its three-second sleep are not modelled; `WorkerCycle` is one pass of the loop body. Its early returns when a channel is closed are left out, because a sequence cannot be closed. For the same reason the consumer's panics are left out: `needed_tx.send(..).unwrap()` (src/terrain/mod.rs:177) cannot fail on a sequence, and `lock().unwrap()` (src/terrain/mod.rs:106 and 356) cannot fail because the model has no mutex.
- The 50 ms budget of the drain is a wall clock. It is the parameter `timeUp`, asked after each message that does not end the drain, with the number of messages taken so far.
- `Terrain.SectorAt`: positions are integral. The f32 `round` and `floor` of the source are then exact floor division by 32. Fractional positions are not modelled.
- `Terrain.Evict`: the squared distance is integer arithmetic. The source computes it in f32, and for the sector distances that occur the two agree.
- 32-bit overflow of sector coordinates (`sector.0 + dx` on `i32`) is not modelled; coordinates are unbounded integers.
- `sector_visible` and the camera frustum are not part of this model: floating-point plane tests over a type from a module that is not part of this model.
- `Sector` is a value in the cache map rather than an object updated through `get_mut`. Attaching a model is a map update that replaces the sector with a copy whose model field differs.
- The accessors `x()`, `y()`, `z()`, `model()` and `blocks()` are the datatype fields of `Coords` and `Sector`.
- `Terrain.Terrain.Update`: the drain loop is `DrainNearby`, with one `Handle` call per message. The source writes all of this inline in `update`.
