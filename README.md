# WorldPortals core, modelled in Dafny

This project models the core of a voxel-world portal module in Dafny and proves properties of that model. The module has four parts:

- **Runtime registry and tick loop** (`PortalRuntime`, from `PortalSystem.java`). The class `PortalSystem` has three fields:
  - `portals`, a map from portal voxel to destination;
  - `generatedPortals`, a FIFO queue of portals requested during world generation;
  - `teleportingPlayers`, the list of teleport requests collected during one tick.

  It also has an output `log`. `SpawnPortal` and the teleport flush append to it (`SpawnedPortal`, `TeleportSent`) instead of building an entity or sending a `CharacterTeleportEvent`. Each state-changing method's `ensures` ties the new state to a pure transition of the `SystemState` datatype, except `SpawnPortal`, whose `ensures` states the new log directly (one entry appended) and whose frame keeps every other field. The properties of the transitions are proved as lemmas.
- **Chunk rasterizer** (`Rasterization`, from `PortalRasterizer.generateChunk`). `GenerateChunk` walks the facet's markers in iteration order and carves each one into a `Chunk`. A `Chunk` is a class with a block map and a per-voxel entity map.
  - Each marker's centre is raised by its integer extent.
  - The walls box has extents `(e, e, 0)` and the inside box has extents `(e-1, e-1, 0)`.
  - A walls voxel that is in the chunk region and not inside becomes the structure block.
  - An inside voxel becomes the portal block, whether or not it is in the chunk region: the inside branch has no bounds check. The model writes it at the absolute voxel; the source writes it at the wrapped chunk-relative position (see "## Left out"). Its entity ends up with a portal component whose destination is `getDestination(voxel)`.

  The method is proved equal to a pure fold (`Rasterize`). That fold is proved equal, voxel by voxel, to a reference definition (`MarkersCell`) and to a closed form. The closed form gives shell-versus-interior correctness, untouched voxels, one destination per interior voxel whatever the iteration order, and idempotence. The last two hold under the per-voxel entity of this model, and all of them over absolute write positions (see "## Left out").
- **Placement planner** (`Placement`, from `PortalProvider.process`). The planner scans the world region in a given order. It places one portal at the first position whose y equals `Math.round(height)`, whose noise value is above 0.9993, whose x is below `maxX - 8` and whose z is below `maxY - 8`, and then stops. The stored y is `(int) height`, a truncation. `Process` is a loop with `break`, proved equal to the pure `Plan`, which is built on `FirstQualifying`.
- **Footprint query** (`FacetLayer`, from `PortalFacetLayer.getWorldText`). The query returns `Some("Portal")` when `(wx, wy)` is inside some entry's inclusive rectangle `[cx - ex.x, cx + ex.x] × [cz - ex.y, cz + ex.y]`, and `None` (null) otherwise.

`Geometry` holds the shared integer vector `Vec3` (Vector3i) and the float vector `Vec3f` (Vector3f, as reals). It also holds the inclusive box `Box` (Region3i: min = centre − extents, max = centre + extents) and `Positions`, one enumeration of a box's voxels. `Wrappers` holds `Option`.

Modelling choices:
- The `Portal` class of the source is not part of this model. The rasterizer uses `getExtent()` as an `int` and the overlay uses it as a `Vector3i`. So the rasterizer's markers carry an `int` extent (`Rasterization.Marker`), the overlay's entries carry a `Vec3` extent (`FacetLayer.Entry`), and the planner stores an opaque `Placement.DefaultPortal` for `new Portal()`.
- No `extent >= 1` is required. With inclusive boxes, an extent of 0 gives a one-voxel wall and no inside. A negative extent gives an empty walls box.
- The entity that the source reads and sets through the Block object returned by `setBlock` (`portalBlock.getEntity()`, PortalRasterizer.java:81-89) is modelled as an entity attached to the voxel itself (`Chunk.entities`). The Block and EntityRef classes are not part of this model; see "## Left out" for what this changes.
- In the three entity branches:
  - a missing entity gets a new one with a fresh `PortalComponent(destination)` and no location;
  - an existing portal component has only its destination overwritten;
  - an entity without one gets a fresh component added.

  All three end with exactly one component whose destination is `getDestination(voxel)`.
- `getDestination` is the `getDestination` field of `PortalRasterizer`, a total function of the voxel. The structure and portal blocks are fields of `PortalRasterizer` as well.
- `spawnPortal` only builds an entity (PortalSystem.java:97-106). The model does not deliver the activation event the engine may fire for that entity, so `Update` never changes `portals`; `OnPortalActivated` is a separate operation.
- Details of the code that the model keeps as written:
  - The scan compares z against the region's maximum **y** (PortalProvider.java:58).
  - A portal is stored at the **truncated** height, not at the rounded height the scan compares against (PortalProvider.java:58-59). `StoredHeightCanDifferFromComparedHeight` shows a height of 64.5: the portal is accepted at y 65 and stored at y 64.
  - The rasterizer's inside branch has no chunk-bounds check (PortalRasterizer.java:80).

## Model

| member | source | states |
|---|---|---|
| `PortalRuntime.PortalSystem.constructor` | src/main/java/org/terasology/worldportals/PortalSystem.java:55-62 | a new system has an empty registry, no teleport requests and an empty log; its generation queue holds the requests already pending in the shared queue |
| `PortalRuntime.PortalSystem.RegisterPortal` | src/main/java/org/terasology/worldportals/PortalSystem.java:89-91 | the registry becomes the old one with `startPosition` mapped to `destination`; the queues and the log are unchanged |
| `PortalRuntime.PortalSystem.DeregisterPortal` | src/main/java/org/terasology/worldportals/PortalSystem.java:93-95 | the registry becomes the old one without `startPosition`; nothing else changes |
| `PortalRuntime.PortalSystem.OnPortalActivated` | src/main/java/org/terasology/worldportals/PortalSystem.java:64-67 | activating a portal component registers its location with its destination |
| `PortalRuntime.PortalSystem.OnSystemDeactivated` | src/main/java/org/terasology/worldportals/PortalSystem.java:69-72 | deactivating a portal component deregisters its location |
| `PortalRuntime.PortalSystem.OnEnterBlock` | src/main/java/org/terasology/worldportals/PortalSystem.java:79-87 | the teleport list gains the request for this entry (see `EnterBlockIff`); nothing else changes |
| `PortalRuntime.PortalSystem.SpawnPortal` | src/main/java/org/terasology/worldportals/PortalSystem.java:97-106 | exactly one `SpawnedPortal(location, destination)` is appended to the log; the registry is not changed |
| `PortalRuntime.PortalSystem.GeneratePortal` | src/main/java/org/terasology/worldportals/PortalSystem.java:108-112 | the request is appended at the back of the generation queue; nothing else changes |
| `PortalRuntime.PortalSystem.Shutdown` | src/main/java/org/terasology/worldportals/PortalSystem.java:139-143 | the registry and the generation queue are emptied; the teleport list and the log are kept |
| `PortalRuntime.PortalSystem.Update` | src/main/java/org/terasology/worldportals/PortalSystem.java:145-162 | the drain loop pops the queue front to back and spawns each entry; the flush loop sends each request in order; the state afterwards is `AfterUpdate` of the old state |
| `PortalRuntime.RegisterSetsOnlyThatLocation` | src/main/java/org/terasology/worldportals/PortalSystem.java:89-91 | after registering, `portals[l] == d`, every other key has the same presence and value, and the other fields are equal |
| `PortalRuntime.ReRegisterOverwrites` | src/main/java/org/terasology/worldportals/PortalSystem.java:89-91 | registering the same location twice equals registering only the second destination (last write wins) |
| `PortalRuntime.DeregisterRemovesOnlyThatLocation` | src/main/java/org/terasology/worldportals/PortalSystem.java:93-95 | after deregistering, `l` is absent and every other entry and field is unchanged |
| `PortalRuntime.DeregisterAbsentIsNoOp` | src/main/java/org/terasology/worldportals/PortalSystem.java:93-95 | deregistering an unregistered location leaves the state identical |
| `PortalRuntime.DeregisterUndoesRegister` | src/main/java/org/terasology/worldportals/PortalSystem.java:89-95 | deregistering a location that was freshly registered restores the original state |
| `PortalRuntime.EnterBlockIff` | src/main/java/org/terasology/worldportals/PortalSystem.java:84-86 | one request `(entity, portals[pos])` is appended iff the owner is a client and `pos` is registered; otherwise the state is identical |
| `PortalRuntime.GenerateAppends` | src/main/java/org/terasology/worldportals/PortalSystem.java:108-112 | queuing appends one request at the end and changes no other field |
| `PortalRuntime.SpawnsInOrder` | src/main/java/org/terasology/worldportals/PortalSystem.java:147-156 | draining emits exactly one spawn per queued request, the i-th for the i-th request |
| `PortalRuntime.TeleportsInOrder` | src/main/java/org/terasology/worldportals/PortalSystem.java:158-161 | flushing emits exactly one teleport per request, the i-th for the i-th request |
| `PortalRuntime.UpdateDrainsBothQueues` | src/main/java/org/terasology/worldportals/PortalSystem.java:146-162 | after a tick both queues are empty, the registry is unchanged, and the log grew by the FIFO spawns and then the in-order teleports, nothing else |
| `PortalRuntime.UpdateTwiceIsUpdateOnce` | src/main/java/org/terasology/worldportals/PortalSystem.java:146-162 | a second tick with no new input emits nothing: no request is applied twice |
| `PortalRuntime.ShutdownClears` | src/main/java/org/terasology/worldportals/PortalSystem.java:139-143 | shutdown empties the registry and the generation queue and leaves the teleport list and the log as they were |
| `PortalRuntime.EnterAllCollects` | src/main/java/org/terasology/worldportals/PortalSystem.java:79-87 | a sequence of entries appends exactly `AllRequests` of the registry, in event order, and changes nothing else |
| `PortalRuntime.UnregisteredEntriesProduceNothing` | src/main/java/org/terasology/worldportals/PortalSystem.java:84-86 | entries into unregistered voxels, or by entities without a client owner, produce no request |
| `PortalRuntime.RegisteredEntriesEachProduceOne` | src/main/java/org/terasology/worldportals/PortalSystem.java:84-86 | N entries into registered voxels by client-owned entities produce N requests, each with its voxel's destination |
| `PortalRuntime.TickFlushesCollectedRequests` | src/main/java/org/terasology/worldportals/PortalSystem.java:84-161 | over one tick (entries and then update), one teleport is sent per request the entries produced, in order, and the list ends empty |
| `PortalRuntime.GenerateAllQueuesInOrder` | src/main/java/org/terasology/worldportals/PortalSystem.java:108-112 | queuing several requests appends them in order at the back and changes no other field |
| `PortalRuntime.SpawnsAppend` | src/main/java/org/terasology/worldportals/PortalSystem.java:147-156 | draining two queues one after the other emits the spawns of their concatenation |
| `PortalRuntime.QueuedPortalsSpawnNextTick` | src/main/java/org/terasology/worldportals/PortalSystem.java:108-156 | requests queued before a tick are all spawned in that tick, after those already waiting, each once and in order; the queue ends empty |
| `Geometry.Positions` | src/main/java/org/terasology/worldportals/world/PortalRasterizer.java:77 | the iteration over a box lists exactly the voxels the box encompasses |
| `Rasterization.MarkerGeometry` | src/main/java/org/terasology/worldportals/world/PortalRasterizer.java:70-74 | walls and inside share the centre `key + (0, e, 0)` and the z plane `key.z`; inside lies within walls; walls minus inside is the frame whose larger offset from the centre equals `e` |
| `Rasterization.Attach` | src/main/java/org/terasology/worldportals/world/PortalRasterizer.java:82-95 | in every entity branch the result has a portal component with the given destination; an existing entity keeps its other components, and an existing component keeps its location |
| `Rasterization.AttachIdempotent` | src/main/java/org/terasology/worldportals/world/PortalRasterizer.java:84-95 | refreshing a freshly attached destination with the same destination changes nothing (overwrite, not duplicate) |
| `Rasterization.CarveVoxelAt` | src/main/java/org/terasology/worldportals/world/PortalRasterizer.java:78-97 | carving one walls voxel changes only that voxel's cell, as `CarveCell` says |
| `Rasterization.CarveCellIdempotent` | src/main/java/org/terasology/worldportals/world/PortalRasterizer.java:78-95 | carving a voxel twice leaves it as carving it once does |
| `Rasterization.CarveVoxelsAt` | src/main/java/org/terasology/worldportals/world/PortalRasterizer.java:77-98 | carving a list of voxels changes exactly the listed cells, each once as `CarveCell` says, even with repeats |
| `Rasterization.CarveMarkerAt` | src/main/java/org/terasology/worldportals/world/PortalRasterizer.java:70-98 | carving a marker changes exactly the cells of its walls box, each as `CarveCell` says |
| `Rasterization.RasterizeAt` | src/main/java/org/terasology/worldportals/world/PortalRasterizer.java:67-99 | reading the rasterized chunk at any voxel gives the reference `MarkersCell` of the markers in order |
| `Rasterization.MarkerShellAndInterior` | src/main/java/org/terasology/worldportals/world/PortalRasterizer.java:77-97 | a frame voxel in the chunk region becomes the structure block with its entity kept; a frame voxel outside it is untouched; an inside voxel (no bounds check) becomes the portal block with destination `getDestination(voxel)`; a voxel outside the walls is untouched |
| `Rasterization.UntouchedOutsideWalls` | src/main/java/org/terasology/worldportals/world/PortalRasterizer.java:67-99 | at a voxel outside every marker's walls box, the reference definition leaves the cell as it was |
| `Rasterization.MarkerCellStep` | src/main/java/org/terasology/worldportals/world/PortalRasterizer.java:77-97 | one more marker moves the closed form forward: its block write becomes the last write, and its inside joins the inside flag |
| `Rasterization.MarkersCellClosedForm` | src/main/java/org/terasology/worldportals/world/PortalRasterizer.java:67-99 | after all markers a voxel holds the last block written to it (or its old block) and, if it is inside any marker, its old entity with the portal destination attached |
| `Rasterization.InteriorCarriesOwnDestination` | src/main/java/org/terasology/worldportals/world/PortalRasterizer.java:80-95 | every voxel inside some marker ends with one portal component whose destination is `getDestination(voxel)`, whatever the iteration order |
| `Rasterization.RasterizeKeepsOutside` | src/main/java/org/terasology/worldportals/world/PortalRasterizer.java:67-99 | voxels outside every marker's walls box keep their block and entity |
| `Rasterization.ChangedVoxelsLieInMarkerPlanes` | src/main/java/org/terasology/worldportals/world/PortalRasterizer.java:70-79 | every voxel the rasterizer changes has the z of some marker |
| `Rasterization.RasterizeIdempotent` | src/main/java/org/terasology/worldportals/world/PortalRasterizer.java:67-99 | rasterizing the same facet twice gives the same blocks and entities as rasterizing it once |
| `Rasterization.Chunk.SetBlock` | src/main/java/org/terasology/worldportals/world/PortalRasterizer.java:79-81 | the block at the voxel is replaced, other blocks are kept, and the previous block is returned |
| `Rasterization.CarvePosition` | src/main/java/org/terasology/worldportals/world/PortalRasterizer.java:78-97 | the per-voxel branch (structure block, or portal block plus one of the three entity branches) gives `CarveVoxel` of the old chunk |
| `Rasterization.CarveMarkerInto` | src/main/java/org/terasology/worldportals/world/PortalRasterizer.java:70-98 | builds the raised centre and both boxes, walks the walls box, and leaves the chunk at `CarveMarker` of the old chunk |
| `Rasterization.GenerateChunk` | src/main/java/org/terasology/worldportals/world/PortalRasterizer.java:63-100 | walks the facet entries in order and leaves the chunk at `Rasterize` of the old chunk |
| `Placement.FirstQualifying` | src/main/java/org/terasology/worldportals/world/PortalProvider.java:54-61 | it returns the first qualifying index at or after `from`, with no earlier one qualifying, or None when no position qualifies |
| `Placement.Plan` | src/main/java/org/terasology/worldportals/world/PortalProvider.java:44-67 | the facet keeps the world region and has at most one entry; it is empty iff no scanned position qualifies; an entry is the truncated-height position of the first qualifying position |
| `Placement.PlacedPortalSatisfiesTest` | src/main/java/org/terasology/worldportals/world/PortalProvider.java:58-59 | a placed portal has `x < maxX - 8` and `z < maxY - 8` within the region, noise above 0.9993 at the scanned position, and y equal to the truncated height |
| `Placement.TruncationVersusRounding` | src/main/java/org/terasology/worldportals/world/PortalProvider.java:58-59 | the stored y and the compared y differ by at most one, and are equal exactly under the stated fraction conditions |
| `Placement.StoredHeightCanDifferFromComparedHeight` | src/main/java/org/terasology/worldportals/world/PortalProvider.java:58-59 | at surface height 64.5 the scan accepts y 65 but the portal is stored at y 64 |
| `Placement.PortalProvider.constructor` | src/main/java/org/terasology/worldportals/world/PortalProvider.java:36 | a new provider has no noise yet |
| `Placement.PortalProvider.SetSeed` | src/main/java/org/terasology/worldportals/world/PortalProvider.java:38-41 | the noise becomes the white noise of the given seed |
| `Placement.PortalProvider.Process` | src/main/java/org/terasology/worldportals/world/PortalProvider.java:43-67 | the scan with `break` returns, and so stores, exactly `Plan` of the seed, height, noise, region and scan order; the result depends on nothing else, so repeated runs agree |
| `FacetLayer.GetWorldText` | src/main/java/org/terasology/worldportals/world/PortalFacetLayer.java:44-60 | returns "Portal" iff some entry's rectangle contains (wx, wy), and null iff none does (including no entries); it returns nothing else |
| `FacetLayer.MatchesSome` | src/main/java/org/terasology/worldportals/world/PortalFacetLayer.java:48-56 | some position of the entry list matches iff some entry in it matches |
| `FacetLayer.OrderIndependent` | src/main/java/org/terasology/worldportals/world/PortalFacetLayer.java:48-56 | two iteration orders of the same entries give the same answer |
| `FacetLayer.IgnoresHeightAndDepth` | src/main/java/org/terasology/worldportals/world/PortalFacetLayer.java:49-53 | entries that differ only in centre y or extent z give the same answer |

## Left out

- Concurrency: the `synchronized` blocks and the static, cross-thread `generatedPortals` list (PortalSystem.java:60, 109, 147) are modelled as one field of one system object, updated sequentially. "No request is lost under a concurrent append during the drain" is therefore not modelled.
- `Rasterization.CarvePosition`, `Rasterization.InteriorCarriesOwnDestination`: the source reads the entity of the Block object that `setBlock` returns and sets the new entity on that object (PortalRasterizer.java:81-89). Block objects are shared: every voxel holding the same block shares one object, and so one entity. Inside voxels that held the same block therefore share one portal component, and it ends with the destination of the last such voxel visited. The model keeps one entity per voxel and discards the returned block, so this sharing is not captured. Its per-voxel destinations hold only under that assumption.
- `PortalRuntime.PortalSystem.GeneratePortal`: in the source it is a static method on a static list shared by all instances (PortalSystem.java:60, 108). Here it is an instance method of the one system object. Requests queued before a system exists are given to its constructor as `pending`.
- 32-bit `int` wrap-around is not modelled: coordinates and extents are unbounded integers. This affects the raised centre and box corners (PortalRasterizer.java:72-74), `maxX() - 8` and `maxY() - 8` (PortalProvider.java:58) and the rectangle corners (PortalFacetLayer.java:52-53).
- Entity-system plumbing: `EntityBuilder`, `EntityRef`, event dispatch and `CharacterTeleportEvent.send` become log appends (`SpawnedPortal`, `TeleportSent`). Whether the owner has a `ClientComponent` is a boolean input. The activation event that the engine may fire after a spawned entity is built is not modelled as part of `Update`.
- `OnEnterBlock` takes the entered voxel as an integer input. The conversion of the float world position to a `Vector3i` (PortalSystem.java:81-82) relies on library rounding that is not part of this model.
- `WhiteNoise` and `SurfaceHeightFacet` are parameters: `sample(seed, x, y, z)` and `height(x, z)`, with reals for floats. Float precision, NaN, infinities, the saturation of Java's `(int)` cast and the float-to-double widening in `noiseValue > 0.9993` are not modelled.
- `Region3i` iteration order is not part of this model. The planner takes the scan order as an input that lists exactly the region's positions. The rasterizer walks one fixed enumeration (`Geometry.Positions`), and its proved properties do not depend on that order.
- `PortalFacet` and `Border3D` are not part of this model. `Process` receives the facet's world region directly. `setWorld` is taken to store the entry unconditionally, even when the truncated y lies outside the region.
- `Rasterization.MarkerShellAndInterior`, `Rasterization.RasterizeKeepsOutside`, `Rasterization.ChangedVoxelsLieInMarkerPlanes`: `ChunkMath.calcBlockPos` is not modelled; every write goes to the absolute voxel. In the source each write goes to the chunk-relative position `calcBlockPos(voxel)` (PortalRasterizer.java:79, 81), which wraps coordinates modulo the chunk size. The frame branch writes only voxels inside the chunk region, where this makes no difference. The inside branch has no bounds check, so an inside voxel outside the chunk region wraps onto a different voxel of this chunk, which may lie outside every walls box or in another z plane. For the source, these three lemmas therefore hold only when every inside voxel of every marker lies in the chunk region.
- The `BlockManager`/`CoreRegistry` lookups and `initialize` are left out. Blocks are identified by name and given as fields of `PortalRasterizer`.
- `Rasterization.RasterizeIdempotent`, `Rasterization.AttachIdempotent`, `Rasterization.CarveCellIdempotent`: these rely on the per-voxel entity. In the source a second pass's `setBlock` returns the portal block that the first pass wrote (PortalRasterizer.java:81). So it changes that block's entity, not the one the first pass set on the previous block, and builds a new entity when that block has none (:84-89). Entity state after two runs can therefore differ from the state after one; only the block contents repeat.
- `PortalFacetLayer.render` (AWT drawing), the empty lifecycle stubs (PortalSystem.java:114-137) and the one-argument constructor (PortalRasterizer.java:48-50) are left out. That constructor ignores its `Vector3i` argument and selects the block names "Core:Stone" and "Core:Glass"; in the model the blocks are whatever the `PortalRasterizer` value holds.
- `Placement.PortalProvider.Process`: it requires that `setSeed` was called. The source has no guard here and would fail with a null pointer when the region is not empty.
