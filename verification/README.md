# Voxel world chunk streaming, chunk management and path-finding rules

A Dafny model of three pieces of a voxel-world engine (client in
TypeScript, server in Rust), with the properties they promise proved about
the model.

- **The client world** (`class World` of `client/src/core/world/index.ts`) is
  the per-frame chunk-streaming scheduler. Each frame it:
  - scans the circle of chunks around the player for chunks to request;
  - meshes the chunk payloads that have arrived, nearest first;
  - adds ready chunks to the scene and requests chunks within a budget;
  - evicts far chunks;
  - sends the player's queued voxel edits to the server, predicting them locally.

  It also handles the server's LOAD and UPDATE messages. The world is a
  class (`ClientWorld.World`) whose chunk table and bookkeeping queues live
  in `ClientWorld.ChunkTable`. Each phase of a frame is proved against a
  specification function in `ClientSpec` over a snapshot of the world
  (`Frame`), and `update` against their composition `FrameStep`. The lemmas
  there prove what those functions guarantee.
- **The server chunk manager** (`struct Chunks` of
  `server/world/voxels/chunks.rs`) holds:
  - the coordinate-to-chunk map, with accessors that check world bounds and
    readiness and record mutable borrows;
  - the deduplicating work queues;
  - the computation of the chunks a voxel change affects, and of the chunks
    light can reach;
  - the `VoxelAccess` reads and writes, with their defaults for missing
    chunks and out-of-range heights.

  It is modelled as `ServerChunks.Chunks`.
- **The path-finding rules** of the example server
  (`examples/server/worlds/shared/systems/path_finding.rs`) are `PathFinding`:
  - where a body can stand;
  - where a body at a position comes to rest;
  - the moves and costs the A* successor function offers, and its expansion cap;
  - which search results are kept as the entity's path.

`VoxelWord` is the bit layout of a voxel word and of a light word.
`Geometry` holds the coordinates, the voxel-to-chunk mapping (floor division
by the chunk size) and small sequence helpers. A chunk's textual name is a
bijection with its column coordinate, so it is represented by the coordinate.

The scan's test `x² + z² < r²` is strict, so with render radius 2 it
considers 9 offsets: the origin, the four sides and the four diagonals
(`ClientSpec.RadiusTwoConsidersNine`).

## Model

| member | source | states |
|---|---|---|
| `VoxelWord.UnpackPack` | assets/js/f876a2ec.c631e0be.js:1 | Unpacking the id (0x0000ffff), rotation (0x000f0000), y-rotation (0x00f00000) and stage (0xff000000) fields of a packed word gives back each field |
| `VoxelWord.PackUnpack` | assets/js/f876a2ec.c631e0be.js:1 | Every 32-bit word is the packing of its own four fields |
| `VoxelWord.InsertId` | assets/js/f876a2ec.c631e0be.js:1 | `insertID` sets the id field to the id mod 2^16 and leaves rotation, y-rotation and stage unchanged |
| `VoxelWord.InsertRotation` | assets/js/f876a2ec.c631e0be.js:1 | `insertRotation` sets both rotation nibbles and leaves id and stage unchanged |
| `VoxelWord.InsertStage` | assets/js/f876a2ec.c631e0be.js:1 | `insertStage` sets the stage byte and leaves the other fields unchanged |
| `VoxelWord.EncodeDecode` | client/src/core/world/index.ts:1822-1830 | Inserting id, rotation and stage into the zero word and extracting them gives back the in-range values |
| `VoxelWord.InsertOwnFields` | assets/js/f876a2ec.c631e0be.js:1 | Re-inserting a field a word already has gives the same word |
| `VoxelWord.SunlightOnly` | server/world/voxels/chunks.rs:456 | `insert_sunlight(0, level)` is a light word whose sunlight nibble is the level and whose other bits are 0 |
| `Geometry.ChunkOf` | server/world/voxels/chunks.rs:239-242 | A voxel's chunk is the one whose column range `[c·size, (c+1)·size)` contains it on x and z (floor division, negatives included) |
| `Geometry.LocalOf` | server/world/voxels/chunks.rs:251-265 | The local coordinate lies in `[0, size)` and, with the chunk coordinate, recomposes the voxel coordinate |
| `Geometry.SelectSpec` | client/src/core/world/index.ts:2079-2088 | Filtering a name list keeps exactly the names on the chosen side of a set, picked from the list at strictly increasing positions (so in their order there), without creating duplicates |
| `Geometry.SelectAppend` | client/src/core/world/index.ts:2079-2088 | Filtering a concatenation filters each part and keeps the parts in order |
| `ClientSpec.ScanKeepsQueuesOk` | client/src/core/world/index.ts:1850-1897 | A scan, however early the wall-clock check stops it, keeps `toRequest` and `toAdd` duplicate-free and `toRequest` disjoint from `requested` |
| `ClientSpec.ScanOnlyConsidered` | client/src/core/world/index.ts:1857-1861 | A scan only appends, and only touches counters of, offsets with `x²+z² < r²` whose coordinate passes `isWithinWorld`; both queues only grow at the back |
| `ClientSpec.VisitRequested` | client/src/core/world/index.ts:1865-1877 | A requested coordinate's counter is incremented; once it exceeds `rerequestTicks` the coordinate leaves `requested` and enters `toRequest` exactly once, otherwise it stays only in `requested` |
| `ClientSpec.VisitUnknown` | client/src/core/world/index.ts:1879-1887 | An unknown coordinate ends up in `toRequest` exactly once, appended only when it was absent; nothing else changes |
| `ClientSpec.VisitResident` | client/src/core/world/index.ts:1889-1895 | A resident chunk that is not ready changes nothing; a ready one that is not yet added ends up in `toAdd` exactly once |
| `ClientSpec.RadiusTwoConsidersNine` | client/src/core/world/index.ts:1857-1861 | With render radius 2 and a world wide enough, the scan considers exactly the nine offsets with `|x|, |z| <= 1`, so cells at exactly the radius are never examined |
| `ClientSpec.MarkReady` | client/src/core/world/index.ts:2046-2054 | Finishing a chunk's build marks that chunk ready and changes no other chunk and no key |
| `ClientSpec.BuiltChunkQueuedForAdding` | client/src/core/world/index.ts:1889-1895 | Once a resident, not yet added chunk has been built, the next scan visit of its cell queues it for adding |
| `ClientSpec.MarkRequestedSpec` | client/src/core/world/index.ts:1972 | After `requested.set(name, 1)` over the batch, exactly the batch names are added with counter 1 and the other counters are kept |
| `ClientSpec.AfterRequestKeepsQueuesOk` | client/src/core/world/index.ts:1963-1972 | Moving a prefix of `toRequest` into `requested` keeps the queues duplicate-free and disjoint |
| `ClientSpec.CompareFacts` | client/src/core/world/index.ts:1993-2004 | The comparator is antisymmetric and never puts a farther chunk's entry before a nearer one |
| `ClientSpec.CompareInconsistent` | client/src/core/world/index.ts:1993-2004 | The comparator is not a consistent order: two entries of one chunk and an equidistant entry of another compare equal pairwise while the first two compare unequal |
| `ClientSpec.InsertPending` | client/src/core/world/index.ts:1993-2004 | One step of the stable sort adds exactly the inserted entry (as a multiset), which ends up last or just ahead of the old last entry |
| `ClientSpec.InsertPendingNearestFirst` | client/src/core/world/index.ts:1993-2004 | Inserting into a nearest-first queue keeps it nearest-first |
| `ClientSpec.InsertPendingAdjacentAgree` | client/src/core/world/index.ts:1993-2004 | Inserting into a queue with no neighbouring pair against the comparator keeps that so |
| `ClientSpec.InsertPendingByDistance` | client/src/core/world/index.ts:1993-2004 | Inserting an entry that arrived no earlier than its chunk's queued entries keeps every distance class in its order and puts the entry last in its own class |
| `ClientSpec.InsertPendingAgrees` | client/src/core/world/index.ts:1993-2004 | Inserting such an entry into a queue in comparator order keeps every pair in comparator order |
| `ClientSpec.SortPendingPermutes` | client/src/core/world/index.ts:1993 | Sorting `toProcess` is a permutation: no entry is dropped or duplicated |
| `ClientSpec.SortPendingSorted` | client/src/core/world/index.ts:1993-2004 | For any queue, the sorted queue is nearest to the centre chunk first and no entry is directly followed by one the comparator puts strictly before it |
| `ClientSpec.SortPendingKeepsQueueOrder` | client/src/core/world/index.ts:1993-2004 | When each chunk's entries are queued in arrival order, the entries at each distance keep their queue order: equidistant different chunks are not reordered |
| `ClientSpec.SortedAgreesWithCompare` | client/src/core/world/index.ts:1993-2004 | When each chunk's entries are queued in arrival order, no entry of the sorted queue is followed by one the comparator puts strictly before it, and each chunk's entries stay in arrival order |
| `ClientSpec.EquidistantChunksKeepQueueOrder` | client/src/core/world/index.ts:1993-2004 | Two different chunks at the same distance, the second queued but earlier stamped, keep their queue order |
| `ClientSpec.MeshCountSpec` | client/src/core/world/index.ts:2006-2018 | `meshChunks` processes at most the queue length and at most `maxProcessesPerTick` entries, at least one when both are positive, and stops early only when the wall-clock check fires |
| `ClientSpec.MeshCountReached` | client/src/core/world/index.ts:2006-2018 | Each way the loop can stop (budget, empty queue, timeout after an entry) gives exactly `MeshCount` |
| `ClientSpec.Arrivals` | client/src/core/world/index.ts:472-474 | A LOAD queues one entry per payload, in order, all stamped with the message's arrival time |
| `ClientSpec.ArrivalsKeepArrivalOrder` | client/src/core/world/index.ts:472-474 | A LOAD stamped no earlier than every queued entry keeps each chunk's entries in arrival order |
| `ClientSpec.UnrequestShrinks` | client/src/core/world/index.ts:2010 | Taking processed payloads off `requested` never adds a name |
| `ClientSpec.UnrequestKeepsQueuesOk` | client/src/core/world/index.ts:2010 | Removing names from `requested` keeps the request bookkeeping consistent |
| `ClientSpec.UnrequestSpec` | client/src/core/world/index.ts:2006-2013 | Exactly the processed chunks' names leave `requested`; the other counters are unchanged |
| `ClientSpec.MeshChunkAddsOnly` | client/src/core/world/index.ts:2027-2043 | `meshChunk` creates a chunk only when none is resident at that coordinate and never replaces one |
| `ClientSpec.MeshChunkKeepsTableOk` | client/src/core/world/index.ts:2033-2043 | Inserting a new chunk appends its name to the table's insertion order, so table and order agree |
| `ClientSpec.MeshAllKeepsTableOk` | client/src/core/world/index.ts:2006-2013 | Meshing a run of payloads keeps the table and its insertion order in agreement |
| `ClientSpec.MeshAllSpec` | client/src/core/world/index.ts:2024-2043 | After meshing a run of payloads the table holds exactly the old chunks plus one per payload coordinate, with no resident chunk replaced |
| `ClientSpec.MarkAddedSpec` | client/src/core/world/index.ts:2060-2068 | `addChunks` changes no key; exactly the named resident chunks are marked added and every other chunk is unchanged |
| `ClientSpec.EvictAmongSpec` | client/src/core/world/index.ts:2079-2088 | Deleting the far chunks among the names removes exactly those and keeps every other entry's value |
| `ClientSpec.EvictInOrder` | client/src/core/world/index.ts:2079-2088 | Walking the whole table in insertion order removes exactly the far chunks, and the surviving order matches the surviving table |
| `ClientSpec.AcceptedUpdates` | client/src/core/world/index.ts:756-794 | `updateVoxels` queues no more edits than it is given, each with an in-range height, a registered type and a normalised rotation |
| `ClientSpec.AcceptedUpdatesExactly` | client/src/core/world/index.ts:758-793 | Every edit that passes the filter is queued normalised, and every queued edit comes from one that passed the filter |
| `ClientSpec.UnregisteredDropped` | client/src/core/world/index.ts:768-771 | Edits whose block type is not registered are all dropped |
| `ClientSpec.RawWord` | client/src/core/world/index.ts:1822-1830 | The raw word sent with an edit carries its type as the id field, its rotation nibbles when it has a rotation (0 otherwise), and stage 0 |
| `ClientSpec.EmitAllKeepsKeys` | client/src/core/world/index.ts:1803-1820 | Emitting edits changes no key of the chunk table |
| `ClientSpec.EmitAllSends` | client/src/core/world/index.ts:1797-1837 | Every edit of the batch is sent, in FIFO order, with its raw word, after what was already sent |
| `ClientSpec.EmitOnePredicts` | client/src/core/world/index.ts:1803-1820 | For an edit on a resident chunk the previous id is recorded in `blockCache`, the chunk then holds the new id (and rotation when given), and every other voxel keeps its id |
| `ClientSpec.ApplyServerUpdatesKeepsKeys` | client/src/core/world/index.ts:481-498 | Server updates never add or remove a chunk |
| `ClientSpec.ServerUpdateRecordsPrevious` | client/src/core/world/index.ts:483-496 | After a server update on a resident chunk the voxel holds the server's word, and `blockCache` holds the replaced id exactly when the id changed |
| `ClientSpec.CacheHoldsLatestPrevious` | client/src/core/world/index.ts:486-491 | Two successive changes A → B → C at a voxel leave B, the id just before the latest change, in `blockCache` |
| `ClientSpec.AsWrittenThrowsOnAbsentChunk` | client/src/core/world/index.ts:484-486 | The UPDATE handler as written throws for a voxel whose chunk is not resident, where the corrected one leaves the state unchanged |
| `ClientSpec.CorrectedAgreesWhenNoThrow` | client/src/core/world/index.ts:481-498 | Whenever the handler as written does not throw, the corrected handler produces the same state |
| `ClientSpec.AbsentChunksSkipped` | client/src/core/world/index.ts:493-496 | Updates aimed only at non-resident chunks leave the corrected handler's state unchanged |
| `ClientSpec.ThrowKeepsEarlierUpdates` | client/src/core/world/index.ts:481-498 | When the handler as written throws, the state it leaves is that of the updates before the first one aimed at an absent chunk, already applied |
| `ClientSpec.WithDefaults` | client/src/core/world/index.ts:729-738 | An omitted rotation becomes `PY_ROTATION` and an omitted y-rotation 0; given values, the position and the type are kept |
| `ClientSpec.DefaultedNoOpDropped` | client/src/core/world/index.ts:729-738 | `updateVoxel` with both rotations omitted on a voxel that already holds that type at rotation `PY_ROTATION`, y-rotation 0 queues nothing, because the defaults are no longer undefined (lines 773-777) |
| `ClientSpec.FrameKeepsFrameOk` | client/src/core/world/index.ts:1722-1746 | A whole frame keeps the table and its insertion order in agreement and the request queues duplicate-free and disjoint |
| `ClientSpec.StreamKeepsFrameOk` | client/src/core/world/index.ts:1736-1740 | Adding, requesting, evicting and emitting keep the same invariants |
| `ClientSpec.FrameByParity` | client/src/core/world/index.ts:1730-1740 | An even tick (scan) leaves `toProcess` alone; an odd tick (mesh) only takes from the front of `toRequest` and `toAdd`; every tick only takes from the front of `toUpdate` and recentres on the centre's chunk |
| `ClientSpec.StreamDrains` | client/src/core/world/index.ts:1736-1740 | The second half of a frame leaves `toProcess` and the centre alone and only takes from the front of `toRequest`, `toAdd` and `toUpdate` |
| `ClientSpec.FrameSendsOneTick` | client/src/core/world/index.ts:1722-1746 | A frame keeps the old packets and appends at most one LOAD, then one UNLOAD, then one UPDATE packet |
| `ClientSpec.TickPacketsAtMostOneUnload` | client/src/core/world/index.ts:1736-1740 | A tick emits at most three packets and never two UNLOAD packets |
| `ClientSpec.TickFromSteps` | client/src/core/world/index.ts:1736-1740 | A request step, an eviction step and an emit step, each adding at most one packet of its kind, together emit LOAD, UNLOAD, UPDATE in that order, after the old packets |
| `ClientWorld.ChunkTable.constructor` | client/src/core/world/index.ts:389 | A new chunk manager has an empty table and empty queues, centred on chunk (0, 0) |
| `ClientWorld.MeshLoop` | client/src/core/world/index.ts:2006-2018 | The mesh loop stops after `MeshCount` entries and leaves `requested` and the table as the specification functions of that prefix say |
| `ClientWorld.ScanLoop` | client/src/core/world/index.ts:1850-1897 | The nested scan loops, with their early return, compute exactly `Scan` from the corner offset `(-r, -r)` |
| `ClientWorld.RequestLoop` | client/src/core/world/index.ts:1972 | The request loop sets each batch name's counter to 1 |
| `ClientWorld.EvictLoop` | client/src/core/world/index.ts:2079-2088 | The eviction loop deletes exactly the far chunks and collects their names in table order; the remaining order is the survivors in order |
| `ClientWorld.EmitLoop` | client/src/core/world/index.ts:1800-1836 | The emit loop computes `EmitAll` over the batch and keeps table and order in agreement |
| `ClientWorld.World.constructor` | client/src/core/world/index.ts:381-402 | A new world is uninitialised, with empty table, queues, cache and packets |
| `ClientWorld.World.InitCheck` | client/src/core/world/index.ts:2283-2295 | `initCheck` succeeds exactly when the initialisation state matches the call, and otherwise fails with the matching error |
| `ClientWorld.World.Init` | client/src/core/world/index.ts:408-438 | `init` fails without INIT data or when already initialised, changing nothing; otherwise it adopts the registry and parameters and becomes initialised, keeping the INIT data, the block cache, the packets and the tick counter |
| `ClientWorld.World.IsWithinWorld` | client/src/core/world/index.ts:1238-1247 | `isWithinWorld` is inclusive on both `minChunk` and `maxChunk` on both axes |
| `ClientWorld.World.GetPreviousVoxelByVoxel` | client/src/core/world/index.ts:1114-1119 | Fails before initialisation; otherwise returns the recorded previous id exactly when one is recorded |
| `ClientWorld.World.GetMaxHeightByVoxel` | client/src/core/world/index.ts:1080-1092 | Fails before initialisation; otherwise the highest height below `maxHeight` whose block counts for height, or 0 |
| `Geometry.WorldToVoxel` | client/src/core/world/index.ts:1778-1781 | The voxel of a world position is the one whose unit cube contains it, component by component (floor) |
| `ClientWorld.World.CalculateCurrChunk` | client/src/core/world/index.ts:1775-1784 | The centre chunk becomes the chunk of the voxel containing the (real-valued) centre; nothing else in the frame changes |
| `ClientWorld.World.SurroundChunks` | client/src/core/world/index.ts:1845-1899 | The bookkeeping queues become `Scan` of the old ones (the frame becomes `ScanPhase` of the old one), and the invariant is kept |
| `ClientWorld.World.RequestChunks` | client/src/core/world/index.ts:1961-1980 | The frame becomes `RequestPhase` of the old one: moves a prefix of `toRequest`, at most the budget (ten times larger while the centre chunk is absent), into `requested` with counter 1, and pushes one LOAD packet listing it in order, or nothing when it is empty |
| `ClientWorld.World.MeshChunk` | client/src/core/world/index.ts:2024-2043 | Fails, changing nothing, before initialisation (its `getChunk` runs `initCheck`, lines 2027 and 2283-2294); otherwise creates and inserts the chunk only when absent |
| `ClientWorld.World.MeshChunks` | client/src/core/world/index.ts:1985-2019 | The frame becomes `MeshPhase` of the old one: sorts `toProcess` stably by the comparator (`SortPending`), processes `MeshCount` entries from its front, takes their names off `requested` and meshes them |
| `ClientWorld.World.AddChunks` | client/src/core/world/index.ts:2060-2069 | The frame becomes `AddPhase` of the old one: takes at most `maxAddsPerTick` names from the front of `toAdd` and marks those still resident as added |
| `ClientWorld.World.MaintainChunks` | client/src/core/world/index.ts:2073-2098 | The frame becomes `EvictPhase` of the old one: removes exactly the far chunks, keeps the others, and pushes one UNLOAD packet listing exactly the removed coordinates in table order, or nothing |
| `ClientWorld.World.EmitServerUpdates` | client/src/core/world/index.ts:1789-1840 | The frame becomes `EmitPhase` of the old one: drains at most `maxUpdatesPerTick` edits in FIFO order, predicts them locally, and pushes one UPDATE packet with their raw words, or nothing when none are queued |
| `ClientWorld.World.UpdateVoxels` | client/src/core/world/index.ts:753-795 | Fails before initialisation; otherwise appends exactly the accepted, normalised edits to `toUpdate` |
| `ClientWorld.World.UpdateVoxel` | client/src/core/world/index.ts:729-738 | `updateVoxels` on a batch of one edit whose omitted rotation is `PY_ROTATION` and omitted y-rotation 0 |
| `ClientWorld.World.FinishBuild` | client/src/core/world/index.ts:2046-2054 | When a chunk's build completes it becomes ready; no other chunk changes and the invariant is kept |
| `ClientWorld.World.HandleServerChunk` | client/src/core/world/index.ts:2233-2239 | An urgent payload is meshed at once, which fails before initialisation; otherwise it is queued with its arrival time |
| `ClientWorld.World.QueueArrivals` | client/src/core/world/index.ts:469-477 | A LOAD queues every payload with its arrival time and leaves the table unchanged |
| `ClientWorld.World.ApplyUpdates` | client/src/core/world/index.ts:481-498 | The voxel part of an UPDATE, with the absent-chunk case skipped, equals `ApplyServerUpdates` |
| `ClientWorld.World.MeshUrgent` | client/src/core/world/index.ts:500-504 | The payloads of an UPDATE are meshed at once, in order; before initialisation a non-empty list fails at its first payload and changes nothing |
| `ClientWorld.World.OnMessage` | client/src/core/world/index.ts:456-511 | INIT stores its data; LOAD queues its payloads; UPDATE applies the server's words then meshes its payloads, and fails changing nothing before initialisation when it carries any update or payload (`getChunk`'s `initCheck`); other messages change nothing |
| `ClientWorld.World.Reset` | client/src/core/world/index.ts:516-529 | Empties the table, `requested`, `toRequest`, `toProcess` and the previous-id cache, recentres on (0, 0), and leaves `toAdd` and `toUpdate` alone |
| `ClientWorld.World.Update` | client/src/core/world/index.ts:1722-1746 | Fails, changing nothing, before initialisation; otherwise advances the tick counter and the world becomes `FrameStep` of the old one: recentre on the chunk of the centre voxel, scan on an even tick or mesh on an odd one, then add, request, evict and emit; an even tick leaves `toProcess` alone; at most one LOAD, then one UNLOAD, then one UPDATE packet is appended after the old ones |
| `ClientWorld.World.StreamChunks` | client/src/core/world/index.ts:1736-1740 | The world becomes `StreamPhase` of the old one (add, request, evict and emit, in that order); the packets it appends form one valid tick |
| `ServerChunks.WithoutSpec` | server/world/voxels/chunks.rs:362 | `retain` keeps exactly the entries for other voxels, and keeps one entry per voxel |
| `ServerChunks.WithoutAbsent` | server/world/voxels/chunks.rs:375-377 | When no entry is for the voxel, `retain` changes nothing |
| `ServerChunks.RequeueSpec` | server/world/voxels/chunks.rs:360-365 | After retain-then-push, the voxel's only entry is the new one at the back; entries of other voxels are kept; one entry per voxel is preserved |
| `ServerChunks.RequeueAllUnique` | server/world/voxels/chunks.rs:367-371 | A batch of updates keeps one entry per voxel and ends with its last pair |
| `ServerChunks.RequeueKeepsVoxels` | server/world/voxels/chunks.rs:360-365 | Re-queueing never loses a voxel's pending update and always has one for the new voxel |
| `ServerChunks.RequeueAllCovers` | server/world/voxels/chunks.rs:367-371 | After a batch every voxel of the batch and every voxel pending before has an entry |
| `ServerChunks.KeepInWorldSpec` | server/world/voxels/chunks.rs:291-294 | The filter keeps exactly the candidates inside the world |
| `ServerChunks.AffectedCandidatesMembers` | server/world/voxels/chunks.rs:256-289 | A neighbour is pushed exactly when, along both axes, it is the own column or the one across the edge the voxel lies on |
| `ServerChunks.AffectedInWorld` | server/world/voxels/chunks.rs:256-294 | The kept candidates are exactly the in-world chunks that touch the voxel along both axes |
| `ServerChunks.AffectedCandidatesAtMostFour` | server/world/voxels/chunks.rs:256-289 | With chunks at least two voxels wide, at most four candidates are pushed |
| `ServerChunks.CeilDiv` | server/world/voxels/chunks.rs:299-300 | The ceiling of `a / b`: the least multiple count covering `a` |
| `ServerChunks.AsUsize` | server/world/voxels/chunks.rs:455 | `vy as usize` keeps a non-negative value and wraps a negative one above 2^64 − 2^31 |
| `ServerChunks.AsI32` | server/world/voxels/chunks.rs:482 | `max_height as i32` lies in the `i32` range and keeps values up to `i32::MAX` |
| `ServerChunks.Chunks.constructor` | server/world/voxels/chunks.rs:68-85 | A new manager has an empty map, empty queues, no listeners and an empty borrow cache, so every chunk sits at its own coordinates and no queue has duplicates |
| `ServerChunks.Chunks.IsWithinWorld` | server/world/voxels/chunks.rs:336-341 | A coordinate is inside the world exactly when it lies between `min_chunk` and `max_chunk`, inclusive, on both axes |
| `ServerChunks.Chunks.IsChunkReady` | server/world/voxels/chunks.rs:344-350 | A chunk is ready exactly when it is inside the world, present, and its status is `Ready` |
| `ServerChunks.Chunks.RawChunkByVoxel` | server/world/voxels/chunks.rs:239-242 | The chunk returned is the stored one at the voxel's chunk coordinate, present exactly when that coordinate is inside the world and stored; in a consistent map it is the chunk whose columns contain the voxel |
| `ServerChunks.Chunks.Contains` | server/world/voxels/chunks.rs:514-516 | A voxel is contained exactly when its chunk coordinate is inside the world and stored |
| `ServerChunks.Chunks.Raw` | server/world/voxels/chunks.rs:199-205 | `raw` returns the stored chunk exactly when the coordinate is inside the world and present |
| `ServerChunks.Chunks.Get` | server/world/voxels/chunks.rs:219-225 | `get` returns the chunk exactly when `raw` would and its status is `Ready` |
| `ServerChunks.Chunks.RawMut` | server/world/voxels/chunks.rs:208-215 | `raw_mut` returns what `raw` returns and records the coordinate as borrowed exactly when it is inside the world |
| `ServerChunks.Chunks.GetMut` | server/world/voxels/chunks.rs:229-236 | `get_mut` returns what `get` returns and records the coordinate exactly when a ready chunk is returned |
| `ServerChunks.Chunks.ClearCache` | server/world/voxels/chunks.rs:353-355 | `clear_cache` empties the borrow cache |
| `ServerChunks.Chunks.Renew` | server/world/voxels/chunks.rs:178-191 | With `renew_mesh_only` an existing chunk takes only the new meshes and status, and nothing is inserted when none exists; otherwise the new chunk is stored at its coordinates |
| `ServerChunks.Chunks.Add` | server/world/voxels/chunks.rs:194-196 | `add` stores exactly the chunk at its coordinates |
| `ServerChunks.Chunks.VoxelAffectedChunksSpec` | server/world/voxels/chunks.rs:251-295 | A chunk is affected exactly when it is inside the world and, on each axis, is the own chunk or the neighbour across the edge the voxel lies on; the own chunk is present whenever it is inside the world |
| `ServerChunks.Chunks.VoxelAffectedChunksAtMostFour` | server/world/voxels/chunks.rs:251-295 | With chunks at least two voxels wide at most four chunks are affected |
| `ServerChunks.Chunks.AffectedChunksAreNear` | server/world/voxels/chunks.rs:251-295 | Every affected chunk is inside the world and within one chunk of the own chunk on both axes |
| `ServerChunks.Chunks.LightTraversedChunks` | server/world/voxels/chunks.rs:298-314 | Returns exactly the in-world chunks of the square of half-width `ceil(max_light_level / chunk_size)`, in row-major order, without duplicates |
| `ServerChunks.Chunks.UpdateVoxel` | server/world/voxels/chunks.rs:360-365 | The voxel's earlier pending update is dropped and the new one queued at the back; one entry per voxel is kept |
| `ServerChunks.Chunks.UpdateVoxels` | server/world/voxels/chunks.rs:367-371 | `update_voxel` on each pair in order |
| `ServerChunks.Chunks.MarkVoxelActive` | server/world/voxels/chunks.rs:373-380 | The voxel's earlier activation is replaced by the new one at the back; one entry per voxel is kept |
| `ServerChunks.Chunks.AddChunkToSave` | server/world/voxels/chunks.rs:383-391 | Queues the coordinate once, at the front when prioritised and at the back otherwise, and does nothing if it is already queued; no duplicates |
| `ServerChunks.Chunks.AddChunkToSend` | server/world/voxels/chunks.rs:394-405 | Queues the coordinate with its message type at the front or back, always adding one entry |
| `ServerChunks.Chunks.AddListener` | server/world/voxels/chunks.rs:408-412 | Appends the listener to the coordinate's list, creating it when absent; other lists are unchanged |
| `ServerChunks.Chunks.GetRawVoxel` | server/world/voxels/chunks.rs:433-439 | The chunk's word for the voxel, or 0 when no chunk holds it |
| `ServerChunks.Chunks.GetRawLight` | server/world/voxels/chunks.rs:454-464 | Full sunlight when `vy as usize >= max_height`, which covers every negative height unless `max_height` is near 2^64; otherwise the chunk's light word, or 0 without a chunk |
| `ServerChunks.Chunks.GetSunlight` | server/world/voxels/chunks.rs:479-493 | `max_light_level` at or above `max_height as i32`; without a chunk, 0 below height 0 and `max_light_level` otherwise; else the sunlight level stored in the chunk |
| `ServerChunks.Chunks.GetMaxHeight` | server/world/voxels/chunks.rs:496-502 | The chunk's height-map word for the column, or 0 when no chunk holds it |
| `ServerChunks.Chunks.AddUpdatedLevelAt` | server/world/voxels/chunks.rs:420-428 | Every affected chunk is borrowed mutably, and nothing else |
| `ServerChunks.Chunks.SetRawVoxel` | server/world/voxels/chunks.rs:442-451 | Returns false, changing no chunk, when no chunk holds the voxel; otherwise the chunk map differs from the old one only in that chunk's voxel word, so every other voxel, every light and every height is unchanged, and the voxel reads back the new word |
| `ServerChunks.Chunks.SetRawLight` | server/world/voxels/chunks.rs:467-476 | Returns false, changing no chunk, when no chunk holds the voxel; otherwise the chunk map differs from the old one only in that chunk's light word for the voxel, so voxels, heights and every other light are unchanged, and the light reads back the new word |
| `ServerChunks.Chunks.SetMaxHeight` | server/world/voxels/chunks.rs:505-512 | Returns false, changing no chunk, when no chunk holds the column; otherwise the chunk map differs from the old one only in that chunk's height for the column, so voxels, lights and every other column's height are unchanged, and the height reads back the new value; it does not borrow the neighbours |
| `PathFinding.IsWalkable` | examples/server/worlds/shared/systems/path_finding.rs:42-54 | `walkable(v, h)` holds iff `v` is not passable and the `ceil(h)` voxels directly above it are all passable |
| `PathFinding.GetStandableVoxel` | examples/server/worlds/shared/systems/path_finding.rs:56-69 | Returns `(x, y'+1, z)` where `y'` is the highest height at or below the start that is non-zero and not passable; height 0 is always descended past; `i32` overflow gives no result |
| `PathFinding.CardinalMoveSpec` | examples/server/worlds/shared/systems/path_finding.rs:112-146 | A cardinal direction yields at most one move, one step that way, at most one up or down, costing 1 level and 2 up or down, onto walkable ground |
| `PathFinding.DiagonalMoveSpec` | examples/server/worlds/shared/systems/path_finding.rs:148-182 | A diagonal direction yields at most one move, costing 2 level and 3 up or down, offered only when both flanking cells are empty (one level up for an upward move) |
| `PathFinding.AtMostEightMoves` | examples/server/worlds/shared/systems/path_finding.rs:112-182 | A node has at most eight successors |
| `PathFinding.CardinalSteps` | examples/server/worlds/shared/systems/path_finding.rs:112-146 | Every cardinal move is a step of the fixed shape and cost |
| `PathFinding.DiagonalSteps` | examples/server/worlds/shared/systems/path_finding.rs:148-182 | Every diagonal move is a step of the fixed shape and cost |
| `PathFinding.MovesAreSteps` | examples/server/worlds/shared/systems/path_finding.rs:112-184 | Every successor differs by exactly one in x and/or z (never neither) and by at most one in y, costs 1/2 cardinal or 2/3 diagonal (level/up or down), and stands on walkable ground |
| `PathFinding.CardinalFlanked` | examples/server/worlds/shared/systems/path_finding.rs:112-146 | Cardinal moves carry no flank condition |
| `PathFinding.DiagonalFlanked` | examples/server/worlds/shared/systems/path_finding.rs:148-182 | Each diagonal move had both its flanking emptiness flags |
| `PathFinding.DiagonalNeedsFlanks` | examples/server/worlds/shared/systems/path_finding.rs:102-110 | A level or downward diagonal successor is offered only when both flanking cardinal cells are empty (e.g. `px && pz` for +X+Z); an upward one only when both are empty one level up |
| `PathFinding.Search.constructor` | examples/server/worlds/shared/systems/path_finding.rs:86 | The shared expansion counter starts at 0 |
| `PathFinding.Search.Successors` | examples/server/worlds/shared/systems/path_finding.rs:91-99 | Every expansion increments the counter; once it reaches `MAX_DEPTH_SEARCH` (2048) no successors are returned, otherwise the successor list, of at most eight moves |
| `PathFinding.PathComp.constructor` | examples/server/worlds/shared/systems/path_finding.rs:189-203 | A path component starts with no path |
| `PathFinding.PathComp.Store` | examples/server/worlds/shared/systems/path_finding.rs:189-203 | The stored path is the node list exactly when A* found one whose count is within `max_nodes`; otherwise no path |

## Left out

- Wall-clock budgets. The `performance.now()` checks of `surroundChunks` and
  `meshChunks` are explicit parameters:
  - for the scan, the number of cells that pass the check;
  - for meshing, the number of entries after which the check fires.

  `updateTimeout` is therefore not modelled.
- The float distance `chunk.distTo` of `maintainChunks`. It is the given set
  `far` of chunks that are too far, so `defaultDeleteRadius` does not appear.
- Rendering and assets: `Chunk.build` and its chunk-init listeners,
  `addToScene`/`removeFromScene`/`dispose`, materials, textures, the atlas,
  uniforms, fog, shaders and physics. `addChunks` marking a chunk as added
  stands for `addToScene`.
- `init` is modelled without its asynchronous asset loading: it adopts the
  registry and parameters at once.
- A LOAD message stamps all its payloads with one arrival time (`now`), not
  one clock reading per payload.
- The registry is a map from block id to the two flags the model reads
  (`yRotatable`, and whether `checkHeight` counts the block). The registry
  class itself is not part of this model.
- The `Chunk` class is not part of this model. Of `chunk.build` only its
  completion is modelled, as `ClientWorld.World.FinishBuild` marking the
  chunk ready; what the build computes is left out.
- `ChunkUtils.mapWorldToVoxel` and the constant `PY_ROTATION` are not part of
  this model. The mapping is taken to floor each component (`WorldToVoxel`),
  and `PY_ROTATION` is taken as 0.
- Exceptions are outcomes: a thrown `initCheck` error is a `Failed` result
  that changes nothing, and the caller (`update`, `onMessage`) stops there.
- JavaScript aliasing (the same chunk object reachable from several places)
  and the mutation of edit objects in place by the `map` of `updateVoxels`.
  Chunks and edits are values here.
- `BlockRotation.encode` is taken to pass the rotation and y-rotation values
  through, so a packed word carries their low nibbles.
- Server: file I/O and codecs (`try_load`, `save`, chunk paths), `make_space`,
  `raw_chunk_by_voxel_mut`, and what `Chunk::add_updated_level` records
  inside a chunk. Of `add_updated_level_at`, only the mutable borrows it
  makes are modelled.
- `ClientSpec.SortPending`: the comparator of `meshChunks` is not a
  consistent order (`CompareInconsistent`), and ECMAScript leaves the result
  of `sort` with such a comparator implementation-defined. The model fixes a
  stable insertion sort. For any queue it is proved nearest-first with every
  neighbouring pair in comparator order. Agreement on every pair, and queue
  order kept within each distance, are proved only for queues holding each
  chunk's entries in arrival order; LOAD keeps that when its clock reading is
  no earlier than the queued ones (`ArrivalsKeepArrivalOrder`). That the
  clock never runs backwards is not part of the model.
- `ServerChunks.Chunks.RawMut`: returns a copy of the chunk; writes through
  it are modelled by the `set_*` methods storing the changed chunk back.
- `ServerChunks.Chunks.VoxelAffectedChunksSpec`: membership is stated
  exactly, but not that the list has no duplicates. The code pushes each
  neighbour at most once; that fact is not proved.
- `ServerChunks.Chunks.LightTraversedChunks`: the `f32` ceiling is modelled
  as integer ceiling division. The maximum light level is taken below 16,
  the width of the sunlight field.
- Integer widths elsewhere in the server and path finding (`i32` coordinate
  arithmetic such as `vy + i` and `vx + 1`) are unbounded; only the casts in
  `get_raw_light`/`get_sunlight` and the descent of `get_standable_voxel` are
  modelled at their widths.
- Path finding:
  - the rayon parallel join, and the `Arc<Mutex>` counter (a sequential
    integer here);
  - `AStar::calculate` itself and its heuristic;
  - the float body height (a precomputed ceiling) and the flooring of float
    positions;
  - the cast `max_nodes as u32`.

  Passability is given as the set of voxels that are neither passable nor a
  fluid, so the block registry is not read.
- `PathFinding.GetStandableVoxel`: an `i32` overflow while descending, or
  when stepping on top of a support at `i32::MAX`, is a panic in a debug
  build; it is no result here.

## Findings

| source | as written | input that shows it | evidently intended | confidence | as-written member | corrected member |
|---|---|---|---|---|---|---|
| client/src/core/world/index.ts:484-496 | The UPDATE handler reads `chunk.getVoxel(...)` before its `if (chunk)` guard, so an update whose voxel lies in a chunk that is not resident throws a TypeError and aborts the rest of the message, leaving the updates before it applied (`ClientSpec.ThrowKeepsEarlierUpdates`) | One update `(0, 0, 0)` with voxel word 1, received while the table is empty (chunk size 16) | Skip updates whose chunk is not resident, as the later guard shows | not executed | `ClientSpec.AsWrittenThrowsOnAbsentChunk` | `ClientSpec.AbsentChunksSkipped` |
