/**
 * The client world (client/src/core/world/index.ts, class `World`): the
 * per-frame chunk streaming scheduler and the optimistic voxel update queue.
 *
 * The world's chunk manager (`this.chunks`, a Map subclass carrying the
 * bookkeeping queues) is the class `ChunkTable`; the world itself holds the
 * parameters, the registry view, the previous-id cache, the outgoing packets
 * and the tick counter.  Wall-clock budgets are explicit parameters.
 */
module ClientWorld {
  import opened Geometry
  import opened VoxelWord
  import opened ClientSpec

  /** The client-side parameters the scheduler reads. */
  datatype ClientParams = ClientParams(
    maxRequestsPerTick: nat,
    maxProcessesPerTick: nat,
    maxUpdatesPerTick: nat,
    maxAddsPerTick: nat,
    rerequestTicks: int,
    renderRadius: nat)

  /** The defaults of `defaultParams` (the render radius is `defaultRenderRadius`). */
  const DEFAULT_CLIENT_PARAMS := ClientParams(4, 8, 1000, 2, 100, 8)

  type Positive = n: int | n > 0 witness 1

  /** The server-side parameters received in the INIT message. */
  datatype ServerParams = ServerParams(chunkSize: Positive, maxHeight: int, minChunk: Coord, maxChunk: Coord)

  /** Stands for the server parameters before INIT; no operation reads it before initialisation. */
  const UNSET_SERVER_PARAMS := ServerParams(1, 0, Coord(0, 0), Coord(0, 0))

  datatype InitData = InitData(blocks: map<nat, Block>, params: ServerParams)

  /** The errors `init` and `initCheck` throw. */
  datatype InitError = NoInitData | AlreadyInitialized | NotInitialized

  datatype Outcome = Done | Failed(error: InitError)

  datatype Result<T> = Ok(value: T) | Err(error: InitError)

  datatype Message =
    | InitMessage(data: InitData)
    | LoadMessage(chunks: seq<ChunkData>)
    | UpdateMessage(updates: seq<ServerUpdate>, chunks: seq<ChunkData>)
    | OtherMessage

  /** The world's chunk manager: the chunk table and its bookkeeping queues. */
  class ChunkTable {
    var chunks: map<Coord, Chunk>
    /** The insertion order of `chunks`, which is the order a Map iterates in. */
    var order: seq<Coord>
    var requested: map<Coord, int>
    var toRequest: seq<Coord>
    var toProcess: seq<Pending>
    var toAdd: seq<Coord>
    var toUpdate: seq<BlockUpdate>
    var currentChunk: Coord

    constructor()
      ensures chunks == map[] && order == [] && requested == map[]
      ensures toRequest == [] && toProcess == [] && toAdd == [] && toUpdate == []
      ensures currentChunk == Coord(0, 0)
    {
      chunks := map[];
      order := [];
      requested := map[];
      toRequest := [];
      toProcess := [];
      toAdd := [];
      toUpdate := [];
      currentChunk := Coord(0, 0);
    }

    function Queues(): ScanState
      reads this`requested, this`toRequest, this`toAdd
    {
      ScanState(requested, toRequest, toAdd)
    }

    function AsTable(): Table
      reads this`chunks, this`order
    {
      Table(chunks, order)
    }
  }

  /**
   * The loop of `meshChunks` on the values it touches: mesh entries from the
   * front of the queue until the per-tick budget is spent, the queue is empty
   * or the wall-clock check fires.
   */
  method MeshLoop(queue: seq<Pending>, t0: Table, r0: map<Coord, int>, maxProcessesPerTick: nat, timeoutAfter: nat)
    returns (count: nat, t: Table, requested: map<Coord, int>)
    ensures count == MeshCount(|queue|, maxProcessesPerTick, timeoutAfter)
    ensures requested == Unrequest(r0, Payloads(queue[..count]))
    ensures t == MeshAll(t0, Payloads(queue[..count]))
  {
    t, requested, count := t0, r0, 0;
    while count < maxProcessesPerTick && count < |queue|
      invariant count <= |queue| && count <= maxProcessesPerTick
      invariant count == 0 || count < timeoutAfter
      invariant requested == Unrequest(r0, Payloads(queue[..count]))
      invariant t == MeshAll(t0, Payloads(queue[..count]))
    {
      var data := queue[count].data;
      MeshStep(t0, r0, queue, count);
      requested := requested - {data.Coords()};
      t := MeshChunkSpec(t, data);
      count := count + 1;
      if count >= timeoutAfter {
        MeshCountReached(|queue|, maxProcessesPerTick, timeoutAfter, count);
        return;
      }
    }
    MeshCountReached(|queue|, maxProcessesPerTick, timeoutAfter, count);
  }

  /** The two nested loops of `surroundChunks` on the bookkeeping queues. */
  method ScanLoop(start: ScanState, env: ScanEnv, fuel: nat) returns (s: ScanState)
    ensures s == Scan(start, env, -(env.radius as int), -(env.radius as int), fuel)
  {
    var r: int := env.radius;
    var requested, toRequest, toAdd := start.requested, start.toRequest, start.toAdd;
    var left := fuel;
    var x := -r;
    while x <= r
      invariant -r <= x <= r + 1
      invariant Scan(start, env, -r, -r, fuel) == Scan(ScanState(requested, toRequest, toAdd), env, x, -r, left)
      decreases r - x
    {
      var z := -r;
      while z <= r
        invariant -r <= z <= r + 1
        invariant Scan(start, env, -r, -r, fuel) == Scan(ScanState(requested, toRequest, toAdd), env, x, z, left)
        decreases r - z
      {
        if left == 0 {
          return ScanState(requested, toRequest, toAdd);
        }
        ghost var before := ScanState(requested, toRequest, toAdd);
        var c := Coord(env.center.x + x, env.center.z + z);
        if x * x + z * z < r * r && WithinBounds(c, env.minChunk, env.maxChunk) {
          if c in requested {
            var already := requested[c] + 1;
            if already > env.rerequestTicks {
              toRequest := toRequest + [c];
              requested := requested - {c};
            } else {
              requested := requested[c := already];
            }
          } else if c !in env.chunks {
            if c !in toRequest {
              toRequest := toRequest + [c];
            }
          } else if env.chunks[c].isReady && c !in toAdd && !env.chunks[c].added {
            toAdd := toAdd + [c];
          }
        }
        assert ScanState(requested, toRequest, toAdd) == Visit(before, env, x, z);
        left := left - 1;
        z := z + 1;
      }
      x := x + 1;
    }
    s := ScanState(requested, toRequest, toAdd);
  }

  /** The loop of `requestChunks`: each coordinate of the batch, in order, gets counter 1. */
  method RequestLoop(requested0: map<Coord, int>, batch: seq<Coord>) returns (requested: map<Coord, int>)
    ensures requested == MarkRequested(requested0, batch)
  {
    requested := requested0;
    var i := 0;
    while i < |batch|
      invariant 0 <= i <= |batch|
      invariant requested == MarkRequested(requested0, batch[..i])
    {
      assert batch[..i + 1][..i] == batch[..i];
      requested := requested[batch[i] := 1];
      i := i + 1;
    }
    assert batch[..|batch|] == batch;
  }

  /**
   * The loop of `maintainChunks` over the table's names in insertion order:
   * every far chunk is deleted and collected.
   */
  method EvictLoop(t: Table, far: set<Coord>) returns (t': Table, deleted: seq<Coord>)
    requires TableOk(t)
    ensures TableOk(t')
    ensures t'.chunks == t.chunks - far && t'.order == Select(t.order, far, false)
    ensures deleted == Select(t.order, far, true)
  {
    var chunks, kept := t.chunks, [];
    deleted := [];
    var i := 0;
    while i < |t.order|
      invariant 0 <= i <= |t.order|
      invariant chunks == EvictAmong(t.chunks, t.order[..i], far)
      invariant deleted == Select(t.order[..i], far, true)
      invariant kept == Select(t.order[..i], far, false)
    {
      var c := t.order[i];
      assert t.order[..i + 1][..i] == t.order[..i];
      if c in far {
        chunks := chunks - {c};
        deleted := deleted + [c];
      } else {
        kept := kept + [c];
      }
      i := i + 1;
    }
    assert t.order[..|t.order|] == t.order;
    EvictInOrder(t, far);
    t' := Table(chunks, kept);
  }

  /** The per-edit loop of `emitServerUpdates`: record, predict and pack each edit in order. */
  method EmitLoop(t: Table, cache0: map<Voxel, nat>, batch: seq<BlockUpdate>, chunkSize: Positive)
    returns (chunks: map<Coord, Chunk>, cache: map<Voxel, nat>, sent: seq<SentUpdate>)
    requires TableOk(t)
    ensures EmitState(chunks, cache, sent) == EmitAll(EmitState(t.chunks, cache0, []), batch, chunkSize)
    ensures TableOk(Table(chunks, t.order))
  {
    var chunks0 := t.chunks;
    chunks, cache, sent := chunks0, cache0, [];
    var i := 0;
    while i < |batch|
      invariant 0 <= i <= |batch|
      invariant EmitState(chunks, cache, sent) == EmitAll(EmitState(chunks0, cache0, []), batch[..i], chunkSize)
    {
      assert batch[..i + 1][..i] == batch[..i];
      var u := batch[i];
      var c := ChunkOf(u.Pos(), chunkSize);
      if c in chunks {
        var ch := chunks[c];
        cache := cache[u.Pos() := ExtractId(WordAt(ch, u.Pos()))];
        chunks := chunks[c := Predict(ch, u)];
      }
      sent := sent + [SentUpdate(u, RawWord(u))];
      i := i + 1;
    }
    assert batch[..|batch|] == batch;
    EmitAllKeepsKeys(EmitState(chunks0, cache0, []), batch, chunkSize);
    TableOkSameKeys(t, chunks);
  }

  class World {
    const client: ClientParams
    const table: ChunkTable
    var server: ServerParams
    var registry: map<nat, Block>
    var initialized: bool
    var initData: Option<InitData>
    /** `blockCache`: the id each voxel held before its latest change. */
    var blockCache: map<Voxel, nat>
    var packets: seq<Packet>
    var callTick: nat

    /**
     * The table and its insertion order agree, the request bookkeeping is
     * consistent, and every queued edit has passed `updateVoxels`.
     */
    ghost predicate Valid()
      reads this`initialized, this`registry, this`server, table`chunks, table`order,
            table`requested, table`toRequest, table`toAdd, table`toUpdate
    {
      TableValid() && QueuesValid() && UpdatesValid()
    }

    ghost predicate TableValid()
      reads table`chunks, table`order
    {
      TableOk(table.AsTable())
    }

    ghost predicate QueuesValid()
      reads table`requested, table`toRequest, table`toAdd
    {
      QueuesOk(table.Queues())
    }

    ghost predicate UpdatesValid()
      reads this`initialized, this`registry, this`server, table`toUpdate
    {
      forall u :: u in table.toUpdate ==> initialized && Queued(u, registry, server.maxHeight)
    }

    function View(): ClientSpec.View
      reads this, table
    {
      ClientSpec.View(table.chunks, registry, server.chunkSize, server.maxHeight)
    }

    function Env(): ScanEnv
      reads this, table
    {
      ScanEnv(table.currentChunk, client.renderRadius, server.minChunk, server.maxChunk,
              client.rerequestTicks, table.chunks)
    }

    /** The state one frame of `update` reads and writes, as a value. */
    function Snapshot(): Frame
      reads this`blockCache, this`packets, table`chunks, table`order, table`requested, table`toRequest,
            table`toAdd, table`toProcess, table`toUpdate, table`currentChunk
    {
      Frame(table.AsTable(), table.Queues(), table.toProcess, table.toUpdate, table.currentChunk, blockCache, packets)
    }

    function Params(): FrameParams
      reads this`server
    {
      FrameParams(client.renderRadius, client.rerequestTicks, server.minChunk, server.maxChunk, server.chunkSize,
                  client.maxRequestsPerTick, client.maxProcessesPerTick, client.maxAddsPerTick, client.maxUpdatesPerTick)
    }

    constructor(client: ClientParams)
      ensures Valid() && fresh(table)
      ensures this.client == client && !initialized && initData == None
      ensures table.chunks == map[] && table.order == [] && table.requested == map[]
      ensures table.toRequest == [] && table.toProcess == [] && table.toAdd == [] && table.toUpdate == []
      ensures blockCache == map[] && packets == [] && callTick == 0
    {
      this.client := client;
      table := new ChunkTable();
      server := UNSET_SERVER_PARAMS;
      registry := map[];
      initialized := false;
      initData := None;
      blockCache := map[];
      packets := [];
      callTick := 0;
    }

    /** `initCheck`: succeeds before initialisation when `beforeInit`, after it otherwise. */
    function InitCheck(beforeInit: bool): (r: Outcome)
      reads this
      ensures r == Done <==> initialized != beforeInit
      ensures r != Done ==> r == Failed(if beforeInit then AlreadyInitialized else NotInitialized)
    {
      if beforeInit && initialized then Failed(AlreadyInitialized)
      else if !beforeInit && !initialized then Failed(NotInitialized)
      else Done
    }

    /** `init` without its asset loading: adopt the INIT message's registry and parameters. */
    method Init() returns (r: Outcome)
      requires Valid()
      modifies this
      ensures Valid()
      ensures old(initData) == None ==> r == Failed(NoInitData) && unchanged(this)
      ensures old(initData) != None && old(initialized) ==> r == Failed(AlreadyInitialized) && unchanged(this)
      ensures old(initData) != None && !old(initialized) ==>
                && r == Done && initialized
                && registry == old(initData).value.blocks && server == old(initData).value.params
                && initData == old(initData)
                && blockCache == old(blockCache) && packets == old(packets) && callTick == old(callTick)
    {
      if initData == None {
        return Failed(NoInitData);
      }
      if initialized {
        return Failed(AlreadyInitialized);
      }
      registry := initData.value.blocks;
      server := initData.value.params;
      initialized := true;
      r := Done;
    }

    /** `isWithinWorld`: inclusive on both corners. */
    function IsWithinWorld(cx: int, cz: int): (r: bool)
      reads this
      ensures r <==> server.minChunk.x <= cx <= server.maxChunk.x && server.minChunk.z <= cz <= server.maxChunk.z
    {
      WithinBounds(Coord(cx, cz), server.minChunk, server.maxChunk)
    }

    /** `getPreviousVoxelByVoxel`: the id recorded before the voxel's latest change, if any. */
    function GetPreviousVoxelByVoxel(v: Voxel): (r: Result<Option<nat>>)
      reads this
      ensures r.Ok? <==> initialized
      ensures r.Ok? ==> (r.value.Some? <==> v in blockCache) && (r.value.Some? ==> r.value.value == blockCache[v])
    {
      if !initialized then Err(NotInitialized)
      else if v in blockCache then Ok(Some(blockCache[v]))
      else Ok(None)
    }

    /** `registry.checkHeight` on the id at a voxel. */
    predicate CountsForHeight(v: Voxel)
      reads this, table
    {
      var id := VoxelIdAt(table.chunks, server.chunkSize, v);
      id in registry && registry[id].countsForHeight
    }

    /**
     * `getMaxHeightByVoxel`: the highest height below `maxHeight` whose voxel
     * counts for the height map, or 0 when there is none.
     */
    method GetMaxHeightByVoxel(vx: int, vz: int) returns (r: Result<int>)
      ensures !initialized ==> r == Err(NotInitialized)
      ensures initialized ==> r.Ok?
      ensures r.Ok? ==> r.value == 0 || (0 < r.value < server.maxHeight && CountsForHeight(Voxel(vx, r.value, vz)))
      ensures r.Ok? ==> forall y :: r.value < y < server.maxHeight ==> !CountsForHeight(Voxel(vx, y, vz))
    {
      if !initialized {
        return Err(NotInitialized);
      }
      var vy := server.maxHeight - 1;
      while vy >= 0
        invariant vy <= server.maxHeight - 1
        invariant forall y :: vy < y < server.maxHeight ==> !CountsForHeight(Voxel(vx, y, vz))
        decreases vy
      {
        if vy == 0 || CountsForHeight(Voxel(vx, vy, vz)) {
          return Ok(vy);
        }
        vy := vy - 1;
      }
      r := Ok(0);
    }

    /** `calculateCurrChunk`: the centre chunk is the chunk of the voxel containing the centre position. */
    method CalculateCurrChunk(center: Position)
      modifies table`currentChunk
      ensures table.currentChunk == ChunkOf(WorldToVoxel(center), server.chunkSize)
      ensures Snapshot() == old(Snapshot()).(currentChunk := ChunkOf(WorldToVoxel(center), server.chunkSize))
    {
      table.currentChunk := ChunkOf(WorldToVoxel(center), server.chunkSize);
    }

    /**
     * `surroundChunks`: scan the square around the centre chunk row by row;
     * `fuel` is the number of cells that pass the wall-clock check.
     */
    method SurroundChunks(fuel: nat)
      requires Valid()
      modifies table`requested, table`toRequest, table`toAdd
      ensures Valid()
      ensures table.Queues() == Scan(old(table.Queues()), Env(), -(client.renderRadius as int), -(client.renderRadius as int), fuel)
      ensures Snapshot() == ScanPhase(old(Snapshot()), Params(), fuel)
    {
      var q := ScanLoop(table.Queues(), Env(), fuel);
      ScanKeepsQueuesOk(table.Queues(), Env(), -(client.renderRadius as int), -(client.renderRadius as int), fuel);
      table.requested, table.toRequest, table.toAdd := q.requested, q.toRequest, q.toAdd;
    }

    /**
     * `requestChunks`: move a budgeted prefix of `toRequest` into `requested`
     * and send it in one LOAD packet.
     */
    method RequestChunks()
      requires Valid()
      modifies table`requested, table`toRequest, this`packets
      ensures Valid()
      ensures AppendsAtMostOne(old(packets), packets, 0)
      ensures var n := Min(RequestBudget(table.currentChunk in table.chunks, client.maxRequestsPerTick), |old(table.toRequest)|);
        && table.Queues() == AfterRequest(old(table.Queues()), n)
        && packets == old(packets) + (if n == 0 then [] else [LoadPacket(old(table.toRequest)[..n])])
      ensures Snapshot() == RequestPhase(old(Snapshot()), Params())
    {
      var budget := if table.currentChunk in table.chunks then client.maxRequestsPerTick else client.maxRequestsPerTick * 10;
      var n := Min(budget, |table.toRequest|);
      var batch := table.toRequest[..n];
      AfterRequestKeepsQueuesOk(table.Queues(), n);
      var requested := RequestLoop(table.requested, batch);
      table.requested, table.toRequest := requested, table.toRequest[n..];
      if n > 0 {
        packets := packets + [LoadPacket(batch)];
      }
    }

    /**
     * `meshChunk` without the asynchronous build: create and insert the chunk
     * if absent.  Its `getChunk` throws before initialisation.
     */
    method MeshChunk(data: ChunkData) returns (r: Outcome)
      modifies table`chunks, table`order
      ensures !initialized ==> r == Failed(NotInitialized) && unchanged(table)
      ensures initialized ==> r == Done && table.AsTable() == MeshChunkSpec(old(table.AsTable()), data)
    {
      r := InitCheck(false);
      if r != Done {
        return;
      }
      var c := data.Coords();
      if c !in table.chunks {
        table.chunks := table.chunks[c := EMPTY_CHUNK];
        table.order := table.order + [c];
      }
    }

    /**
     * `meshChunks`: sort the queue stably by the comparator, then mesh entries from its
     * front; the wall-clock check after an entry fires once `timeoutAfter`
     * entries are done (after the first when it is 0).  Only `update` calls
     * it, after its `initCheck`; the `getChunk` of `meshChunk` would throw
     * before initialisation.
     */
    method MeshChunks(timeoutAfter: nat)
      requires Valid() && initialized
      modifies table`toProcess, table`requested, table`chunks, table`order
      ensures Valid()
      ensures var sorted := SortPending(old(table.toProcess), table.currentChunk);
        var k := MeshCount(|sorted|, client.maxProcessesPerTick, timeoutAfter);
        && table.toProcess == sorted[k..]
        && table.requested == Unrequest(old(table.requested), Payloads(sorted[..k]))
        && table.AsTable() == MeshAll(old(table.AsTable()), Payloads(sorted[..k]))
      ensures Snapshot() == MeshPhase(old(Snapshot()), Params(), timeoutAfter)
    {
      ghost var t0 := table.AsTable();
      ghost var q0 := table.Queues();
      table.toProcess := SortPending(table.toProcess, table.currentChunk);
      var count, t, requested := MeshLoop(table.toProcess, table.AsTable(), table.requested,
                                          client.maxProcessesPerTick, timeoutAfter);
      MeshAllKeepsTableOk(t0, Payloads(table.toProcess[..count]));
      UnrequestKeepsQueuesOk(q0, Payloads(table.toProcess[..count]));
      table.toProcess := table.toProcess[count..];
      table.requested := requested;
      table.chunks := t.chunks;
      table.order := t.order;
    }

    /** `addChunks`: add a budgeted prefix of `toAdd` to the scene, skipping evicted chunks. */
    method AddChunks()
      requires Valid()
      modifies table`toAdd, table`chunks
      ensures Valid()
      ensures var n := Min(client.maxAddsPerTick, |old(table.toAdd)|);
        && table.toAdd == old(table.toAdd)[n..]
        && table.chunks == MarkAdded(old(table.chunks), old(table.toAdd)[..n])
      ensures Snapshot() == AddPhase(old(Snapshot()), Params())
    {
      var n := Min(client.maxAddsPerTick, |table.toAdd|);
      var batch := table.toAdd[..n];
      NoDupSuffix(table.toAdd, n);
      table.toAdd := table.toAdd[n..];
      var chunks := table.chunks;
      var i := 0;
      while i < n
        invariant 0 <= i <= n
        invariant chunks == MarkAdded(table.chunks, batch[..i])
      {
        assert batch[..i + 1][..i] == batch[..i];
        var c := batch[i];
        if c in chunks {
          chunks := chunks[c := chunks[c].(added := true)];
        }
        i := i + 1;
      }
      assert batch[..n] == batch;
      MarkAddedSpec(table.chunks, batch);
      TableOkSameKeys(table.AsTable(), chunks);
      table.chunks := chunks;
    }

    /**
     * `maintainChunks`: evict every chunk that is too far, in table order, and
     * announce them in one UNLOAD packet.
     */
    method MaintainChunks(far: set<Coord>)
      requires Valid()
      modifies table`chunks, table`order, this`packets
      ensures Valid()
      ensures AppendsAtMostOne(old(packets), packets, 1)
      ensures table.chunks == old(table.chunks) - far
      ensures table.order == Select(old(table.order), far, false)
      ensures var deleted := Select(old(table.order), far, true);
        packets == old(packets) + (if deleted == [] then [] else [UnloadPacket(deleted)])
      ensures Snapshot() == EvictPhase(old(Snapshot()), far)
    {
      var t, deleted := EvictLoop(table.AsTable(), far);
      table.chunks, table.order := t.chunks, t.order;
      if deleted != [] {
        packets := packets + [UnloadPacket(deleted)];
      }
    }

    /**
     * `emitServerUpdates`: drain a budgeted prefix of `toUpdate` in FIFO
     * order, predicting each edit locally, and send them in one UPDATE packet.
     */
    method EmitServerUpdates()
      requires Valid()
      modifies table`toUpdate, table`chunks, this`blockCache, this`packets
      ensures Valid()
      ensures AppendsAtMostOne(old(packets), packets, 2)
      ensures var n := Min(client.maxUpdatesPerTick, |old(table.toUpdate)|);
        var r := EmitAll(EmitState(old(table.chunks), old(blockCache), []), old(table.toUpdate)[..n], server.chunkSize);
        && table.toUpdate == old(table.toUpdate)[n..]
        && table.chunks == r.chunks && blockCache == r.cache
        && packets == old(packets) + (if n == 0 then [] else [UpdatePacket(r.sent)])
      ensures Snapshot() == EmitPhase(old(Snapshot()), Params())
    {
      ghost var f0 := Snapshot();
      var n := Min(client.maxUpdatesPerTick, |table.toUpdate|);
      var batch := table.toUpdate[..n];
      assert forall u :: u in table.toUpdate[n..] ==> u in table.toUpdate;
      var chunks, cache, sent := EmitLoop(table.AsTable(), blockCache, batch, server.chunkSize);
      table.toUpdate := table.toUpdate[n..];
      table.chunks, blockCache := chunks, cache;
      if n > 0 {
        packets := packets + [UpdatePacket(sent)];
      }
      EmitPhaseFromFields(f0, Params(), Snapshot());
    }

    /**
     * `updateVoxels`: queue the accepted edits, normalised, after
     * `initCheck`.
     */
    method UpdateVoxels(updates: seq<BlockUpdate>) returns (r: Outcome)
      requires Valid()
      modifies table`toUpdate
      ensures Valid()
      ensures !initialized ==> r == Failed(NotInitialized) && table.toUpdate == old(table.toUpdate)
      ensures initialized ==> r == Done && table.toUpdate == old(table.toUpdate) + AcceptedUpdates(updates, View())
    {
      r := InitCheck(false);
      if r != Done {
        return;
      }
      table.toUpdate := table.toUpdate + AcceptedUpdates(updates, View());
    }

    /**
     * `updateVoxel`: a batch of one edit, whose omitted (or `undefined`)
     * rotation defaults to `PY_ROTATION` and y-rotation to 0.
     */
    method UpdateVoxel(vx: int, vy: int, vz: int, blockType: nat, rotation: JsNumber, yRotation: JsNumber) returns (r: Outcome)
      requires Valid()
      modifies table`toUpdate
      ensures Valid()
      ensures !initialized ==> r == Failed(NotInitialized) && table.toUpdate == old(table.toUpdate)
      ensures initialized ==>
                && r == Done
                && table.toUpdate == old(table.toUpdate) + AcceptedUpdates([WithDefaults(vx, vy, vz, blockType, rotation, yRotation)], View())
    {
      r := UpdateVoxels([WithDefaults(vx, vy, vz, blockType, rotation, yRotation)]);
    }

    /**
     * `handleServerChunk`: mesh now when urgent (which throws before
     * initialisation), otherwise queue with its arrival time.
     */
    method HandleServerChunk(data: ChunkData, urgent: bool, now: int) returns (r: Outcome)
      modifies table`toProcess, table`chunks, table`order
      ensures urgent && !initialized ==> r == Failed(NotInitialized) && unchanged(table)
      ensures urgent && initialized ==>
                r == Done && table.AsTable() == MeshChunkSpec(old(table.AsTable()), data) && table.toProcess == old(table.toProcess)
      ensures !urgent ==>
                r == Done && table.AsTable() == old(table.AsTable()) && table.toProcess == old(table.toProcess) + [Pending(data, now)]
    {
      if urgent {
        r := MeshChunk(data);
      } else {
        table.toProcess := table.toProcess + [Pending(data, now)];
        r := Done;
      }
    }

    /** The LOAD branch of `onMessage`: every payload is queued, stamped with the message's arrival time. */
    method QueueArrivals(chunks: seq<ChunkData>, now: int)
      modifies table`toProcess, table`chunks, table`order
      ensures table.toProcess == old(table.toProcess) + Arrivals(chunks, now)
      ensures table.AsTable() == old(table.AsTable())
    {
      var i := 0;
      while i < |chunks|
        invariant 0 <= i <= |chunks|
        invariant table.toProcess == old(table.toProcess) + Arrivals(chunks[..i], now)
        invariant table.AsTable() == old(table.AsTable())
      {
        assert chunks[..i + 1][..i] == chunks[..i];
        var _ := HandleServerChunk(chunks[i], false, now);
        i := i + 1;
      }
      assert chunks[..|chunks|] == chunks;
    }

    /**
     * The voxel part of the UPDATE branch of `onMessage`: write each server
     * word into its resident chunk, remembering the id it replaces.
     */
    method ApplyUpdates(updates: seq<ServerUpdate>)
      requires TableOk(table.AsTable())
      modifies table`chunks, this`blockCache
      ensures TableOk(table.AsTable())
      ensures Store(table.chunks, blockCache) == ApplyServerUpdates(Store(old(table.chunks), old(blockCache)), updates, server.chunkSize)
    {
      var chunks: map<Coord, Chunk>, cache: map<Voxel, nat> := table.chunks, blockCache;
      ghost var s0 := Store(chunks, cache);
      var i := 0;
      while i < |updates|
        invariant 0 <= i <= |updates|
        invariant Store(chunks, cache) == ApplyServerUpdates(s0, updates[..i], server.chunkSize)
      {
        assert updates[..i + 1][..i] == updates[..i];
        var u := updates[i];
        var c := ChunkOf(u.Pos(), server.chunkSize);
        if c in chunks {
          var ch := chunks[c];
          var oldId := ExtractId(WordAt(ch, u.Pos()));
          if oldId != ExtractId(u.voxel) {
            cache := cache[u.Pos() := oldId];
          }
          chunks := chunks[c := ch.(voxels := ch.voxels[u.Pos() := u.voxel], lights := ch.lights[u.Pos() := u.light])];
        }
        i := i + 1;
      }
      assert updates[..|updates|] == updates;
      ApplyServerUpdatesKeepsKeys(s0, updates, server.chunkSize);
      TableOkSameKeys(table.AsTable(), chunks);
      table.chunks, blockCache := chunks, cache;
    }

    /**
     * The payload part of the UPDATE branch of `onMessage`: every payload is
     * meshed at once.  Before initialisation the first payload throws.
     */
    method MeshUrgent(chunks: seq<ChunkData>, now: int) returns (r: Outcome)
      modifies table`toProcess, table`chunks, table`order
      ensures !initialized && chunks != [] ==> r == Failed(NotInitialized) && unchanged(table)
      ensures initialized || chunks == [] ==>
                r == Done && table.AsTable() == MeshAll(old(table.AsTable()), chunks) && table.toProcess == old(table.toProcess)
    {
      var j := 0;
      while j < |chunks|
        invariant 0 <= j <= |chunks|
        invariant j > 0 ==> initialized
        invariant table.AsTable() == MeshAll(old(table.AsTable()), chunks[..j])
        invariant table.toProcess == old(table.toProcess)
        invariant unchanged(table`currentChunk, table`requested, table`toRequest, table`toAdd, table`toUpdate)
      {
        assert chunks[..j + 1][..j] == chunks[..j];
        r := HandleServerChunk(chunks[j], true, now);
        if r != Done {
          return;
        }
        j := j + 1;
      }
      assert chunks[..|chunks|] == chunks;
      r := Done;
    }

    /**
     * `onMessage`: INIT stores the initialisation data; LOAD queues every
     * payload; UPDATE applies the server's words (skipping voxels whose chunk
     * is not resident) and then meshes the payloads at once.  Before
     * initialisation an UPDATE carrying updates or payloads throws in the
     * `initCheck` of `getChunk`, before it changes anything.
     */
    method OnMessage(msg: Message, now: int) returns (r: Outcome)
      requires Valid()
      modifies this`initData, this`blockCache, table`toProcess, table`chunks, table`order
      ensures Valid()
      ensures msg.InitMessage? ==>
                r == Done && initData == Some(msg.data) && unchanged(table) && blockCache == old(blockCache)
      ensures msg.LoadMessage? ==>
                && r == Done && table.toProcess == old(table.toProcess) + Arrivals(msg.chunks, now)
                && table.AsTable() == old(table.AsTable()) && blockCache == old(blockCache) && initData == old(initData)
      ensures msg.UpdateMessage? && !initialized && (msg.updates != [] || msg.chunks != []) ==>
                r == Failed(NotInitialized) && unchanged(this) && unchanged(table)
      ensures msg.UpdateMessage? && (initialized || (msg.updates == [] && msg.chunks == [])) ==>
                var s := ApplyServerUpdates(Store(old(table.chunks), old(blockCache)), msg.updates, server.chunkSize);
                && r == Done && blockCache == s.cache && initData == old(initData)
                && table.AsTable() == MeshAll(Table(s.chunks, old(table.order)), msg.chunks)
                && table.toProcess == old(table.toProcess)
      ensures msg.OtherMessage? ==> r == Done && unchanged(this) && unchanged(table)
    {
      match msg {
        case InitMessage(data) =>
          initData := Some(data);
          r := Done;
        case LoadMessage(chunks) =>
          QueueArrivals(chunks, now);
          r := Done;
        case UpdateMessage(updates, chunks) =>
          if !initialized && (updates != [] || chunks != []) {
            return Failed(NotInitialized);
          }
          ApplyUpdates(updates);
          MeshAllKeepsTableOk(table.AsTable(), chunks);
          r := MeshUrgent(chunks, now);
        case OtherMessage =>
          r := Done;
      }
    }

    /**
     * `reset`: empty the table, the request bookkeeping, the processing queue
     * and the previous-id cache, and recentre on chunk (0, 0).  `toAdd` and
     * `toUpdate` are left as they are.
     */
    method Reset()
      requires Valid()
      modifies table`chunks, table`order, table`requested, table`toRequest, table`toProcess, table`currentChunk, this`blockCache
      ensures Valid()
      ensures table.chunks == map[] && table.order == [] && table.requested == map[]
      ensures table.toRequest == [] && table.toProcess == [] && table.currentChunk == Coord(0, 0)
      ensures blockCache == map[]
    {
      table.chunks := map[];
      table.order := [];
      table.requested := map[];
      table.toRequest := [];
      table.toProcess := [];
      table.currentChunk := Coord(0, 0);
      blockCache := map[];
    }

    /**
     * The completion of a chunk's asynchronous `build`: the chunk becomes
     * ready to be added to the scene.
     */
    method FinishBuild(c: Coord)
      requires Valid()
      modifies table`chunks
      ensures Valid()
      ensures table.chunks == MarkReady(old(table.chunks), c)
    {
      TableOkSameKeys(table.AsTable(), MarkReady(table.chunks, c));
      table.chunks := MarkReady(table.chunks, c);
    }

    /**
     * `update`: one frame.  After `initCheck` it recentres, scans (even
     * ticks) or meshes (odd ticks), then adds, requests, evicts and emits.
     */
    method Update(center: Position, scanFuel: nat, meshTimeout: nat, far: set<Coord>) returns (r: Outcome)
      requires Valid()
      modifies table`currentChunk, table`requested, table`toRequest, table`toAdd, table`toProcess,
               table`chunks, table`order, table`toUpdate, this`blockCache, this`packets, this`callTick
      ensures Valid()
      ensures !old(initialized) ==> r == Failed(NotInitialized) && unchanged(this) && unchanged(table)
      ensures old(initialized) ==>
                && r == Done && callTick == old(callTick) + 1
                && Snapshot() == FrameStep(old(Snapshot()), Params(), old(callTick), WorldToVoxel(center), scanFuel, meshTimeout, far)
      ensures old(initialized) && old(callTick) % 2 == 0 ==> table.toProcess == old(table.toProcess)
      ensures old(initialized) ==>
                && |old(packets)| <= |packets| && packets[..|old(packets)|] == old(packets)
                && TickPackets(packets[|old(packets)|..])
    {
      r := InitCheck(false);
      if r != Done {
        return;
      }
      // The source advances `callTick` last; no step of the frame reads it,
      // so advancing it first (and branching on the saved value) is the same.
      var tick := callTick;
      callTick := tick + 1;
      ghost var f0 := Snapshot();
      CalculateCurrChunk(center);
      ghost var f1 := Snapshot();
      if tick % 2 == 0 {
        SurroundChunks(scanFuel);
        assert Snapshot() == ScanPhase(f1, Params(), scanFuel);
      } else {
        MeshChunks(meshTimeout);
        assert Snapshot() == MeshPhase(f1, Params(), meshTimeout);
      }
      ghost var f2 := Snapshot();
      StreamChunks(far);
      assert Snapshot() == StreamPhase(f2, Params(), far);
      FrameByParity(f0, Params(), tick, WorldToVoxel(center), scanFuel, meshTimeout, far);
      FrameSendsOneTick(f0, Params(), tick, WorldToVoxel(center), scanFuel, meshTimeout, far);
    }

    /**
     * The second half of `update`: add, request, evict and emit, in that
     * order, so one frame sends at most one LOAD, then at most one UNLOAD,
     * then at most one UPDATE packet.
     */
    method StreamChunks(far: set<Coord>)
      requires Valid()
      modifies table`requested, table`toRequest, table`toAdd, table`chunks, table`order, table`toUpdate,
               this`blockCache, this`packets
      ensures Valid()
      ensures Snapshot() == StreamPhase(old(Snapshot()), Params(), far)
      ensures |old(packets)| <= |packets| && packets[..|old(packets)|] == old(packets)
      ensures TickPackets(packets[|old(packets)|..])
    {
      AddChunks();
      ghost var p0 := packets;
      RequestChunks();
      ghost var p1 := packets;
      MaintainChunks(far);
      ghost var p2 := packets;
      EmitServerUpdates();
      TickFromSteps(p0, p1, p2, packets);
    }
  }
}
