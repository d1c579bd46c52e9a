/**
 * The server's chunk manager (server/world/voxels/chunks.rs, struct
 * `Chunks`): the coordinate-to-chunk map with its guarded accessors, the
 * deduplicating work queues, the neighbour-chunk computations and the
 * `VoxelAccess` reads and writes with their defaults for missing chunks.
 *
 * A chunk's own storage (`Chunk`) is not part of this model beyond what the
 * manager reads and writes through it: its coordinates, status and meshes,
 * and voxel, light and height-map words kept in maps that read 0 where
 * nothing was stored.
 */
module ServerChunks {
  import opened Geometry
  import opened VoxelWord

  type ChunkSize = n: int | n > 0 witness 1

  /** A light level that fits the 4-bit sunlight field of a light word. */
  type LightLevel = l: nat | l < 16

  const USIZE_SPAN: nat := 0x1_0000_0000_0000_0000  // 2^64
  const I32_SPAN: nat := 0x1_0000_0000              // 2^32
  const I32_MAX: nat := 0x7fff_ffff

  type Usize = n: nat | n < USIZE_SPAN

  /** The world settings the manager reads (a part of `WorldConfig`). */
  datatype WorldConfig = WorldConfig(
    chunkSize: ChunkSize,
    maxHeight: Usize,
    maxLightLevel: LightLevel,
    minChunk: Coord,
    maxChunk: Coord)

  datatype ChunkStatus = Generating(stage: nat) | Meshing | Ready

  /** A chunk as the manager sees it; `meshes` are handles whose contents are not modelled. */
  datatype ServerChunk = ServerChunk(
    coords: Coord,
    status: ChunkStatus,
    meshes: seq<nat>,
    voxels: map<Voxel, Word>,
    lights: map<Voxel, Word>,
    heights: map<Coord, Word>)

  function ChunkVoxel(ch: ServerChunk, v: Voxel): Word
  {
    if v in ch.voxels then ch.voxels[v] else 0
  }

  function ChunkLight(ch: ServerChunk, v: Voxel): Word
  {
    if v in ch.lights then ch.lights[v] else 0
  }

  function ChunkHeight(ch: ServerChunk, column: Coord): Word
  {
    if column in ch.heights then ch.heights[column] else 0
  }

  /** A queued voxel entry: a pending update (voxel, new word) or an active voxel (voxel, tick). */
  datatype Entry = Entry(voxel: Voxel, value: nat)

  /** A protocol message type, carried through `to_send` unchanged. */
  datatype MessageType = MessageType(code: nat)

  // ---------------------------------------------------------------------------
  // One entry per voxel: `retain` then push
  // ---------------------------------------------------------------------------

  predicate UniqueVoxels(s: seq<Entry>)
  {
    forall i, j :: 0 <= i < j < |s| ==> s[i].voxel != s[j].voxel
  }

  predicate HasVoxel(s: seq<Entry>, v: Voxel)
  {
    exists i :: 0 <= i < |s| && s[i].voxel == v
  }

  /** `retain(|e| e.voxel != v)`: drop every entry for `v`, keep the rest in order. */
  function Without(s: seq<Entry>, v: Voxel): (r: seq<Entry>)
    ensures |r| <= |s|
  {
    if s == [] then []
    else Without(s[..|s| - 1], v) + (if s[|s| - 1].voxel == v then [] else [s[|s| - 1]])
  }

  /** Dropping the entries for `v` keeps exactly the other entries and introduces no duplicate voxel. */
  lemma {:induction false} WithoutSpec(s: seq<Entry>, v: Voxel)
    ensures forall e :: e in Without(s, v) <==> e in s && e.voxel != v
    ensures UniqueVoxels(s) ==> UniqueVoxels(Without(s, v))
  {
    if s != [] {
      var init := s[..|s| - 1];
      var last := s[|s| - 1];
      assert s == init + [last];
      WithoutSpec(init, v);
      if UniqueVoxels(s) {
        assert UniqueVoxels(init) by {
          forall i, j | 0 <= i < j < |init| ensures init[i].voxel != init[j].voxel {
            assert init[i] == s[i] && init[j] == s[j];
          }
        }
        forall e | e in Without(init, v) ensures e.voxel != last.voxel {
          var i :| 0 <= i < |init| && init[i] == e;
          assert s[i] == e;
        }
      }
    }
  }

  /** When no entry is for `v`, dropping its entries changes nothing. */
  lemma {:induction false} WithoutAbsent(s: seq<Entry>, v: Voxel)
    requires !HasVoxel(s, v)
    ensures Without(s, v) == s
  {
    if s != [] {
      var init := s[..|s| - 1];
      assert !HasVoxel(init, v) by {
        forall i | 0 <= i < |init| ensures init[i].voxel != v {
          assert init[i] == s[i];
        }
      }
      WithoutAbsent(init, v);
      assert s[|s| - 1].voxel != v;
      assert s == init + [s[|s| - 1]];
    }
  }

  /** The queue after `retain` and `push_back` of `(v, x)`. */
  function Requeue(s: seq<Entry>, v: Voxel, x: nat): seq<Entry>
  {
    Without(s, v) + [Entry(v, x)]
  }

  /**
   * Re-queueing leaves one entry for `v`, the new one, at the back; every
   * entry for another voxel is kept; one entry per voxel is preserved.
   */
  lemma RequeueSpec(s: seq<Entry>, v: Voxel, x: nat)
    ensures var r := Requeue(s, v, x);
      && r[|r| - 1] == Entry(v, x)
      && (forall e :: e in r <==> e == Entry(v, x) || (e in s && e.voxel != v))
      && (forall i :: 0 <= i < |r| - 1 ==> r[i].voxel != v)
      && (UniqueVoxels(s) ==> UniqueVoxels(r))
  {
    WithoutSpec(s, v);
    var w := Without(s, v);
    forall i | 0 <= i < |w| ensures w[i].voxel != v {
      assert w[i] in w;
    }
  }

  /** `update_voxels`: each pair in order through `update_voxel`. */
  function RequeueAll(s: seq<Entry>, batch: seq<Entry>): seq<Entry>
  {
    if batch == [] then s
    else var last := batch[|batch| - 1]; Requeue(RequeueAll(s, batch[..|batch| - 1]), last.voxel, last.value)
  }

  /** A batch keeps one entry per voxel, and its last pair ends up at the back. */
  lemma {:induction false} RequeueAllUnique(s: seq<Entry>, batch: seq<Entry>)
    ensures UniqueVoxels(s) ==> UniqueVoxels(RequeueAll(s, batch))
    ensures batch != [] ==> RequeueAll(s, batch)[|RequeueAll(s, batch)| - 1] == batch[|batch| - 1]
  {
    if batch != [] {
      var last := batch[|batch| - 1];
      RequeueAllUnique(s, batch[..|batch| - 1]);
      RequeueSpec(RequeueAll(s, batch[..|batch| - 1]), last.voxel, last.value);
    }
  }

  /** Re-queueing keeps an entry for every voxel that had one and adds one for the new voxel. */
  lemma RequeueKeepsVoxels(s: seq<Entry>, v: Voxel, x: nat)
    ensures HasVoxel(Requeue(s, v, x), v)
    ensures forall u :: HasVoxel(s, u) ==> HasVoxel(Requeue(s, v, x), u)
  {
    var r := Requeue(s, v, x);
    RequeueSpec(s, v, x);
    assert r[|r| - 1].voxel == v;
    forall u | HasVoxel(s, u) ensures HasVoxel(r, u) {
      var i :| 0 <= i < |s| && s[i].voxel == u;
      if u != v {
        assert s[i] in r;
        var k :| 0 <= k < |r| && r[k] == s[i];
      }
    }
  }

  /** After a batch, every voxel of the batch has an entry, and so does each voxel that had one. */
  lemma {:induction false} RequeueAllCovers(s: seq<Entry>, batch: seq<Entry>)
    ensures forall i :: 0 <= i < |batch| ==> HasVoxel(RequeueAll(s, batch), batch[i].voxel)
    ensures forall i :: 0 <= i < |s| ==> HasVoxel(RequeueAll(s, batch), s[i].voxel)
  {
    if batch != [] {
      var init := batch[..|batch| - 1];
      var last := batch[|batch| - 1];
      var prev := RequeueAll(s, init);
      RequeueAllCovers(s, init);
      RequeueKeepsVoxels(prev, last.voxel, last.value);
      forall i | 0 <= i < |batch| ensures HasVoxel(RequeueAll(s, batch), batch[i].voxel) {
        if i < |init| {
          assert init[i] == batch[i];
        }
      }
    }
  }

  // ---------------------------------------------------------------------------
  // Neighbour chunks
  // ---------------------------------------------------------------------------

  /** The coordinates of `cs` that pass `is_within_world`, in order. */
  function KeepInWorld(cs: seq<Coord>, config: WorldConfig): (r: seq<Coord>)
    ensures |r| <= |cs|
  {
    if cs == [] then []
    else
      KeepInWorld(cs[..|cs| - 1], config)
      + (if WithinBounds(cs[|cs| - 1], config.minChunk, config.maxChunk) then [cs[|cs| - 1]] else [])
  }

  lemma {:induction false} KeepInWorldSpec(cs: seq<Coord>, config: WorldConfig)
    ensures forall c :: c in KeepInWorld(cs, config) <==> c in cs && WithinBounds(c, config.minChunk, config.maxChunk)
  {
    if cs != [] {
      var init := cs[..|cs| - 1];
      assert cs == init + [cs[|cs| - 1]];
      KeepInWorldSpec(init, config);
    }
  }

  /**
   * The pushes of `voxel_affected_chunks`, in order: the own chunk, the four
   * sides whose local coordinate is on that edge, then the four corners
   * whose two sides both apply.
   */
  function AffectedCandidates(own: Coord, local: Coord, chunkSize: int): seq<Coord>
  {
    var a, b, c, d := local.x == 0, local.z == 0, local.x == chunkSize - 1, local.z == chunkSize - 1;
    [own]
    + (if a then [Coord(own.x - 1, own.z)] else [])
    + (if b then [Coord(own.x, own.z - 1)] else [])
    + (if c then [Coord(own.x + 1, own.z)] else [])
    + (if d then [Coord(own.x, own.z + 1)] else [])
    + (if a && b then [Coord(own.x - 1, own.z - 1)] else [])
    + (if a && d then [Coord(own.x - 1, own.z + 1)] else [])
    + (if b && c then [Coord(own.x + 1, own.z - 1)] else [])
    + (if c && d then [Coord(own.x + 1, own.z + 1)] else [])
  }

  /**
   * Along one axis, a chunk offset `delta` is affected by a voxel at local
   * coordinate `local`: the own column, or the neighbour across the edge the
   * voxel lies on.
   */
  predicate Touches(local: int, delta: int, chunkSize: int)
  {
    delta == 0 || (delta == -1 && local == 0) || (delta == 1 && local == chunkSize - 1)
  }

  /** A candidate is pushed exactly when, along both axes, its offset touches the voxel's local position. */
  lemma AffectedCandidatesMembers(own: Coord, local: Coord, chunkSize: int)
    ensures forall c :: c in AffectedCandidates(own, local, chunkSize) <==>
      Touches(local.x, c.x - own.x, chunkSize) && Touches(local.z, c.z - own.z, chunkSize)
  {
  }

  /** The in-world candidates are exactly the in-world chunks that touch the voxel along both axes. */
  lemma AffectedInWorld(own: Coord, local: Coord, config: WorldConfig)
    ensures forall c :: c in KeepInWorld(AffectedCandidates(own, local, config.chunkSize), config) <==>
      && WithinBounds(c, config.minChunk, config.maxChunk)
      && Touches(local.x, c.x - own.x, config.chunkSize)
      && Touches(local.z, c.z - own.z, config.chunkSize)
  {
    AffectedCandidatesMembers(own, local, config.chunkSize);
    KeepInWorldSpec(AffectedCandidates(own, local, config.chunkSize), config);
  }

  /** With chunks at least two voxels wide a voxel lies on at most one x edge and one z edge. */
  lemma AffectedCandidatesAtMostFour(own: Coord, local: Coord, chunkSize: int)
    requires chunkSize >= 2
    ensures |AffectedCandidates(own, local, chunkSize)| <= 4
  {
  }

  /** Ceiling division, the integer value of `(a as f32 / b as f32).ceil()`. */
  function CeilDiv(a: nat, b: ChunkSize): (q: nat)
    ensures q * b >= a
    ensures q == 0 || (q - 1) * b < a
  {
    (a + b - 1) / b
  }

  /** `a` comes before `b` in the row-major (x, then z) order of a scan. */
  predicate LexBefore(a: Coord, b: Coord)
  {
    a.x < b.x || (a.x == b.x && a.z < b.z)
  }

  /** `c` lies in the square of half-width `r` around `center`. */
  predicate InSquare(c: Coord, center: Coord, r: int)
  {
    center.x - r <= c.x <= center.x + r && center.z - r <= c.z <= center.z + r
  }

  // ---------------------------------------------------------------------------
  // `VoxelAccess` arithmetic
  // ---------------------------------------------------------------------------

  /** `vy as usize` for an `i32`: a negative value sign-extends and wraps to 2^64 + vy. */
  function AsUsize(vy: int): (n: nat)
    requires -0x8000_0000 <= vy
    ensures vy >= 0 ==> n == vy
    ensures vy < 0 ==> n >= USIZE_SPAN - 0x8000_0000
  {
    if vy < 0 then USIZE_SPAN + vy else vy
  }

  /** `n as i32` for a `usize`: keep the low 32 bits, read them as two's complement. */
  function AsI32(n: Usize): (r: int)
    ensures -0x8000_0000 <= r <= I32_MAX
    ensures n <= I32_MAX ==> r == n
  {
    var low := n % I32_SPAN;
    if low > I32_MAX then low - I32_SPAN else low
  }

  class Chunks {
    /** `map`: chunk coordinates to chunks. */
    var chunkMap: map<Coord, ServerChunk>
    /** `updates`: voxel updates waiting to be processed, oldest first. */
    var updates: seq<Entry>
    /** `to_send`: chunks ready to be sent, with their message type. */
    var toSend: seq<(Coord, MessageType)>
    /** `to_save`: chunks ready to be saved. */
    var toSave: seq<Coord>
    /** `active_voxels`: voxels with the tick they become active at. */
    var activeVoxels: seq<Entry>
    /** `listeners`: for a chunk, the chunks waiting on it. */
    var listeners: map<Coord, seq<Coord>>
    /** `cache`: the chunks borrowed mutably since the last `clear_cache`. */
    var cache: set<Coord>
    const config: WorldConfig

    /**
     * `new` without the save folder: every collection starts empty, so
     * every chunk is stored at its own coordinates and the queues hold no
     * duplicates; each method below keeps the one of these it touches.
     */
    constructor(config: WorldConfig)
      ensures this.config == config
      ensures MapOk() && UniqueVoxels(updates) && UniqueVoxels(activeVoxels) && NoDup(toSave)
      ensures chunkMap == map[] && updates == [] && toSend == [] && toSave == []
      ensures activeVoxels == [] && listeners == map[] && cache == {}
    {
      this.config := config;
      chunkMap := map[];
      updates := [];
      toSend := [];
      toSave := [];
      activeVoxels := [];
      listeners := map[];
      cache := {};
    }

    ghost predicate MapOk()
      reads this`chunkMap
    {
      forall c :: c in chunkMap ==> chunkMap[c].coords == c
    }

    /** `is_within_world`: inclusive on both corners. */
    predicate IsWithinWorld(c: Coord): (r: bool)
      ensures r <==> config.minChunk.x <= c.x <= config.maxChunk.x && config.minChunk.z <= c.z <= config.maxChunk.z
    {
      WithinBounds(c, config.minChunk, config.maxChunk)
    }

    /** `raw`: the chunk at `c`, if `c` is inside the world and present. */
    function Raw(c: Coord): (r: Option<ServerChunk>)
      reads this`chunkMap
      ensures r.Some? <==> IsWithinWorld(c) && c in chunkMap
      ensures r.Some? ==> r.value == chunkMap[c]
    {
      if !IsWithinWorld(c) then None
      else if c in chunkMap then Some(chunkMap[c])
      else None
    }

    /** `is_chunk_ready`: a raw chunk exists and its status is `Ready`. */
    predicate IsChunkReady(c: Coord): (r: bool)
      reads this`chunkMap
      ensures r <==> IsWithinWorld(c) && c in chunkMap && chunkMap[c].status == Ready
    {
      match Raw(c)
      case Some(ch) => ch.status == Ready
      case None => false
    }

    /** `get`: like `raw`, and only for a chunk that is ready. */
    function Get(c: Coord): (r: Option<ServerChunk>)
      reads this`chunkMap
      ensures r.Some? <==> IsWithinWorld(c) && c in chunkMap && chunkMap[c].status == Ready
      ensures r.Some? ==> r == Raw(c)
    {
      if !IsWithinWorld(c) || !IsChunkReady(c) then None
      else Some(chunkMap[c])
    }

    /**
     * `raw_mut`: `raw`, recording `c` as borrowed whenever it is inside the
     * world (whether or not a chunk is there).
     */
    method RawMut(c: Coord) returns (r: Option<ServerChunk>)
      modifies this`cache
      ensures r == Raw(c)
      ensures cache == if IsWithinWorld(c) then old(cache) + {c} else old(cache)
    {
      if !IsWithinWorld(c) {
        return None;
      }
      cache := cache + {c};
      r := if c in chunkMap then Some(chunkMap[c]) else None;
    }

    /** `get_mut`: `get`, recording `c` as borrowed only when the chunk is ready. */
    method GetMut(c: Coord) returns (r: Option<ServerChunk>)
      modifies this`cache
      ensures r == Get(c)
      ensures cache == if r.Some? then old(cache) + {c} else old(cache)
    {
      if !IsWithinWorld(c) || !IsChunkReady(c) {
        return None;
      }
      cache := cache + {c};
      r := if c in chunkMap then Some(chunkMap[c]) else None;
    }

    /** `clear_cache`. */
    method ClearCache()
      modifies this`cache
      ensures cache == {}
    {
      cache := {};
    }

    /**
     * `renew`: with `renewMeshOnly`, an existing chunk at the new chunk's
     * coordinates takes over only its meshes and status (nothing is inserted
     * when there is none); otherwise the new chunk replaces whatever was
     * there.
     */
    method Renew(chunk: ServerChunk, renewMeshOnly: bool)
      requires MapOk()
      modifies this`chunkMap
      ensures MapOk()
      ensures renewMeshOnly && chunk.coords in old(chunkMap) ==>
        chunkMap == old(chunkMap)[chunk.coords := old(chunkMap)[chunk.coords].(meshes := chunk.meshes, status := chunk.status)]
      ensures renewMeshOnly && chunk.coords !in old(chunkMap) ==> chunkMap == old(chunkMap)
      ensures !renewMeshOnly ==> chunkMap == old(chunkMap)[chunk.coords := chunk]
    {
      if renewMeshOnly {
        if chunk.coords in chunkMap {
          var oldChunk := chunkMap[chunk.coords];
          chunkMap := chunkMap - {chunk.coords};
          oldChunk := oldChunk.(meshes := chunk.meshes, status := chunk.status);
          chunkMap := chunkMap[chunk.coords := oldChunk];
        }
        return;
      }
      chunkMap := chunkMap - {chunk.coords};
      chunkMap := chunkMap[chunk.coords := chunk];
    }

    /** `add`: `renew(chunk, false)`. */
    method Add(chunk: ServerChunk)
      requires MapOk()
      modifies this`chunkMap
      ensures MapOk()
      ensures chunkMap == old(chunkMap)[chunk.coords := chunk]
    {
      Renew(chunk, false);
    }

    /**
     * `voxel_affected_chunks`: the voxel's own chunk and the neighbours
     * across the chunk edges it lies on, kept only when inside the world.
     */
    function VoxelAffectedChunks(v: Voxel): seq<Coord>
    {
      var own := ChunkOf(v, config.chunkSize);
      var local := LocalOf(v, config.chunkSize);
      KeepInWorld(AffectedCandidates(own, local, config.chunkSize), config)
    }

    /**
     * A chunk is affected exactly when it is inside the world and, along
     * both axes, it is the own chunk or the neighbour across the edge the
     * voxel lies on.
     */
    lemma VoxelAffectedChunksSpec(v: Voxel)
      ensures var own := ChunkOf(v, config.chunkSize);
        var local := LocalOf(v, config.chunkSize);
        forall c :: c in VoxelAffectedChunks(v) <==>
          && IsWithinWorld(c)
          && Touches(local.x, c.x - own.x, config.chunkSize)
          && Touches(local.z, c.z - own.z, config.chunkSize)
      ensures IsWithinWorld(ChunkOf(v, config.chunkSize)) ==> ChunkOf(v, config.chunkSize) in VoxelAffectedChunks(v)
    {
      AffectedInWorld(ChunkOf(v, config.chunkSize), LocalOf(v, config.chunkSize), config);
    }

    /** With chunks at least two voxels wide, at most four chunks are affected. */
    lemma VoxelAffectedChunksAtMostFour(v: Voxel)
      requires config.chunkSize >= 2
      ensures |VoxelAffectedChunks(v)| <= 4
    {
      AffectedCandidatesAtMostFour(ChunkOf(v, config.chunkSize), LocalOf(v, config.chunkSize), config.chunkSize);
    }

    /** Every affected chunk is inside the world and within one chunk of the voxel's own. */
    lemma AffectedChunksAreNear(v: Voxel, c: Coord)
      requires c in VoxelAffectedChunks(v)
      ensures IsWithinWorld(c)
      ensures -1 <= c.x - ChunkOf(v, config.chunkSize).x <= 1 && -1 <= c.z - ChunkOf(v, config.chunkSize).z <= 1
    {
      VoxelAffectedChunksSpec(v);
    }

    /**
     * `light_traversed_chunks`: the in-world chunks of the square of
     * half-width `ceil(max_light_level / chunk_size)` around `coords`, in
     * row-major order.
     */
    method LightTraversedChunks(coords: Coord) returns (list: seq<Coord>)
      ensures var extended := CeilDiv(config.maxLightLevel, config.chunkSize);
        forall c :: c in list <==> IsWithinWorld(c) && InSquare(c, coords, extended)
      ensures forall i, j :: 0 <= i < j < |list| ==> LexBefore(list[i], list[j])
      ensures NoDup(list)
    {
      var extended: int := CeilDiv(config.maxLightLevel, config.chunkSize);
      list := [];
      var x := -extended;
      while x <= extended
        invariant -extended <= x <= extended + 1
        invariant forall c :: c in list <==> IsWithinWorld(c) && InSquare(c, coords, extended) && c.x < coords.x + x
        invariant forall i, j :: 0 <= i < j < |list| ==> LexBefore(list[i], list[j])
        decreases extended - x
      {
        var z := -extended;
        while z <= extended
          invariant -extended <= z <= extended + 1
          invariant forall c :: c in list <==>
            IsWithinWorld(c) && InSquare(c, coords, extended) && LexBefore(c, Coord(coords.x + x, coords.z + z))
          invariant forall i, j :: 0 <= i < j < |list| ==> LexBefore(list[i], list[j])
          decreases extended - z
        {
          var n := Coord(coords.x + x, coords.z + z);
          if IsWithinWorld(n) {
            forall i | 0 <= i < |list| ensures LexBefore(list[i], n) {
              assert list[i] in list;
            }
            list := list + [n];
          }
          z := z + 1;
        }
        x := x + 1;
      }
      forall i, j | 0 <= i < j < |list| ensures list[i] != list[j] {
        assert LexBefore(list[i], list[j]);
      }
    }

    /** `update_voxel`: drop any pending update of the voxel, then queue the new one at the back. */
    method UpdateVoxel(v: Voxel, value: Word)
      requires UniqueVoxels(updates)
      modifies this`updates
      ensures UniqueVoxels(updates)
      ensures updates == Requeue(old(updates), v, value)
    {
      RequeueSpec(updates, v, value);
      updates := Without(updates, v);
      updates := updates + [Entry(v, value)];
    }

    /** `update_voxels`: `update_voxel` on each pair in order. */
    method UpdateVoxels(voxels: seq<Entry>)
      requires UniqueVoxels(updates)
      requires forall i :: 0 <= i < |voxels| ==> voxels[i].value < WORD_SPAN
      modifies this`updates
      ensures UniqueVoxels(updates)
      ensures updates == RequeueAll(old(updates), voxels)
    {
      var i := 0;
      while i < |voxels|
        invariant 0 <= i <= |voxels|
        invariant UniqueVoxels(updates)
        invariant updates == RequeueAll(old(updates), voxels[..i])
      {
        assert voxels[..i + 1][..i] == voxels[..i];
        UpdateVoxel(voxels[i].voxel, voxels[i].value);
        i := i + 1;
      }
      assert voxels[..|voxels|] == voxels;
    }

    /** `mark_voxel_active`: the voxel's earlier activation, if any, is replaced by the new one at the back. */
    method MarkVoxelActive(v: Voxel, activeAt: nat)
      requires UniqueVoxels(activeVoxels)
      modifies this`activeVoxels
      ensures UniqueVoxels(activeVoxels)
      ensures activeVoxels == Requeue(old(activeVoxels), v, activeAt)
    {
      RequeueSpec(activeVoxels, v, activeAt);
      if HasVoxel(activeVoxels, v) {
        activeVoxels := Without(activeVoxels, v);
      } else {
        WithoutAbsent(activeVoxels, v);
      }
      activeVoxels := activeVoxels + [Entry(v, activeAt)];
    }

    /** `add_chunk_to_save`: queue `c` once, at the front when prioritised, at the back otherwise. */
    method AddChunkToSave(c: Coord, prioritized: bool)
      requires NoDup(toSave)
      modifies this`toSave
      ensures NoDup(toSave)
      ensures c in old(toSave) ==> toSave == old(toSave)
      ensures c !in old(toSave) && prioritized ==> toSave == [c] + old(toSave)
      ensures c !in old(toSave) && !prioritized ==> toSave == old(toSave) + [c]
      ensures forall d :: d in toSave <==> d == c || d in old(toSave)
    {
      if c !in toSave {
        if prioritized {
          toSave := [c] + toSave;
          forall i, j | 0 <= i < j < |toSave| ensures toSave[i] != toSave[j] {
            if i > 0 {
              assert toSave[i] == old(toSave)[i - 1] && toSave[j] == old(toSave)[j - 1];
            }
          }
        } else {
          toSave := toSave + [c];
        }
      }
    }

    /** `add_chunk_to_send`: queue `c` with its message type, at the front or back, without deduplication. */
    method AddChunkToSend(c: Coord, messageType: MessageType, prioritized: bool)
      modifies this`toSend
      ensures prioritized ==> toSend == [(c, messageType)] + old(toSend)
      ensures !prioritized ==> toSend == old(toSend) + [(c, messageType)]
      ensures |toSend| == |old(toSend)| + 1
    {
      if prioritized {
        toSend := [(c, messageType)] + toSend;
      } else {
        toSend := toSend + [(c, messageType)];
      }
    }

    /** `add_listener`: append `listener` to the chunks waiting on `c`. */
    method AddListener(c: Coord, listener: Coord)
      modifies this`listeners
      ensures c in listeners
      ensures listeners[c] == (if c in old(listeners) then old(listeners)[c] else []) + [listener]
      ensures forall d :: d != c ==> (d in listeners <==> d in old(listeners))
      ensures forall d :: d != c && d in listeners ==> listeners[d] == old(listeners)[d]
    {
      var waiting := if c in listeners then listeners[c] else [];
      listeners := listeners - {c};
      waiting := waiting + [listener];
      listeners := listeners[c := waiting];
    }

    /** `raw_chunk_by_voxel`: the raw chunk holding the voxel. */
    function RawChunkByVoxel(v: Voxel): (r: Option<ServerChunk>)
      reads this`chunkMap
      ensures r.Some? <==> IsWithinWorld(ChunkOf(v, config.chunkSize)) && ChunkOf(v, config.chunkSize) in chunkMap
      ensures r.Some? ==> r.value == chunkMap[ChunkOf(v, config.chunkSize)]
      ensures MapOk() && r.Some? ==> r.value.coords == ChunkOf(v, config.chunkSize)
    {
      Raw(ChunkOf(v, config.chunkSize))
    }

    /** `contains`: a raw chunk holds the voxel. */
    predicate Contains(v: Voxel): (r: bool)
      reads this`chunkMap
      ensures r <==> IsWithinWorld(ChunkOf(v, config.chunkSize)) && ChunkOf(v, config.chunkSize) in chunkMap
    {
      RawChunkByVoxel(v).Some?
    }

    /** `get_raw_voxel`: the chunk's word, or 0 when no chunk holds the voxel. */
    function GetRawVoxel(v: Voxel): (w: Word)
      reads this`chunkMap
      ensures !Contains(v) ==> w == 0
      ensures Contains(v) ==> w == ChunkVoxel(chunkMap[ChunkOf(v, config.chunkSize)], v)
    {
      match RawChunkByVoxel(v)
      case Some(ch) => ChunkVoxel(ch, v)
      case None => 0
    }

    /**
     * `get_raw_light`: above the world, and below it since `vy as usize`
     * wraps a negative height, the word of full sunlight; otherwise the
     * chunk's word, or 0 when no chunk holds the voxel.
     */
    function GetRawLight(v: Voxel): (w: Word)
      requires -0x8000_0000 <= v.y
      reads this`chunkMap
      ensures v.y >= config.maxHeight ==> w == SunlightOnly(config.maxLightLevel)
      ensures v.y < 0 && config.maxHeight <= USIZE_SPAN - 0x8000_0000 ==> w == SunlightOnly(config.maxLightLevel)
      ensures 0 <= v.y < config.maxHeight && !Contains(v) ==> w == 0
      ensures 0 <= v.y < config.maxHeight && Contains(v) ==> w == ChunkLight(chunkMap[ChunkOf(v, config.chunkSize)], v)
    {
      if AsUsize(v.y) >= config.maxHeight then SunlightOnly(config.maxLightLevel)
      else
        match RawChunkByVoxel(v)
        case Some(ch) => ChunkLight(ch, v)
        case None => 0
    }

    /**
     * `get_sunlight`: at or above `max_height as i32`, full sunlight; with no
     * chunk, darkness below 0 and full sunlight otherwise; else the sunlight
     * level of the chunk's light word.
     */
    function GetSunlight(v: Voxel): (s: nat)
      reads this`chunkMap
      ensures v.y >= AsI32(config.maxHeight) ==> s == config.maxLightLevel
      ensures v.y < AsI32(config.maxHeight) && !Contains(v) ==> s == (if v.y < 0 then 0 else config.maxLightLevel)
      ensures v.y < AsI32(config.maxHeight) && Contains(v) ==>
        s == ExtractSunlight(ChunkLight(chunkMap[ChunkOf(v, config.chunkSize)], v))
      ensures s <= config.maxLightLevel || Contains(v)
    {
      if v.y >= AsI32(config.maxHeight) then config.maxLightLevel
      else
        match RawChunkByVoxel(v)
        case Some(ch) => ExtractSunlight(ChunkLight(ch, v))
        case None => if v.y < 0 then 0 else config.maxLightLevel
    }

    /** `get_max_height`: the chunk's height-map word for the column, or 0 when no chunk holds it. */
    function GetMaxHeight(vx: int, vz: int): (h: Word)
      reads this`chunkMap
      ensures !Contains(Voxel(vx, 0, vz)) ==> h == 0
      ensures Contains(Voxel(vx, 0, vz)) ==> h == ChunkHeight(chunkMap[ChunkOf(Voxel(vx, 0, vz), config.chunkSize)], Coord(vx, vz))
    {
      match RawChunkByVoxel(Voxel(vx, 0, vz))
      case Some(ch) => ChunkHeight(ch, Coord(vx, vz))
      case None => 0
    }

    /**
     * `add_updated_level_at` as far as the manager is concerned: every
     * affected chunk is borrowed mutably; what the chunk records is not
     * modelled.
     */
    method AddUpdatedLevelAt(v: Voxel)
      modifies this`cache
      ensures cache == old(cache) + set c | c in VoxelAffectedChunks(v)
    {
      var affected := VoxelAffectedChunks(v);
      var i := 0;
      while i < |affected|
        invariant 0 <= i <= |affected|
        invariant cache == old(cache) + set c | c in affected[..i]
      {
        var c := affected[i];
        assert IsWithinWorld(c) by {
          KeepInWorldSpec(AffectedCandidates(ChunkOf(v, config.chunkSize), LocalOf(v, config.chunkSize), config.chunkSize), config);
        }
        var _ := RawMut(c);
        assert affected[..i + 1] == affected[..i] + [c];
        i := i + 1;
      }
      assert affected[..|affected|] == affected;
    }

    /**
     * `set_raw_voxel`: write the word into the voxel's chunk and borrow the
     * affected chunks; `false`, with no chunk changed, when no chunk holds
     * the voxel.
     */
    method SetRawVoxel(v: Voxel, id: Word) returns (ok: bool)
      requires MapOk()
      modifies this`chunkMap, this`cache
      ensures MapOk()
      ensures ok == old(Contains(v))
      ensures ok ==> GetRawVoxel(v) == id
      ensures forall w :: w != v ==> GetRawVoxel(w) == old(GetRawVoxel(w))
      ensures var c := ChunkOf(v, config.chunkSize);
        ok ==> chunkMap == old(chunkMap)[c := old(chunkMap)[c].(voxels := old(chunkMap)[c].voxels[v := id])]
      ensures !ok ==> chunkMap == old(chunkMap)
      ensures chunkMap.Keys == old(chunkMap.Keys)
      ensures var c := ChunkOf(v, config.chunkSize);
        cache == old(cache) + (if IsWithinWorld(c) then {c} else {}) + (if ok then set a | a in VoxelAffectedChunks(v) else {})
    {
      var c := ChunkOf(v, config.chunkSize);
      var chunk := RawMut(c);
      if chunk.Some? {
        chunkMap := chunkMap[c := chunk.value.(voxels := chunk.value.voxels[v := id])];
        AddUpdatedLevelAt(v);
        return true;
      }
      return false;
    }

    /**
     * `set_raw_light`: write the word into the voxel's chunk and borrow the
     * affected chunks; `false`, with no chunk changed, when no chunk holds
     * the voxel.
     */
    method SetRawLight(v: Voxel, level: Word) returns (ok: bool)
      requires MapOk()
      modifies this`chunkMap, this`cache
      ensures MapOk()
      ensures ok == old(Contains(v))
      ensures ok ==> Contains(v) && ChunkLight(chunkMap[ChunkOf(v, config.chunkSize)], v) == level
      ensures forall w :: w != v && old(Contains(w)) ==>
        Contains(w) && ChunkLight(chunkMap[ChunkOf(w, config.chunkSize)], w) == old(ChunkLight(chunkMap[ChunkOf(w, config.chunkSize)], w))
      ensures var c := ChunkOf(v, config.chunkSize);
        ok ==> chunkMap == old(chunkMap)[c := old(chunkMap)[c].(lights := old(chunkMap)[c].lights[v := level])]
      ensures !ok ==> chunkMap == old(chunkMap)
      ensures chunkMap.Keys == old(chunkMap.Keys)
      ensures var c := ChunkOf(v, config.chunkSize);
        cache == old(cache) + (if IsWithinWorld(c) then {c} else {}) + (if ok then set a | a in VoxelAffectedChunks(v) else {})
    {
      var c := ChunkOf(v, config.chunkSize);
      var chunk := RawMut(c);
      if chunk.Some? {
        chunkMap := chunkMap[c := chunk.value.(lights := chunk.value.lights[v := level])];
        AddUpdatedLevelAt(v);
        return true;
      }
      return false;
    }

    /**
     * `set_max_height`: write the column's height into its chunk; `false`,
     * with no chunk changed, when no chunk holds the column.
     */
    method SetMaxHeight(vx: int, vz: int, height: Word) returns (ok: bool)
      requires MapOk()
      modifies this`chunkMap, this`cache
      ensures MapOk()
      ensures ok == old(Contains(Voxel(vx, 0, vz)))
      ensures ok ==> GetMaxHeight(vx, vz) == height
      ensures var c := ChunkOf(Voxel(vx, 0, vz), config.chunkSize);
        ok ==> chunkMap == old(chunkMap)[c := old(chunkMap)[c].(heights := old(chunkMap)[c].heights[Coord(vx, vz) := height])]
      ensures !ok ==> chunkMap == old(chunkMap)
      ensures chunkMap.Keys == old(chunkMap.Keys)
      ensures var c := ChunkOf(Voxel(vx, 0, vz), config.chunkSize);
        cache == if IsWithinWorld(c) then old(cache) + {c} else old(cache)
    {
      var c := ChunkOf(Voxel(vx, 0, vz), config.chunkSize);
      var chunk := RawMut(c);
      if chunk.Some? {
        chunkMap := chunkMap[c := chunk.value.(heights := chunk.value.heights[Coord(vx, vz) := height])];
        return true;
      }
      return false;
    }
  }
}
