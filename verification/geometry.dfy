/**
 * Coordinates shared by the client world and the server chunk manager.
 *
 * A chunk is named by its integer column coordinate `(cx, cz)`; the textual
 * chunk name of the client (`getChunkName`/`parseChunkName`) is a bijection
 * with that pair and is represented by the pair itself.
 */
module Geometry {

  datatype Coord = Coord(x: int, z: int)

  datatype Voxel = Voxel(x: int, y: int, z: int)

  /** A value that may be absent (a JavaScript `undefined` or a Rust `None`). */
  datatype Option<T> = None | Some(value: T)

  /** A world-space position (a `Vector3`), with real-valued components. */
  datatype Position = Position(x: real, y: real, z: real)

  /** `mapWorldToVoxel`: the voxel containing a world position, flooring each component. */
  function WorldToVoxel(p: Position): (v: Voxel)
    ensures v.x as real <= p.x < v.x as real + 1.0
    ensures v.y as real <= p.y < v.y as real + 1.0
    ensures v.z as real <= p.z < v.z as real + 1.0
  {
    Voxel(p.x.Floor, p.y.Floor, p.z.Floor)
  }

  /** `mapVoxelToChunk`: floor division of the horizontal voxel coordinates by the chunk size. */
  function ChunkOf(v: Voxel, chunkSize: nat): (c: Coord)
    requires chunkSize > 0
    ensures c.x * chunkSize <= v.x < (c.x + 1) * chunkSize
    ensures c.z * chunkSize <= v.z < (c.z + 1) * chunkSize
  {
    Coord(v.x / chunkSize, v.z / chunkSize)
  }

  /** The voxel's position inside its chunk along x and z. */
  function LocalOf(v: Voxel, chunkSize: nat): (l: Coord)
    requires chunkSize > 0
    ensures 0 <= l.x < chunkSize && 0 <= l.z < chunkSize
    ensures v.x == ChunkOf(v, chunkSize).x * chunkSize + l.x
    ensures v.z == ChunkOf(v, chunkSize).z * chunkSize + l.z
  {
    Coord(v.x % chunkSize, v.z % chunkSize)
  }

  /** Inclusive rectangular world bounds on chunk coordinates. */
  predicate WithinBounds(c: Coord, minChunk: Coord, maxChunk: Coord)
  {
    minChunk.x <= c.x <= maxChunk.x && minChunk.z <= c.z <= maxChunk.z
  }

  predicate NoDup<T(==)>(s: seq<T>)
  {
    forall i, j :: 0 <= i < j < |s| ==> s[i] != s[j]
  }

  lemma NoDupSuffix<T>(s: seq<T>, n: nat)
    requires NoDup(s) && n <= |s|
    ensures NoDup(s[n..])
  {
    forall i, j | 0 <= i < j < |s| - n ensures s[n..][i] != s[n..][j] {
      assert s[n..][i] == s[n + i] && s[n..][j] == s[n + j];
    }
  }

  lemma NoDupAppend<T>(s: seq<T>, x: T)
    requires NoDup(s) && x !in s
    ensures NoDup(s + [x])
  {
  }

  /** The elements of `s` that are in `xs` (when `inside`) or not in `xs` (otherwise), in order. */
  function Select<T>(s: seq<T>, xs: set<T>, inside: bool): (r: seq<T>)
    ensures |r| <= |s|
  {
    if s == [] then []
    else Select(s[..|s| - 1], xs, inside) + (if (s[|s| - 1] in xs) == inside then [s[|s| - 1]] else [])
  }

  /** `idx` picks the elements of `r` out of `s`, at strictly increasing positions of `s`. */
  ghost predicate Picks<T>(idx: seq<int>, r: seq<T>, s: seq<T>)
  {
    |idx| == |r|
    && (forall k :: 0 <= k < |idx| ==> 0 <= idx[k] < |s| && r[k] == s[idx[k]])
    && (forall k, l :: 0 <= k < l < |idx| ==> idx[k] < idx[l])
  }

  lemma PicksSnoc<T>(idx: seq<int>, r: seq<T>, s: seq<T>, x: T, keep: bool)
    requires Picks(idx, r, s)
    ensures Picks(idx + (if keep then [|s|] else []), r + (if keep then [x] else []), s + [x])
  {
    var idx', r', s' := idx + (if keep then [|s|] else []), r + (if keep then [x] else []), s + [x];
    forall k | 0 <= k < |idx'| ensures 0 <= idx'[k] < |s'| && r'[k] == s'[idx'[k]] {
      if k < |idx| {
        assert idx'[k] == idx[k] && r'[k] == r[k] && s'[idx[k]] == s[idx[k]];
      }
    }
  }

  /**
   * Selecting keeps exactly the elements on the chosen side of `xs`, in the
   * order they have in `s`, without introducing duplicates.
   */
  lemma {:induction false} SelectSpec<T>(s: seq<T>, xs: set<T>, inside: bool)
    ensures forall x :: x in Select(s, xs, inside) <==> x in s && (x in xs) == inside
    ensures exists idx :: Picks(idx, Select(s, xs, inside), s)
    ensures NoDup(s) ==> NoDup(Select(s, xs, inside))
  {
    if s == [] {
      assert Picks([], Select(s, xs, inside), s);
    } else {
      var init, last := s[..|s| - 1], s[|s| - 1];
      assert s == init + [last];
      SelectSpec(init, xs, inside);
      var idx :| Picks(idx, Select(init, xs, inside), init);
      PicksSnoc(idx, Select(init, xs, inside), init, last, (last in xs) == inside);
      if NoDup(s) {
        assert NoDup(init) by {
          forall i, j | 0 <= i < j < |init| ensures init[i] != init[j] {
            assert init[i] == s[i] && init[j] == s[j];
          }
        }
        assert last !in init;
      }
    }
  }

  /** Selecting from a concatenation selects from each part and keeps the parts in order. */
  lemma {:induction false} SelectAppend<T>(a: seq<T>, b: seq<T>, xs: set<T>, inside: bool)
    ensures Select(a + b, xs, inside) == Select(a, xs, inside) + Select(b, xs, inside)
  {
    if b == [] {
      assert a + b == a;
    } else {
      var init, last := b[..|b| - 1], b[|b| - 1];
      assert (a + b)[..|a + b| - 1] == a + init;
      assert (a + b)[|a + b| - 1] == last;
      SelectAppend(a, init, xs, inside);
    }
  }

  function Min(a: nat, b: nat): (m: nat)
    ensures m <= a && m <= b && (m == a || m == b)
  {
    if a <= b then a else b
  }
}
