/**
 * The voxel path-finding rules of the example server
 * (examples/server/worlds/shared/systems/path_finding.rs): which voxels a
 * body can stand on, where a body at a position comes to stand, the moves
 * the A* search may take from a node with their costs, the cap on the number
 * of expansions, and which search results are kept as the entity's path.
 *
 * Whether a voxel is passable (its block is passable or a fluid) is read
 * from the world; here it is given as the set of voxels that are NOT
 * passable.
 */
module PathFinding {
  import opened Geometry

  /** `MAX_DEPTH_SEARCH`: expansions after which the successor function returns nothing. */
  const MAX_DEPTH_SEARCH: int := 2048

  const I32_MIN: int := -0x8000_0000
  const I32_MAX: int := 0x7fff_ffff

  /** The world as the search sees it: the voxels whose block is neither passable nor a fluid. */
  datatype Terrain = Terrain(solid: set<Voxel>)

  /** `get_is_voxel_passable`. */
  predicate Passable(t: Terrain, v: Voxel)
  {
    v !in t.solid
  }

  function Offset(v: Voxel, dx: int, dy: int, dz: int): Voxel
  {
    Voxel(v.x + dx, v.y + dy, v.z + dz)
  }

  /**
   * `walkable(v, h)` with the body height already rounded up: `v` is solid
   * and the `height` voxels directly above it are all passable.
   */
  predicate Walkable(t: Terrain, v: Voxel, height: nat)
  {
    !Passable(t, v) && forall k :: 1 <= k <= height ==> Passable(t, Offset(v, 0, k, 0))
  }

  /** The loop of `walkable`, returning at the first voxel that blocks. */
  method IsWalkable(t: Terrain, v: Voxel, height: nat) returns (r: bool)
    ensures r == Walkable(t, v, height)
  {
    if Passable(t, v) {
      return false;
    }
    var i := 1;
    while i < height + 1
      invariant 1 <= i <= height + 1
      invariant forall k :: 1 <= k < i ==> Passable(t, Offset(v, 0, k, 0))
    {
      if !Passable(t, Offset(v, 0, i, 0)) {
        return false;
      }
      i := i + 1;
    }
    return true;
  }

  /** A voxel a body can come to rest on while descending: not at height 0 and not passable. */
  predicate Support(t: Terrain, x: int, y: int, z: int)
  {
    y != 0 && !Passable(t, Voxel(x, y, z))
  }

  /**
   * `get_standable_voxel`: descend from `v` past height 0 and past passable
   * voxels to the first support, and stand on top of it.  Descending below
   * `i32::MIN`, or stepping above `i32::MAX` on top of the support,
   * overflows, which is `None` here.
   */
  method GetStandableVoxel(t: Terrain, v: Voxel) returns (r: Option<Voxel>)
    requires I32_MIN <= v.y <= I32_MAX
    ensures r.Some? ==>
      && r.value.x == v.x && r.value.z == v.z
      && I32_MIN < r.value.y <= v.y + 1
      && Support(t, v.x, r.value.y - 1, v.z)
      && forall y :: r.value.y - 1 < y <= v.y ==> !Support(t, v.x, y, v.z)
    ensures r.None? ==>
      || (forall y :: I32_MIN <= y <= v.y ==> !Support(t, v.x, y, v.z))
      || (v.y == I32_MAX && Support(t, v.x, I32_MAX, v.z))
  {
    var y := v.y;
    while y == 0 || Passable(t, Voxel(v.x, y, v.z))
      invariant I32_MIN <= y <= v.y
      invariant forall y' :: y < y' <= v.y ==> !Support(t, v.x, y', v.z)
      decreases y - I32_MIN
    {
      if y == I32_MIN {
        return None;
      }
      y := y - 1;
    }
    if y == I32_MAX {
      return None;
    }
    r := Some(Voxel(v.x, y + 1, v.z));
  }

  /** A move of the search: the node reached and its cost. */
  datatype Move = Move(node: Voxel, cost: nat)

  /** The "emptiness" flag of an offset: a body could not stand there. */
  predicate Empty(t: Terrain, n: Voxel, height: nat, dx: int, dy: int, dz: int)
  {
    !Walkable(t, Offset(n, dx, dy, dz), height)
  }

  /**
   * The move in a cardinal direction: level at cost 1 when the voxel ahead
   * and one down can be stood on; else one up at cost 2 when the voxel
   * ahead can be stood on and the one above the node is empty; else one
   * down at cost 2 when the voxel ahead and two down can be stood on and the
   * one ahead is empty.
   */
  function CardinalMove(t: Terrain, n: Voxel, height: nat, dx: int, dz: int): seq<Move>
  {
    if Walkable(t, Offset(n, dx, -1, dz), height) then [Move(Offset(n, dx, 0, dz), 1)]
    else if Walkable(t, Offset(n, dx, 0, dz), height) && Empty(t, n, height, 0, 1, 0) then [Move(Offset(n, dx, 1, dz), 2)]
    else if Walkable(t, Offset(n, dx, -2, dz), height) && Empty(t, n, height, dx, 0, dz) then [Move(Offset(n, dx, -1, dz), 2)]
    else []
  }

  /**
   * The move in a diagonal direction: like a cardinal move, at costs 2, 3
   * and 3, and only when both flanking cardinal cells are empty (at the
   * node's level for a level or downward move, one up for an upward move).
   */
  function DiagonalMove(t: Terrain, n: Voxel, height: nat, dx: int, dz: int): seq<Move>
  {
    var flanks := Empty(t, n, height, dx, 0, 0) && Empty(t, n, height, 0, 0, dz);
    var flanksUp := Empty(t, n, height, dx, 1, 0) && Empty(t, n, height, 0, 1, dz);
    if Walkable(t, Offset(n, dx, -1, dz), height) && flanks then [Move(Offset(n, dx, 0, dz), 2)]
    else if Walkable(t, Offset(n, dx, 0, dz), height) && Empty(t, n, height, 0, 1, 0) && flanksUp then [Move(Offset(n, dx, 1, dz), 3)]
    else if Walkable(t, Offset(n, dx, -2, dz), height) && flanks then [Move(Offset(n, dx, -1, dz), 3)]
    else []
  }

  /** The successor list of a node, in the source's direction order: +X, -X, +Z, -Z, +X+Z, +X-Z, -X+Z, -X-Z. */
  function Moves(t: Terrain, n: Voxel, height: nat): seq<Move>
  {
    CardinalMove(t, n, height, 1, 0) + CardinalMove(t, n, height, -1, 0)
    + CardinalMove(t, n, height, 0, 1) + CardinalMove(t, n, height, 0, -1)
    + DiagonalMove(t, n, height, 1, 1) + DiagonalMove(t, n, height, 1, -1)
    + DiagonalMove(t, n, height, -1, 1) + DiagonalMove(t, n, height, -1, -1)
  }

  /** The cost the rules give a displacement: 1 or 2 for a cardinal move, 2 or 3 for a diagonal one. */
  function StepCost(dx: int, dy: int, dz: int): nat
  {
    if dx == 0 || dz == 0 then (if dy == 0 then 1 else 2)
    else (if dy == 0 then 2 else 3)
  }

  /** Every move of one direction goes one step that way, at most one up or down, at its fixed cost, onto walkable ground. */
  predicate GoodMove(t: Terrain, n: Voxel, height: nat, dx: int, dz: int, m: Move)
  {
    exists dy :: -1 <= dy <= 1
      && m.node == Offset(n, dx, dy, dz)
      && m.cost == StepCost(dx, dy, dz)
      && Walkable(t, Offset(n, dx, dy - 1, dz), height)
  }

  lemma CardinalMoveSpec(t: Terrain, n: Voxel, height: nat, dx: int, dz: int)
    requires (dx == 0) != (dz == 0)
    ensures |CardinalMove(t, n, height, dx, dz)| <= 1
    ensures forall m :: m in CardinalMove(t, n, height, dx, dz) ==> GoodMove(t, n, height, dx, dz, m)
  {
    var s := CardinalMove(t, n, height, dx, dz);
    if s != [] {
      var m := s[0];
      var dy := m.node.y - n.y;
      assert m.node == Offset(n, dx, dy, dz);
    }
  }

  lemma DiagonalMoveSpec(t: Terrain, n: Voxel, height: nat, dx: int, dz: int)
    requires dx != 0 && dz != 0
    ensures |DiagonalMove(t, n, height, dx, dz)| <= 1
    ensures forall m :: m in DiagonalMove(t, n, height, dx, dz) ==> GoodMove(t, n, height, dx, dz, m)
    ensures forall m :: m in DiagonalMove(t, n, height, dx, dz) && m.node.y <= n.y ==>
      Empty(t, n, height, dx, 0, 0) && Empty(t, n, height, 0, 0, dz)
    ensures forall m :: m in DiagonalMove(t, n, height, dx, dz) && m.node.y > n.y ==>
      Empty(t, n, height, dx, 1, 0) && Empty(t, n, height, 0, 1, dz)
  {
    var s := DiagonalMove(t, n, height, dx, dz);
    if s != [] {
      var m := s[0];
      var dy := m.node.y - n.y;
      assert m.node == Offset(n, dx, dy, dz);
    }
  }

  /** A node has at most one successor per direction, so at most eight. */
  lemma AtMostEightMoves(t: Terrain, n: Voxel, height: nat)
    ensures |Moves(t, n, height)| <= 8
  {
    CardinalMoveSpec(t, n, height, 1, 0);
    CardinalMoveSpec(t, n, height, -1, 0);
    CardinalMoveSpec(t, n, height, 0, 1);
    CardinalMoveSpec(t, n, height, 0, -1);
    DiagonalMoveSpec(t, n, height, 1, 1);
    DiagonalMoveSpec(t, n, height, 1, -1);
    DiagonalMoveSpec(t, n, height, -1, 1);
    DiagonalMoveSpec(t, n, height, -1, -1);
  }

  /**
   * A successor: one step away horizontally (in x, z or both, never in
   * neither), at most one up or down, at the cost the rules fix for its
   * displacement, standing on walkable ground.
   */
  predicate Step(t: Terrain, n: Voxel, height: nat, m: Move)
  {
    var dx, dz := m.node.x - n.x, m.node.z - n.z;
    -1 <= dx <= 1 && -1 <= dz <= 1 && (dx, dz) != (0, 0) && GoodMove(t, n, height, dx, dz, m)
  }

  lemma AllSteps(t: Terrain, n: Voxel, height: nat, a: seq<Move>, b: seq<Move>)
    requires forall m :: m in a ==> Step(t, n, height, m)
    requires forall m :: m in b ==> Step(t, n, height, m)
    ensures forall m :: m in a + b ==> Step(t, n, height, m)
  {
  }

  lemma CardinalSteps(t: Terrain, n: Voxel, height: nat, dx: int, dz: int)
    requires -1 <= dx <= 1 && -1 <= dz <= 1 && (dx == 0) != (dz == 0)
    ensures forall m :: m in CardinalMove(t, n, height, dx, dz) ==> Step(t, n, height, m)
  {
    CardinalMoveSpec(t, n, height, dx, dz);
  }

  lemma DiagonalSteps(t: Terrain, n: Voxel, height: nat, dx: int, dz: int)
    requires -1 <= dx <= 1 && -1 <= dz <= 1 && dx != 0 && dz != 0
    ensures forall m :: m in DiagonalMove(t, n, height, dx, dz) ==> Step(t, n, height, m)
  {
    DiagonalMoveSpec(t, n, height, dx, dz);
  }

  /** Every successor of a node is a step from it. */
  lemma MovesAreSteps(t: Terrain, n: Voxel, height: nat)
    ensures forall m :: m in Moves(t, n, height) ==> Step(t, n, height, m)
  {
    CardinalSteps(t, n, height, 1, 0);
    CardinalSteps(t, n, height, -1, 0);
    AllSteps(t, n, height, CardinalMove(t, n, height, 1, 0), CardinalMove(t, n, height, -1, 0));
    var s := CardinalMove(t, n, height, 1, 0) + CardinalMove(t, n, height, -1, 0);
    CardinalSteps(t, n, height, 0, 1);
    AllSteps(t, n, height, s, CardinalMove(t, n, height, 0, 1));
    s := s + CardinalMove(t, n, height, 0, 1);
    CardinalSteps(t, n, height, 0, -1);
    AllSteps(t, n, height, s, CardinalMove(t, n, height, 0, -1));
    s := s + CardinalMove(t, n, height, 0, -1);
    DiagonalSteps(t, n, height, 1, 1);
    AllSteps(t, n, height, s, DiagonalMove(t, n, height, 1, 1));
    s := s + DiagonalMove(t, n, height, 1, 1);
    DiagonalSteps(t, n, height, 1, -1);
    AllSteps(t, n, height, s, DiagonalMove(t, n, height, 1, -1));
    s := s + DiagonalMove(t, n, height, 1, -1);
    DiagonalSteps(t, n, height, -1, 1);
    AllSteps(t, n, height, s, DiagonalMove(t, n, height, -1, 1));
    s := s + DiagonalMove(t, n, height, -1, 1);
    DiagonalSteps(t, n, height, -1, -1);
    AllSteps(t, n, height, s, DiagonalMove(t, n, height, -1, -1));
  }

  /**
   * A diagonal move is guarded by its flanks: a level or downward one is
   * offered only when both flanking cardinal cells are empty at the node's
   * level, an upward one only when both are empty one level up.
   */
  predicate Flanked(t: Terrain, n: Voxel, height: nat, m: Move)
  {
    var dx, dz := m.node.x - n.x, m.node.z - n.z;
    dx != 0 && dz != 0 ==>
      && (m.node.y <= n.y ==> Empty(t, n, height, dx, 0, 0) && Empty(t, n, height, 0, 0, dz))
      && (m.node.y > n.y ==> Empty(t, n, height, dx, 1, 0) && Empty(t, n, height, 0, 1, dz))
  }

  lemma AllFlanked(t: Terrain, n: Voxel, height: nat, a: seq<Move>, b: seq<Move>)
    requires forall m :: m in a ==> Flanked(t, n, height, m)
    requires forall m :: m in b ==> Flanked(t, n, height, m)
    ensures forall m :: m in a + b ==> Flanked(t, n, height, m)
  {
  }

  lemma CardinalFlanked(t: Terrain, n: Voxel, height: nat, dx: int, dz: int)
    requires (dx == 0) != (dz == 0)
    ensures forall m :: m in CardinalMove(t, n, height, dx, dz) ==> Flanked(t, n, height, m)
  {
    CardinalMoveSpec(t, n, height, dx, dz);
  }

  lemma DiagonalFlanked(t: Terrain, n: Voxel, height: nat, dx: int, dz: int)
    requires dx != 0 && dz != 0
    ensures forall m :: m in DiagonalMove(t, n, height, dx, dz) ==> Flanked(t, n, height, m)
  {
    DiagonalMoveSpec(t, n, height, dx, dz);
  }

  /** Every diagonal successor of a node had both its flanks empty. */
  lemma DiagonalNeedsFlanks(t: Terrain, n: Voxel, height: nat)
    ensures forall m :: m in Moves(t, n, height) ==> Flanked(t, n, height, m)
  {
    CardinalFlanked(t, n, height, 1, 0);
    CardinalFlanked(t, n, height, -1, 0);
    AllFlanked(t, n, height, CardinalMove(t, n, height, 1, 0), CardinalMove(t, n, height, -1, 0));
    var s := CardinalMove(t, n, height, 1, 0) + CardinalMove(t, n, height, -1, 0);
    CardinalFlanked(t, n, height, 0, 1);
    AllFlanked(t, n, height, s, CardinalMove(t, n, height, 0, 1));
    s := s + CardinalMove(t, n, height, 0, 1);
    CardinalFlanked(t, n, height, 0, -1);
    AllFlanked(t, n, height, s, CardinalMove(t, n, height, 0, -1));
    s := s + CardinalMove(t, n, height, 0, -1);
    DiagonalFlanked(t, n, height, 1, 1);
    AllFlanked(t, n, height, s, DiagonalMove(t, n, height, 1, 1));
    s := s + DiagonalMove(t, n, height, 1, 1);
    DiagonalFlanked(t, n, height, 1, -1);
    AllFlanked(t, n, height, s, DiagonalMove(t, n, height, 1, -1));
    s := s + DiagonalMove(t, n, height, 1, -1);
    DiagonalFlanked(t, n, height, -1, 1);
    AllFlanked(t, n, height, s, DiagonalMove(t, n, height, -1, 1));
    s := s + DiagonalMove(t, n, height, -1, 1);
    DiagonalFlanked(t, n, height, -1, -1);
    AllFlanked(t, n, height, s, DiagonalMove(t, n, height, -1, -1));
  }

  /** The search of one entity: the body height, rounded up, and the shared expansion counter. */
  class Search {
    const terrain: Terrain
    const height: nat
    var count: int

    constructor(terrain: Terrain, height: nat)
      ensures this.terrain == terrain && this.height == height && count == 0
    {
      this.terrain := terrain;
      this.height := height;
      count := 0;
    }

    /**
     * The successor closure: count the expansion, and once the counter has
     * reached `MAX_DEPTH_SEARCH` return no successors.
     */
    method Successors(n: Voxel) returns (successors: seq<Move>)
      modifies this`count
      ensures count == old(count) + 1
      ensures count >= MAX_DEPTH_SEARCH ==> successors == []
      ensures count < MAX_DEPTH_SEARCH ==> successors == Moves(terrain, n, height)
      ensures |successors| <= 8
    {
      count := count + 1;
      if count >= MAX_DEPTH_SEARCH {
        return [];
      }
      AtMostEightMoves(terrain, n, height);
      successors := Moves(terrain, n, height);
    }
  }

  /** What A* returns: nothing, or the nodes of the path with the search's count. */
  datatype SearchResult = NotFound | Found(nodes: seq<Voxel>, count: nat)

  /** The entity's path component. */
  class PathComp {
    const maxNodes: nat
    var path: Option<seq<Voxel>>

    constructor(maxNodes: nat)
      ensures this.maxNodes == maxNodes && path == None
    {
      this.maxNodes := maxNodes;
      path := None;
    }

    /** Keep a found path whose count is within `max_nodes`; otherwise clear the path. */
    method Store(result: SearchResult)
      modifies this`path
      ensures path.Some? <==> result.Found? && result.count <= maxNodes
      ensures path.Some? ==> path.value == result.nodes
    {
      match result {
        case Found(nodes, count) =>
          if count > maxNodes {
            path := None;
          } else {
            path := Some(nodes);
          }
        case NotFound =>
          path := None;
      }
    }
  }
}
