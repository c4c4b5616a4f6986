/**
 * Block storage of one chunk and the visible-face mesher of voxel/chunk.py.
 * The Panda3D vertex writers are replaced by a `Mesh` value (vertices and
 * triangles) and by the list of quad records the mesher emits.
 */
module Chunks {
  import opened Wrappers
  import opened Settings
  import opened Util
  import opened Textures

  /** `is_block_solid`: every id except air is solid. */
  function IsBlockSolid(b: int): (r: bool)
    ensures r <==> b != AIR
  {
    b != AIR
  }

  // ---------------------------------------------------------------------
  // Colours

  datatype Rgba = Rgba(r: real, g: real, b: real, a: real)
  {
    /** A fully opaque colour with unit-range components. */
    predicate Opaque()
    {
      0.0 <= r <= 1.0 && 0.0 <= g <= 1.0 && 0.0 <= b <= 1.0 && a == 1.0
    }

    /** The colour with r, g, b multiplied by k and alpha kept. */
    function Scaled(k: real): (c: Rgba)
      ensures c.a == a
      ensures Opaque() && 0.0 <= k <= 1.0 ==> c.Opaque()
    {
      UnitProduct(r, k);
      UnitProduct(g, k);
      UnitProduct(b, k);
      Rgba(r * k, g * k, b * k, a)
    }
  }

  lemma UnitProduct(x: real, k: real)
    ensures 0.0 <= x <= 1.0 && 0.0 <= k <= 1.0 ==> 0.0 <= x * k <= 1.0
  {
    if 0.0 <= x <= 1.0 && 0.0 <= k <= 1.0 {
      assert x * k <= 1.0 * k;
    }
  }

  const GRASS_TOP_COLOR := Rgba(0.46, 0.74, 0.36, 1.0)
  const JUNGLE_GRASS_TOP_COLOR := Rgba(0.35, 0.85, 0.30, 1.0)
  const DIRT_COLOR := Rgba(0.56, 0.37, 0.24, 1.0)
  const STONE_COLOR := Rgba(0.55, 0.55, 0.56, 1.0)
  const SIDES_GRASS_COLOR := Rgba(0.38, 0.64, 0.29, 1.0)
  const JUNGLE_SIDES_GRASS_COLOR := Rgba(0.28, 0.74, 0.22, 1.0)
  const BEDROCK_COLOR := Rgba(0.20, 0.20, 0.22, 1.0)
  const SAND_COLOR := Rgba(0.93, 0.89, 0.70, 1.0)
  const WOOD_COLOR := Rgba(0.55, 0.35, 0.20, 1.0)
  const WOOD_TOP_COLOR := Rgba(0.65, 0.45, 0.25, 1.0)
  const LEAVES_COLOR := Rgba(0.20, 0.60, 0.20, 1.0)
  const COBBLESTONE_COLOR := Rgba(0.50, 0.50, 0.52, 1.0)
  const BRICK_COLOR := Rgba(0.70, 0.30, 0.25, 1.0)
  const SANDSTONE_COLOR := Rgba(0.91, 0.83, 0.61, 1.0)
  const CACTUS_COLOR := Rgba(0.36, 0.64, 0.25, 1.0)
  /** The magenta returned for ids the table does not know. */
  const UNKNOWN_COLOR := Rgba(1.0, 0.0, 1.0, 1.0)

  /**
   * `face_color`: the base colour of a block face.  The biome only tints
   * grass; logs and the crafting table have a separate top/bottom colour.
   */
  function FaceColor(id: int, face: Face, biome: Biome): (c: Rgba)
    ensures c.Opaque()
    ensures id == GRASS && face == Top ==> c == (if biome == Jungle then JUNGLE_GRASS_TOP_COLOR else GRASS_TOP_COLOR)
    ensures id == GRASS && face == Side ==> c == (if biome == Jungle then JUNGLE_SIDES_GRASS_COLOR else SIDES_GRASS_COLOR)
    ensures (id == GRASS && face == Bottom) || id == DIRT ==> c == DIRT_COLOR
    ensures id == STONE || COAL_ORE <= id <= GOLD_ORE ==> c == STONE_COLOR
    ensures (id < AIR || id > BIRCH_PLANKS || id == AIR) ==> c == UNKNOWN_COLOR
  {
    if id == GRASS then
      if face == Top then (if biome == Jungle then JUNGLE_GRASS_TOP_COLOR else GRASS_TOP_COLOR)
      else if face == Bottom then DIRT_COLOR
      else (if biome == Jungle then JUNGLE_SIDES_GRASS_COLOR else SIDES_GRASS_COLOR)
    else if id == DIRT then DIRT_COLOR
    else if id == STONE then STONE_COLOR
    else if id == BEDROCK then BEDROCK_COLOR
    else if id == SAND then SAND_COLOR
    else if id == WOOD then (if face == Top || face == Bottom then WOOD_TOP_COLOR else WOOD_COLOR)
    else if id == LEAVES then LEAVES_COLOR
    else if id == COBBLESTONE then COBBLESTONE_COLOR
    else if id == BRICK then BRICK_COLOR
    else if id == SANDSTONE then SANDSTONE_COLOR
    else if id == CACTUS then CACTUS_COLOR
    else if id == PLANKS then Rgba(0.65, 0.45, 0.25, 1.0)
    else if id == JUNGLE_PLANKS then Rgba(0.55, 0.35, 0.25, 1.0)
    else if id == BIRCH_PLANKS then Rgba(0.85, 0.80, 0.60, 1.0)
    else if id == STICKS then Rgba(0.55, 0.35, 0.20, 1.0)
    else if id in {PICKAXE_WOOD, PICKAXE_STONE, PICKAXE_IRON, AXE_WOOD, AXE_STONE, AXE_IRON} then Rgba(0.6, 0.6, 0.6, 1.0)
    else if id in {SHOVEL_WOOD, SHOVEL_STONE, SHOVEL_IRON} then Rgba(0.7, 0.7, 0.7, 1.0)
    else if id in {SWORD_WOOD, SWORD_STONE, SWORD_IRON} then Rgba(0.8, 0.8, 0.8, 1.0)
    else if id == CRAFTING_TABLE then (if face == Top || face == Bottom then Rgba(0.7, 0.5, 0.3, 1.0) else Rgba(0.6, 0.4, 0.2, 1.0))
    else if id == FURNACE then Rgba(0.4, 0.4, 0.4, 1.0)
    else if id == CHEST then Rgba(0.6, 0.4, 0.2, 1.0)
    else if id == IRON_INGOT then Rgba(0.8, 0.8, 0.8, 1.0)
    else if id == JUNGLE_LOG then (if face == Top || face == Bottom then Rgba(0.4, 0.3, 0.2, 1.0) else Rgba(0.35, 0.25, 0.15, 1.0))
    else if id == JUNGLE_LEAVES then Rgba(0.1, 0.5, 0.1, 1.0)
    else if id == BIRCH_LOG then (if face == Top || face == Bottom then Rgba(0.9, 0.85, 0.7, 1.0) else Rgba(0.95, 0.95, 0.95, 1.0))
    else if id == BIRCH_LEAVES then Rgba(0.4, 0.7, 0.4, 1.0)
    else if id in {COAL_ORE, IRON_ORE, DIAMOND_ORE, GOLD_ORE} then STONE_COLOR
    else UNKNOWN_COLOR
  }

  // ---------------------------------------------------------------------
  // Quads and the mesh they add up to

  /** The six faces of a cell, in the order `build_mesh` tries them. */
  datatype Dir = PosY | NegY | PosX | NegX | PosZ | NegZ

  function FaceOf(d: Dir): Face
  {
    match d
    case PosY => Top
    case NegY => Bottom
    case _ => Side
  }

  /** The world cell across face d of cell (wx, y, wz). */
  function Neighbour(d: Dir, wx: int, y: int, wz: int): (int, int, int)
  {
    match d
    case PosY => (wx, y + 1, wz)
    case NegY => (wx, y - 1, wz)
    case PosX => (wx + 1, y, wz)
    case NegX => (wx - 1, y, wz)
    case PosZ => (wx, y, wz + 1)
    case NegZ => (wx, y, wz - 1)
  }

  /**
   * Whether face d of the block at (wx, y, wz) is visible: its neighbour
   * is not solid, and the bottom of the lowest layer always is.
   */
  predicate Exposed(solid: (int, int, int) -> bool, d: Dir, wx: int, y: int, wz: int)
  {
    if d == NegY then y == 0 || !solid(wx, y - 1, wz)
    else !solid(Neighbour(d, wx, y, wz).0, Neighbour(d, wx, y, wz).1, Neighbour(d, wx, y, wz).2)
  }

  /** Panda-space normal (x, z, y order) of each face. */
  function Normal(d: Dir): (real, real, real)
  {
    match d
    case PosY => (0.0, 0.0, 1.0)
    case NegY => (0.0, 0.0, -1.0)
    case PosX => (1.0, 0.0, 0.0)
    case NegX => (-1.0, 0.0, 0.0)
    case PosZ => (0.0, 1.0, 0.0)
    case NegZ => (0.0, -1.0, 0.0)
  }

  /** The direction shading of `add_quad`, read off the normal. */
  function Shade(n: (real, real, real)): (s: real)
    ensures 0.5 <= s <= 1.0
  {
    if n.2 > 0.5 then 1.0
    else if n.2 < -0.5 then 0.5
    else if n.0 > 0.5 || n.0 < -0.5 then 0.75
    else 0.85
  }

  /** Top faces are lit fully, bottoms at half, x sides at 0.75 and z sides at 0.85. */
  lemma ShadeOfFaces()
    ensures Shade(Normal(PosY)) == 1.0 && Shade(Normal(NegY)) == 0.5
    ensures Shade(Normal(PosX)) == 0.75 && Shade(Normal(NegX)) == 0.75
    ensures Shade(Normal(PosZ)) == 0.85 && Shade(Normal(NegZ)) == 0.85
  {
  }

  /** One quad record: face `dir` of local cell (lx, y, lz), holding block `id`. */
  datatype Quad = Quad(dir: Dir, lx: int, y: int, lz: int, id: int)

  /** The four corners `build_mesh` passes for a face, as (x, z, y) triples. */
  function Corners(q: Quad): (cs: seq<(int, int, int)>)
    ensures |cs| == 4
    ensures forall c :: c in cs ==> q.lx <= c.0 <= q.lx + 1 && q.lz <= c.1 <= q.lz + 1 && q.y <= c.2 <= q.y + 1
    ensures forall c :: c in cs ==>
      match q.dir
      case PosY => c.2 == q.y + 1
      case NegY => c.2 == q.y
      case PosX => c.0 == q.lx + 1
      case NegX => c.0 == q.lx
      case PosZ => c.1 == q.lz + 1
      case NegZ => c.1 == q.lz
  {
    var x, z, y := q.lx, q.lz, q.y;
    match q.dir
    case PosY => [(x, z, y + 1), (x + 1, z, y + 1), (x + 1, z + 1, y + 1), (x, z + 1, y + 1)]
    case NegY => [(x, z + 1, y), (x + 1, z + 1, y), (x + 1, z, y), (x, z, y)]
    case PosX => [(x + 1, z, y), (x + 1, z + 1, y), (x + 1, z + 1, y + 1), (x + 1, z, y + 1)]
    case NegX => [(x, z + 1, y), (x, z, y), (x, z, y + 1), (x, z + 1, y + 1)]
    case PosZ => [(x + 1, z + 1, y), (x, z + 1, y), (x, z + 1, y + 1), (x + 1, z + 1, y + 1)]
    case NegZ => [(x, z, y), (x + 1, z, y), (x + 1, z, y + 1), (x, z, y + 1)]
  }

  datatype Vertex = Vertex(pos: (real, real, real), normal: (real, real, real), color: Rgba, uv: (real, real))

  /** The vertex and triangle lists the writers of `build_mesh` fill. */
  datatype Mesh = Mesh(vertices: seq<Vertex>, triangles: seq<(int, int, int)>)
  {
    /** Every triangle refers to vertices already written. */
    predicate WellFormed()
    {
      forall t :: t in triangles ==>
        0 <= t.0 < |vertices| && 0 <= t.1 < |vertices| && 0 <= t.2 < |vertices|
    }
  }

  const EMPTY_MESH := Mesh([], [])

  /** How far a vertex is pushed out along the face normal. */
  const OFFSET: real := 0.001

  /** Vertex k of a quad: corner k pushed out along the normal, shaded, with corner k of the atlas rectangle. */
  function QuadVertex(env: MeshEnv, cx: int, cz: int, q: Quad, k: int): (v: Vertex)
    requires 0 <= k < 4
  {
    var n := Normal(q.dir);
    var c := Corners(q)[k];
    var uvs := QuadUvs(env, q);
    var uv := if k == 0 then (uvs.uMin, uvs.vMin)
              else if k == 1 then (uvs.uMax, uvs.vMin)
              else if k == 2 then (uvs.uMax, uvs.vMax)
              else (uvs.uMin, uvs.vMax);
    Vertex((c.0 as real + n.0 * OFFSET, c.1 as real + n.1 * OFFSET, c.2 as real + n.2 * OFFSET),
           n, QuadColor(env, cx, cz, q).Scaled(Shade(n)), uv)
  }

  /**
   * `add_quad` of `_make_quad_adder`: the quad's four vertices, then the
   * two triangles (b, b+1, b+2) and (b, b+2, b+3) over them.
   */
  function AddQuad(env: MeshEnv, cx: int, cz: int, m: Mesh, q: Quad): Mesh
  {
    var b := |m.vertices|;
    Mesh(m.vertices + [QuadVertex(env, cx, cz, q, 0), QuadVertex(env, cx, cz, q, 1),
                       QuadVertex(env, cx, cz, q, 2), QuadVertex(env, cx, cz, q, 3)],
         m.triangles + [(b, b + 1, b + 2), (b, b + 2, b + 3)])
  }

  /**
   * Each quad adds exactly four vertices and two triangles over them, and
   * keeps what was written before.
   */
  lemma AddQuadShape(env: MeshEnv, cx: int, cz: int, m: Mesh, q: Quad)
    ensures var r := AddQuad(env, cx, cz, m, q);
      |r.vertices| == |m.vertices| + 4 && |r.triangles| == |m.triangles| + 2
      && r.vertices[..|m.vertices|] == m.vertices && r.triangles[..|m.triangles|] == m.triangles
      && (m.WellFormed() ==> r.WellFormed())
      && (forall t :: t in r.triangles[|m.triangles|..] ==>
            |m.vertices| <= t.0 < |r.vertices| && |m.vertices| <= t.1 < |r.vertices| && |m.vertices| <= t.2 < |r.vertices|)
  {
    var r := AddQuad(env, cx, cz, m, q);
    var b := |m.vertices|;
    assert r.triangles[|m.triangles|..] == [(b, b + 1, b + 2), (b, b + 2, b + 3)];
  }

  /** The four new vertices carry the face normal and the colour shaded by it. */
  lemma AddQuadShading(env: MeshEnv, cx: int, cz: int, m: Mesh, q: Quad)
    ensures var r := AddQuad(env, cx, cz, m, q);
      |r.vertices| == |m.vertices| + 4
      && forall k :: |m.vertices| <= k < |r.vertices| ==>
           r.vertices[k].normal == Normal(q.dir)
           && r.vertices[k].color == QuadColor(env, cx, cz, q).Scaled(Shade(Normal(q.dir)))
  {
    var r := AddQuad(env, cx, cz, m, q);
    var b := |m.vertices|;
    forall k | b <= k < |r.vertices|
      ensures r.vertices[k] == QuadVertex(env, cx, cz, q, k - b)
    {
    }
  }

  /** The mesh a sequence of quads adds up to, starting from empty writers. */
  function MeshOf(env: MeshEnv, cx: int, cz: int, qs: seq<Quad>): Mesh
  {
    if qs == [] then EMPTY_MESH else AddQuad(env, cx, cz, MeshOf(env, cx, cz, qs[..|qs| - 1]), qs[|qs| - 1])
  }

  /** Each quad contributes exactly four vertices and two triangles, all in range. */
  lemma {:induction false} MeshOfCounts(env: MeshEnv, cx: int, cz: int, qs: seq<Quad>)
    ensures |MeshOf(env, cx, cz, qs).vertices| == 4 * |qs| && |MeshOf(env, cx, cz, qs).triangles| == 2 * |qs|
    ensures MeshOf(env, cx, cz, qs).WellFormed()
  {
    if qs != [] {
      MeshOfCounts(env, cx, cz, qs[..|qs| - 1]);
      AddQuadShape(env, cx, cz, MeshOf(env, cx, cz, qs[..|qs| - 1]), qs[|qs| - 1]);
    }
  }

  /** Writing one more quad extends the mesh of the earlier ones by `add_quad`. */
  lemma MeshOfSnoc(env: MeshEnv, cx: int, cz: int, qs: seq<Quad>, q: Quad)
    ensures MeshOf(env, cx, cz, qs + [q]) == AddQuad(env, cx, cz, MeshOf(env, cx, cz, qs), q)
  {
    assert (qs + [q])[..|qs|] == qs;
  }

  // ---------------------------------------------------------------------
  // What `build_mesh` emits

  /**
   * The texture rectangle of a face: the atlas entry of its texture name,
   * else the 'stone' entry, else the whole texture (0, 0, 1, 1).
   */
  function ResolveUvs(lookup: string -> Option<Uv>, name: Option<string>): (uv: Uv)
    ensures name.Some? && lookup(name.value).Some? ==> uv == lookup(name.value).value
    ensures (name.None? || lookup(name.value).None?) && lookup("stone").Some? ==> uv == lookup("stone").value
    ensures (name.None? || lookup(name.value).None?) && lookup("stone").None? ==> uv == Uv(0.0, 0.0, 1.0, 1.0)
  {
    var direct := if name.Some? then lookup(name.value) else None;
    if direct.Some? then direct.value
    else if lookup("stone").Some? then lookup("stone").value
    else Uv(0.0, 0.0, 1.0, 1.0)
  }

  /**
   * The surroundings `build_mesh` consults: world solidity (`is_world_solid`),
   * the terrain noise behind `get_biome`, and the atlas's `get_uvs`.
   */
  datatype MeshEnv = MeshEnv(solid: (int, int, int) -> bool, noise: Noise, lookup: string -> Option<Uv>)

  /** Only grass asks for its biome; everything else is coloured as plains. */
  function CellBiome(env: MeshEnv, id: int, wx: int, wz: int): Biome
  {
    if id == GRASS then GetBiome(env.noise, wx, wz) else Plains
  }

  /** The colour `build_mesh` asks for: by block, face and, for grass, the column's biome. */
  function QuadColor(env: MeshEnv, cx: int, cz: int, q: Quad): (c: Rgba)
    ensures c.Opaque()
  {
    FaceColor(q.id, FaceOf(q.dir), CellBiome(env, q.id, cx * SX + q.lx, cz * SZ + q.lz))
  }

  /** The atlas rectangle of the face's texture, with the stone and whole-texture fallbacks. */
  function QuadUvs(env: MeshEnv, q: Quad): Uv
  {
    ResolveUvs(env.lookup, GetBlockTextureName(q.id, FaceOf(q.dir)))
  }

  function FaceQuads(env: MeshEnv, d: Dir, id: int, cx: int, cz: int, lx: int, y: int, lz: int): seq<Quad>
  {
    if Exposed(env.solid, d, cx * SX + lx, y, cz * SZ + lz) then [Quad(d, lx, y, lz, id)] else []
  }

  /**
   * The quick check of `build_mesh`: all six neighbours solid, where the
   * bottom layer counts as having a solid block below it.
   */
  predicate Buried(solid: (int, int, int) -> bool, wx: int, y: int, wz: int)
  {
    solid(wx, y + 1, wz) && (y == 0 || solid(wx, y - 1, wz))
    && solid(wx + 1, y, wz) && solid(wx - 1, y, wz)
    && solid(wx, y, wz + 1) && solid(wx, y, wz - 1)
  }

  /**
   * The quads of one cell: none for air or for a buried block, else its
   * exposed faces in emission order.
   */
  function CellQuads(env: MeshEnv, id: int, cx: int, cz: int, lx: int, y: int, lz: int): seq<Quad>
  {
    if !IsBlockSolid(id) || Buried(env.solid, cx * SX + lx, y, cz * SZ + lz) then []
    else
      FaceQuads(env, PosY, id, cx, cz, lx, y, lz) + FaceQuads(env, NegY, id, cx, cz, lx, y, lz)
      + FaceQuads(env, PosX, id, cx, cz, lx, y, lz) + FaceQuads(env, NegX, id, cx, cz, lx, y, lz)
      + FaceQuads(env, PosZ, id, cx, cz, lx, y, lz) + FaceQuads(env, NegZ, id, cx, cz, lx, y, lz)
  }

  /** The quads of a cell all sit on that cell and carry its block. */
  lemma CellQuadsAt(env: MeshEnv, id: int, cx: int, cz: int, lx: int, y: int, lz: int)
    ensures forall q :: q in CellQuads(env, id, cx, cz, lx, y, lz) ==> q.lx == lx && q.y == y && q.lz == lz && q.id == id
  {
  }

  /**
   * Face culling, one way: every quad a cell emits covers an exposed face
   * of that solid, unburied cell.
   */
  lemma CellQuadsSound(env: MeshEnv, id: int, cx: int, cz: int, lx: int, y: int, lz: int)
    ensures |CellQuads(env, id, cx, cz, lx, y, lz)| <= 6
    ensures forall q :: q in CellQuads(env, id, cx, cz, lx, y, lz) ==> Visible(env, cx, cz, q)
  {
  }

  /**
   * Face culling, the other way: each exposed face of a solid, unburied
   * cell gets its quad.
   */
  lemma CellQuadsComplete(env: MeshEnv, id: int, cx: int, cz: int, lx: int, y: int, lz: int, d: Dir)
    requires IsBlockSolid(id) && !Buried(env.solid, cx * SX + lx, y, cz * SZ + lz)
    requires Exposed(env.solid, d, cx * SX + lx, y, cz * SZ + lz)
    ensures Quad(d, lx, y, lz, id) in CellQuads(env, id, cx, cz, lx, y, lz)
  {
  }

  /**
   * Above the bottom layer the quick check skips exactly the blocks with no
   * exposed face, so it only saves work.
   */
  lemma BuriedMeansHidden(solid: (int, int, int) -> bool, wx: int, y: int, wz: int)
    requires y != 0
    ensures Buried(solid, wx, y, wz) <==> forall d :: !Exposed(solid, d, wx, y, wz)
  {
    if !Buried(solid, wx, y, wz) {
      if !solid(wx, y + 1, wz) { assert Exposed(solid, PosY, wx, y, wz); }
      else if !solid(wx, y - 1, wz) { assert Exposed(solid, NegY, wx, y, wz); }
      else if !solid(wx + 1, y, wz) { assert Exposed(solid, PosX, wx, y, wz); }
      else if !solid(wx - 1, y, wz) { assert Exposed(solid, NegX, wx, y, wz); }
      else if !solid(wx, y, wz + 1) { assert Exposed(solid, PosZ, wx, y, wz); }
      else { assert Exposed(solid, NegZ, wx, y, wz); }
    }
  }

  /**
   * On the bottom layer a block whose other five neighbours are solid is
   * skipped, although its bottom face counts as exposed.
   */
  lemma BottomLayerSkipped(env: MeshEnv, id: int, cx: int, cz: int, lx: int, lz: int)
    requires Buried(env.solid, cx * SX + lx, 0, cz * SZ + lz)
    ensures Exposed(env.solid, NegY, cx * SX + lx, 0, cz * SZ + lz)
    ensures CellQuads(env, id, cx, cz, lx, 0, lz) == []
  {
  }

  // ---------------------------------------------------------------------
  // Cell storage

  /** The block stored at a local cell, AIR outside the chunk. */
  function Cell(blocks: seq<int>, lx: int, y: int, lz: int): (b: int)
    requires |blocks| == CHUNK_VOLUME
    ensures !InChunk(lx, y, lz) ==> b == AIR
    ensures InChunk(lx, y, lz) ==> b == blocks[Index3D(lx, y, lz)]
  {
    if InChunk(lx, y, lz) then blocks[Index3D(lx, y, lz)] else AIR
  }

  /** The cells after writing `id` at (lx, y, lz); out-of-chunk writes change nothing. */
  function WithCell(blocks: seq<int>, lx: int, y: int, lz: int, id: int): (r: seq<int>)
    requires |blocks| == CHUNK_VOLUME
    ensures |r| == CHUNK_VOLUME
    ensures forall i :: 0 <= i < CHUNK_VOLUME && r[i] != blocks[i] ==> InChunk(lx, y, lz) && i == Index3D(lx, y, lz)
    ensures InChunk(lx, y, lz) ==> r[Index3D(lx, y, lz)] == id
  {
    if InChunk(lx, y, lz) then blocks[Index3D(lx, y, lz) := id] else blocks
  }

  /** Reading a cell returns the last id written there, and other cells are untouched. */
  lemma ReadAfterWrite(blocks: seq<int>, lx: int, y: int, lz: int, id: int, qx: int, qy: int, qz: int)
    requires |blocks| == CHUNK_VOLUME
    ensures Cell(WithCell(blocks, lx, y, lz, id), qx, qy, qz)
      == if InChunk(lx, y, lz) && (lx, y, lz) == (qx, qy, qz) then id else Cell(blocks, qx, qy, qz)
  {
    if InChunk(lx, y, lz) && InChunk(qx, qy, qz) && (lx, y, lz) != (qx, qy, qz) {
      if Index3D(lx, y, lz) == Index3D(qx, qy, qz) {
        Index3DInjective(lx, y, lz, qx, qy, qz);
      }
    }
  }

  /** The quads of the cells with packed index below n, in `build_mesh`'s y, lz, lx loop order. */
  function ChunkQuads(env: MeshEnv, blocks: seq<int>, cx: int, cz: int, n: nat): seq<Quad>
    requires |blocks| == CHUNK_VOLUME && n <= CHUNK_VOLUME
  {
    if n == 0 then []
    else
      var c := Unpack(n - 1);
      ChunkQuads(env, blocks, cx, cz, n - 1) + CellQuads(env, Cell(blocks, c.0, c.1, c.2), cx, cz, c.0, c.1, c.2)
  }

  /** Every emitted quad lies on a cell of the chunk that was already visited. */
  lemma {:induction false} ChunkQuadsInRange(env: MeshEnv, blocks: seq<int>, cx: int, cz: int, n: nat)
    requires |blocks| == CHUNK_VOLUME && n <= CHUNK_VOLUME
    ensures forall q :: q in ChunkQuads(env, blocks, cx, cz, n) ==>
      InChunk(q.lx, q.y, q.lz) && Index3D(q.lx, q.y, q.lz) < n && q.id == Cell(blocks, q.lx, q.y, q.lz)
  {
    if n > 0 {
      ChunkQuadsInRange(env, blocks, cx, cz, n - 1);
      var c := Unpack(n - 1);
      CellQuadsAt(env, Cell(blocks, c.0, c.1, c.2), cx, cz, c.0, c.1, c.2);
    }
  }

  /** Quad q covers an exposed face of a solid, unburied block of chunk (cx, cz). */
  predicate Visible(env: MeshEnv, cx: int, cz: int, q: Quad)
  {
    IsBlockSolid(q.id)
    && !Buried(env.solid, cx * SX + q.lx, q.y, cz * SZ + q.lz)
    && Exposed(env.solid, q.dir, cx * SX + q.lx, q.y, cz * SZ + q.lz)
  }

  /** Every emitted quad covers an exposed face of a solid, unburied block. */
  lemma {:induction false} ChunkQuadsSound(env: MeshEnv, blocks: seq<int>, cx: int, cz: int, n: nat)
    requires |blocks| == CHUNK_VOLUME && n <= CHUNK_VOLUME
    ensures forall q :: q in ChunkQuads(env, blocks, cx, cz, n) ==> Visible(env, cx, cz, q)
  {
    if n > 0 {
      ChunkQuadsSound(env, blocks, cx, cz, n - 1);
      var c := Unpack(n - 1);
      var prev := ChunkQuads(env, blocks, cx, cz, n - 1);
      var cell := CellQuads(env, Cell(blocks, c.0, c.1, c.2), cx, cz, c.0, c.1, c.2);
      CellQuadsSound(env, Cell(blocks, c.0, c.1, c.2), cx, cz, c.0, c.1, c.2);
      assert ChunkQuads(env, blocks, cx, cz, n) == prev + cell;
      forall q | q in prev + cell
        ensures Visible(env, cx, cz, q)
      {
        if q !in prev {
          assert q in cell;
        }
      }
    }
  }

  /** Conversely every exposed face of a solid, unburied cell below n is emitted. */
  lemma {:induction false} ChunkQuadsComplete(env: MeshEnv, blocks: seq<int>, cx: int, cz: int, n: nat,
                                              d: Dir, lx: int, y: int, lz: int)
    requires |blocks| == CHUNK_VOLUME && n <= CHUNK_VOLUME
    requires InChunk(lx, y, lz) && Index3D(lx, y, lz) < n
    requires IsBlockSolid(Cell(blocks, lx, y, lz))
    requires !Buried(env.solid, cx * SX + lx, y, cz * SZ + lz) && Exposed(env.solid, d, cx * SX + lx, y, cz * SZ + lz)
    ensures Quad(d, lx, y, lz, Cell(blocks, lx, y, lz)) in ChunkQuads(env, blocks, cx, cz, n)
  {
    var prev := ChunkQuads(env, blocks, cx, cz, n - 1);
    var c := Unpack(n - 1);
    var cell := CellQuads(env, Cell(blocks, c.0, c.1, c.2), cx, cz, c.0, c.1, c.2);
    assert ChunkQuads(env, blocks, cx, cz, n) == prev + cell;
    if Index3D(lx, y, lz) == n - 1 {
      UnpackIndex3D(lx, y, lz);
      CellQuadsComplete(env, Cell(blocks, lx, y, lz), cx, cz, lx, y, lz, d);
      assert Quad(d, lx, y, lz, Cell(blocks, lx, y, lz)) in cell;
    } else {
      ChunkQuadsComplete(env, blocks, cx, cz, n - 1, d, lx, y, lz);
    }
  }

  /** No cell of the chunk emits a quad: `build_mesh` finds nothing to draw. */
  ghost predicate Bare(env: MeshEnv, blocks: seq<int>, cx: int, cz: int)
    requires |blocks| == CHUNK_VOLUME
  {
    forall lx, y, lz :: InChunk(lx, y, lz) ==> CellQuads(env, Cell(blocks, lx, y, lz), cx, cz, lx, y, lz) == []
  }

  /** The quads below n are empty exactly when every cell below n emits none. */
  lemma {:induction false} ChunkQuadsEmpty(env: MeshEnv, blocks: seq<int>, cx: int, cz: int, n: nat)
    requires |blocks| == CHUNK_VOLUME && n <= CHUNK_VOLUME
    ensures ChunkQuads(env, blocks, cx, cz, n) == [] <==>
      forall lx, y, lz :: InChunk(lx, y, lz) && Index3D(lx, y, lz) < n ==> CellQuads(env, Cell(blocks, lx, y, lz), cx, cz, lx, y, lz) == []
  {
    if n > 0 {
      ChunkQuadsEmpty(env, blocks, cx, cz, n - 1);
      var c := Unpack(n - 1);
      var cell := CellQuads(env, Cell(blocks, c.0, c.1, c.2), cx, cz, c.0, c.1, c.2);
      assert ChunkQuads(env, blocks, cx, cz, n) == ChunkQuads(env, blocks, cx, cz, n - 1) + cell;
      forall lx, y, lz | InChunk(lx, y, lz) && Index3D(lx, y, lz) == n - 1
        ensures (lx, y, lz) == c
      {
        UnpackIndex3D(lx, y, lz);
      }
    }
  }

  /** A chunk is bare exactly when its full quad list is empty. */
  lemma BareIff(env: MeshEnv, blocks: seq<int>, cx: int, cz: int)
    requires |blocks| == CHUNK_VOLUME
    ensures Bare(env, blocks, cx, cz) <==> ChunkQuads(env, blocks, cx, cz, CHUNK_VOLUME) == []
  {
    ChunkQuadsEmpty(env, blocks, cx, cz, CHUNK_VOLUME);
  }

  /** One more cell in loop order appends that cell's quads. */
  lemma ChunkQuadsStep(env: MeshEnv, blocks: seq<int>, cx: int, cz: int, lx: int, y: int, lz: int)
    requires |blocks| == CHUNK_VOLUME && InChunk(lx, y, lz)
    ensures Index3D(lx, y, lz) + 1 == Index3D(lx + 1, y, lz) <= CHUNK_VOLUME
    ensures ChunkQuads(env, blocks, cx, cz, Index3D(lx + 1, y, lz))
      == ChunkQuads(env, blocks, cx, cz, Index3D(lx, y, lz)) + CellQuads(env, Cell(blocks, lx, y, lz), cx, cz, lx, y, lz)
  {
    UnpackIndex3D(lx, y, lz);
  }

  /** The end of an x row is the start of the next row, and of the next layer after the last row. */
  lemma RowEnds(y: int, lz: int)
    ensures Index3D(SX, y, lz) == Index3D(0, y, lz + 1)
    ensures lz == SZ - 1 ==> Index3D(SX, y, lz) == Index3D(0, y + 1, 0)
  {
  }

  /**
   * `Chunk`: a packed block list for chunk (cx, cz), its `dirty` flag and
   * the geometry last built for it.
   */
  class Chunk {
    const cx: int
    const cz: int
    var blocks: seq<int>
    var node: Option<Mesh>
    var dirty: bool

    ghost predicate Valid()
      reads this
    {
      |blocks| == CHUNK_VOLUME
    }

    /** A fresh chunk is all air and needs a mesh. */
    constructor(cx: int, cz: int)
      ensures this.cx == cx && this.cz == cz
      ensures Valid() && blocks == seq(CHUNK_VOLUME, _ => AIR)
      ensures node == None && dirty
    {
      this.cx := cx;
      this.cz := cz;
      blocks := seq(CHUNK_VOLUME, _ => AIR);
      node := None;
      dirty := true;
    }

    /** `set_block_local`: an in-chunk write changes that one cell and marks the chunk dirty. */
    method SetBlockLocal(lx: int, y: int, lz: int, id: int)
      requires Valid()
      modifies this
      ensures Valid()
      ensures blocks == WithCell(old(blocks), lx, y, lz, id)
      ensures dirty == (old(dirty) || InChunk(lx, y, lz))
      ensures node == old(node)
    {
      if 0 <= lx < SX && 0 <= y < SY && 0 <= lz < SZ {
        blocks := blocks[Index3D(lx, y, lz) := id];
        dirty := true;
      }
    }

    /** `get_block_local`: the stored id, AIR outside the chunk. */
    function GetBlockLocal(lx: int, y: int, lz: int): (b: int)
      reads this
      requires Valid()
      ensures b == Cell(blocks, lx, y, lz)
    {
      if 0 <= lx < SX && 0 <= y < SY && 0 <= lz < SZ then blocks[Index3D(lx, y, lz)] else AIR
    }

    /**
     * `build_mesh`: emits the exposed faces of all solid blocks.  An empty
     * result clears `node` and leaves `dirty` alone; otherwise the new
     * geometry is stored and `dirty` is cleared.
     */
    method BuildMesh(env: MeshEnv) returns (result: Option<Mesh>)
      requires Valid()
      modifies this
      ensures Valid() && blocks == old(blocks)
      ensures var qs := ChunkQuads(env, blocks, cx, cz, CHUNK_VOLUME);
        (qs == [] ==> result == None && node == None && dirty == old(dirty))
        && (qs != [] ==> result == Some(MeshOf(env, cx, cz, qs)) && node == result && !dirty)
      ensures result.None? <==> Bare(env, blocks, cx, cz)
    {
      BareIff(env, blocks, cx, cz);
      var quads := VisibleQuads(env);
      var mesh := MeshOf(env, cx, cz, quads);
      MeshOfCounts(env, cx, cz, quads);
      if |mesh.triangles| == 0 {
        node := None;
        return None;
      }
      node := Some(mesh);
      dirty := false;
      return node;
    }

    /** The triple loop of `build_mesh`, over y, then lz, then lx. */
    method VisibleQuads(env: MeshEnv) returns (quads: seq<Quad>)
      requires Valid()
      ensures quads == ChunkQuads(env, blocks, cx, cz, CHUNK_VOLUME)
    {
      quads := [];
      var y := 0;
      while y < SY
        invariant 0 <= y <= SY
        invariant quads == ChunkQuads(env, blocks, cx, cz, Index3D(0, y, 0))
      {
        var lz := 0;
        while lz < SZ
          invariant 0 <= lz <= SZ
          invariant quads == ChunkQuads(env, blocks, cx, cz, Index3D(0, y, lz))
        {
          var lx := 0;
          while lx < SX
            invariant 0 <= lx <= SX
            invariant quads == ChunkQuads(env, blocks, cx, cz, Index3D(lx, y, lz))
          {
            var id := GetBlockLocal(lx, y, lz);
            ChunkQuadsStep(env, blocks, cx, cz, lx, y, lz);
            quads := EmitCell(env, quads, id, cx, cz, lx, y, lz);
            lx := lx + 1;
          }
          RowEnds(y, lz);
          lz := lz + 1;
        }
        RowEnds(y, SZ - 1);
        y := y + 1;
      }
      assert Index3D(0, SY, 0) == CHUNK_VOLUME;
    }
  }

  /**
   * The body of `build_mesh`'s loop for one cell: skip air, skip a block
   * whose six neighbours are all solid, otherwise add one quad per exposed
   * face in the order top, bottom, +x, -x, +z, -z.
   */
  method EmitCell(env: MeshEnv, quads: seq<Quad>, id: int, cx: int, cz: int, lx: int, y: int, lz: int)
      returns (quads': seq<Quad>)
    ensures quads' == quads + CellQuads(env, id, cx, cz, lx, y, lz)
  {
    quads' := quads;
    if !IsBlockSolid(id) {
      return;
    }
    var wx := cx * SX + lx;
    var wz := cz * SZ + lz;
    if env.solid(wx, y + 1, wz) && (y == 0 || env.solid(wx, y - 1, wz))
       && env.solid(wx + 1, y, wz) && env.solid(wx - 1, y, wz)
       && env.solid(wx, y, wz + 1) && env.solid(wx, y, wz - 1)
    {
      return;
    }
    ghost var f1 := FaceQuads(env, PosY, id, cx, cz, lx, y, lz);
    ghost var f2 := FaceQuads(env, NegY, id, cx, cz, lx, y, lz);
    ghost var f3 := FaceQuads(env, PosX, id, cx, cz, lx, y, lz);
    ghost var f4 := FaceQuads(env, NegX, id, cx, cz, lx, y, lz);
    ghost var f5 := FaceQuads(env, PosZ, id, cx, cz, lx, y, lz);
    ghost var f6 := FaceQuads(env, NegZ, id, cx, cz, lx, y, lz);
    assert !Buried(env.solid, wx, y, wz);
    assert CellQuads(env, id, cx, cz, lx, y, lz) == f1 + f2 + f3 + f4 + f5 + f6;
    quads' := EmitFace(env, quads', PosY, id, cx, cz, lx, y, lz);
    quads' := EmitFace(env, quads', NegY, id, cx, cz, lx, y, lz);
    AppendAssoc(quads, f1, f2);
    quads' := EmitFace(env, quads', PosX, id, cx, cz, lx, y, lz);
    AppendAssoc(quads, f1 + f2, f3);
    quads' := EmitFace(env, quads', NegX, id, cx, cz, lx, y, lz);
    AppendAssoc(quads, f1 + f2 + f3, f4);
    quads' := EmitFace(env, quads', PosZ, id, cx, cz, lx, y, lz);
    AppendAssoc(quads, f1 + f2 + f3 + f4, f5);
    quads' := EmitFace(env, quads', NegZ, id, cx, cz, lx, y, lz);
    AppendAssoc(quads, f1 + f2 + f3 + f4 + f5, f6);
  }

  lemma AppendAssoc<T>(a: seq<T>, b: seq<T>, c: seq<T>)
    ensures a + b + c == a + (b + c)
  {
  }

  /** One face of `build_mesh`: look up colour and UVs and add the quad if the face is exposed. */
  method EmitFace(env: MeshEnv, quads: seq<Quad>, d: Dir, id: int, cx: int, cz: int, lx: int, y: int, lz: int)
      returns (quads': seq<Quad>)
    ensures quads' == quads + FaceQuads(env, d, id, cx, cz, lx, y, lz)
  {
    quads' := quads;
    if Exposed(env.solid, d, cx * SX + lx, y, cz * SZ + lz) {
      var q := Quad(d, lx, y, lz, id);
      quads' := quads + [q];
    }
  }
}
