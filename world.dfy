/*
 * The block world of voxel/world.py: the analytic terrain query, the
 * solidity and block queries over the loaded chunks, chunk population,
 * chunk streaming around the player and block edits.
 *
 * The world's outside inputs are gathered in `Terrain`: the simplex noise,
 * the biome blend weight (a cosine blend, left abstract), the cave worm
 * steps of each chunk (drawn from Python's random generator) and the
 * chunk data a save system holds.
 */
module Worlds {
  import opened Wrappers
  import opened Settings
  import opened Util
  import opened Textures
  import opened Chunks

  datatype Terrain = Terrain(
    noise: Noise,
    blend: (int, int) -> real,
    worms: (int, int) -> seq<Sphere>,
    saved: (int, int) -> Option<seq<int>>)

  /** What `load_chunk` returns for chunk (cx, cz). */
  function SavedAt(t: Terrain, cx: int, cz: int): Option<seq<int>>
  {
    t.saved(cx, cz)
  }

  /** Saved chunk data is what `save_chunk` writes: a full block list. */
  ghost predicate SavedWellFormed(t: Terrain)
  {
    forall cx: int, cz: int :: SavedAt(t, cx, cz).Some? ==> |SavedAt(t, cx, cz).value| == CHUNK_VOLUME
  }

  // ---------------------------------------------------------------------
  // The analytic terrain

  /**
   * `block_id_at`: the terrain as generated, with the default plains
   * profile (it ignores biomes, caves, ores and structures).
   */
  function BlockIdAt(noise: Noise, wx: int, wy: int, wz: int): (b: int)
    ensures wy <= 0 ==> b == BEDROCK
    ensures wy >= SY ==> b == AIR
  {
    if wy < 0 then BEDROCK
    else if wy == 0 then BEDROCK
    else if wy >= SY then AIR
    else
      var h := HeightOf(noise, wx, wz, Plains, 0.0);
      if wy > h then AIR
      else if wy == h then GRASS
      else if wy >= h - 3 then DIRT
      else STONE
  }

  /**
   * Every column of `block_id_at` is solid up to its grass surface, which
   * lies in [1, SY - 1], and air above it.
   */
  lemma ColumnProfile(noise: Noise, wx: int, wz: int, y: int)
    ensures var h := HeightOf(noise, wx, wz, Plains, 0.0);
      1 <= h < SY
      && BlockIdAt(noise, wx, h, wz) == GRASS
      && (y < h ==> IsBlockSolid(BlockIdAt(noise, wx, y, wz)))
      && (y > h ==> BlockIdAt(noise, wx, y, wz) == AIR)
  {
  }

  // ---------------------------------------------------------------------
  // Queries over the loaded chunks

  /** The cells of the loaded chunks, keyed by chunk coordinates. */
  predicate ViewOk(view: map<(int, int), seq<int>>)
  {
    forall k :: k in view ==> |view[k]| == CHUNK_VOLUME
  }

  /**
   * `is_solid`: below the world is solid, above it is air, an unloaded
   * chunk counts as air, otherwise the stored cell decides.
   */
  function SolidIn(view: map<(int, int), seq<int>>, wx: int, wy: int, wz: int): (r: bool)
    requires ViewOk(view)
  {
    if wy < 0 then true
    else if wy >= SY then false
    else
      var key := WorldToChunk(wx, wz);
      if key in view then
        var l := LocalCoords(wx, wy, wz);
        IsBlockSolid(Cell(view[key], l.0, wy, l.2))
      else false
  }

  /**
   * `get_block`: bedrock below the world, air above it, the stored cell
   * of a loaded chunk, and `block_id_at` for an unloaded one.
   */
  function BlockIn(view: map<(int, int), seq<int>>, noise: Noise, wx: int, wy: int, wz: int): (b: int)
    requires ViewOk(view)
  {
    if wy < 0 then BEDROCK
    else if wy >= SY then AIR
    else
      var key := WorldToChunk(wx, wz);
      if key in view then
        var l := LocalCoords(wx, wy, wz);
        Cell(view[key], l.0, wy, l.2)
      else BlockIdAt(noise, wx, wy, wz)
  }

  /**
   * `is_solid` and `get_block` agree wherever the chunk is loaded and
   * outside the world's height; on an unloaded chunk `is_solid` answers
   * air while `get_block` answers the generated terrain.
   */
  lemma SolidAgreesWithBlock(view: map<(int, int), seq<int>>, noise: Noise, wx: int, wy: int, wz: int)
    requires ViewOk(view)
    ensures wy < 0 || wy >= SY || WorldToChunk(wx, wz) in view
            ==> SolidIn(view, wx, wy, wz) == IsBlockSolid(BlockIn(view, noise, wx, wy, wz))
    ensures 0 <= wy < SY && WorldToChunk(wx, wz) !in view
            ==> !SolidIn(view, wx, wy, wz) && BlockIn(view, noise, wx, wy, wz) == BlockIdAt(noise, wx, wy, wz)
  {
  }

  /** A world cell reads back the local cell of its own chunk. */
  lemma BlockInLocal(view: map<(int, int), seq<int>>, noise: Noise, cx: int, cz: int, lx: int, y: int, lz: int)
    requires ViewOk(view) && (cx, cz) in view && InChunk(lx, y, lz)
    ensures BlockIn(view, noise, cx * SX + lx, y, cz * SZ + lz) == Cell(view[(cx, cz)], lx, y, lz)
  {
    ChunkOfLocal(cx, cz, lx, lz);
  }

  lemma ChunkOfLocal(cx: int, cz: int, lx: int, lz: int)
    requires 0 <= lx < SX && 0 <= lz < SZ
    ensures WorldToChunk(cx * SX + lx, cz * SZ + lz) == (cx, cz)
    ensures LocalCoords(cx * SX + lx, 0, cz * SZ + lz) == (lx, 0, lz)
  {
    var c := WorldToChunk(cx * SX + lx, cz * SZ + lz);
    assert c.0 == cx by {
      assert c.0 * SX <= cx * SX + lx < c.0 * SX + SX;
    }
    assert c.1 == cz by {
      assert c.1 * SZ <= cz * SZ + lz < c.1 * SZ + SZ;
    }
  }

  // ---------------------------------------------------------------------
  // Column fill of `_populate_chunk_blocks`

  /** The biome and height `_populate_chunk_blocks` uses for a column. */
  function ColumnBiome(t: Terrain, wx: int, wz: int): Biome
  {
    GetBiome(t.noise, wx, wz)
  }

  function BlendAt(t: Terrain, wx: int, wz: int): real
  {
    t.blend(wx, wz)
  }

  function ColumnHeight(t: Terrain, wx: int, wz: int): (h: int)
    ensures 1 <= h <= SY - 1
  {
    HeightOf(t.noise, wx, wz, ColumnBiome(t, wx, wz), BlendAt(t, wx, wz))
  }

  /** The layer a column gets before caves and ores: sand over sandstone in deserts, grass over dirt elsewhere. */
  function LayerBlock(biome: Biome, y: int, th: int): int
  {
    if y == 0 then BEDROCK
    else if biome == Desert then
      if y == th then SAND
      else if y >= th - 4 then SANDSTONE
      else STONE
    else
      if y == th then GRASS
      else if y >= th - 3 then DIRT
      else STONE
  }

  /** The position hash of the ore roll, reduced to 32 bits as `& 0xFFFFFFFF` does. */
  function OreHash(wx: int, y: int, wz: int): (v: int)
    ensures 0 <= v < 0x1_0000_0000
  {
    (wx * 374761393 + y * 668265263 + wz * 3266489917) % 0x1_0000_0000
  }

  predicate IsOre(b: int)
  {
    b == DIAMOND_ORE || b == GOLD_ORE || b == IRON_ORE || b == COAL_ORE
  }

  /** What a stone cell becomes: an ore when the roll is low enough for its depth, else stone. */
  function OreFor(wx: int, y: int, wz: int): (b: int)
    ensures b == STONE || IsOre(b)
    ensures b == DIAMOND_ORE ==> y < 16
    ensures b == GOLD_ORE ==> y < 32
    ensures b == IRON_ORE ==> y < 64
  {
    var f := OreHash(wx, y, wz) as real / 4294967295.0;
    if f < 0.001 && y < 16 then DIAMOND_ORE
    else if f < 0.003 && y < 32 then GOLD_ORE
    else if f < 0.01 && y < 64 then IRON_ORE
    else if f < 0.02 then COAL_ORE
    else STONE
  }

  /** The id `_populate_chunk_blocks` writes at a cell of a column of height `th`; `carved` says whether the cave set holds it. */
  function FillBlock(carved: bool, wx: int, wz: int, y: int, th: int, biome: Biome): int
  {
    var bid := LayerBlock(biome, y, th);
    var bid := if bid != BEDROCK && bid != AIR && carved then AIR else bid;
    if bid == STONE then OreFor(wx, y, wz) else bid
  }

  /**
   * The column layering: bedrock at y = 0 is never carved; a carved cell
   * is air; otherwise the surface is sand (desert) or grass, then four
   * sandstone or three dirt layers, and stone below, where ores replace
   * only stone, each within its depth.
   */
  lemma FillLayers(carved: bool, wx: int, wz: int, y: int, th: int, biome: Biome)
    requires 0 <= y <= th
    ensures var b := FillBlock(carved, wx, wz, y, th, biome);
      (y == 0 ==> b == BEDROCK)
      && (0 < y && carved ==> b == AIR)
      && (0 < y && !carved ==>
            (y == th ==> b == (if biome == Desert then SAND else GRASS))
            && (biome == Desert && th - 4 <= y < th ==> b == SANDSTONE)
            && (biome != Desert && th - 3 <= y < th ==> b == DIRT)
            && (y < th - (if biome == Desert then 4 else 3) ==> b == STONE || IsOre(b)))
      && (IsOre(b) ==> !carved && 0 < y && LayerBlock(biome, y, th) == STONE)
      && (b == DIAMOND_ORE ==> y < 16)
      && (b == GOLD_ORE ==> y < 32)
      && (b == IRON_ORE ==> y < 64)
  {
  }

  /** The id the column fill leaves at a local cell, given the chunk's cave set. */
  function TerrainCell(t: Terrain, cx: int, cz: int, caves: set<(int, int, int)>, lx: int, y: int, lz: int): int
  {
    var wx := cx * SX + lx;
    var wz := cz * SZ + lz;
    var th := ColumnHeight(t, wx, wz);
    if y <= th then FillBlock((lx, y, lz) in caves, wx, wz, y, th, ColumnBiome(t, wx, wz)) else AIR
  }

  // ---------------------------------------------------------------------
  // Neighbour dirtying

  /**
   * The chunks `_mark_neighbors_dirty` considers for a cell at local
   * (lx, lz) of chunk (cx, cz): the chunk across the x face on the x
   * border and the chunk across the z face on the z border.
   */
  function NeighbourKeys(cx: int, cz: int, lx: int, lz: int): set<(int, int)>
  {
    (if lx == 0 then {(cx - 1, cz)} else if lx == SX - 1 then {(cx + 1, cz)} else {})
    + (if lz == 0 then {(cx, cz - 1)} else if lz == SZ - 1 then {(cx, cz + 1)} else {})
  }

  /**
   * A chunk is a dirtying candidate exactly when one of the cell's four
   * horizontal neighbours lies in it and it is not the cell's own chunk;
   * in particular interior cells dirty no neighbour.
   */
  lemma NeighbourKeysAcrossBorders(wx: int, wz: int, k: (int, int))
    ensures var c := WorldToChunk(wx, wz);
      var l := LocalCoords(wx, 0, wz);
      k in NeighbourKeys(c.0, c.1, l.0, l.2)
      <==> k != c && (k == WorldToChunk(wx - 1, wz) || k == WorldToChunk(wx + 1, wz)
                      || k == WorldToChunk(wx, wz - 1) || k == WorldToChunk(wx, wz + 1))
  {
    var c := WorldToChunk(wx, wz);
    var l := LocalCoords(wx, 0, wz);
    StepChunk(wx, c.0, l.0, SX);
    StepChunk(wz, c.1, l.2, SZ);
  }

  /** The chunk coordinate of the coordinates next to v, whose chunk is c and offset l. */
  lemma StepChunk(v: int, c: int, l: int, size: int)
    requires size == 8 && c == v / size && l == v - c * size
    ensures (v - 1) / size == (if l == 0 then c - 1 else c)
    ensures (v + 1) / size == (if l == size - 1 then c + 1 else c)
  {
  }

  // ---------------------------------------------------------------------
  // Spiral chunk order

  /** Chebyshev distance between chunk coordinates. */
  function Cheb(p: (int, int), c: (int, int)): nat
  {
    var dx := Abs(p.0 - c.0);
    var dz := Abs(p.1 - c.1);
    if dx >= dz then dx else dz
  }

  /** The i-th coordinate of ring r: the top and bottom rows interleaved, then the left and right columns. */
  function RingAt(c: (int, int), r: int, i: int): (p: (int, int))
    requires r >= 1 && 0 <= i < 8 * r
  {
    if i < 2 * (2 * r + 1) then
      (c.0 - r + i / 2, if i % 2 == 0 then c.1 - r else c.1 + r)
    else
      var j := i - 2 * (2 * r + 1);
      (if j % 2 == 0 then c.0 - r else c.0 + r, c.1 - r + 1 + j / 2)
  }

  function Ring(c: (int, int), r: int): (s: seq<(int, int)>)
    requires r >= 1
    ensures |s| == 8 * r
  {
    seq(8 * r, i requires 0 <= i < 8 * r => RingAt(c, r, i))
  }

  function RenderRadius(): nat { RENDER_DISTANCE }

  /** `_spiral_coords(c, radius)`: the centre, then ring 1, ring 2, ... ring radius. */
  function Spiral(c: (int, int), radius: nat): seq<(int, int)>
  {
    if radius == 0 then [c] else Spiral(c, radius - 1) + Ring(c, radius)
  }

  predicate NoDup<T(==)>(s: seq<T>)
  {
    forall i, j :: 0 <= i < j < |s| ==> s[i] != s[j]
  }

  lemma RingAtOnRing(c: (int, int), r: int, i: int)
    requires r >= 1 && 0 <= i < 8 * r
    ensures Cheb(RingAt(c, r, i), c) == r
  {
  }

  lemma RingAtInjective(c: (int, int), r: int, i: int, j: int)
    requires r >= 1 && 0 <= i < 8 * r && 0 <= j < 8 * r && i != j
    ensures RingAt(c, r, i) != RingAt(c, r, j)
  {
  }

  /** Every coordinate at distance r is on ring r. */
  lemma RingComplete(c: (int, int), r: int, p: (int, int))
    requires r >= 1 && Cheb(p, c) == r
    ensures p in Ring(c, r)
  {
    var dx := p.0 - c.0;
    var dz := p.1 - c.1;
    var i: int;
    if dz == -r {
      i := 2 * (dx + r);
    } else if dz == r {
      i := 2 * (dx + r) + 1;
    } else if dx == -r {
      i := 2 * (2 * r + 1) + 2 * (dz + r - 1);
    } else {
      i := 2 * (2 * r + 1) + 2 * (dz + r - 1) + 1;
    }
    assert RingAt(c, r, i) == p;
    assert Ring(c, r)[i] == p;
  }

  /**
   * `_spiral_coords` yields the centre first and every coordinate within
   * Chebyshev distance `radius` exactly once, (2 radius + 1)^2 in total.
   */
  lemma SpiralExactlyOnce(c: (int, int), radius: nat)
    ensures Spiral(c, radius)[0] == c
    ensures |Spiral(c, radius)| == (2 * radius + 1) * (2 * radius + 1)
    ensures NoDup(Spiral(c, radius))
    ensures forall p :: p in Spiral(c, radius) <==> Cheb(p, c) <= radius
  {
    SpiralFirst(c, radius);
    SpiralLength(c, radius);
    SpiralMembers(c, radius);
    SpiralNoDup(c, radius);
  }

  lemma {:induction false} SpiralFirst(c: (int, int), radius: nat)
    ensures |Spiral(c, radius)| > 0 && Spiral(c, radius)[0] == c
  {
    if radius > 0 {
      SpiralFirst(c, radius - 1);
    }
  }

  lemma {:induction false} SpiralLength(c: (int, int), radius: nat)
    ensures |Spiral(c, radius)| == (2 * radius + 1) * (2 * radius + 1)
  {
    if radius > 0 {
      SpiralLength(c, radius - 1);
      var r := radius;
      assert (2 * (r - 1) + 1) * (2 * (r - 1) + 1) + 8 * r == (2 * r + 1) * (2 * r + 1);
    }
  }

  lemma {:induction false} SpiralMembers(c: (int, int), radius: nat)
    ensures forall p :: p in Spiral(c, radius) <==> Cheb(p, c) <= radius
  {
    if radius > 0 {
      SpiralMembers(c, radius - 1);
      var inner := Spiral(c, radius - 1);
      var ring := Ring(c, radius);
      forall p
        ensures p in inner + ring <==> Cheb(p, c) <= radius
      {
        if Cheb(p, c) == radius {
          RingComplete(c, radius, p);
        }
        if p in ring {
          var i :| 0 <= i < |ring| && ring[i] == p;
          RingAtOnRing(c, radius, i);
        }
      }
    }
  }

  lemma {:induction false} SpiralNoDup(c: (int, int), radius: nat)
    ensures NoDup(Spiral(c, radius))
  {
    if radius > 0 {
      SpiralNoDup(c, radius - 1);
      SpiralMembers(c, radius - 1);
      var inner := Spiral(c, radius - 1);
      var ring := Ring(c, radius);
      forall i, j | 0 <= i < j < |inner + ring|
        ensures (inner + ring)[i] != (inner + ring)[j]
      {
        if j >= |inner| {
          RingAtOnRing(c, radius, j - |inner|);
          if i >= |inner| {
            RingAtInjective(c, radius, i - |inner|, j - |inner|);
          } else {
            assert inner[i] in inner;
          }
        }
      }
    }
  }

  /** The first occurrence of each element, in order: the `seen` filter of `update`. */
  function Dedup<T(==)>(s: seq<T>): seq<T>
  {
    if s == [] then []
    else
      var init := s[..|s| - 1];
      if s[|s| - 1] in init then Dedup(init) else Dedup(init) + [s[|s| - 1]]
  }

  lemma {:induction false} DedupNoDup<T>(s: seq<T>)
    requires NoDup(s)
    ensures Dedup(s) == s
  {
    if s != [] {
      var init := s[..|s| - 1];
      assert NoDup(init);
      DedupNoDup(init);
      assert s[|s| - 1] !in init;
      assert init + [s[|s| - 1]] == s;
    }
  }

  /** The loop building `desired` in `update` and `preload_chunks_around`. */
  method Desired(center: (int, int)) returns (desired: seq<(int, int)>)
    ensures desired == Spiral(center, RenderRadius()) && NoDup(desired)
  {
    var spiral := Spiral(center, RenderRadius());
    desired := [];
    var seen: set<(int, int)> := {};
    var i := 0;
    while i < |spiral|
      invariant 0 <= i <= |spiral|
      invariant desired == Dedup(spiral[..i])
      invariant forall p :: p in seen <==> p in spiral[..i]
    {
      var cc := spiral[i];
      assert spiral[..i + 1][..i] == spiral[..i];
      if cc !in seen {
        seen := seen + {cc};
        desired := desired + [cc];
      }
      i := i + 1;
    }
    assert spiral[..i] == spiral;
    SpiralExactlyOnce(center, RenderRadius());
    DedupNoDup(spiral);
  }

  // ---------------------------------------------------------------------
  // Chunk population: `_populate_chunk_blocks`

  /** The cave spheres the worm walk of chunk (cx, cz) carves. */
  function WormsAt(t: Terrain, cx: int, cz: int): seq<Sphere>
  {
    t.worms(cx, cz)
  }

  /** Index of column (lx, lz) in the per-chunk height cache. */
  function ColumnIndex(lx: int, lz: int): int
  {
    lz * SX + lx
  }

  /** The terrain height of every column of chunk (cx, cz), in cache order. */
  ghost function HeightTable(t: Terrain, cx: int, cz: int): (r: seq<int>)
    ensures |r| == SX * SZ
  {
    seq(SX * SZ, i => ColumnHeight(t, cx * SX + i % SX, cz * SZ + i / SX))
  }

  /** `heights` caches the terrain height of every column of chunk (cx, cz). */
  ghost predicate HeightsOf(t: Terrain, cx: int, cz: int, heights: seq<int>)
  {
    heights == HeightTable(t, cx, cz)
  }

  lemma ColumnIndexSplit(lx: int, lz: int)
    requires 0 <= lx < SX && 0 <= lz < SZ
    ensures 0 <= ColumnIndex(lx, lz) < SX * SZ
    ensures ColumnIndex(lx, lz) % SX == lx && ColumnIndex(lx, lz) / SX == lz
  {
  }

  lemma HeightAt(t: Terrain, cx: int, cz: int, heights: seq<int>, lx: int, lz: int)
    requires HeightsOf(t, cx, cz, heights) && 0 <= lx < SX && 0 <= lz < SZ
    ensures 0 <= ColumnIndex(lx, lz) < |heights|
    ensures heights[ColumnIndex(lx, lz)] == ColumnHeight(t, cx * SX + lx, cz * SZ + lz)
  {
    ColumnIndexSplit(lx, lz);
  }

  predicate HeightsInRange(heights: seq<int>)
  {
    forall i | 0 <= i < |heights| :: 1 <= heights[i] <= SY - 1
  }

  /** Entry lz * SX + lx of the cache is the height of column (lx, lz). */
  lemma HeightTableEntry(t: Terrain, cx: int, cz: int, lx: int, lz: int)
    requires 0 <= lx < SX && 0 <= lz < SZ
    ensures lz * SX + lx < SX * SZ
    ensures HeightTable(t, cx, cz)[lz * SX + lx] == ColumnHeight(t, cx * SX + lx, cz * SZ + lz)
  {
    ColumnIndexSplit(lx, lz);
  }

  /** `terrain_height` of one column, with its biome and blend weight. */
  method ColumnHeightAt(t: Terrain, wx: int, wz: int) returns (h: int)
    ensures h == ColumnHeight(t, wx, wz)
    ensures 1 <= h <= SY - 1
  {
    var biome := GetBiome(t.noise, wx, wz);
    var weight := BlendAt(t, wx, wz);
    h := TerrainHeight(t.noise, wx, wz, biome, weight);
  }

  /** The height cache `_populate_chunk_blocks` builds before filling, row by row. */
  method ColumnHeights(t: Terrain, cx: int, cz: int) returns (heights: seq<int>)
    ensures HeightsOf(t, cx, cz, heights)
    ensures HeightsInRange(heights)
  {
    heights := [];
    var lz := 0;
    while lz < SZ
      invariant 0 <= lz <= SZ && |heights| == lz * SX
      invariant heights == HeightTable(t, cx, cz)[..lz * SX]
    {
      heights := RowHeights(t, cx, cz, lz, heights);
      lz := lz + 1;
    }
    HeightTableInRange(t, cx, cz);
  }

  /** One row `lz` of the height cache, appended to the rows before it. */
  method RowHeights(t: Terrain, cx: int, cz: int, lz: int, prefix: seq<int>) returns (heights: seq<int>)
    requires 0 <= lz < SZ && prefix == HeightTable(t, cx, cz)[..lz * SX]
    ensures heights == HeightTable(t, cx, cz)[..(lz + 1) * SX]
  {
    ghost var table := HeightTable(t, cx, cz);
    heights := prefix;
    var lx := 0;
    while lx < SX
      invariant 0 <= lx <= SX && |heights| == lz * SX + lx
      invariant forall i :: 0 <= i < |heights| ==> heights[i] == table[i]
    {
      var h := ColumnHeightAt(t, cx * SX + lx, cz * SZ + lz);
      HeightTableEntry(t, cx, cz, lx, lz);
      heights := heights + [h];
      lx := lx + 1;
    }
  }

  /** Every cached height is a terrain height, so lies in 1 .. SY - 1. */
  lemma HeightTableInRange(t: Terrain, cx: int, cz: int)
    ensures HeightsInRange(HeightTable(t, cx, cz))
  {
    var table := HeightTable(t, cx, cz);
    forall i | 0 <= i < |table|
      ensures 1 <= table[i] <= SY - 1
    {
      assert table[i] == ColumnHeight(t, cx * SX + i % SX, cz * SZ + i / SX);
    }
  }

  /** The id one step of the fill loop writes: layer, cave carving, then the ore roll on stone. */
  method FillCell(carved: bool, wx: int, wz: int, y: int, th: int, biome: Biome) returns (bid: int)
    ensures bid == FillBlock(carved, wx, wz, y, th, biome)
  {
    bid := STONE;
    if y == 0 {
      bid := BEDROCK;
    } else if biome == Desert {
      if y == th {
        bid := SAND;
      } else if y >= th - 4 {
        bid := SANDSTONE;
      } else {
        bid := STONE;
      }
    } else {
      if y == th {
        bid := GRASS;
      } else if y >= th - 3 {
        bid := DIRT;
      } else {
        bid := STONE;
      }
    }
    if bid != BEDROCK && bid != AIR && carved {
      bid := AIR;
    }
    if bid == STONE {
      var randVal := (wx * 374761393 + y * 668265263 + wz * 3266489917) % 0x1_0000_0000;
      var randFloat := randVal as real / 4294967295.0;
      if randFloat < 0.001 && y < 16 {
        bid := DIAMOND_ORE;
      } else if randFloat < 0.003 && y < 32 {
        bid := GOLD_ORE;
      } else if randFloat < 0.01 && y < 64 {
        bid := IRON_ORE;
      } else if randFloat < 0.02 {
        bid := COAL_ORE;
      }
    }
  }

  /** The cell the column fill leaves, given the cached heights: its layer up to the height, `base` above it. */
  function FillTarget(t: Terrain, cx: int, cz: int, caves: set<(int, int, int)>, heights: seq<int>, base: seq<int>, lx: int, y: int, lz: int): int
    requires |base| == CHUNK_VOLUME && |heights| == SX * SZ && 0 <= lx < SX && 0 <= lz < SZ
  {
    var th := heights[ColumnIndex(lx, lz)];
    if y <= th then FillBlock((lx, y, lz) in caves, cx * SX + lx, cz * SZ + lz, y, th, ColumnBiome(t, cx * SX + lx, cz * SZ + lz))
    else Cell(base, lx, y, lz)
  }

  /** The fill loop has written every column before `col`, and the cells below `y` of column `col`. */
  ghost predicate FilledTo(t: Terrain, cx: int, cz: int, caves: set<(int, int, int)>, heights: seq<int>, base: seq<int>, blocks: seq<int>, col: int, y: int)
    requires |base| == CHUNK_VOLUME && |blocks| == CHUNK_VOLUME && |heights| == SX * SZ
  {
    forall lx, yy, lz | InChunk(lx, yy, lz) ::
      Cell(blocks, lx, yy, lz)
      == if ColumnIndex(lx, lz) < col || (ColumnIndex(lx, lz) == col && yy < y) then FillTarget(t, cx, cz, caves, heights, base, lx, yy, lz)
         else Cell(base, lx, yy, lz)
  }

  lemma FillStep(t: Terrain, cx: int, cz: int, caves: set<(int, int, int)>, heights: seq<int>, base: seq<int>, blocks: seq<int>, lx: int, y: int, lz: int, id: int)
    requires |base| == CHUNK_VOLUME && |blocks| == CHUNK_VOLUME && |heights| == SX * SZ
    requires 0 <= lx < SX && 0 <= lz < SZ && 0 <= y <= heights[ColumnIndex(lx, lz)]
    requires id == FillBlock((lx, y, lz) in caves, cx * SX + lx, cz * SZ + lz, y, heights[ColumnIndex(lx, lz)], ColumnBiome(t, cx * SX + lx, cz * SZ + lz))
    requires FilledTo(t, cx, cz, caves, heights, base, blocks, ColumnIndex(lx, lz), y)
    ensures FilledTo(t, cx, cz, caves, heights, base, WithCell(blocks, lx, y, lz, id), ColumnIndex(lx, lz), y + 1)
  {
    var nb := WithCell(blocks, lx, y, lz, id);
    forall qx, qy, qz | InChunk(qx, qy, qz)
      ensures Cell(nb, qx, qy, qz)
        == if ColumnIndex(qx, qz) < ColumnIndex(lx, lz) || (ColumnIndex(qx, qz) == ColumnIndex(lx, lz) && qy < y + 1)
           then FillTarget(t, cx, cz, caves, heights, base, qx, qy, qz)
           else Cell(base, qx, qy, qz)
    {
      ReadAfterWrite(blocks, lx, y, lz, id, qx, qy, qz);
      if ColumnIndex(qx, qz) == ColumnIndex(lx, lz) {
        assert qx == lx && qz == lz;
      }
    }
  }

  /** A column is done once the fill passes its height or the chunk top. */
  lemma FillColumnDone(t: Terrain, cx: int, cz: int, caves: set<(int, int, int)>, heights: seq<int>, base: seq<int>, blocks: seq<int>, lx: int, lz: int, y: int)
    requires |base| == CHUNK_VOLUME && |blocks| == CHUNK_VOLUME && |heights| == SX * SZ
    requires 0 <= lx < SX && 0 <= lz < SZ
    requires y > heights[ColumnIndex(lx, lz)] || y == SY
    requires FilledTo(t, cx, cz, caves, heights, base, blocks, ColumnIndex(lx, lz), y)
    ensures FilledTo(t, cx, cz, caves, heights, base, blocks, ColumnIndex(lx, lz) + 1, 0)
  {
    forall qx, qy, qz | InChunk(qx, qy, qz)
      ensures Cell(blocks, qx, qy, qz)
        == if ColumnIndex(qx, qz) < ColumnIndex(lx, lz) + 1 then FillTarget(t, cx, cz, caves, heights, base, qx, qy, qz)
           else Cell(base, qx, qy, qz)
    {
      if ColumnIndex(qx, qz) == ColumnIndex(lx, lz) {
        assert qx == lx && qz == lz;
      }
    }
  }

  /** The column fill: every column gets its layers up to its height; cells above keep what they held. */
  method FillTerrain(t: Terrain, chunk: Chunk, heights: seq<int>, caves: set<(int, int, int)>)
    requires chunk.Valid() && |heights| == SX * SZ
    modifies chunk
    ensures chunk.Valid() && chunk.node == old(chunk.node) && (old(chunk.dirty) ==> chunk.dirty)
    ensures forall lx, y, lz | InChunk(lx, y, lz) ::
      Cell(chunk.blocks, lx, y, lz) == FillTarget(t, chunk.cx, chunk.cz, caves, heights, old(chunk.blocks), lx, y, lz)
  {
    ghost var base := chunk.blocks;
    var lz := 0;
    while lz < SZ
      invariant 0 <= lz <= SZ
      invariant chunk.Valid() && chunk.node == old(chunk.node) && (old(chunk.dirty) ==> chunk.dirty)
      invariant FilledTo(t, chunk.cx, chunk.cz, caves, heights, base, chunk.blocks, ColumnIndex(0, lz), 0)
    {
      var lx := 0;
      while lx < SX
        invariant 0 <= lx <= SX
        invariant chunk.Valid() && chunk.node == old(chunk.node) && (old(chunk.dirty) ==> chunk.dirty)
        invariant FilledTo(t, chunk.cx, chunk.cz, caves, heights, base, chunk.blocks, ColumnIndex(lx, lz), 0)
      {
        FillColumn(t, chunk, heights, caves, base, lx, lz);
        lx := lx + 1;
      }
      lz := lz + 1;
    }
  }

  /** One column of the fill, from y = 0 up to `min(th, SY - 1)`. */
  method FillColumn(t: Terrain, chunk: Chunk, heights: seq<int>, caves: set<(int, int, int)>, ghost base: seq<int>, lx: int, lz: int)
    requires chunk.Valid() && |base| == CHUNK_VOLUME && |heights| == SX * SZ && 0 <= lx < SX && 0 <= lz < SZ
    requires FilledTo(t, chunk.cx, chunk.cz, caves, heights, base, chunk.blocks, ColumnIndex(lx, lz), 0)
    modifies chunk
    ensures chunk.Valid() && chunk.node == old(chunk.node) && (old(chunk.dirty) ==> chunk.dirty)
    ensures FilledTo(t, chunk.cx, chunk.cz, caves, heights, base, chunk.blocks, ColumnIndex(lx, lz) + 1, 0)
  {
    var th := heights[ColumnIndex(lx, lz)];
    var biome := GetBiome(t.noise, chunk.cx * SX + lx, chunk.cz * SZ + lz);
    var maxY := if th < SY - 1 then th else SY - 1;
    var y := 0;
    while y <= maxY
      invariant 0 <= y && (y <= maxY + 1 || maxY < 0)
      invariant chunk.Valid() && chunk.node == old(chunk.node) && (old(chunk.dirty) ==> chunk.dirty)
      invariant FilledTo(t, chunk.cx, chunk.cz, caves, heights, base, chunk.blocks, ColumnIndex(lx, lz), y)
    {
      var bid := FillCell((lx, y, lz) in caves, chunk.cx * SX + lx, chunk.cz * SZ + lz, y, th, biome);
      FillStep(t, chunk.cx, chunk.cz, caves, heights, base, chunk.blocks, lx, y, lz, bid);
      chunk.SetBlockLocal(lx, y, lz, bid);
      y := y + 1;
    }
    FillColumnDone(t, chunk.cx, chunk.cz, caves, heights, base, chunk.blocks, lx, lz, y);
  }

  predicate TreeBlock(id: int)
  {
    id == WOOD || id == LEAVES || id == JUNGLE_LOG || id == JUNGLE_LEAVES || id == BIRCH_LOG || id == BIRCH_LEAVES
  }

  /** Column (tx, tz) of chunk (cx, cz) grows a tree. */
  predicate TreeRoot(t: Terrain, cx: int, cz: int, tx: int, tz: int)
  {
    ShouldPlaceTree(t.noise, cx * SX + tx, cz * SZ + tz)
  }

  predicate CactusRoot(t: Terrain, cx: int, cz: int, tx: int, tz: int)
  {
    ShouldPlaceCactus(t.noise, cx * SX + tx, cz * SZ + tz)
  }

  /** A tree block at local column (lx, lz) belongs to a tree rooted in a column of this chunk at most 3 columns away. */
  ghost predicate NearTreeRoot(t: Terrain, cx: int, cz: int, lx: int, lz: int)
  {
    exists tx, tz :: 0 <= tx < SX && 0 <= tz < SZ && TreeRoot(t, cx, cz, tx, tz)
                     && -3 <= lx - tx <= 3 && -3 <= lz - tz <= 3
  }

  /** The tree pass changed cells only to tree blocks, at y >= 2, near a tree rooted in this chunk. */
  ghost predicate TreesWritten(t: Terrain, cx: int, cz: int, base: seq<int>, blocks: seq<int>)
    requires |base| == CHUNK_VOLUME && |blocks| == CHUNK_VOLUME
  {
    forall lx, y, lz | InChunk(lx, y, lz) ::
      Cell(blocks, lx, y, lz) == Cell(base, lx, y, lz)
      || (TreeBlock(Cell(blocks, lx, y, lz)) && y >= 2 && NearTreeRoot(t, cx, cz, lx, lz))
  }

  /** The cactus pass changed cells only to cactus, above the ground of a cactus column. */
  ghost predicate CactiWritten(t: Terrain, cx: int, cz: int, heights: seq<int>, base: seq<int>, blocks: seq<int>)
    requires |base| == CHUNK_VOLUME && |blocks| == CHUNK_VOLUME && |heights| == SX * SZ
  {
    forall lx, y, lz | InChunk(lx, y, lz) ::
      Cell(blocks, lx, y, lz) == Cell(base, lx, y, lz)
      || (Cell(blocks, lx, y, lz) == CACTUS && CactusRoot(t, cx, cz, lx, lz) && y > heights[ColumnIndex(lx, lz)])
  }

  /** Every cell that differs from `base` holds a placement of `ps` made at that world position. */
  ghost predicate PlacedFrom(base: seq<int>, blocks: seq<int>, ps: seq<Placement>, wx0: int, wz0: int)
    requires |base| == CHUNK_VOLUME && |blocks| == CHUNK_VOLUME
  {
    forall lx, y, lz | InChunk(lx, y, lz) ::
      Cell(blocks, lx, y, lz) == Cell(base, lx, y, lz)
      || exists i :: 0 <= i < |ps| && ps[i] == Placement(wx0 + lx, y, wz0 + lz, Cell(blocks, lx, y, lz))
  }

  lemma PlacedStep(base: seq<int>, blocks: seq<int>, ps: seq<Placement>, i: int, wx0: int, wz0: int)
    requires |base| == CHUNK_VOLUME && |blocks| == CHUNK_VOLUME && 0 <= i < |ps|
    requires PlacedFrom(base, blocks, ps[..i], wx0, wz0)
    ensures PlacedFrom(base, WithCell(blocks, ps[i].x - wx0, ps[i].y, ps[i].z - wz0, ps[i].id), ps[..i + 1], wx0, wz0)
  {
    var p := ps[i];
    var nb := WithCell(blocks, p.x - wx0, p.y, p.z - wz0, p.id);
    var pre := ps[..i + 1];
    forall qx, qy, qz | InChunk(qx, qy, qz)
      ensures Cell(nb, qx, qy, qz) == Cell(base, qx, qy, qz)
        || exists j :: 0 <= j < |pre| && pre[j] == Placement(wx0 + qx, qy, wz0 + qz, Cell(nb, qx, qy, qz))
    {
      ReadAfterWrite(blocks, p.x - wx0, p.y, p.z - wz0, p.id, qx, qy, qz);
      if InChunk(p.x - wx0, p.y, p.z - wz0) && (p.x - wx0, p.y, p.z - wz0) == (qx, qy, qz) {
        assert pre[i] == Placement(wx0 + qx, qy, wz0 + qz, Cell(nb, qx, qy, qz));
      } else if Cell(blocks, qx, qy, qz) != Cell(base, qx, qy, qz) {
        var j :| 0 <= j < i && ps[..i][j] == Placement(wx0 + qx, qy, wz0 + qz, Cell(blocks, qx, qy, qz));
        assert pre[j] == ps[..i][j];
      }
    }
  }

  lemma PlacedSkip(base: seq<int>, blocks: seq<int>, ps: seq<Placement>, i: int, wx0: int, wz0: int)
    requires |base| == CHUNK_VOLUME && |blocks| == CHUNK_VOLUME && 0 <= i < |ps|
    requires PlacedFrom(base, blocks, ps[..i], wx0, wz0)
    ensures PlacedFrom(base, blocks, ps[..i + 1], wx0, wz0)
  {
    var pre := ps[..i + 1];
    forall qx, qy, qz | InChunk(qx, qy, qz) && Cell(blocks, qx, qy, qz) != Cell(base, qx, qy, qz)
      ensures exists j :: 0 <= j < |pre| && pre[j] == Placement(wx0 + qx, qy, wz0 + qz, Cell(blocks, qx, qy, qz))
    {
      var j :| 0 <= j < i && ps[..i][j] == Placement(wx0 + qx, qy, wz0 + qz, Cell(blocks, qx, qy, qz));
      assert pre[j] == ps[..i][j];
    }
  }

  /** Writes the placements that fall inside the chunk, in order, skipping the rest. */
  method PlaceInChunk(chunk: Chunk, ps: seq<Placement>)
    requires chunk.Valid()
    modifies chunk
    ensures chunk.Valid() && chunk.node == old(chunk.node) && (old(chunk.dirty) ==> chunk.dirty)
    ensures PlacedFrom(old(chunk.blocks), chunk.blocks, ps, chunk.cx * SX, chunk.cz * SZ)
  {
    ghost var base := chunk.blocks;
    var wx0 := chunk.cx * SX;
    var wz0 := chunk.cz * SZ;
    var i := 0;
    while i < |ps|
      invariant 0 <= i <= |ps|
      invariant chunk.Valid() && chunk.node == old(chunk.node) && (old(chunk.dirty) ==> chunk.dirty)
      invariant PlacedFrom(base, chunk.blocks, ps[..i], wx0, wz0)
    {
      var p := ps[i];
      if wx0 <= p.x < wx0 + SX && wz0 <= p.z < wz0 + SZ && 0 <= p.y < SY {
        PlacedStep(base, chunk.blocks, ps, i, wx0, wz0);
        chunk.SetBlockLocal(p.x - wx0, p.y, p.z - wz0, p.id);
      } else {
        PlacedSkip(base, chunk.blocks, ps, i, wx0, wz0);
      }
      i := i + 1;
    }
    assert ps[..|ps|] == ps;
  }

  /** The placements of a tree rooted at (wx, wy, wz): tree blocks within 3 columns of the trunk, never below wy. */
  ghost predicate TreeShape(ps: seq<Placement>, wx: int, wy: int, wz: int)
  {
    forall i :: 0 <= i < |ps| ==>
      TreeBlock(ps[i].id) && ps[i].y >= wy && -3 <= ps[i].x - wx <= 3 && -3 <= ps[i].z - wz <= 3
  }

  lemma SquareBound(d: int)
    requires d * d <= 5
    ensures -2 <= d <= 2
  {
  }

  lemma OakShape(noise: Noise, ps: seq<Placement>, wx: int, wy: int, wz: int)
    requires var th := OakTrunkHeight(noise, wx, wz);
      th <= |ps|
      && (forall i :: 0 <= i < th ==> ps[i] == Placement(wx, wy + i, wz, WOOD))
      && (forall i :: th <= i < |ps| ==> OakLeaf(ps[i], wx, wy + th - 1, wz))
    ensures TreeShape(ps, wx, wy, wz)
  {
  }

  lemma JungleShape(noise: Noise, ps: seq<Placement>, wx: int, wy: int, wz: int)
    requires var th := JungleTrunkHeight(noise, wx, wz);
      th <= |ps|
      && (forall i :: 0 <= i < th ==> ps[i] == Placement(wx, wy + i, wz, JUNGLE_LOG))
      && (forall i :: th <= i < |ps| ==> JungleLeaf(ps[i], wx, wy, wz, th))
    ensures TreeShape(ps, wx, wy, wz)
  {
  }

  lemma BirchShape(noise: Noise, ps: seq<Placement>, wx: int, wy: int, wz: int)
    requires var th := BirchTrunkHeight(noise, wx, wz);
      th <= |ps|
      && (forall i :: 0 <= i < th ==> ps[i] == Placement(wx, wy + i, wz, BIRCH_LOG))
      && (forall i :: th <= i < |ps| ==> BirchLeaf(ps[i], wx, wy + th - 1, wz))
    ensures TreeShape(ps, wx, wy, wz)
  {
    var th := BirchTrunkHeight(noise, wx, wz);
    forall i | th <= i < |ps|
      ensures -3 <= ps[i].x - wx <= 3 && -3 <= ps[i].z - wz <= 3
    {
      BirchLeafNear(ps[i], wx, wy + th - 1, wz);
    }
  }

  /** A birch leaf lies within two blocks of the trunk on both axes. */
  lemma BirchLeafNear(p: Placement, wx: int, lc: int, wz: int)
    requires BirchLeaf(p, wx, lc, wz)
    ensures -2 <= p.x - wx <= 2 && -2 <= p.z - wz <= 2
  {
    var dx := p.x - wx;
    var dz := p.z - wz;
    assert dx * dx >= 0 && dz * dz >= 0;
    SquareBound(dx);
    SquareBound(dz);
  }

  lemma TreeStep(t: Terrain, cx: int, cz: int, base: seq<int>, mid: seq<int>, nb: seq<int>, ps: seq<Placement>, lx: int, lz: int, wy: int)
    requires |base| == CHUNK_VOLUME && |mid| == CHUNK_VOLUME && |nb| == CHUNK_VOLUME
    requires 0 <= lx < SX && 0 <= lz < SZ && wy >= 2 && TreeRoot(t, cx, cz, lx, lz)
    requires TreesWritten(t, cx, cz, base, mid)
    requires PlacedFrom(mid, nb, ps, cx * SX, cz * SZ)
    requires TreeShape(ps, cx * SX + lx, wy, cz * SZ + lz)
    ensures TreesWritten(t, cx, cz, base, nb)
  {
    forall qx, qy, qz | InChunk(qx, qy, qz) && Cell(nb, qx, qy, qz) != Cell(mid, qx, qy, qz)
      ensures TreeBlock(Cell(nb, qx, qy, qz)) && qy >= 2 && NearTreeRoot(t, cx, cz, qx, qz)
    {
      var i :| 0 <= i < |ps| && ps[i] == Placement(cx * SX + qx, qy, cz * SZ + qz, Cell(nb, qx, qy, qz));
      assert TreeRoot(t, cx, cz, lx, lz) && -3 <= qx - lx <= 3 && -3 <= qz - lz <= 3;
    }
  }

  /** The tree pass: each tree column whose ground is still grass grows its jungle, birch or oak tree. */
  method PlaceTrees(t: Terrain, chunk: Chunk, heights: seq<int>)
    requires chunk.Valid() && |heights| == SX * SZ && HeightsInRange(heights)
    modifies chunk
    ensures chunk.Valid() && chunk.node == old(chunk.node) && (old(chunk.dirty) ==> chunk.dirty)
    ensures TreesWritten(t, chunk.cx, chunk.cz, old(chunk.blocks), chunk.blocks)
  {
    ghost var base := chunk.blocks;
    var lz := 0;
    while lz < SZ
      invariant 0 <= lz <= SZ
      invariant chunk.Valid() && chunk.node == old(chunk.node) && (old(chunk.dirty) ==> chunk.dirty)
      invariant TreesWritten(t, chunk.cx, chunk.cz, base, chunk.blocks)
    {
      var lx := 0;
      while lx < SX
        invariant 0 <= lx <= SX
        invariant chunk.Valid() && chunk.node == old(chunk.node) && (old(chunk.dirty) ==> chunk.dirty)
        invariant TreesWritten(t, chunk.cx, chunk.cz, base, chunk.blocks)
      {
        PlantTree(t, chunk, heights, base, lx, lz);
        lx := lx + 1;
      }
      lz := lz + 1;
    }
  }

  /** The tree a column grows: a jungle tree in the jungle, else a birch or an oak by the tree-type noise. */
  method GrowTree(noise: Noise, wx: int, wy: int, wz: int) returns (treeBlocks: seq<Placement>)
    ensures TreeShape(treeBlocks, wx, wy, wz)
  {
    if GetBiome(noise, wx, wz) == Jungle {
      treeBlocks := GenerateJungleTree(noise, wx, wy, wz);
      JungleShape(noise, treeBlocks, wx, wy, wz);
    } else if GetTreeType(noise, wx, wz) == Birch {
      treeBlocks := GenerateBirchTree(noise, wx, wy, wz);
      BirchShape(noise, treeBlocks, wx, wy, wz);
    } else {
      treeBlocks := GenerateTree(noise, wx, wy, wz);
      OakShape(noise, treeBlocks, wx, wy, wz);
    }
  }

  /** One column of the tree pass. */
  method PlantTree(t: Terrain, chunk: Chunk, heights: seq<int>, ghost base: seq<int>, lx: int, lz: int)
    requires chunk.Valid() && |base| == CHUNK_VOLUME && |heights| == SX * SZ && HeightsInRange(heights)
    requires 0 <= lx < SX && 0 <= lz < SZ
    requires TreesWritten(t, chunk.cx, chunk.cz, base, chunk.blocks)
    modifies chunk
    ensures chunk.Valid() && chunk.node == old(chunk.node) && (old(chunk.dirty) ==> chunk.dirty)
    ensures TreesWritten(t, chunk.cx, chunk.cz, base, chunk.blocks)
  {
    var wx := chunk.cx * SX + lx;
    var wz := chunk.cz * SZ + lz;
    var th := heights[ColumnIndex(lx, lz)];
    if ShouldPlaceTree(t.noise, wx, wz) {
      var ground := chunk.GetBlockLocal(lx, th, lz);
      if ground == GRASS {
        PlaceTree(t, chunk, base, lx, th + 1, lz);
      }
    }
  }

  /** Grows the tree rooted at local column (lx, lz) on ground at wy - 1 and writes its in-chunk blocks. */
  method PlaceTree(t: Terrain, chunk: Chunk, ghost base: seq<int>, lx: int, wy: int, lz: int)
    requires chunk.Valid() && |base| == CHUNK_VOLUME
    requires 0 <= lx < SX && 0 <= lz < SZ && wy >= 2 && TreeRoot(t, chunk.cx, chunk.cz, lx, lz)
    requires TreesWritten(t, chunk.cx, chunk.cz, base, chunk.blocks)
    modifies chunk
    ensures chunk.Valid() && chunk.node == old(chunk.node) && (old(chunk.dirty) ==> chunk.dirty)
    ensures TreesWritten(t, chunk.cx, chunk.cz, base, chunk.blocks)
  {
    var treeBlocks := GrowTree(t.noise, chunk.cx * SX + lx, wy, chunk.cz * SZ + lz);
    ghost var mid := chunk.blocks;
    PlaceInChunk(chunk, treeBlocks);
    TreeStep(t, chunk.cx, chunk.cz, base, mid, chunk.blocks, treeBlocks, lx, lz, wy);
  }

  lemma CactusStep(t: Terrain, cx: int, cz: int, heights: seq<int>, base: seq<int>, mid: seq<int>, nb: seq<int>, ps: seq<Placement>, lx: int, lz: int)
    requires |base| == CHUNK_VOLUME && |mid| == CHUNK_VOLUME && |nb| == CHUNK_VOLUME && |heights| == SX * SZ
    requires 0 <= lx < SX && 0 <= lz < SZ && CactusRoot(t, cx, cz, lx, lz)
    requires CactiWritten(t, cx, cz, heights, base, mid)
    requires PlacedFrom(mid, nb, ps, cx * SX, cz * SZ)
    requires forall i :: 0 <= i < |ps| ==> ps[i] == Placement(cx * SX + lx, heights[ColumnIndex(lx, lz)] + 1 + i, cz * SZ + lz, CACTUS)
    ensures CactiWritten(t, cx, cz, heights, base, nb)
  {
    forall qx, qy, qz | InChunk(qx, qy, qz) && Cell(nb, qx, qy, qz) != Cell(mid, qx, qy, qz)
      ensures Cell(nb, qx, qy, qz) == CACTUS && CactusRoot(t, cx, cz, qx, qz) && qy > heights[ColumnIndex(qx, qz)]
    {
      var i :| 0 <= i < |ps| && ps[i] == Placement(cx * SX + qx, qy, cz * SZ + qz, Cell(nb, qx, qy, qz));
      assert qx == lx && qz == lz;
    }
  }

  /** The cactus pass: each cactus column gets a 1 to 4 block cactus on top of its ground. */
  method PlaceCacti(t: Terrain, chunk: Chunk, heights: seq<int>)
    requires chunk.Valid() && |heights| == SX * SZ
    modifies chunk
    ensures chunk.Valid() && chunk.node == old(chunk.node) && (old(chunk.dirty) ==> chunk.dirty)
    ensures CactiWritten(t, chunk.cx, chunk.cz, heights, old(chunk.blocks), chunk.blocks)
  {
    ghost var base := chunk.blocks;
    var lz := 0;
    while lz < SZ
      invariant 0 <= lz <= SZ
      invariant chunk.Valid() && chunk.node == old(chunk.node) && (old(chunk.dirty) ==> chunk.dirty)
      invariant CactiWritten(t, chunk.cx, chunk.cz, heights, base, chunk.blocks)
    {
      var lx := 0;
      while lx < SX
        invariant 0 <= lx <= SX
        invariant chunk.Valid() && chunk.node == old(chunk.node) && (old(chunk.dirty) ==> chunk.dirty)
        invariant CactiWritten(t, chunk.cx, chunk.cz, heights, base, chunk.blocks)
      {
        PlantCactus(t, chunk, heights, base, lx, lz);
        lx := lx + 1;
      }
      lz := lz + 1;
    }
  }

  /** One column of the cactus pass. */
  method PlantCactus(t: Terrain, chunk: Chunk, heights: seq<int>, ghost base: seq<int>, lx: int, lz: int)
    requires chunk.Valid() && |base| == CHUNK_VOLUME && |heights| == SX * SZ
    requires 0 <= lx < SX && 0 <= lz < SZ
    requires CactiWritten(t, chunk.cx, chunk.cz, heights, base, chunk.blocks)
    modifies chunk
    ensures chunk.Valid() && chunk.node == old(chunk.node) && (old(chunk.dirty) ==> chunk.dirty)
    ensures CactiWritten(t, chunk.cx, chunk.cz, heights, base, chunk.blocks)
  {
    var wx := chunk.cx * SX + lx;
    var wz := chunk.cz * SZ + lz;
    var th := heights[ColumnIndex(lx, lz)];
    if ShouldPlaceCactus(t.noise, wx, wz) {
      PlaceCactus(t, chunk, heights, base, lx, lz);
    }
  }

  /** Grows the cactus of local column (lx, lz) on top of its ground. */
  method PlaceCactus(t: Terrain, chunk: Chunk, heights: seq<int>, ghost base: seq<int>, lx: int, lz: int)
    requires chunk.Valid() && |base| == CHUNK_VOLUME && |heights| == SX * SZ
    requires 0 <= lx < SX && 0 <= lz < SZ && CactusRoot(t, chunk.cx, chunk.cz, lx, lz)
    requires CactiWritten(t, chunk.cx, chunk.cz, heights, base, chunk.blocks)
    modifies chunk
    ensures chunk.Valid() && chunk.node == old(chunk.node) && (old(chunk.dirty) ==> chunk.dirty)
    ensures CactiWritten(t, chunk.cx, chunk.cz, heights, base, chunk.blocks)
  {
    var cactusBlocks := GenerateCactus(t.noise, chunk.cx * SX + lx, heights[ColumnIndex(lx, lz)] + 1, chunk.cz * SZ + lz);
    ghost var mid := chunk.blocks;
    PlaceInChunk(chunk, cactusBlocks);
    CactusStep(t, chunk.cx, chunk.cz, heights, base, mid, chunk.blocks, cactusBlocks, lx, lz);
  }

  /** In-chunk 8-neighbour of (lx, y, lz) holding cactus: what `_cactus_touching_another` looks for. */
  predicate TouchingCactus(blocks: seq<int>, lx: int, y: int, lz: int)
    requires |blocks| == CHUNK_VOLUME
  {
    exists dx, dz :: -1 <= dx <= 1 && -1 <= dz <= 1 && !(dx == 0 && dz == 0) && CactusOffset(blocks, lx, y, lz, dx, dz)
  }

  /** Cell (lx + dx, y, lz + dz) lies in the chunk and holds cactus. */
  predicate CactusOffset(blocks: seq<int>, lx: int, y: int, lz: int, dx: int, dz: int)
    requires |blocks| == CHUNK_VOLUME
  {
    0 <= lx + dx < SX && 0 <= lz + dz < SZ && Cell(blocks, lx + dx, y, lz + dz) == CACTUS
  }

  /** `_cactus_touching_another`: scans the eight horizontal neighbours inside the chunk for cactus. */
  method CactusTouchingAnother(chunk: Chunk, lx: int, y: int, lz: int) returns (r: bool)
    requires chunk.Valid()
    ensures r == TouchingCactus(chunk.blocks, lx, y, lz)
  {
    var dz := -1;
    while dz < 2
      invariant -1 <= dz <= 2
      invariant forall ez, ex | -1 <= ez < dz && -1 <= ex <= 1 && !(ex == 0 && ez == 0) :: !CactusOffset(chunk.blocks, lx, y, lz, ex, ez)
    {
      var dx := -1;
      while dx < 2
        invariant -1 <= dx <= 2
        invariant forall ez, ex | -1 <= ez < dz && -1 <= ex <= 1 && !(ex == 0 && ez == 0) :: !CactusOffset(chunk.blocks, lx, y, lz, ex, ez)
        invariant forall ex | -1 <= ex < dx && !(ex == 0 && dz == 0) :: !CactusOffset(chunk.blocks, lx, y, lz, ex, dz)
      {
        if !(dx == 0 && dz == 0) {
          var checkX := lx + dx;
          var checkZ := lz + dz;
          if 0 <= checkX < SX && 0 <= checkZ < SZ {
            var b := chunk.GetBlockLocal(checkX, y, checkZ);
            if b == CACTUS {
              assert CactusOffset(chunk.blocks, lx, y, lz, dx, dz);
              return true;
            }
          }
        }
        dx := dx + 1;
      }
      dz := dz + 1;
    }
    return false;
  }

  /** The cleanup pass acts on (lx, y, lz): it holds cactus touching another. */
  predicate ScanHit(blocks: seq<int>, lx: int, y: int, lz: int)
    requires |blocks| == CHUNK_VOLUME
  {
    Cell(blocks, lx, y, lz) == CACTUS && TouchingCactus(blocks, lx, y, lz)
  }

  /** The first height from `ry` up where column (lx, lz) holds no cactus, or SY. */
  function RunTop(blocks: seq<int>, lx: int, ry: int, lz: int): (top: int)
    requires |blocks| == CHUNK_VOLUME && 0 <= ry <= SY
    ensures ry <= top <= SY
    ensures forall y :: ry <= y < top ==> Cell(blocks, lx, y, lz) == CACTUS
    ensures top < SY ==> Cell(blocks, lx, top, lz) != CACTUS
    decreases SY - ry
  {
    if ry == SY || Cell(blocks, lx, ry, lz) != CACTUS then ry else RunTop(blocks, lx, ry + 1, lz)
  }

  /** The cells after clearing the cactus run of column (lx, lz) from height `ry` up, one cell at a time. */
  ghost function ClearedFrom(blocks: seq<int>, lx: int, ry: int, lz: int): (r: seq<int>)
    requires |blocks| == CHUNK_VOLUME && 0 <= lx < SX && 0 <= lz < SZ && 0 <= ry <= SY
    ensures |r| == CHUNK_VOLUME
    decreases SY - ry
  {
    if ry == SY || Cell(blocks, lx, ry, lz) != CACTUS then blocks
    else ClearedFrom(WithCell(blocks, lx, ry, lz, AIR), lx, ry + 1, lz)
  }

  /**
   * Clearing from `ry` turns exactly the cactus run of column (lx, lz)
   * that starts at `ry` into air; every other cell keeps its block.
   */
  lemma {:induction false} ColumnCleared(blocks: seq<int>, lx: int, ry: int, lz: int)
    requires |blocks| == CHUNK_VOLUME && 0 <= lx < SX && 0 <= lz < SZ && 0 <= ry <= SY
    ensures forall qx, qy, qz | InChunk(qx, qy, qz) ::
      Cell(ClearedFrom(blocks, lx, ry, lz), qx, qy, qz)
        == if qx == lx && qz == lz && ry <= qy < RunTop(blocks, lx, ry, lz) then AIR else Cell(blocks, qx, qy, qz)
    decreases SY - ry
  {
    if ry < SY && Cell(blocks, lx, ry, lz) == CACTUS {
      var nb := WithCell(blocks, lx, ry, lz, AIR);
      ColumnCleared(nb, lx, ry + 1, lz);
      forall h | ry + 1 <= h < SY
        ensures Cell(nb, lx, h, lz) == Cell(blocks, lx, h, lz)
      {
        ReadAfterWrite(blocks, lx, ry, lz, AIR, lx, h, lz);
      }
      var top := RunTop(blocks, lx, ry + 1, lz);
      assert RunTop(nb, lx, ry + 1, lz) == top;
      forall qx, qy, qz | InChunk(qx, qy, qz)
        ensures Cell(ClearedFrom(blocks, lx, ry, lz), qx, qy, qz)
          == if qx == lx && qz == lz && ry <= qy < top then AIR else Cell(blocks, qx, qy, qz)
      {
        ReadAfterWrite(blocks, lx, ry, lz, AIR, qx, qy, qz);
      }
    }
  }

  /** The x loop of row (y, lz) from `lx`: the first hit loses its cactus run, then the `break` ends the row. */
  ghost function RowCleaned(blocks: seq<int>, y: int, lz: int, lx: int): (r: seq<int>)
    requires |blocks| == CHUNK_VOLUME && 0 <= y < SY && 0 <= lz < SZ && 0 <= lx <= SX
    ensures |r| == CHUNK_VOLUME
    decreases SX - lx
  {
    if lx == SX then blocks
    else if ScanHit(blocks, lx, y, lz) then ClearedFrom(blocks, lx, y, lz)
    else RowCleaned(blocks, y, lz, lx + 1)
  }

  /** A row with no hit is left alone; otherwise exactly its first hit is cleared. */
  lemma {:induction false} RowCleanedFirstHit(blocks: seq<int>, y: int, lz: int, lx: int)
    requires |blocks| == CHUNK_VOLUME && 0 <= y < SY && 0 <= lz < SZ && 0 <= lx <= SX
    ensures (forall j :: lx <= j < SX ==> !ScanHit(blocks, j, y, lz)) ==> RowCleaned(blocks, y, lz, lx) == blocks
    ensures forall j | lx <= j < SX && ScanHit(blocks, j, y, lz) && (forall i :: lx <= i < j ==> !ScanHit(blocks, i, y, lz)) ::
              RowCleaned(blocks, y, lz, lx) == ClearedFrom(blocks, j, y, lz)
    decreases SX - lx
  {
    if lx < SX && !ScanHit(blocks, lx, y, lz) {
      RowCleanedFirstHit(blocks, y, lz, lx + 1);
      assert RowCleaned(blocks, y, lz, lx) == RowCleaned(blocks, y, lz, lx + 1);
    }
    forall j | lx <= j < SX && ScanHit(blocks, j, y, lz) && (forall i :: lx <= i < j ==> !ScanHit(blocks, i, y, lz))
      ensures RowCleaned(blocks, y, lz, lx) == ClearedFrom(blocks, j, y, lz)
    {
      if j == lx {
        assert RowCleaned(blocks, y, lz, lx) == ClearedFrom(blocks, lx, y, lz);
      } else {
        assert !ScanHit(blocks, lx, y, lz);
      }
    }
  }

  /** Layer y after the z loop has scanned its first `lz` rows. */
  ghost function RowsCleaned(blocks: seq<int>, y: int, lz: int): (r: seq<int>)
    requires |blocks| == CHUNK_VOLUME && 0 <= y < SY && 0 <= lz <= SZ
    ensures |r| == CHUNK_VOLUME
  {
    if lz == 0 then blocks else RowCleaned(RowsCleaned(blocks, y, lz - 1), y, lz - 1, 0)
  }

  /** One more row of a layer is one more x loop. */
  lemma RowsCleanedStep(blocks: seq<int>, y: int, lz: int)
    requires |blocks| == CHUNK_VOLUME && 0 <= y < SY && 0 <= lz < SZ
    ensures RowsCleaned(blocks, y, lz + 1) == RowCleaned(RowsCleaned(blocks, y, lz), y, lz, 0)
  {
  }

  /** One more layer of the cleanup pass is one more full z loop. */
  lemma LayersCleanedStep(blocks: seq<int>, y: int)
    requires |blocks| == CHUNK_VOLUME && 0 <= y < SY
    ensures LayersCleaned(blocks, y + 1) == RowsCleaned(LayersCleaned(blocks, y), y, SZ)
  {
  }

  /** The cells after the cleanup pass has scanned its first `y` layers. */
  ghost function LayersCleaned(blocks: seq<int>, y: int): (r: seq<int>)
    requires |blocks| == CHUNK_VOLUME && 0 <= y <= SY
    ensures |r| == CHUNK_VOLUME
  {
    if y == 0 then blocks else RowsCleaned(LayersCleaned(blocks, y - 1), y - 1, SZ)
  }

  /**
   * Each cell the cleanup pass removed was a cactus that touched another
   * cactus before the pass, or sat on a removed cactus.
   */
  ghost predicate CactiRemovedFor(base: seq<int>, blocks: seq<int>)
    requires |base| == CHUNK_VOLUME && |blocks| == CHUNK_VOLUME
  {
    forall lx, y, lz {:trigger CactusRemovalOk(base, blocks, lx, y, lz)} | InChunk(lx, y, lz) :: CactusRemovalOk(base, blocks, lx, y, lz)
  }

  /** Cell (lx, y, lz) is unchanged, or a cactus removed for touching another or for resting on a removed one. */
  ghost predicate CactusRemovalOk(base: seq<int>, blocks: seq<int>, lx: int, y: int, lz: int)
    requires |base| == CHUNK_VOLUME && |blocks| == CHUNK_VOLUME
  {
    Cell(blocks, lx, y, lz) == Cell(base, lx, y, lz)
    || (Cell(base, lx, y, lz) == CACTUS && Cell(blocks, lx, y, lz) == AIR
        && (TouchingCactus(base, lx, y, lz)
            || (y > 0 && Cell(base, lx, y - 1, lz) == CACTUS && Cell(blocks, lx, y - 1, lz) == AIR)))
  }

  /** The cleanup pass only removes cacti, so a cactus it still sees was there before it. */
  lemma CactusNeighbourWasThere(base: seq<int>, blocks: seq<int>, lx: int, y: int, lz: int)
    requires |base| == CHUNK_VOLUME && |blocks| == CHUNK_VOLUME
    requires CactiRemovedFor(base, blocks) && TouchingCactus(blocks, lx, y, lz)
    ensures TouchingCactus(base, lx, y, lz)
  {
    var dx, dz :| -1 <= dx <= 1 && -1 <= dz <= 1 && !(dx == 0 && dz == 0) && CactusOffset(blocks, lx, y, lz, dx, dz);
    assert CactusRemovalOk(base, blocks, lx + dx, y, lz + dz);
    assert CactusOffset(base, lx, y, lz, dx, dz);
  }

  lemma RemoveCactusStep(base: seq<int>, blocks: seq<int>, lx: int, y: int, lz: int)
    requires |base| == CHUNK_VOLUME && |blocks| == CHUNK_VOLUME
    requires CactiRemovedFor(base, blocks) && InChunk(lx, y, lz) && Cell(blocks, lx, y, lz) == CACTUS
    requires TouchingCactus(base, lx, y, lz)
             || (y > 0 && Cell(base, lx, y - 1, lz) == CACTUS && Cell(blocks, lx, y - 1, lz) == AIR)
    ensures CactiRemovedFor(base, WithCell(blocks, lx, y, lz, AIR))
  {
    var nb := WithCell(blocks, lx, y, lz, AIR);
    forall qx, qy, qz | InChunk(qx, qy, qz)
      ensures CactusRemovalOk(base, nb, qx, qy, qz)
    {
      assert CactusRemovalOk(base, blocks, qx, qy, qz);
      ReadAfterWrite(blocks, lx, y, lz, AIR, qx, qy, qz);
      ReadAfterWrite(blocks, lx, y, lz, AIR, qx, qy - 1, qz);
      if (qx, qy, qz) == (lx, y, lz) {
        assert CactusRemovalOk(base, blocks, lx, y, lz);
        assert Cell(base, lx, y, lz) == CACTUS;
      } else if Cell(blocks, qx, qy, qz) != Cell(base, qx, qy, qz) {
        assert Cell(base, qx, qy, qz) == CACTUS && Cell(blocks, qx, qy, qz) == AIR;
        if !TouchingCactus(base, qx, qy, qz) {
          assert qy > 0 && Cell(blocks, qx, qy - 1, qz) == AIR;
          assert Cell(nb, qx, qy - 1, qz) == AIR;
        }
      }
    }
  }

  /** Clearing a cactus run that starts at a cell the pass may remove keeps every change justified. */
  lemma {:induction false} ClearedFromSound(base: seq<int>, blocks: seq<int>, lx: int, ry: int, lz: int)
    requires |base| == CHUNK_VOLUME && |blocks| == CHUNK_VOLUME && 0 <= lx < SX && 0 <= lz < SZ && 0 <= ry <= SY
    requires CactiRemovedFor(base, blocks)
    requires Cell(blocks, lx, ry, lz) == CACTUS ==>
      TouchingCactus(base, lx, ry, lz) || (ry > 0 && Cell(base, lx, ry - 1, lz) == CACTUS && Cell(blocks, lx, ry - 1, lz) == AIR)
    ensures CactiRemovedFor(base, ClearedFrom(blocks, lx, ry, lz))
    decreases SY - ry
  {
    if ry < SY && Cell(blocks, lx, ry, lz) == CACTUS {
      RemoveCactusStep(base, blocks, lx, ry, lz);
      var nb := WithCell(blocks, lx, ry, lz, AIR);
      assert CactusRemovalOk(base, blocks, lx, ry, lz);
      ReadAfterWrite(blocks, lx, ry, lz, AIR, lx, ry, lz);
      ClearedFromSound(base, nb, lx, ry + 1, lz);
    }
  }

  /** The scan of one row only makes justified removals. */
  lemma {:induction false} RowCleanedSound(base: seq<int>, blocks: seq<int>, y: int, lz: int, lx: int)
    requires |base| == CHUNK_VOLUME && |blocks| == CHUNK_VOLUME && 0 <= y < SY && 0 <= lz < SZ && 0 <= lx <= SX
    requires CactiRemovedFor(base, blocks)
    ensures CactiRemovedFor(base, RowCleaned(blocks, y, lz, lx))
    decreases SX - lx
  {
    if lx < SX {
      if ScanHit(blocks, lx, y, lz) {
        CactusNeighbourWasThere(base, blocks, lx, y, lz);
        ClearedFromSound(base, blocks, lx, y, lz);
      } else {
        RowCleanedSound(base, blocks, y, lz, lx + 1);
      }
    }
  }

  /** The scan of a layer's first `lz` rows only makes justified removals. */
  lemma {:induction false} RowsCleanedSound(base: seq<int>, blocks: seq<int>, y: int, lz: int)
    requires |base| == CHUNK_VOLUME && |blocks| == CHUNK_VOLUME && 0 <= y < SY && 0 <= lz <= SZ
    requires CactiRemovedFor(base, blocks)
    ensures CactiRemovedFor(base, RowsCleaned(blocks, y, lz))
  {
    if lz > 0 {
      RowsCleanedSound(base, blocks, y, lz - 1);
      RowCleanedSound(base, RowsCleaned(blocks, y, lz - 1), y, lz - 1, 0);
    }
  }

  /**
   * Every cell the cleanup pass changes was a cactus it turned into air,
   * which touched another cactus or sat on a removed one.
   */
  lemma {:induction false} LayersCleanedSound(base: seq<int>, y: int)
    requires |base| == CHUNK_VOLUME && 0 <= y <= SY
    ensures CactiRemovedFor(base, LayersCleaned(base, y))
  {
    if y > 0 {
      var prev := LayersCleaned(base, y - 1);
      LayersCleanedSound(base, y - 1);
      RowsCleanedSound(base, prev, y - 1, SZ);
      LayersCleanedStep(base, y - 1);
    } else {
      assert LayersCleaned(base, y) == base;
    }
  }

  /** The `remove_y` loop, after the touching cactus at (lx, y, lz) became air: its cactus run goes too. */
  method RemoveCactusColumn(chunk: Chunk, lx: int, y: int, lz: int)
    requires chunk.Valid() && InChunk(lx, y, lz) && Cell(chunk.blocks, lx, y, lz) == CACTUS
    modifies chunk
    ensures chunk.Valid() && chunk.node == old(chunk.node) && (old(chunk.dirty) ==> chunk.dirty)
    ensures chunk.blocks == ClearedFrom(old(chunk.blocks), lx, y, lz)
  {
    chunk.SetBlockLocal(lx, y, lz, AIR);
    var ry := y + 1;
    while ry < SY
      invariant y + 1 <= ry <= SY
      invariant chunk.Valid() && chunk.node == old(chunk.node) && (old(chunk.dirty) ==> chunk.dirty)
      invariant ClearedFrom(chunk.blocks, lx, ry, lz) == ClearedFrom(old(chunk.blocks), lx, y, lz)
    {
      var b := chunk.GetBlockLocal(lx, ry, lz);
      if b != CACTUS {
        break;
      }
      chunk.SetBlockLocal(lx, ry, lz, AIR);
      ry := ry + 1;
    }
  }

  /**
   * The cleanup pass, bottom to top: a cactus touching another loses
   * itself and the cactus above it, and the scan moves to the next row
   * (the `break` leaves the x loop).
   */
  method RemoveTouchingCacti(chunk: Chunk)
    requires chunk.Valid()
    modifies chunk
    ensures chunk.Valid() && chunk.node == old(chunk.node) && (old(chunk.dirty) ==> chunk.dirty)
    ensures chunk.blocks == LayersCleaned(old(chunk.blocks), SY)
    ensures CactiRemovedFor(old(chunk.blocks), chunk.blocks)
  {
    ghost var base := chunk.blocks;
    var y := 0;
    while y < SY
      invariant 0 <= y <= SY
      invariant chunk.Valid() && chunk.node == old(chunk.node) && (old(chunk.dirty) ==> chunk.dirty)
      invariant chunk.blocks == LayersCleaned(base, y)
    {
      LayersCleanedStep(base, y);
      CleanLayer(chunk, y);
      y := y + 1;
    }
    LayersCleanedSound(base, SY);
  }

  /** The z loop of the cleanup pass over layer y. */
  method CleanLayer(chunk: Chunk, y: int)
    requires chunk.Valid() && 0 <= y < SY
    modifies chunk
    ensures chunk.Valid() && chunk.node == old(chunk.node) && (old(chunk.dirty) ==> chunk.dirty)
    ensures chunk.blocks == RowsCleaned(old(chunk.blocks), y, SZ)
  {
    var lz := 0;
    while lz < SZ
      invariant 0 <= lz <= SZ
      invariant chunk.Valid() && chunk.node == old(chunk.node) && (old(chunk.dirty) ==> chunk.dirty)
      invariant chunk.blocks == RowsCleaned(old(chunk.blocks), y, lz)
    {
      RowsCleanedStep(old(chunk.blocks), y, lz);
      CleanRow(chunk, y, lz);
      lz := lz + 1;
    }
  }

  /** The x loop of the cleanup pass over row (y, lz). */
  method CleanRow(chunk: Chunk, y: int, lz: int)
    requires chunk.Valid() && 0 <= y < SY && 0 <= lz < SZ
    modifies chunk
    ensures chunk.Valid() && chunk.node == old(chunk.node) && (old(chunk.dirty) ==> chunk.dirty)
    ensures chunk.blocks == RowCleaned(old(chunk.blocks), y, lz, 0)
  {
    var lx := 0;
    while lx < SX
      invariant 0 <= lx <= SX
      invariant chunk.Valid() && chunk.node == old(chunk.node) && (old(chunk.dirty) ==> chunk.dirty)
      invariant chunk.blocks == old(chunk.blocks)
      invariant RowCleaned(old(chunk.blocks), y, lz, lx) == RowCleaned(old(chunk.blocks), y, lz, 0)
    {
      var b := chunk.GetBlockLocal(lx, y, lz);
      if b == CACTUS {
        var touching := CactusTouchingAnother(chunk, lx, y, lz);
        if touching {
          RemoveCactusColumn(chunk, lx, y, lz);
          return;
        }
      }
      lx := lx + 1;
    }
  }

  /** A cell's content after population: see `Populated`. */
  ghost predicate PopulatedCell(t: Terrain, cx: int, cz: int, lx: int, y: int, lz: int, b: int)
  {
    var wx := cx * SX + lx;
    var wz := cz * SZ + lz;
    var th := ColumnHeight(t, wx, wz);
    (y == 0 ==> b == BEDROCK)
    && (y <= th ==>
          b == FillBlock(false, wx, wz, y, th, ColumnBiome(t, wx, wz))
          || (b == AIR && CarvableCell((lx, y, lz), cx, cz, WormsAt(t, cx, cz)))
          || TreeBlock(b))
    && (y > th ==> b == AIR || TreeBlock(b) || b == CACTUS)
  }

  /**
   * What `_populate_chunk_blocks` leaves: bedrock at y = 0; up to a
   * column's height its uncarved layer block, air inside a cave sphere,
   * or a tree block; above it air, a tree block or cactus.
   */
  ghost predicate Populated(t: Terrain, cx: int, cz: int, blocks: seq<int>)
    requires |blocks| == CHUNK_VOLUME
  {
    forall lx, y, lz | InChunk(lx, y, lz) :: PopulatedCell(t, cx, cz, lx, y, lz, Cell(blocks, lx, y, lz))
  }

  lemma FillPopulates(t: Terrain, cx: int, cz: int, caves: set<(int, int, int)>, heights: seq<int>, blocks: seq<int>)
    requires |blocks| == CHUNK_VOLUME && HeightsOf(t, cx, cz, heights)
    requires forall c :: c in caves ==> CarvableCell(c, cx, cz, WormsAt(t, cx, cz))
    requires forall lx, y, lz | InChunk(lx, y, lz) ::
      Cell(blocks, lx, y, lz) == FillTarget(t, cx, cz, caves, heights, seq(CHUNK_VOLUME, _ => AIR), lx, y, lz)
    ensures Populated(t, cx, cz, blocks)
  {
    forall lx, y, lz | InChunk(lx, y, lz)
      ensures PopulatedCell(t, cx, cz, lx, y, lz, Cell(blocks, lx, y, lz))
    {
      var wx := cx * SX + lx;
      var wz := cz * SZ + lz;
      var th := ColumnHeight(t, wx, wz);
      HeightAt(t, cx, cz, heights, lx, lz);
      if y <= th {
        FillLayers((lx, y, lz) in caves, wx, wz, y, th, ColumnBiome(t, wx, wz));
        FillLayers(false, wx, wz, y, th, ColumnBiome(t, wx, wz));
      } else {
        assert Cell(seq(CHUNK_VOLUME, _ => AIR), lx, y, lz) == AIR;
      }
    }
  }

  lemma TreesKeepPopulated(t: Terrain, cx: int, cz: int, base: seq<int>, blocks: seq<int>)
    requires |base| == CHUNK_VOLUME && |blocks| == CHUNK_VOLUME
    requires Populated(t, cx, cz, base) && TreesWritten(t, cx, cz, base, blocks)
    ensures Populated(t, cx, cz, blocks)
  {
    forall lx, y, lz | InChunk(lx, y, lz)
      ensures PopulatedCell(t, cx, cz, lx, y, lz, Cell(blocks, lx, y, lz))
    {
      assert PopulatedCell(t, cx, cz, lx, y, lz, Cell(base, lx, y, lz));
    }
  }

  lemma CactiKeepPopulated(t: Terrain, cx: int, cz: int, heights: seq<int>, base: seq<int>, blocks: seq<int>)
    requires |base| == CHUNK_VOLUME && |blocks| == CHUNK_VOLUME && HeightsOf(t, cx, cz, heights)
    requires Populated(t, cx, cz, base) && CactiWritten(t, cx, cz, heights, base, blocks)
    ensures Populated(t, cx, cz, blocks)
  {
    forall lx, y, lz | InChunk(lx, y, lz)
      ensures PopulatedCell(t, cx, cz, lx, y, lz, Cell(blocks, lx, y, lz))
    {
      assert PopulatedCell(t, cx, cz, lx, y, lz, Cell(base, lx, y, lz));
      HeightAt(t, cx, cz, heights, lx, lz);
    }
  }

  lemma CleanupKeepsPopulated(t: Terrain, cx: int, cz: int, base: seq<int>, blocks: seq<int>)
    requires |base| == CHUNK_VOLUME && |blocks| == CHUNK_VOLUME
    requires Populated(t, cx, cz, base) && CactiRemovedFor(base, blocks)
    ensures Populated(t, cx, cz, blocks)
  {
    forall lx, y, lz | InChunk(lx, y, lz)
      ensures PopulatedCell(t, cx, cz, lx, y, lz, Cell(blocks, lx, y, lz))
    {
      assert CactusRemovalOk(base, blocks, lx, y, lz);
      if Cell(blocks, lx, y, lz) != Cell(base, lx, y, lz) {
        CactusCellToAir(t, cx, cz, lx, y, lz);
      }
    }
  }

  /** Where a cactus may stand, air may too. */
  lemma CactusCellToAir(t: Terrain, cx: int, cz: int, lx: int, y: int, lz: int)
    requires PopulatedCell(t, cx, cz, lx, y, lz, CACTUS)
    ensures PopulatedCell(t, cx, cz, lx, y, lz, AIR)
  {
    var wx := cx * SX + lx;
    var wz := cz * SZ + lz;
    var th := ColumnHeight(t, wx, wz);
    if 0 <= y <= th {
      FillLayers(false, wx, wz, y, th, ColumnBiome(t, wx, wz));
    }
  }

  /**
   * `_populate_chunk_blocks`: the column fill with caves and ores, then
   * trees, then cacti, then the touching-cactus cleanup.
   */
  method PopulateChunkBlocks(t: Terrain, chunk: Chunk)
    requires chunk.Valid() && chunk.blocks == seq(CHUNK_VOLUME, _ => AIR)
    modifies chunk
    ensures chunk.Valid() && chunk.node == old(chunk.node) && (old(chunk.dirty) ==> chunk.dirty)
    ensures Populated(t, chunk.cx, chunk.cz, chunk.blocks)
  {
    var heights := ColumnHeights(t, chunk.cx, chunk.cz);
    var caves := GenerateChunkCaves(chunk.cx, chunk.cz, WormsAt(t, chunk.cx, chunk.cz));
    FillTerrain(t, chunk, heights, caves);
    FillPopulates(t, chunk.cx, chunk.cz, caves, heights, chunk.blocks);
    ghost var filled := chunk.blocks;
    PlaceTrees(t, chunk, heights);
    TreesKeepPopulated(t, chunk.cx, chunk.cz, filled, chunk.blocks);
    ghost var treed := chunk.blocks;
    PlaceCacti(t, chunk, heights);
    CactiKeepPopulated(t, chunk.cx, chunk.cz, heights, treed, chunk.blocks);
    ghost var planted := chunk.blocks;
    RemoveTouchingCacti(chunk);
    CleanupKeepsPopulated(t, chunk.cx, chunk.cz, planted, chunk.blocks);
  }

  // ---------------------------------------------------------------------
  // The world: chunk streaming, meshing and block edits

  /** The blocks a newly created chunk holds: its saved data if there is any, else freshly populated terrain. */
  ghost predicate FreshChunkBlocks(t: Terrain, cx: int, cz: int, blocks: seq<int>)
  {
    |blocks| == CHUNK_VOLUME
    && (SavedAt(t, cx, cz).Some? ==> blocks == SavedAt(t, cx, cz).value)
    && (SavedAt(t, cx, cz).None? ==> Populated(t, cx, cz, blocks))
  }

  /** The mesh environment `build_mesh` gets from the world: `is_solid` over the loaded chunks. */
  function WorldEnv(t: Terrain, uvs: string -> Option<Uv>, view: map<(int, int), seq<int>>): MeshEnv
    requires ViewOk(view)
  {
    MeshEnv((x, y, z) => SolidIn(view, x, y, z), t.noise, uvs)
  }

  /** The chunks of the view `_spiral_coords` lists around `center`, as a set. */
  function Elements<T>(s: seq<T>): set<T>
  {
    set i | 0 <= i < |s| :: s[i]
  }

  /**
   * A write through `remove_block` or `place_block` is seen by `get_block`
   * at that position and nowhere else.
   */
  lemma WorldWrite(view: map<(int, int), seq<int>>, noise: Noise, wx: int, wy: int, wz: int, id: int, qx: int, qy: int, qz: int)
    requires ViewOk(view) && WorldToChunk(wx, wz) in view && 0 <= wy < SY
    ensures var key := WorldToChunk(wx, wz);
      var l := LocalCoords(wx, wy, wz);
      var after := view[key := WithCell(view[key], l.0, wy, l.2, id)];
      ViewOk(after)
      && BlockIn(after, noise, qx, qy, qz) == if (qx, qy, qz) == (wx, wy, wz) then id else BlockIn(view, noise, qx, qy, qz)
  {
    var key := WorldToChunk(wx, wz);
    var l := LocalCoords(wx, wy, wz);
    var after := view[key := WithCell(view[key], l.0, wy, l.2, id)];
    if 0 <= qy < SY && WorldToChunk(qx, qz) == key {
      var q := LocalCoords(qx, qy, qz);
      ReadAfterWrite(view[key], l.0, wy, l.2, id, q.0, qy, q.2);
    }
  }

  /**
   * Whether chunk `k` needed meshing given the (dirty, has node) flags
   * of the loaded chunks before a pass: `_build_mesh_for`'s guard, with
   * a chunk missing from `flags0` counting as newly created.
   */
  predicate NeededMesh(flags0: map<(int, int), (bool, bool)>, k: (int, int))
  {
    k !in flags0 || flags0[k].0 || !flags0[k].1
  }

  /**
   * The chunks that needed meshing under `flags0` and have a clean node
   * under `flags`: between the two, exactly the builds that produced
   * faces.
   */
  function NewlyMeshed(flags: map<(int, int), (bool, bool)>, flags0: map<(int, int), (bool, bool)>): set<(int, int)>
  {
    set k | k in flags && flags[k] == (false, true) && NeededMesh(flags0, k)
  }

  /** Every chunk that did not need meshing under `flags0` still has the same flags. */
  predicate Untouched(flags: map<(int, int), (bool, bool)>, flags0: map<(int, int), (bool, bool)>)
  {
    forall k :: k in flags && !NeededMesh(flags0, k) ==> k in flags0 && flags[k] == flags0[k]
  }

  /**
   * Rebuilding a chunk that needs it keeps every other chunk's flags
   * untouched, and adds the chunk to the newly meshed ones exactly when
   * it ends with a clean node.
   */
  lemma RebuildStep(flags0: map<(int, int), (bool, bool)>, flags: map<(int, int), (bool, bool)>, key: (int, int), f: (bool, bool))
    requires Untouched(flags, flags0) && key in flags && flags[key] != (false, true)
    ensures Untouched(flags[key := f], flags0)
    ensures key !in NewlyMeshed(flags, flags0)
    ensures NewlyMeshed(flags[key := f], flags0)
      == if f == (false, true) then NewlyMeshed(flags, flags0) + {key} else NewlyMeshed(flags, flags0)
  {
    assert NeededMesh(flags0, key);
  }

  lemma ElementsAppend<T>(s: seq<T>, x: T)
    ensures Elements(s + [x]) == Elements(s) + {x}
  {
    assert (s + [x])[|s|] == x;
    forall y | y in Elements(s)
      ensures y in Elements(s + [x])
    {
      var i :| 0 <= i < |s| && s[i] == y;
      assert (s + [x])[i] == y;
    }
  }

  /** Chunk `k` shows no face in the world `view`. */
  ghost predicate NoFaces(t: Terrain, uvs: string -> Option<Uv>, view: map<(int, int), seq<int>>, k: (int, int))
    requires ViewOk(view) && k in view
  {
    Bare(WorldEnv(t, uvs, view), view[k], k.0, k.1)
  }

  /**
   * Chunk `k` is settled in the world `view`: under `flags` it has a
   * clean node, or it has no node and no visible face.
   */
  ghost predicate Settled(t: Terrain, uvs: string -> Option<Uv>, flags: map<(int, int), (bool, bool)>, view: map<(int, int), seq<int>>, k: (int, int))
    requires ViewOk(view)
  {
    k in flags && k in view && (flags[k] == (false, true) || (!flags[k].1 && NoFaces(t, uvs, view, k)))
  }

  /** Every loaded chunk of `done` is settled in the world `view`. */
  ghost predicate AllSettled(t: Terrain, uvs: string -> Option<Uv>, flags: map<(int, int), (bool, bool)>, view: map<(int, int), seq<int>>, done: seq<(int, int)>)
    requires ViewOk(view)
  {
    forall k :: k in done && k in flags ==> Settled(t, uvs, flags, view, k)
  }

  /** Every chunk outside `done` has the same flags under `flags` as under `flags0`. */
  predicate SameOutside(flags: map<(int, int), (bool, bool)>, flags0: map<(int, int), (bool, bool)>, done: seq<(int, int)>)
  {
    forall k :: k in flags && k !in done ==> k in flags0 && flags[k] == flags0[k]
  }

  /**
   * A meshing step on `key` that settles it and changes no other flag
   * extends both loop facts by `key`.
   */
  lemma {:induction false} SettleStep(t: Terrain, uvs: string -> Option<Uv>, flags0: map<(int, int), (bool, bool)>,
                                      flags: map<(int, int), (bool, bool)>, after: map<(int, int), (bool, bool)>,
                                      view: map<(int, int), seq<int>>, done: seq<(int, int)>, key: (int, int))
    requires ViewOk(view) && AllSettled(t, uvs, flags, view, done) && SameOutside(flags, flags0, done)
    requires after.Keys == flags.Keys && forall k :: k in flags && k != key ==> after[k] == flags[k]
    requires key in after ==> Settled(t, uvs, after, view, key)
    ensures AllSettled(t, uvs, after, view, done + [key]) && SameOutside(after, flags0, done + [key])
  {
    forall k | k in done + [key] && k in after
      ensures Settled(t, uvs, after, view, k)
    {
      if k != key {
        assert k in done && Settled(t, uvs, flags, view, k);
      }
    }
  }

  /**
   * The ghost state of a meshing pass over `done`, started under the
   * flags `flags0`: the builds with faces so far are `built`, every
   * chunk of `done` is settled and every other chunk keeps its flags.
   */
  ghost predicate MeshProgress(t: Terrain, uvs: string -> Option<Uv>, flags0: map<(int, int), (bool, bool)>,
                               flags: map<(int, int), (bool, bool)>, view: map<(int, int), seq<int>>,
                               done: seq<(int, int)>, built: seq<(int, int)>)
    requires ViewOk(view)
  {
    Untouched(flags, flags0) && NoDup(built) && Elements(built) == NewlyMeshed(flags, flags0)
    && AllSettled(t, uvs, flags, view, done) && SameOutside(flags, flags0, done)
  }

  /** One meshing step on `key` extends the pass by `key`, and by a build when `ok`. */
  lemma MeshProgressStep(t: Terrain, uvs: string -> Option<Uv>, flags0: map<(int, int), (bool, bool)>,
                         flags: map<(int, int), (bool, bool)>, after: map<(int, int), (bool, bool)>,
                         view: map<(int, int), seq<int>>, done: seq<(int, int)>, built: seq<(int, int)>,
                         key: (int, int), ok: bool)
    requires ViewOk(view) && MeshProgress(t, uvs, flags0, flags, view, done, built)
    requires after.Keys == flags.Keys && forall k :: k in flags && k != key ==> after[k] == flags[k]
    requires key in after ==> Settled(t, uvs, after, view, key)
    requires Untouched(after, flags0)
    requires ok ==> key !in NewlyMeshed(flags, flags0)
    requires NewlyMeshed(after, flags0) == if ok then NewlyMeshed(flags, flags0) + {key} else NewlyMeshed(flags, flags0)
    ensures MeshProgress(t, uvs, flags0, after, view, done + [key], if ok then built + [key] else built)
  {
    SettleStep(t, uvs, flags0, flags, after, view, done, key);
    ElementsAppend(built, key);
  }

  /** The chunks `update` and `preload_chunks_around` want loaded around the player at (px, pz), nearest first. */
  function DesiredAround(px: real, pz: real): seq<(int, int)>
  {
    Spiral(WorldToChunk(px.Floor, pz.Floor), RenderRadius())
  }

  /**
   * From the flags `flags0` to `flags1` chunks were only created (dirty,
   * without node) or dropped: every other chunk keeps its flags.
   */
  predicate CreatedOnly(flags1: map<(int, int), (bool, bool)>, flags0: map<(int, int), (bool, bool)>)
  {
    forall k :: k in flags1 ==> (k in flags0 && flags1[k] == flags0[k]) || (k !in flags0 && flags1[k] == (true, false))
  }

  /** `flags1` keeps exactly the entries of `flags0` whose keys are in `keep`. */
  ghost predicate Restricted(flags1: map<(int, int), (bool, bool)>, flags0: map<(int, int), (bool, bool)>, keep: set<(int, int)>) {
    flags1.Keys == flags0.Keys * keep && forall k :: k in flags1 ==> flags1[k] == flags0[k]
  }

  /** Only chunks with keys in `keep` were created. */
  predicate CreatedIn(flags1: map<(int, int), (bool, bool)>, flags0: map<(int, int), (bool, bool)>, keep: set<(int, int)>) {
    CreatedOnly(flags1, flags0) && forall k :: k in flags1 && k !in flags0 ==> k in keep
  }

  /** Unloading outside `keep` and then creating inside it only creates, as seen from before the unload. */
  lemma UnloadThenCreate(flags0: map<(int, int), (bool, bool)>, flags1: map<(int, int), (bool, bool)>, flags2: map<(int, int), (bool, bool)>, keep: set<(int, int)>)
    requires Restricted(flags1, flags0, keep) && CreatedIn(flags2, flags1, keep)
    ensures CreatedOnly(flags2, flags0)
  {
    forall k | k in flags2 && k !in flags1
      ensures k !in flags0
    {
      assert k in keep;
    }
  }

  /** Creating or dropping chunks before a meshing pass does not change which builds count as new. */
  lemma NewlyMeshedAcross(flags: map<(int, int), (bool, bool)>, flags0: map<(int, int), (bool, bool)>, flags1: map<(int, int), (bool, bool)>)
    requires CreatedOnly(flags1, flags0) && flags.Keys <= flags1.Keys
    ensures NewlyMeshed(flags, flags1) == NewlyMeshed(flags, flags0)
  {
    assert forall k :: k in flags ==> (NeededMesh(flags1, k) <==> NeededMesh(flags0, k));
  }

  /** A sequence without repetitions has as many elements as entries. */
  lemma {:induction false} ElementsOfNoDup<T>(s: seq<T>)
    requires NoDup(s)
    ensures |Elements(s)| == |s|
  {
    if s != [] {
      var init := s[..|s| - 1];
      assert NoDup(init);
      ElementsOfNoDup(init);
      assert Elements(s) == Elements(init) + {s[|s| - 1]};
      assert s[|s| - 1] !in Elements(init);
    }
  }

  class World {
    const terrain: Terrain
    const uvs: string -> Option<Uv>
    var chunks: map<(int, int), Chunk>
    /** The keys of `chunk_nodes`: chunks whose mesh is attached to the scene. */
    var meshed: set<(int, int)>
    var preloadComplete: bool

    /**
     * Each chunk is stored under its own coordinates (so distinct keys
     * hold distinct chunks), only loaded chunks have a scene node, and a
     * chunk has a node exactly when it holds a mesh.
     */
    ghost predicate Valid()
      reads this`chunks, this`meshed, chunks.Values
    {
      SavedWellFormed(terrain)
      && meshed <= chunks.Keys
      && (forall k :: k in chunks ==> chunks[k].cx == k.0 && chunks[k].cz == k.1 && chunks[k].Valid())
      && (forall k :: k in chunks ==> (k in meshed <==> chunks[k].node.Some?))
    }

    /** The block lists of the loaded chunks. */
    function View(): (v: map<(int, int), seq<int>>)
      reads this`chunks, this`meshed, chunks.Values
      requires Valid()
      ensures v.Keys == chunks.Keys && ViewOk(v)
    {
      map k | k in chunks :: chunks[k].blocks
    }

    ghost function DirtyKeys(): set<(int, int)>
      reads this`chunks, this`meshed, chunks.Values
    {
      set k | k in chunks && chunks[k].dirty
    }

    constructor(terrain: Terrain, uvs: string -> Option<Uv>)
      requires SavedWellFormed(terrain)
      ensures Valid() && this.terrain == terrain && this.uvs == uvs
      ensures chunks == map[] && meshed == {} && !preloadComplete
    {
      this.terrain := terrain;
      this.uvs := uvs;
      chunks := map[];
      meshed := {};
      preloadComplete := false;
    }

    /** `_apply_saved_modifications`: saved data replaces the generated blocks and marks the chunk dirty. */
    method ApplySavedModifications(chunk: Chunk)
      requires chunk.Valid() && SavedWellFormed(terrain)
      modifies chunk
      ensures chunk.Valid() && chunk.node == old(chunk.node)
      ensures SavedAt(terrain, chunk.cx, chunk.cz).Some? ==> chunk.blocks == SavedAt(terrain, chunk.cx, chunk.cz).value && chunk.dirty
      ensures SavedAt(terrain, chunk.cx, chunk.cz).None? ==> chunk.blocks == old(chunk.blocks) && chunk.dirty == old(chunk.dirty)
    {
      var saved := SavedAt(terrain, chunk.cx, chunk.cz);
      if saved.Some? {
        chunk.blocks := saved.value;
        chunk.dirty := true;
      }
    }

    /** `_ensure_chunk`: a loaded chunk is returned as is; a missing one is generated, patched with saved data and stored. */
    method EnsureChunk(cx: int, cz: int) returns (ch: Chunk)
      requires Valid()
      modifies this`chunks
      ensures Valid() && meshed == old(meshed) && preloadComplete == old(preloadComplete)
      ensures (cx, cz) in chunks && ch == chunks[(cx, cz)]
      ensures (cx, cz) in old(chunks) ==> chunks == old(chunks)
      ensures (cx, cz) !in old(chunks) ==>
        fresh(ch) && chunks == old(chunks)[(cx, cz) := ch]
        && ch.node == None && ch.dirty && FreshChunkBlocks(terrain, cx, cz, ch.blocks)
    {
      var key := (cx, cz);
      if key in chunks {
        return chunks[key];
      }
      ch := new Chunk(cx, cz);
      PopulateChunkBlocks(terrain, ch);
      ApplySavedModifications(ch);
      chunks := chunks[key := ch];
    }

    /**
     * `_build_mesh_for`: a loaded chunk that is dirty or has no node is
     * meshed against the current world; a mesh with faces becomes its
     * node, an empty one drops the node.  Only that chunk changes.
     */
    method BuildMeshFor(cx: int, cz: int) returns (built: bool)
      requires Valid()
      modifies this`meshed, if (cx, cz) in chunks then {chunks[(cx, cz)]} else {}
      ensures Valid() && chunks == old(chunks) && View() == old(View()) && preloadComplete == old(preloadComplete)
      ensures var key := (cx, cz);
        !(key in chunks && (old(chunks[key].dirty) || key !in old(meshed)))
        ==> !built && meshed == old(meshed) && (key in chunks ==> unchanged(chunks[key]))
      ensures var key := (cx, cz);
        key in chunks && (old(chunks[key].dirty) || key !in old(meshed))
        ==> RebuiltFrom(old(View()), old(meshed), old(chunks[key].dirty), chunks[key], built)
    {
      var key := (cx, cz);
      if key !in chunks {
        return false;
      }
      var ch := chunks[key];
      if !ch.dirty && key in meshed {
        return false;
      }
      built := Remesh(ch);
    }

    /** The meshing half of `_build_mesh_for`: rebuild, then replace or drop the chunk's node. */
    method Remesh(ch: Chunk) returns (built: bool)
      requires Valid() && (ch.cx, ch.cz) in chunks && chunks[(ch.cx, ch.cz)] == ch
      modifies this`meshed, ch
      ensures Valid() && chunks == old(chunks) && preloadComplete == old(preloadComplete)
      ensures ch.blocks == old(ch.blocks)
      ensures RebuiltFrom(old(View()), old(meshed), old(ch.dirty), ch, built)
      ensures var env := WorldEnv(terrain, uvs, old(View()));
        built ==> ch.node == Some(MeshOf(env, ch.cx, ch.cz, ChunkQuads(env, ch.blocks, ch.cx, ch.cz, CHUNK_VOLUME)))
    {
      var env := WorldEnv(terrain, uvs, View());
      var node := ch.BuildMesh(env);
      built := node.Some?;
      SetNodeKey(ch, built);
    }

    /**
     * Chunk `ch` was meshed against the world `view0`: the build counts
     * exactly when some cell produced faces; then the chunk is clean and
     * has a node, otherwise it has none and keeps its flag.
     */
    ghost predicate RebuiltFrom(view0: map<(int, int), seq<int>>, meshed0: set<(int, int)>, dirty0: bool, ch: Chunk, built: bool)
      reads this`meshed, ch
      requires ViewOk(view0) && ch.Valid()
    {
      built == !Bare(WorldEnv(terrain, uvs, view0), ch.blocks, ch.cx, ch.cz)
      && (built ==> meshed == meshed0 + {(ch.cx, ch.cz)} && ch.node.Some? && !ch.dirty)
      && (!built ==> meshed == meshed0 - {(ch.cx, ch.cz)} && ch.node == None && ch.dirty == dirty0)
    }

    /** Every invariant of `Valid` except that chunk `key`'s node may disagree with `meshed`. */
    ghost predicate ValidExcept(key: (int, int))
      reads this`chunks, this`meshed, chunks.Values
    {
      SavedWellFormed(terrain)
      && meshed <= chunks.Keys
      && (forall k :: k in chunks ==> chunks[k].cx == k.0 && chunks[k].cz == k.1 && chunks[k].Valid())
      && (forall k :: k in chunks && k != key ==> (k in meshed <==> chunks[k].node.Some?))
    }

    /** The `chunk_nodes` update after a rebuild: the key is kept exactly when the chunk got a node. */
    method SetNodeKey(ch: Chunk, has: bool)
      requires (ch.cx, ch.cz) in chunks && chunks[(ch.cx, ch.cz)] == ch && ch.node.Some? == has
      requires ValidExcept((ch.cx, ch.cz))
      modifies this`meshed
      ensures Valid() && chunks == old(chunks) && preloadComplete == old(preloadComplete)
      ensures meshed == if has then old(meshed) + {(ch.cx, ch.cz)} else old(meshed) - {(ch.cx, ch.cz)}
    {
      meshed := meshed - {(ch.cx, ch.cz)};
      if has {
        meshed := meshed + {(ch.cx, ch.cz)};
      }
    }

    // -------------------------------------------------------------------
    // Block edits

    /** Sets the `dirty` flag of chunk `key` when it is loaded. */
    method MarkDirty(key: (int, int))
      requires Valid()
      modifies chunks.Values
      ensures Valid() && View() == old(View())
      ensures forall k :: k in chunks ==>
        chunks[k].node == old(chunks[k].node) && chunks[k].dirty == (old(chunks[k].dirty) || k == key)
    {
      if key in chunks {
        var neighbour := chunks[key];
        neighbour.dirty := true;
      }
    }

    /**
     * `_mark_neighbors_dirty`: a write on the west or east face of chunk
     * (cx, cz), and independently on its north or south face, dirties the
     * loaded chunk across that face; nothing else changes.
     */
    method MarkNeighborsDirty(wx: int, wz: int, cx: int, cz: int)
      requires Valid()
      modifies chunks.Values
      ensures Valid() && View() == old(View())
      ensures forall k :: k in chunks ==>
        chunks[k].node == old(chunks[k].node)
        && chunks[k].dirty == (old(chunks[k].dirty) || k in NeighbourKeys(cx, cz, wx - cx * SX, wz - cz * SZ))
    {
      var lx := wx - cx * SX;
      var lz := wz - cz * SZ;
      if lx == 0 {
        MarkDirty((cx - 1, cz));
      } else if lx == SX - 1 {
        MarkDirty((cx + 1, cz));
      }
      if lz == 0 {
        MarkDirty((cx, cz - 1));
      } else if lz == SZ - 1 {
        MarkDirty((cx, cz + 1));
      }
    }

    /**
     * `remove_block`: mining succeeds exactly inside the world's height
     * above bedrock, in a loaded chunk, on a non-air cell.  It then turns
     * that one cell to air and dirties its chunk and the loaded chunks
     * across the faces it touches; a failed call changes nothing.
     */
    method RemoveBlock(wx: int, wy: int, wz: int) returns (ok: bool)
      requires Valid()
      modifies chunks.Values
      ensures Valid()
      ensures var key := WorldToChunk(wx, wz);
        var l := LocalCoords(wx, wy, wz);
        ok == (0 < wy < SY && key in old(View()) && Cell(old(View())[key], l.0, wy, l.2) != AIR)
      ensures var key := WorldToChunk(wx, wz);
        var l := LocalCoords(wx, wy, wz);
        View() == if ok then old(View())[key := WithCell(old(View())[key], l.0, wy, l.2, AIR)] else old(View())
      ensures var key := WorldToChunk(wx, wz);
        var l := LocalCoords(wx, wy, wz);
        forall k :: k in chunks ==>
          chunks[k].node == old(chunks[k].node)
          && chunks[k].dirty == (old(chunks[k].dirty) || (ok && (k == key || k in NeighbourKeys(key.0, key.1, l.0, l.2))))
    {
      if wy <= 0 || wy >= SY {
        return false;
      }
      var key := WorldToChunk(wx, wz);
      if key !in chunks {
        return false;
      }
      var chunk := chunks[key];
      var lx := wx - key.0 * SX;
      var lz := wz - key.1 * SZ;
      if chunk.GetBlockLocal(lx, wy, lz) == AIR {
        return false;
      }
      chunk.SetBlockLocal(lx, wy, lz, AIR);
      assert View() == old(View())[key := chunk.blocks];
      MarkNeighborsDirty(wx, wz, key.0, key.1);
      ok := true;
    }

    /**
     * `place_block`: inside the world's height above bedrock, the target
     * chunk is loaded first (generated if need be, whatever happens next);
     * placing succeeds exactly on an air cell, writes `blockType` there
     * and dirties like `remove_block`.  `before` is the target chunk's
     * blocks once it is loaded.
     */
    method PlaceBlock(wx: int, wy: int, wz: int, blockType: int) returns (ok: bool, ghost before: seq<int>)
      requires Valid()
      modifies this`chunks, chunks.Values
      ensures Valid() && meshed == old(meshed) && preloadComplete == old(preloadComplete)
      ensures !(0 < wy < SY) ==> !ok && chunks == old(chunks) && View() == old(View())
      ensures var key := WorldToChunk(wx, wz);
        0 < wy < SY ==> key in chunks && chunks == old(chunks)[key := chunks[key]]
      ensures var key := WorldToChunk(wx, wz);
        0 < wy < SY && key in old(chunks) ==> chunks[key] == old(chunks[key]) && before == old(View())[key]
      ensures var key := WorldToChunk(wx, wz);
        0 < wy < SY && key !in old(chunks) ==>
          fresh(chunks[key]) && chunks[key].node == None && FreshChunkBlocks(terrain, key.0, key.1, before)
      ensures var key := WorldToChunk(wx, wz);
        var l := LocalCoords(wx, wy, wz);
        0 < wy < SY ==>
          |before| == CHUNK_VOLUME
          && ok == (Cell(before, l.0, wy, l.2) == AIR)
          && chunks[key].blocks == (if ok then WithCell(before, l.0, wy, l.2, blockType) else before)
      ensures var key := WorldToChunk(wx, wz);
        var l := LocalCoords(wx, wy, wz);
        forall k :: k in old(chunks) ==>
          (k != key ==> chunks[k].blocks == old(chunks[k].blocks))
          && chunks[k].node == old(chunks[k].node)
          && chunks[k].dirty == (old(chunks[k].dirty) || (ok && (k == key || k in NeighbourKeys(key.0, key.1, l.0, l.2))))
      ensures var key := WorldToChunk(wx, wz);
        0 < wy < SY && (ok || key !in old(chunks)) ==> chunks[key].dirty
    {
      if wy <= 0 || wy >= SY {
        return false, [];
      }
      var key := WorldToChunk(wx, wz);
      var chunk := EnsureChunk(key.0, key.1);
      before := chunk.blocks;
      assert forall k :: k in old(chunks) ==> chunks[k].blocks == old(chunks[k].blocks) && chunks[k].dirty == old(chunks[k].dirty) && chunks[k].node == old(chunks[k].node);
      ok := PlaceInLoaded(wx, wy, wz, blockType);
    }

    /** The second half of `place_block`, once the target chunk is loaded. */
    method PlaceInLoaded(wx: int, wy: int, wz: int, blockType: int) returns (ok: bool)
      requires Valid() && 0 < wy < SY && WorldToChunk(wx, wz) in chunks
      modifies chunks.Values
      ensures Valid()
      ensures var key := WorldToChunk(wx, wz);
        var l := LocalCoords(wx, wy, wz);
        ok == (Cell(old(View())[key], l.0, wy, l.2) == AIR)
        && View() == if ok then old(View())[key := WithCell(old(View())[key], l.0, wy, l.2, blockType)] else old(View())
      ensures var key := WorldToChunk(wx, wz);
        var l := LocalCoords(wx, wy, wz);
        forall k :: k in chunks ==>
          chunks[k].node == old(chunks[k].node)
          && chunks[k].dirty == (old(chunks[k].dirty) || (ok && (k == key || k in NeighbourKeys(key.0, key.1, l.0, l.2))))
    {
      var key := WorldToChunk(wx, wz);
      var chunk := chunks[key];
      var lx := wx - key.0 * SX;
      var lz := wz - key.1 * SZ;
      if chunk.GetBlockLocal(lx, wy, lz) != AIR {
        return false;
      }
      chunk.SetBlockLocal(lx, wy, lz, blockType);
      assert View() == old(View())[key := chunk.blocks];
      MarkNeighborsDirty(wx, wz, key.0, key.1);
      ok := true;
    }

    /** `cleanup`: every node is detached and every chunk dropped. */
    method Cleanup()
      requires Valid()
      modifies this`chunks, this`meshed
      ensures Valid() && chunks == map[] && meshed == {} && preloadComplete == old(preloadComplete)
    {
      meshed := {};
      chunks := map[];
    }

    // -------------------------------------------------------------------
    // Streaming

    /** The (dirty, has node) flags of the loaded chunks. */
    ghost function Flags(): map<(int, int), (bool, bool)>
      reads this`chunks, this`meshed, chunks.Values
    {
      map k | k in chunks :: (chunks[k].dirty, k in meshed)
    }

    /** `flags` are the current (dirty, has node) flags of the loaded chunks. */
    ghost predicate FlagsAre(flags: map<(int, int), (bool, bool)>)
      reads this`chunks, this`meshed, chunks.Values
    {
      flags.Keys == chunks.Keys && forall k :: k in chunks ==> flags[k] == (chunks[k].dirty, k in meshed)
    }

    /** What `_ensure_chunk` leaves in a chunk it creates. */
    ghost predicate NewChunk(ch: Chunk)
      reads ch
    {
      ch.node == None && ch.dirty && FreshChunkBlocks(terrain, ch.cx, ch.cz, ch.blocks)
    }

    /** Drops a loaded chunk together with its scene node. */
    method Unload(key: (int, int))
      requires Valid() && key in chunks
      modifies this`chunks, this`meshed
      ensures Valid()
      ensures forall k :: k in chunks <==> k in old(chunks) && k != key
      ensures forall k :: k in meshed <==> k in old(meshed) && k != key
      ensures forall k :: k in chunks ==> chunks[k] == old(chunks[k])
    {
      meshed := meshed - {key};
      chunks := chunks - {key};
    }

    /** The unloading loop of `update`: every chunk outside `keep` loses its node and its data. */
    method UnloadOutside(keep: set<(int, int)>)
      requires Valid()
      modifies this`chunks, this`meshed
      ensures Valid() && preloadComplete == old(preloadComplete)
      ensures chunks.Keys == old(chunks.Keys) * keep && meshed == old(meshed) * keep
      ensures forall k :: k in chunks ==> chunks[k] == old(chunks[k])
      ensures Restricted(Flags(), old(Flags()), keep)
    {
      var doomed := chunks.Keys - keep;
      while doomed != {}
        invariant Valid() && preloadComplete == old(preloadComplete)
        invariant forall k :: k in doomed ==> k in chunks && k !in keep
        invariant forall k :: k in chunks <==> k in old(chunks) && (k in keep || k in doomed)
        invariant forall k :: k in meshed <==> k in old(meshed) && k in chunks
        invariant forall k :: k in chunks ==> chunks[k] == old(chunks[k])
        decreases |doomed|
      {
        var key :| key in doomed;
        Unload(key);
        doomed := doomed - {key};
      }
    }

    /** `_ensure_chunk` on a chunk that is not loaded. */
    method CreateChunk(key: (int, int))
      requires Valid() && key !in chunks
      modifies this`chunks
      ensures Valid() && meshed == old(meshed) && preloadComplete == old(preloadComplete)
      ensures key in chunks && chunks == old(chunks)[key := chunks[key]]
      ensures fresh(chunks[key]) && NewChunk(chunks[key])
    {
      var ch := EnsureChunk(key.0, key.1);
    }

    /**
     * The creation loop of `update`: missing chunks of `desired` are
     * created in its order until the per-frame budget is spent.
     * `created` lists the chunks created.
     */
    method CreateWithinBudget(desired: seq<(int, int)>) returns (ghost created: seq<(int, int)>)
      requires Valid() && NoDup(desired)
      modifies this`chunks
      ensures Valid() && meshed == old(meshed) && preloadComplete == old(preloadComplete)
      ensures forall k :: k in old(chunks) ==> k in chunks && chunks[k] == old(chunks[k])
      ensures forall k :: k in chunks <==> k in old(chunks) || k in created
      ensures forall k :: k in created ==> k in desired && k !in old(chunks) && fresh(chunks[k]) && NewChunk(chunks[k])
      ensures |created| <= MAX_CHUNK_CREATES_PER_FRAME
      ensures |created| < MAX_CHUNK_CREATES_PER_FRAME ==> forall k :: k in desired ==> k in chunks
      ensures forall i, j :: 0 <= i < j < |desired| && desired[j] in created ==> desired[i] in chunks
      ensures CreatedIn(Flags(), old(Flags()), Elements(desired))
    {
      var createsLeft := MAX_CHUNK_CREATES_PER_FRAME;
      created := [];
      var i := 0;
      while i < |desired|
        invariant 0 <= i <= |desired|
        invariant Valid() && meshed == old(meshed) && preloadComplete == old(preloadComplete)
        invariant 0 <= createsLeft <= MAX_CHUNK_CREATES_PER_FRAME && |created| == MAX_CHUNK_CREATES_PER_FRAME - createsLeft
        invariant forall k :: k in old(chunks) ==> k in chunks && chunks[k] == old(chunks[k])
        invariant forall k :: k in chunks <==> k in old(chunks) || k in created
        invariant forall k :: k in created ==> k in desired[..i] && k !in old(chunks) && fresh(chunks[k]) && NewChunk(chunks[k])
        invariant forall j :: 0 <= j < i ==> desired[j] in chunks
      {
        var key := desired[i];
        if key !in chunks {
          if createsLeft <= 0 {
            break;
          }
          CreateChunk(key);
          created := created + [key];
          createsLeft := createsLeft - 1;
        }
        i := i + 1;
      }
      forall i, j | 0 <= i < j < |desired| && desired[j] in created
        ensures desired[i] in chunks
      {
      }
    }

    /**
     * One `_build_mesh_for` call of a meshing loop, on a loaded chunk
     * that is dirty or has no node: it settles that chunk and touches no
     * other; it reports a build with faces exactly when the chunk ends
     * with a clean node.
     */
    method MeshKey(key: (int, int), ghost flags: map<(int, int), (bool, bool)>) returns (ok: bool)
      requires Valid() && key in chunks && (chunks[key].dirty || key !in meshed) && FlagsAre(flags)
      modifies this`meshed, chunks[key]
      ensures Valid() && chunks == old(chunks) && View() == old(View()) && preloadComplete == old(preloadComplete)
      ensures FlagsAre(flags[key := (chunks[key].dirty, key in meshed)])
      ensures ok == (key in meshed && !chunks[key].dirty)
      ensures ok || (key !in meshed && NoFaces(terrain, uvs, old(View()), key))
    {
      ok := BuildMeshFor(key.0, key.1);
      forall k | k in chunks && k != key
        ensures flags[k] == (chunks[k].dirty, k in meshed)
      {
        assert chunks[k] != chunks[key];
      }
    }

    /**
     * `_build_mesh_for` within a meshing loop, with the loop's ghost
     * bookkeeping: `flags` are the flags before the call and `after` the
     * flags after it; a build with faces adds `key` to the newly meshed
     * chunks.
     */
    method MeshStep(key: (int, int), ghost flags0: map<(int, int), (bool, bool)>, ghost flags: map<(int, int), (bool, bool)>)
      returns (ok: bool, ghost after: map<(int, int), (bool, bool)>)
      requires Valid() && FlagsAre(flags) && Untouched(flags, flags0)
      modifies this`meshed, chunks.Values
      ensures Valid() && chunks == old(chunks) && View() == old(View()) && preloadComplete == old(preloadComplete)
      ensures FlagsAre(after) && Untouched(after, flags0)
      ensures ok ==> key !in NewlyMeshed(flags, flags0)
      ensures NewlyMeshed(after, flags0) == if ok then NewlyMeshed(flags, flags0) + {key} else NewlyMeshed(flags, flags0)
      ensures key in chunks ==> Settled(terrain, uvs, after, old(View()), key)
      ensures after.Keys == flags.Keys && forall k :: k in flags && k != key ==> after[k] == flags[k]
    {
      if key in chunks && (chunks[key].dirty || key !in meshed) {
        ok := MeshKey(key, flags);
        after := flags[key := (chunks[key].dirty, key in meshed)];
        RebuildStep(flags0, flags, key, after[key]);
      } else {
        ok := false;
        after := flags;
      }
    }

    /** One step of the loop of `MeshAll` on `key`, extending the pass's bookkeeping. */
    method MeshNext(key: (int, int), ghost flags0: map<(int, int), (bool, bool)>, ghost flags: map<(int, int), (bool, bool)>,
                    ghost done: seq<(int, int)>, ghost built: seq<(int, int)>)
      returns (ok: bool, ghost after: map<(int, int), (bool, bool)>)
      requires Valid() && FlagsAre(flags) && MeshProgress(terrain, uvs, flags0, flags, View(), done, built)
      modifies this`meshed, chunks.Values
      ensures Valid() && chunks == old(chunks) && View() == old(View()) && preloadComplete == old(preloadComplete)
      ensures FlagsAre(after)
      ensures MeshProgress(terrain, uvs, flags0, after, View(), done + [key], if ok then built + [key] else built)
    {
      ghost var view0 := View();
      ok, after := MeshStep(key, flags0, flags);
      MeshProgressStep(terrain, uvs, flags0, flags, after, view0, done, built, key, ok);
    }

    /**
     * The meshing loop of `update`: chunks of `desired` that are loaded
     * and dirty or without node are rebuilt in its order until the
     * per-frame budget of builds with faces is spent.  `built` lists
     * those builds.
     */
    method MeshWithinBudget(desired: seq<(int, int)>) returns (ghost built: seq<(int, int)>)
      requires Valid()
      modifies this`meshed, chunks.Values
      ensures Valid() && chunks == old(chunks) && View() == old(View()) && preloadComplete == old(preloadComplete)
      ensures |built| <= MAX_CHUNK_MESHES_PER_FRAME && NoDup(built)
      ensures Elements(built) == NewlyMeshed(Flags(), old(Flags()))
    {
      ghost var flags0 := Flags();
      ghost var flags := flags0;
      var meshesLeft := MAX_CHUNK_MESHES_PER_FRAME;
      built := [];
      var i := 0;
      while i < |desired|
        invariant 0 <= i <= |desired|
        invariant Valid() && chunks == old(chunks) && View() == old(View()) && preloadComplete == old(preloadComplete)
        invariant 0 <= meshesLeft <= MAX_CHUNK_MESHES_PER_FRAME && |built| == MAX_CHUNK_MESHES_PER_FRAME - meshesLeft
        invariant FlagsAre(flags) && Untouched(flags, flags0)
        invariant NoDup(built) && Elements(built) == NewlyMeshed(flags, flags0)
      {
        if meshesLeft <= 0 {
          break;
        }
        var key := desired[i];
        if key in chunks {
          var ch := chunks[key];
          if ch.dirty || key !in meshed {
            var ok;
            ok, flags := MeshStep(key, flags0, flags);
            if ok {
              meshesLeft := meshesLeft - 1;
              ElementsAppend(built, key);
              built := built + [key];
            }
          }
        }
        i := i + 1;
      }
      assert flags == Flags();
    }

    /**
     * The meshing loop of `preload_chunks_around`: every chunk of
     * `desired` goes through `_build_mesh_for`, without budget; `count`
     * is the number of builds with faces, listed in `built`, counted
     * against `flags0`, the flags before the creation pass.
     */
    method MeshAll(desired: seq<(int, int)>, ghost flags0: map<(int, int), (bool, bool)>) returns (count: int, ghost built: seq<(int, int)>)
      requires Valid() && CreatedOnly(Flags(), flags0)
      modifies this`meshed, chunks.Values
      ensures Valid() && chunks == old(chunks) && preloadComplete == old(preloadComplete)
      ensures forall k :: k in chunks ==> chunks[k].blocks == old(chunks[k].blocks)
      ensures count == |built| && NoDup(built) && Elements(built) == NewlyMeshed(Flags(), flags0)
      ensures count == |NewlyMeshed(Flags(), flags0)|
      ensures AllSettled(terrain, uvs, Flags(), View(), desired) && SameOutside(Flags(), old(Flags()), desired)
    {
      ghost var flags;
      ghost var flags1 := Flags();
      count, built, flags := MeshEach(desired);
      assert flags == Flags();
      ElementsOfNoDup(built);
      NewlyMeshedAcross(flags, flags0, flags1);
    }

    /** The loop of `MeshAll`, with its ghost bookkeeping: `flags` are the final flags. */
    method MeshEach(desired: seq<(int, int)>) returns (count: int, ghost built: seq<(int, int)>, ghost flags: map<(int, int), (bool, bool)>)
      requires Valid()
      modifies this`meshed, chunks.Values
      ensures Valid() && chunks == old(chunks) && View() == old(View()) && preloadComplete == old(preloadComplete)
      ensures FlagsAre(flags) && count == |built|
      ensures MeshProgress(terrain, uvs, old(Flags()), flags, old(View()), desired, built)
    {
      ghost var flags0 := Flags();
      flags := flags0;
      ghost var view0 := View();
      ghost var done := [];
      count := 0;
      built := [];
      var i := 0;
      while i < |desired|
        invariant 0 <= i <= |desired| && done == desired[..i]
        invariant Valid() && chunks == old(chunks) && View() == view0 && preloadComplete == old(preloadComplete)
        invariant FlagsAre(flags) && count == |built|
        invariant MeshProgress(terrain, uvs, flags0, flags, view0, done, built)
      {
        var key := desired[i];
        var ok;
        ok, flags := MeshNext(key, flags0, flags, done, built);
        done := done + [key];
        if ok {
          count := count + 1;
          built := built + [key];
        }
        i := i + 1;
      }
      assert done == desired;
    }

    /**
     * The creation loop of `preload_chunks_around`: every missing chunk
     * of `desired` is created, without budget; `created` counts them.
     */
    method CreateAll(desired: seq<(int, int)>) returns (created: int, ghost made: seq<(int, int)>)
      requires Valid()
      modifies this`chunks
      ensures Valid() && meshed == old(meshed) && preloadComplete == old(preloadComplete)
      ensures forall k :: k in old(chunks) ==> k in chunks && chunks[k] == old(chunks[k])
      ensures forall k :: k in chunks <==> k in old(chunks) || k in desired
      ensures forall k :: k in made ==> k in chunks && k !in old(chunks) && fresh(chunks[k]) && NewChunk(chunks[k])
      ensures forall k :: k in chunks && k !in old(chunks) ==> k in made
      ensures created == |made| && NoDup(made) && created == |chunks.Keys - old(chunks.Keys)|
      ensures CreatedOnly(Flags(), old(Flags()))
    {
      created := 0;
      made := [];
      var i := 0;
      while i < |desired|
        invariant 0 <= i <= |desired|
        invariant Valid() && meshed == old(meshed) && preloadComplete == old(preloadComplete)
        invariant forall k :: k in old(chunks) ==> k in chunks && chunks[k] == old(chunks[k])
        invariant forall k :: k in chunks <==> k in old(chunks) || k in made
        invariant forall k :: k in made ==> k in desired[..i] && k !in old(chunks) && fresh(chunks[k]) && NewChunk(chunks[k])
        invariant forall j :: 0 <= j < i ==> desired[j] in chunks
        invariant created == |made| && NoDup(made)
      {
        var key := desired[i];
        if key !in chunks {
          CreateChunk(key);
          made := made + [key];
          created := created + 1;
        }
        i := i + 1;
      }
      assert desired[..i] == desired;
      assert Elements(made) == chunks.Keys - old(chunks.Keys);
      ElementsOfNoDup(made);
    }

    /**
     * The three passes of `update` over the chunk list `desired`: chunks
     * not in it are unloaded; then at most `MAX_CHUNK_CREATES_PER_FRAME`
     * missing chunks are created in its order, and at most
     * `MAX_CHUNK_MESHES_PER_FRAME` builds with faces happen.
     */
    method Stream(desired: seq<(int, int)>) returns (ghost created: seq<(int, int)>, ghost built: seq<(int, int)>)
      requires Valid() && NoDup(desired)
      modifies this`chunks, this`meshed, chunks.Values
      ensures Valid() && preloadComplete == old(preloadComplete)
      ensures forall k :: k in chunks <==> (k in old(chunks) && k in desired) || k in created
      ensures forall k :: k in chunks && k in old(chunks) ==> chunks[k] == old(chunks[k]) && chunks[k].blocks == old(chunks[k].blocks)
      ensures forall k :: k in created ==>
        k in desired && k !in old(chunks) && k in chunks && fresh(chunks[k])
        && FreshChunkBlocks(terrain, k.0, k.1, chunks[k].blocks)
      ensures |created| <= MAX_CHUNK_CREATES_PER_FRAME
      ensures |created| < MAX_CHUNK_CREATES_PER_FRAME ==> forall k :: k in desired ==> k in chunks
      ensures forall i, j :: 0 <= i < j < |desired| && desired[j] in created ==> desired[i] in chunks
      ensures |built| <= MAX_CHUNK_MESHES_PER_FRAME && NoDup(built)
      ensures Elements(built) == NewlyMeshed(Flags(), old(Flags()))
    {
      ghost var flags0 := Flags();
      UnloadOutside(Elements(desired));
      ghost var flags1 := Flags();
      created := CreateWithinBudget(desired);
      ghost var flags2 := Flags();
      built := MeshWithinBudget(desired);
      UnloadThenCreate(flags0, flags1, flags2, Elements(desired));
      NewlyMeshedAcross(Flags(), flags0, flags2);
    }

    /**
     * `update`: the passes of `Stream` over the chunks within the render
     * distance of the player at (px, pz), nearest first.  Kept chunks keep
     * their blocks.  `created` lists the new chunks and `built` the builds.
     */
    method Update(px: real, pz: real) returns (ghost created: seq<(int, int)>, ghost built: seq<(int, int)>)
      requires Valid()
      modifies this`chunks, this`meshed, chunks.Values
      ensures Valid() && preloadComplete == old(preloadComplete)
      ensures forall k :: k in chunks <==> (k in old(chunks) && k in DesiredAround(px, pz)) || k in created
      ensures forall k :: k in chunks && k in old(chunks) ==> chunks[k] == old(chunks[k]) && chunks[k].blocks == old(chunks[k].blocks)
      ensures forall k :: k in created ==>
        k in DesiredAround(px, pz) && k !in old(chunks) && k in chunks && fresh(chunks[k])
        && FreshChunkBlocks(terrain, k.0, k.1, chunks[k].blocks)
      ensures |created| <= MAX_CHUNK_CREATES_PER_FRAME
      ensures |created| < MAX_CHUNK_CREATES_PER_FRAME ==> forall k :: k in DesiredAround(px, pz) ==> k in chunks
      ensures var desired := DesiredAround(px, pz);
        forall i, j :: 0 <= i < j < |desired| && desired[j] in created ==> desired[i] in chunks
      ensures |built| <= MAX_CHUNK_MESHES_PER_FRAME && NoDup(built)
      ensures Elements(built) == NewlyMeshed(Flags(), old(Flags()))
    {
      var center := WorldToChunk(px.Floor, pz.Floor);
      var desired := Desired(center);
      created, built := Stream(desired);
    }

    /**
     * The creation pass and then the meshing pass of `preload_chunks_around`
     * over the chunk list `desired`, with no budget.
     */
    method PreloadChunks(desired: seq<(int, int)>, ghost flags0: map<(int, int), (bool, bool)>) returns (created: int, meshedCount: int)
      requires Valid() && Flags() == flags0
      modifies this`chunks, this`meshed, chunks.Values
      ensures Valid() && preloadComplete == old(preloadComplete)
      ensures forall k :: k in chunks <==> k in old(chunks) || k in desired
      ensures forall k :: k in old(chunks) ==> chunks[k] == old(chunks[k])
      ensures forall k :: k in old(chunks) ==> chunks[k].blocks == old(chunks[k].blocks)
      ensures forall k :: k in chunks && k !in old(chunks) ==> fresh(chunks[k]) && FreshChunkBlocks(terrain, k.0, k.1, chunks[k].blocks)
      ensures created == |chunks.Keys - old(chunks.Keys)|
      ensures AllSettled(terrain, uvs, Flags(), View(), desired)
      ensures forall k :: k in old(chunks) && k !in desired ==> Flags()[k] == flags0[k]
      ensures meshedCount == |NewlyMeshed(Flags(), flags0)|
    {
      ghost var made;
      created, made := CreateAll(desired);
      ghost var mid := chunks;
      assert forall k :: k in old(chunks) ==> mid[k].blocks == old(chunks[k].blocks);
      ghost var built;
      meshedCount, built := MeshAll(desired, flags0);
    }

    /** `preload_chunks_around` up to its last step: both passes over the chunks within the render distance. */
    method PreloadAround(px: real, pz: real) returns (created: int, meshedCount: int)
      requires Valid()
      modifies this`chunks, this`meshed, chunks.Values
      ensures Valid() && preloadComplete == old(preloadComplete)
      ensures forall k :: k in chunks <==> k in old(chunks) || k in DesiredAround(px, pz)
      ensures forall k :: k in old(chunks) ==> chunks[k] == old(chunks[k]) && chunks[k].blocks == old(chunks[k].blocks)
      ensures forall k :: k in chunks && k !in old(chunks) ==> fresh(chunks[k]) && FreshChunkBlocks(terrain, k.0, k.1, chunks[k].blocks)
      ensures created == |chunks.Keys - old(chunks.Keys)|
      ensures AllSettled(terrain, uvs, Flags(), View(), DesiredAround(px, pz))
      ensures forall k :: k in old(chunks) && k !in DesiredAround(px, pz) ==> Flags()[k] == old(Flags())[k]
      ensures meshedCount == |NewlyMeshed(Flags(), old(Flags()))|
    {
      var center := WorldToChunk(px.Floor, pz.Floor);
      var desired := Desired(center);
      created, meshedCount := PreloadChunks(desired, old(Flags()));
    }

    /** Sets `preload_complete`; nothing else changes. */
    method MarkPreloaded()
      requires Valid()
      modifies this`preloadComplete
      ensures Valid() && preloadComplete && View() == old(View()) && Flags() == old(Flags())
    {
      preloadComplete := true;
    }

    /**
     * `preload_chunks_around`: every chunk within the render distance is
     * created if missing and then goes through `_build_mesh_for`, without
     * budgets; nothing is unloaded.  `created` counts the new chunks and
     * `meshedCount` the builds with faces.
     */
    method Preload(px: real, pz: real) returns (created: int, meshedCount: int)
      requires Valid()
      modifies this, chunks.Values
      ensures Valid() && preloadComplete
      ensures forall k :: k in chunks <==> k in old(chunks) || k in DesiredAround(px, pz)
      ensures forall k :: k in old(chunks) ==> chunks[k] == old(chunks[k]) && chunks[k].blocks == old(chunks[k].blocks)
      ensures forall k :: k in chunks && k !in old(chunks) ==> fresh(chunks[k]) && FreshChunkBlocks(terrain, k.0, k.1, chunks[k].blocks)
      ensures created == |chunks.Keys - old(chunks.Keys)|
      ensures AllSettled(terrain, uvs, Flags(), View(), DesiredAround(px, pz))
      ensures forall k :: k in old(chunks) && k !in DesiredAround(px, pz) ==> Flags()[k] == old(Flags())[k]
      ensures meshedCount == |NewlyMeshed(Flags(), old(Flags()))|
    {
      created, meshedCount := PreloadAround(px, pz);
      MarkPreloaded();
    }
  }
}
