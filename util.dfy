/**
 * Coordinate helpers, bounding boxes and terrain placement rules of
 * voxel/util.py.  The simplex noise generator is abstracted as `Noise`,
 * an arbitrary function into [-1, 1].
 */
module Util {
  import opened Settings

  /** `_simplex_noise_2d`, known only by its range. */
  type Noise = f: (real, real) -> real | forall x: real, y: real :: -1.0 <= f(x, y) <= 1.0
    witness (x: real, y: real) => 0.0

  /** Python's `int(x)` on a float: truncation toward zero. */
  function Trunc(x: real): (r: int)
    ensures x >= 0.0 ==> r as real <= x < r as real + 1.0
    ensures x < 0.0 ==> r as real - 1.0 < x <= r as real
  {
    if x >= 0.0 then x.Floor else -((-x).Floor)
  }

  function Abs(x: int): nat { if x < 0 then -x else x }

  // ---------------------------------------------------------------------
  // Coordinates

  /** `world_to_chunk`: floored division by the chunk size. */
  function WorldToChunk(x: int, z: int): (c: (int, int))
    ensures c.0 * SX <= x < c.0 * SX + SX
    ensures c.1 * SZ <= z < c.1 * SZ + SZ
  {
    (x / SX, z / SZ)
  }

  /** `local_coords`: position of a world block inside its chunk. */
  function LocalCoords(x: int, y: int, z: int): (l: (int, int, int))
    ensures 0 <= l.0 < SX && 0 <= l.2 < SZ && l.1 == y
    ensures WorldToChunk(x, z).0 * SX + l.0 == x
    ensures WorldToChunk(x, z).1 * SZ + l.2 == z
  {
    (x - (x / SX) * SX, y, z - (z / SZ) * SZ)
  }

  predicate InChunk(lx: int, y: int, lz: int)
  {
    0 <= lx < SX && 0 <= y < SY && 0 <= lz < SZ
  }

  /** `index_3d`: x-major within z-major within y-major packing. */
  function Index3D(lx: int, y: int, lz: int): (i: int)
    ensures InChunk(lx, y, lz) ==> 0 <= i < CHUNK_VOLUME
  {
    (y * SZ + lz) * SX + lx
  }

  /** The cell a packed index stands for. */
  function Unpack(i: int): (c: (int, int, int))
    requires 0 <= i < CHUNK_VOLUME
    ensures InChunk(c.0, c.1, c.2)
    ensures Index3D(c.0, c.1, c.2) == i
  {
    (i % SX, i / (SX * SZ), (i / SX) % SZ)
  }

  /** `index_3d` is one-to-one on the chunk's cells. */
  lemma Index3DInjective(lx: int, y: int, lz: int, lx': int, y': int, lz': int)
    requires InChunk(lx, y, lz) && InChunk(lx', y', lz')
    requires Index3D(lx, y, lz) == Index3D(lx', y', lz')
    ensures lx == lx' && y == y' && lz == lz'
  {
    var i := Index3D(lx, y, lz);
    assert i == (y * SZ + lz) * SX + lx;
    assert i % SX == lx && i / SX == y * SZ + lz;
    assert i % SX == lx' && i / SX == y' * SZ + lz';
    assert (y * SZ + lz) % SZ == lz && (y * SZ + lz) / SZ == y;
    assert (y' * SZ + lz') % SZ == lz' && (y' * SZ + lz') / SZ == y';
  }

  /** Unpacking an in-chunk index gives back the cell. */
  lemma UnpackIndex3D(lx: int, y: int, lz: int)
    requires InChunk(lx, y, lz)
    ensures Unpack(Index3D(lx, y, lz)) == (lx, y, lz)
  {
    var c := Unpack(Index3D(lx, y, lz));
    Index3DInjective(c.0, c.1, c.2, lx, y, lz);
  }

  /** `clamp(v, lo, hi)`. */
  function Clamp(v: real, lo: real, hi: real): (r: real)
    ensures lo <= hi ==> lo <= r <= hi
    ensures lo <= v <= hi ==> r == v
    ensures v < lo ==> r == lo
    ensures !(v < lo) && v > hi ==> r == hi
  {
    if v < lo then lo else if v > hi then hi else v
  }

  // ---------------------------------------------------------------------
  // Axis-aligned boxes

  datatype Aabb = Aabb(minX: real, minY: real, minZ: real, maxX: real, maxY: real, maxZ: real)
  {
    /** Strict overlap: boxes that only touch do not intersect. */
    predicate Intersects(o: Aabb)
    {
      !(maxX <= o.minX || minX >= o.maxX ||
        maxY <= o.minY || minY >= o.maxY ||
        maxZ <= o.minZ || minZ >= o.maxZ)
    }

    function Moved(dx: real, dy: real, dz: real): (r: Aabb)
      ensures r.maxX - r.minX == maxX - minX
      ensures r.maxY - r.minY == maxY - minY
      ensures r.maxZ - r.minZ == maxZ - minZ
      ensures r.minX == minX + dx && r.minY == minY + dy && r.minZ == minZ + dz
    {
      Aabb(minX + dx, minY + dy, minZ + dz, maxX + dx, maxY + dy, maxZ + dz)
    }
  }

  /** `AABB.intersects` does not depend on the order of its operands. */
  lemma IntersectsSymmetric(a: Aabb, b: Aabb)
    ensures a.Intersects(b) <==> b.Intersects(a)
  {
  }

  /** Boxes sharing a face, or any plane, do not intersect. */
  lemma TouchingDoesNotIntersect(a: Aabb, b: Aabb)
    requires a.maxX == b.minX || a.maxY == b.minY || a.maxZ == b.minZ
    ensures !a.Intersects(b) && !b.Intersects(a)
  {
  }

  /** Moving both boxes by the same offset keeps their overlap. */
  lemma IntersectsTranslationInvariant(a: Aabb, b: Aabb, dx: real, dy: real, dz: real)
    ensures a.Moved(dx, dy, dz).Intersects(b.Moved(dx, dy, dz)) <==> a.Intersects(b)
  {
  }

  /** `block_aabb`: the unit cube at an integer origin. */
  function BlockAabb(bx: int, y: int, bz: int): (r: Aabb)
    ensures r.minX == bx as real && r.minY == y as real && r.minZ == bz as real
    ensures r.maxX - r.minX == 1.0 && r.maxY - r.minY == 1.0 && r.maxZ - r.minZ == 1.0
  {
    Aabb(bx as real, y as real, bz as real, bx as real + 1.0, y as real + 1.0, bz as real + 1.0)
  }

  // ---------------------------------------------------------------------
  // Terrain height

  function Pow(b: real, n: nat): real
  {
    if n == 0 then 1.0 else Pow(b, n - 1) * b
  }

  /** Sum of the first `k` octaves of `terrain_height`'s noise. */
  function OctaveSum(noise: Noise, x: real, z: real, k: nat): real
  {
    if k == 0 then 0.0
    else OctaveSum(noise, x, z, k - 1) + Octave(noise, x, z, k - 1)
  }

  /** Octave `i`: the noise sampled at frequency lacunarity^i, weighted by persistence^i. */
  function Octave(noise: Noise, x: real, z: real, i: nat): real
  {
    Sample(noise, x, z, Pow(OCTAVE_LACUNARITY, i)) * Pow(OCTAVE_PERSISTENCE, i)
  }

  /** The noise sampled at `frequency`. */
  function Sample(noise: (real, real) -> real, x: real, z: real, frequency: real): real
  {
    noise(x * frequency, z * frequency)
  }

  function AmplitudeSum(k: nat): real
  {
    if k == 0 then 0.0 else AmplitudeSum(k - 1) + Pow(OCTAVE_PERSISTENCE, k - 1)
  }

  /** The octave sum never exceeds the sum of the amplitudes in magnitude. */
  lemma {:induction false} OctaveSumBounded(noise: Noise, x: real, z: real, k: nat)
    ensures -AmplitudeSum(k) <= OctaveSum(noise, x, z, k) <= AmplitudeSum(k)
  {
    if k > 0 {
      OctaveSumBounded(noise, x, z, k - 1);
      OctaveBounded(noise, x, z, k - 1);
    }
  }

  /** One octave is bounded by its amplitude. */
  lemma OctaveBounded(noise: Noise, x: real, z: real, i: nat)
    ensures -Pow(OCTAVE_PERSISTENCE, i) <= Octave(noise, x, z, i) <= Pow(OCTAVE_PERSISTENCE, i)
  {
    PowPositive(OCTAVE_PERSISTENCE, i);
    ScaledUnitBounded(Sample(noise, x, z, Pow(OCTAVE_LACUNARITY, i)), Pow(OCTAVE_PERSISTENCE, i));
  }

  lemma ScaledUnitBounded(n: real, a: real)
    requires -1.0 <= n <= 1.0 && a > 0.0
    ensures -a <= n * a <= a
  {
    if n >= 0.0 {
      assert n * a <= 1.0 * a;
    } else {
      assert (-n) * a <= 1.0 * a;
    }
  }

  lemma {:induction false} PowPositive(b: real, n: nat)
    requires b > 0.0
    ensures Pow(b, n) > 0.0
  {
    if n > 0 {
      PowPositive(b, n - 1);
    }
  }

  datatype Biome = Plains | Desert | Jungle

  /**
   * What `terrain_height` does with the normalised octave noise `total`:
   * plains/desert blend, jungle override, mountain mask, semi-flat blend.
   */
  function TerrainBlend(noise: Noise, wx: int, wz: int, biome: Biome, desertWeight: real, total: real): real
  {
    var plains := BASE_HEIGHT + HILL_AMPLITUDE * total;
    var desert := BASE_HEIGHT * 0.98 + HILL_AMPLITUDE * 0.92 * (total * 0.95);
    var blended0 := plains * (1.0 - desertWeight) + desert * desertWeight;
    var blended1 := if biome == Jungle then BASE_HEIGHT * 1.05 + HILL_AMPLITUDE * 1.5 * total else blended0;
    SemiFlatten(noise, wx, wz, blended1 + MountainHeight(noise, wx, wz))
  }

  function MountainHeight(noise: Noise, wx: int, wz: int): real
  {
    var mask := noise(wx as real * 0.004, wz as real * 0.004);
    if mask > 0.2 then
      var s0 := (mask - 0.2) / (1.0 - 0.2);
      var smallM := (noise(wx as real * SMALL_MOUNTAIN_FREQ, wz as real * SMALL_MOUNTAIN_FREQ) + 1.0) * 0.5 * SMALL_MOUNTAIN_AMP;
      var b := (noise(wx as real * BIG_MOUNTAIN_FREQ, wz as real * BIG_MOUNTAIN_FREQ) + 1.0) * 0.5;
      var bigM := b * b * b * BIG_MOUNTAIN_AMP;
      var s := s0 * s0 * (3.0 - 2.0 * s0);
      (smallM + bigM) * s
    else 0.0
  }

  function FlatnessStrength(noise: Noise, wx: int, wz: int): real
  {
    var large := noise(wx as real * SEMI_FLAT_LARGE_FREQ, wz as real * SEMI_FLAT_LARGE_FREQ);
    var medium := noise(wx as real * SEMI_FLAT_MEDIUM_FREQ, wz as real * SEMI_FLAT_MEDIUM_FREQ);
    var small := noise(wx as real * SEMI_FLAT_SMALL_FREQ, wz as real * SEMI_FLAT_SMALL_FREQ);
    var f0 := 0.0;
    var f1 := if large > SEMI_FLAT_THRESHOLD then RMax(f0, large - SEMI_FLAT_THRESHOLD) else f0;
    var f2 := if medium > SEMI_FLAT_THRESHOLD then RMax(f1, medium - SEMI_FLAT_THRESHOLD) else f1;
    if small > SEMI_FLAT_THRESHOLD then RMax(f2, small - SEMI_FLAT_THRESHOLD) else f2
  }

  function SemiFlatten(noise: Noise, wx: int, wz: int, h: real): real
  {
    var strength := FlatnessStrength(noise, wx, wz);
    if strength > 0.0 then
      var blend := RMin(strength * 3.0, 1.0);
      var flat := BASE_HEIGHT + (h - BASE_HEIGHT) * SEMI_FLAT_FACTOR;
      h * (1.0 - blend) + flat * blend
    else h
  }

  function RMax(a: real, b: real): real { if a >= b then a else b }
  function RMin(a: real, b: real): real { if a <= b then a else b }

  /** The final clamp of `terrain_height`. */
  function ClampHeight(h: int): (r: int)
    ensures 1 <= r <= SY - 1
    ensures 1 <= h < SY ==> r == h
    ensures h < 1 ==> r == 1
    ensures h >= SY ==> r == SY - 1
  {
    var a := if h < 1 then 1 else h;
    if a >= SY then SY - 1 else a
  }

  /**
   * `terrain_height`: the octave loop, the biome blends, then truncation
   * and the clamp into [1, SY - 1], whatever the noise.
   */
  method TerrainHeight(noise: Noise, wx: int, wz: int, biome: Biome, desertWeight: real) returns (height: int)
    ensures height == HeightOf(noise, wx, wz, biome, desertWeight)
    ensures 1 <= height <= SY - 1
  {
    var total := OctaveNoise(noise, wx as real * HILL_FREQ, wz as real * HILL_FREQ);
    var blended := TerrainBlend(noise, wx, wz, biome, desertWeight, total);
    height := Trunc(blended);
    if height < 1 {
      height := 1;
    }
    if height >= SY {
      height := SY - 1;
    }
  }

  /** The height `terrain_height` returns, as a function of the noise. */
  function HeightOf(noise: Noise, wx: int, wz: int, biome: Biome, desertWeight: real): (h: int)
    ensures 1 <= h <= SY - 1
  {
    AmplitudeSumTotal();
    var x := wx as real * HILL_FREQ;
    var z := wz as real * HILL_FREQ;
    ClampHeight(Trunc(TerrainBlend(noise, wx, wz, biome, desertWeight,
                                   OctaveSum(noise, x, z, OCTAVE_COUNT) / AmplitudeSum(OCTAVE_COUNT))))
  }

  /**
   * The octave loop of `terrain_height`: OCTAVE_COUNT noise samples, the
   * frequency scaled by the lacunarity and the amplitude by the persistence
   * each time, divided by the sum of the amplitudes.
   */
  method OctaveNoise(noise: Noise, x: real, z: real) returns (total: real)
    ensures total == OctaveSum(noise, x, z, OCTAVE_COUNT) / AmplitudeSum(OCTAVE_COUNT)
  {
    total := 0.0;
    var amplitude := 1.0;
    var frequency := 1.0;
    var maxValue := 0.0;
    var k := 0;
    while k < OCTAVE_COUNT
      invariant 0 <= k <= OCTAVE_COUNT
      invariant total == OctaveSum(noise, x, z, k)
      invariant maxValue == AmplitudeSum(k)
      invariant amplitude == Pow(OCTAVE_PERSISTENCE, k)
      invariant frequency == Pow(OCTAVE_LACUNARITY, k)
    {
      var sample := Sample(noise, x, z, frequency) * amplitude;
      OctaveAt(noise, x, z, k, frequency, amplitude);
      total := total + sample;
      maxValue := maxValue + amplitude;
      amplitude := amplitude * OCTAVE_PERSISTENCE;
      frequency := frequency * OCTAVE_LACUNARITY;
      k := k + 1;
    }
    AmplitudeSumTotal();
    total := total / maxValue;
  }

  lemma OctaveAt(noise: Noise, x: real, z: real, i: nat, frequency: real, amplitude: real)
    requires frequency == Pow(OCTAVE_LACUNARITY, i) && amplitude == Pow(OCTAVE_PERSISTENCE, i)
    ensures Sample(noise, x, z, frequency) * amplitude == Octave(noise, x, z, i)
  {
  }

  /** The amplitudes of the octaves sum to 1.5, so the division is safe. */
  lemma AmplitudeSumTotal()
    ensures AmplitudeSum(OCTAVE_COUNT) == 1.5
  {
    assert Pow(OCTAVE_PERSISTENCE, 0) == 1.0;
    assert Pow(OCTAVE_PERSISTENCE, 1) == OCTAVE_PERSISTENCE;
    assert AmplitudeSum(1) == 1.0;
  }

  /** The normalised octave noise of `terrain_height` lies in [-1, 1]. */
  lemma NormalisedOctavesBounded(noise: Noise, x: real, z: real)
    ensures -1.0 <= OctaveSum(noise, x, z, OCTAVE_COUNT) / AmplitudeSum(OCTAVE_COUNT) <= 1.0
  {
    OctaveSumBounded(noise, x, z, OCTAVE_COUNT);
    assert AmplitudeSum(OCTAVE_COUNT) == 1.5;
  }

  // ---------------------------------------------------------------------
  // Biomes and placement rules

  function BiomeCombined(noise: Noise, wx: int, wz: int): real
  {
    noise(wx as real * 0.003, wz as real * 0.003) * 0.5
    + noise(wx as real * 0.008, wz as real * 0.008) * 0.25
    + noise(wx as real * 0.02, wz as real * 0.02) * 0.15
    + noise(wx as real * 0.012 + 100.0, wz as real * 0.012 + 100.0) * 0.1
  }

  function ThresholdVariation(noise: Noise, wx: int, wz: int): (tv: real)
    ensures -0.1 <= tv <= 0.1
  {
    noise(wx as real * 0.001, wz as real * 0.001) * 0.1
  }

  /**
   * `get_biome`: desert below a wobbling threshold near -0.5, jungle
   * above one near 0.3, plains between.
   */
  function GetBiome(noise: Noise, wx: int, wz: int): (b: Biome)
    ensures b == Desert <==> BiomeCombined(noise, wx, wz) < -0.5 + ThresholdVariation(noise, wx, wz)
    ensures b == Jungle <==> -0.5 + ThresholdVariation(noise, wx, wz) <= BiomeCombined(noise, wx, wz)
                              && BiomeCombined(noise, wx, wz) > 0.3 + ThresholdVariation(noise, wx, wz)
  {
    var combined := BiomeCombined(noise, wx, wz);
    var tv := ThresholdVariation(noise, wx, wz);
    if combined < -0.5 + tv then Desert
    else if combined > 0.3 + tv then Jungle
    else Plains
  }

  /** Whatever the threshold noise, the three biome bands are fixed away from their edges. */
  lemma BiomeBands(noise: Noise, wx: int, wz: int)
    ensures BiomeCombined(noise, wx, wz) < -0.6 ==> GetBiome(noise, wx, wz) == Desert
    ensures BiomeCombined(noise, wx, wz) > 0.4 ==> GetBiome(noise, wx, wz) == Jungle
    ensures -0.4 <= BiomeCombined(noise, wx, wz) <= 0.2 ==> GetBiome(noise, wx, wz) == Plains
  {
  }

  /** `should_place_tree`. */
  function ShouldPlaceTree(noise: Noise, wx: int, wz: int): (r: bool)
    ensures r ==> GetBiome(noise, wx, wz) != Desert && wx % 10 == 0 && wz % 10 == 0
    ensures r && GetBiome(noise, wx, wz) == Jungle ==> wx % 4 == 0 && wz % 4 == 0
  {
    if GetBiome(noise, wx, wz) == Desert then false
    else if wx % 10 != 0 || wz % 10 != 0 then false
    else
      var treeNoise := noise(wx as real * 0.03, wz as real * 0.03);
      var densityNoise := noise(wx as real * 0.015, wz as real * 0.015);
      var terrainNoise := noise(wx as real * HILL_FREQ, wz as real * HILL_FREQ);
      var flatness := 1.0 - (if terrainNoise < 0.0 then -terrainNoise else terrainNoise) * 0.5;
      if GetBiome(noise, wx, wz) == Jungle then
        if wx % 4 != 0 || wz % 4 != 0 then false
        else treeNoise > 0.0 && densityNoise > -0.2
      else
        treeNoise > 0.4 && densityNoise > 0.2 && flatness > 0.6
  }

  /** Jungle trees stand on the 20-block grid, the common multiple of both grids. */
  lemma JungleTreeGrid(noise: Noise, wx: int, wz: int)
    requires ShouldPlaceTree(noise, wx, wz) && GetBiome(noise, wx, wz) == Jungle
    ensures wx % 20 == 0 && wz % 20 == 0
  {
    GridLcm(wx);
    GridLcm(wz);
  }

  lemma GridLcm(v: int)
    requires v % 10 == 0 && v % 4 == 0
    ensures v % 20 == 0
  {
    var q := v / 10;
    assert v == 10 * q;
    assert (10 * q) % 4 == 0;
    assert q % 2 == 0;
    assert v == 20 * (q / 2);
  }

  /** `should_place_cactus`. */
  function ShouldPlaceCactus(noise: Noise, wx: int, wz: int): (r: bool)
    ensures r ==> GetBiome(noise, wx, wz) == Desert && wx % 5 == 0 && wz % 5 == 0
  {
    if GetBiome(noise, wx, wz) != Desert then false
    else if wx % 5 != 0 || wz % 5 != 0 then false
    else
      noise(wx as real * 0.04, wz as real * 0.04) > 0.3
      && noise(wx as real * 0.02, wz as real * 0.02) > 0.1
  }

  /** A column never gets both a tree and a cactus. */
  lemma TreeAndCactusExclusive(noise: Noise, wx: int, wz: int)
    ensures !(ShouldPlaceTree(noise, wx, wz) && ShouldPlaceCactus(noise, wx, wz))
  {
  }

  datatype TreeType = Oak | Birch

  /** `get_tree_type`. */
  function GetTreeType(noise: Noise, wx: int, wz: int): TreeType
  {
    if noise(wx as real * 0.05, wz as real * 0.05) > 0.2 then Birch else Oak
  }

  // ---------------------------------------------------------------------
  // Structure generators

  /** One `(wx, wy, wz, block_id)` tuple of a generated structure. */
  datatype Placement = Placement(x: int, y: int, z: int, id: int)

  function OakTrunkHeight(noise: Noise, wx: int, wz: int): (th: int)
    ensures 4 <= th <= 5
  {
    4 + Trunc((noise(wx as real * 0.1, wz as real * 0.1) + 1.0) * 0.5)
  }

  /** A leaf of an oak whose top trunk block is at `(wx, lc, wz)`. */
  predicate OakLeaf(p: Placement, wx: int, lc: int, wz: int)
  {
    p.id == LEAVES && lc - 1 <= p.y <= lc + 1
    && -1 <= p.x - wx <= 1 && -1 <= p.z - wz <= 1
    && !(p.x == wx && p.z == wz)
  }

  /**
   * `generate_tree`: a trunk of 4 or 5 wood blocks, then leaves in the
   * 3x3 columns around it on the three layers at the trunk top, never in
   * the trunk column.
   */
  method GenerateTree(noise: Noise, wx: int, wy: int, wz: int) returns (blocks: seq<Placement>)
    ensures var th := OakTrunkHeight(noise, wx, wz);
      th <= |blocks|
      && (forall i :: 0 <= i < th ==> blocks[i] == Placement(wx, wy + i, wz, WOOD))
      && (forall i :: th <= i < |blocks| ==> OakLeaf(blocks[i], wx, wy + th - 1, wz))
  {
    blocks := [];
    var th := 4 + Trunc((noise(wx as real * 0.1, wz as real * 0.1) + 1.0) * 0.5);
    var i := 0;
    while i < th
      invariant 0 <= i <= th && |blocks| == i
      invariant forall j :: 0 <= j < i ==> blocks[j] == Placement(wx, wy + j, wz, WOOD)
    {
      blocks := blocks + [Placement(wx, wy + i, wz, WOOD)];
      i := i + 1;
    }
    var lc := wy + th - 1;

    // Cap above the trunk top
    var dx := -1;
    while dx <= 1
      invariant -1 <= dx <= 2 && th <= |blocks|
      invariant forall j :: 0 <= j < th ==> blocks[j] == Placement(wx, wy + j, wz, WOOD)
      invariant forall j :: th <= j < |blocks| ==> OakLeaf(blocks[j], wx, lc, wz)
    {
      var dz := -1;
      while dz <= 1
        invariant -1 <= dz <= 2 && th <= |blocks|
        invariant forall j :: 0 <= j < th ==> blocks[j] == Placement(wx, wy + j, wz, WOOD)
        invariant forall j :: th <= j < |blocks| ==> OakLeaf(blocks[j], wx, lc, wz)
      {
        if Abs(dx) + Abs(dz) <= 2 {
          var gap := noise((wx + dx) as real * 0.3, (wz + dz) as real * 0.3);
          if gap >= 0.0 && !(dx == 0 && dz == 0) {
            blocks := blocks + [Placement(wx + dx, lc + 1, wz + dz, LEAVES)];
          }
        }
        dz := dz + 1;
      }
      dx := dx + 1;
    }

    // Main layer at the trunk top; corners only where the noise allows
    dx := -1;
    while dx <= 1
      invariant -1 <= dx <= 2 && th <= |blocks|
      invariant forall j :: 0 <= j < th ==> blocks[j] == Placement(wx, wy + j, wz, WOOD)
      invariant forall j :: th <= j < |blocks| ==> OakLeaf(blocks[j], wx, lc, wz)
    {
      var dz := -1;
      while dz <= 1
        invariant -1 <= dz <= 2 && th <= |blocks|
        invariant forall j :: 0 <= j < th ==> blocks[j] == Placement(wx, wy + j, wz, WOOD)
        invariant forall j :: th <= j < |blocks| ==> OakLeaf(blocks[j], wx, lc, wz)
      {
        var skip := false;
        if Abs(dx) == 1 && Abs(dz) == 1 {
          var gap := noise((wx + dx) as real * 0.4, (wz + dz) as real * 0.4);
          skip := gap < 0.3;
        }
        if !skip && !(dx == 0 && dz == 0) {
          blocks := blocks + [Placement(wx + dx, lc, wz + dz, LEAVES)];
        }
        dz := dz + 1;
      }
      dx := dx + 1;
    }

    // Lower cross layer
    dx := -1;
    while dx <= 1
      invariant -1 <= dx <= 2 && th <= |blocks|
      invariant forall j :: 0 <= j < th ==> blocks[j] == Placement(wx, wy + j, wz, WOOD)
      invariant forall j :: th <= j < |blocks| ==> OakLeaf(blocks[j], wx, lc, wz)
    {
      var dz := -1;
      while dz <= 1
        invariant -1 <= dz <= 2 && th <= |blocks|
        invariant forall j :: 0 <= j < th ==> blocks[j] == Placement(wx, wy + j, wz, WOOD)
        invariant forall j :: th <= j < |blocks| ==> OakLeaf(blocks[j], wx, lc, wz)
      {
        if Abs(dx) + Abs(dz) <= 1 && !(dx == 0 && dz == 0) {
          blocks := blocks + [Placement(wx + dx, lc - 1, wz + dz, LEAVES)];
        }
        dz := dz + 1;
      }
      dx := dx + 1;
    }
  }

  /** An oak tree's leaves never occupy one of its trunk cells. */
  lemma OakLeavesMissTrunk(p: Placement, wx: int, wy: int, lc: int, wz: int, i: int)
    requires OakLeaf(p, wx, lc, wz)
    ensures (p.x, p.y, p.z) != (wx, wy + i, wz)
  {
  }

  function CactusHeight(noise: Noise, wx: int, wz: int): (h: int)
    ensures 1 <= h <= 4
  {
    1 + Trunc((noise(wx as real * 0.15, wz as real * 0.15) + 1.0) * 1.5)
  }

  /** `generate_cactus`: a vertical stack of 1 to 4 cactus blocks. */
  method GenerateCactus(noise: Noise, wx: int, wy: int, wz: int) returns (blocks: seq<Placement>)
    ensures |blocks| == CactusHeight(noise, wx, wz)
    ensures 1 <= |blocks| <= 4
    ensures forall i :: 0 <= i < |blocks| ==> blocks[i] == Placement(wx, wy + i, wz, CACTUS)
  {
    blocks := [];
    var h := 1 + Trunc((noise(wx as real * 0.15, wz as real * 0.15) + 1.0) * 1.5);
    var i := 0;
    while i < h
      invariant 0 <= i <= h && |blocks| == i
      invariant forall j :: 0 <= j < i ==> blocks[j] == Placement(wx, wy + j, wz, CACTUS)
    {
      blocks := blocks + [Placement(wx, wy + i, wz, CACTUS)];
      i := i + 1;
    }
  }

  function JungleTrunkHeight(noise: Noise, wx: int, wz: int): (th: int)
    ensures 8 <= th <= 12
  {
    8 + Trunc((noise(wx as real * 0.1, wz as real * 0.1) + 1.0) * 2.0)
  }

  /** A canopy leaf of a jungle tree whose trunk is `th` blocks tall from `wy`. */
  predicate JungleLeaf(p: Placement, wx: int, wy: int, wz: int, th: int)
  {
    p.id == JUNGLE_LEAVES && wy + th - 3 <= p.y <= wy + th
    && -3 <= p.x - wx <= 3 && -3 <= p.z - wz <= 3
    && (p.x == wx && p.z == wz ==> p.y == wy + th)
  }

  /**
   * `generate_jungle_tree`: a trunk of 8 to 12 jungle logs and a four
   * layer canopy around its top that only covers the trunk column above it.
   */
  method GenerateJungleTree(noise: Noise, wx: int, wy: int, wz: int) returns (blocks: seq<Placement>)
    ensures var th := JungleTrunkHeight(noise, wx, wz);
      th <= |blocks|
      && (forall i :: 0 <= i < th ==> blocks[i] == Placement(wx, wy + i, wz, JUNGLE_LOG))
      && (forall i :: th <= i < |blocks| ==> JungleLeaf(blocks[i], wx, wy, wz, th))
  {
    blocks := [];
    var th := 8 + Trunc((noise(wx as real * 0.1, wz as real * 0.1) + 1.0) * 2.0);
    var i := 0;
    while i < th
      invariant 0 <= i <= th && |blocks| == i
      invariant forall j :: 0 <= j < i ==> blocks[j] == Placement(wx, wy + j, wz, JUNGLE_LOG)
    {
      blocks := blocks + [Placement(wx, wy + i, wz, JUNGLE_LOG)];
      i := i + 1;
    }
    var leafYStart := wy + th - 3;
    var yOffset := 0;
    while yOffset < 4
      invariant 0 <= yOffset <= 4 && th <= |blocks|
      invariant forall j :: 0 <= j < th ==> blocks[j] == Placement(wx, wy + j, wz, JUNGLE_LOG)
      invariant forall j :: th <= j < |blocks| ==> JungleLeaf(blocks[j], wx, wy, wz, th)
    {
      var y := leafYStart + yOffset;
      var radius := if yOffset < 2 then 3 else 2;
      var dx := -radius;
      while dx <= radius
        invariant -radius <= dx <= radius + 1 && th <= |blocks|
        invariant forall j :: 0 <= j < th ==> blocks[j] == Placement(wx, wy + j, wz, JUNGLE_LOG)
        invariant forall j :: th <= j < |blocks| ==> JungleLeaf(blocks[j], wx, wy, wz, th)
      {
        var dz := -radius;
        while dz <= radius
          invariant -radius <= dz <= radius + 1 && th <= |blocks|
          invariant forall j :: 0 <= j < th ==> blocks[j] == Placement(wx, wy + j, wz, JUNGLE_LOG)
          invariant forall j :: th <= j < |blocks| ==> JungleLeaf(blocks[j], wx, wy, wz, th)
        {
          if dx * dx + dz * dz <= radius * radius + 1 && !(dx == 0 && dz == 0 && y < wy + th) {
            blocks := blocks + [Placement(wx + dx, y, wz + dz, JUNGLE_LEAVES)];
          }
          dz := dz + 1;
        }
        dx := dx + 1;
      }
      yOffset := yOffset + 1;
    }
  }

  function BirchTrunkHeight(noise: Noise, wx: int, wz: int): (th: int)
    ensures 5 <= th <= 6
  {
    5 + Trunc((noise(wx as real * 0.1, wz as real * 0.1) + 1.0) * 0.5)
  }

  /** A leaf of a birch whose top trunk block is at `(wx, lc, wz)`. */
  predicate BirchLeaf(p: Placement, wx: int, lc: int, wz: int)
  {
    p.id == BIRCH_LEAVES && lc - 1 <= p.y <= lc + 1
    && (p.x - wx) * (p.x - wx) + (p.z - wz) * (p.z - wz) <= 5
    && !(p.x == wx && p.z == wz)
  }

  /**
   * `generate_birch_tree`: a trunk of 5 or 6 birch logs and three leaf
   * layers within radius sqrt 5 of the trunk, never in the trunk column.
   */
  method GenerateBirchTree(noise: Noise, wx: int, wy: int, wz: int) returns (blocks: seq<Placement>)
    ensures var th := BirchTrunkHeight(noise, wx, wz);
      th <= |blocks|
      && (forall i :: 0 <= i < th ==> blocks[i] == Placement(wx, wy + i, wz, BIRCH_LOG))
      && (forall i :: th <= i < |blocks| ==> BirchLeaf(blocks[i], wx, wy + th - 1, wz))
  {
    blocks := [];
    var th := 5 + Trunc((noise(wx as real * 0.1, wz as real * 0.1) + 1.0) * 0.5);
    var i := 0;
    while i < th
      invariant 0 <= i <= th && |blocks| == i
      invariant forall j :: 0 <= j < i ==> blocks[j] == Placement(wx, wy + j, wz, BIRCH_LOG)
    {
      blocks := blocks + [Placement(wx, wy + i, wz, BIRCH_LOG)];
      i := i + 1;
    }
    var lc := wy + th - 1;

    // Top cross
    var dx := -1;
    while dx <= 1
      invariant -1 <= dx <= 2 && th <= |blocks|
      invariant forall j :: 0 <= j < th ==> blocks[j] == Placement(wx, wy + j, wz, BIRCH_LOG)
      invariant forall j :: th <= j < |blocks| ==> BirchLeaf(blocks[j], wx, lc, wz)
    {
      var dz := -1;
      while dz <= 1
        invariant -1 <= dz <= 2 && th <= |blocks|
        invariant forall j :: 0 <= j < th ==> blocks[j] == Placement(wx, wy + j, wz, BIRCH_LOG)
        invariant forall j :: th <= j < |blocks| ==> BirchLeaf(blocks[j], wx, lc, wz)
      {
        if Abs(dx) + Abs(dz) <= 1 && !(dx == 0 && dz == 0) {
          blocks := blocks + [Placement(wx + dx, lc + 1, wz + dz, BIRCH_LEAVES)];
        }
        dz := dz + 1;
      }
      dx := dx + 1;
    }

    // Middle layer, then the sparser bottom layer
    var layer := 0;
    while layer < 2
      invariant 0 <= layer <= 2 && th <= |blocks|
      invariant forall j :: 0 <= j < th ==> blocks[j] == Placement(wx, wy + j, wz, BIRCH_LOG)
      invariant forall j :: th <= j < |blocks| ==> BirchLeaf(blocks[j], wx, lc, wz)
    {
      dx := -2;
      while dx <= 2
        invariant -2 <= dx <= 3 && th <= |blocks|
        invariant forall j :: 0 <= j < th ==> blocks[j] == Placement(wx, wy + j, wz, BIRCH_LOG)
        invariant forall j :: th <= j < |blocks| ==> BirchLeaf(blocks[j], wx, lc, wz)
      {
        var dz := -2;
        while dz <= 2
          invariant -2 <= dz <= 3 && th <= |blocks|
          invariant forall j :: 0 <= j < th ==> blocks[j] == Placement(wx, wy + j, wz, BIRCH_LOG)
          invariant forall j :: th <= j < |blocks| ==> BirchLeaf(blocks[j], wx, lc, wz)
        {
          if dx * dx + dz * dz <= 5 && !(dx == 0 && dz == 0) {
            if layer == 0 {
              blocks := blocks + [Placement(wx + dx, lc, wz + dz, BIRCH_LEAVES)];
            } else if noise((wx + dx) as real * 0.5, (wz + dz) as real * 0.5) > -0.4 {
              blocks := blocks + [Placement(wx + dx, lc - 1, wz + dz, BIRCH_LEAVES)];
            }
          }
          dz := dz + 1;
        }
        dx := dx + 1;
      }
      layer := layer + 1;
    }
  }

  // ---------------------------------------------------------------------
  // Caves

  /** One carving step of a cave worm: a sphere at a real position. */
  datatype Sphere = Sphere(x: real, y: real, z: real, radius: real)

  predicate InSphere(s: Sphere, bx: int, y: int, bz: int)
  {
    var dx := bx as real - s.x;
    var dy := y as real - s.y;
    var dz := bz as real - s.z;
    dx * dx + dy * dy + dz * dz < s.radius * s.radius
  }

  /** A cell that `generate_chunk_caves` may report for chunk (cx, cz). */
  predicate CarvableCell(c: (int, int, int), cx: int, cz: int, steps: seq<Sphere>)
  {
    0 <= c.0 < SX && 0 <= c.2 < SZ && 1 <= c.1 <= SY - 2
    && exists k :: 0 <= k < |steps| && InSphere(steps[k], cx * SX + c.0, c.1, cz * SZ + c.2)
  }

  /**
   * `generate_chunk_caves`: carves, for every worm step, the cells of the
   * chunk strictly inside the step's sphere, never touching y = 0 or the
   * top layer.  `steps` lists the sphere of every step of every worm of
   * the neighbouring chunks that passes the distance pre-check.
   */
  method GenerateChunkCaves(cx: int, cz: int, steps: seq<Sphere>) returns (carved: set<(int, int, int)>)
    ensures forall c :: c in carved ==> CarvableCell(c, cx, cz, steps)
  {
    carved := {};
    var minWx := cx * SX;
    var maxWx := minWx + SX;
    var minWz := cz * SZ;
    var maxWz := minWz + SZ;
    var k := 0;
    while k < |steps|
      invariant 0 <= k <= |steps|
      invariant forall c :: c in carved ==> CarvableCell(c, cx, cz, steps)
    {
      var s := steps[k];
      var sMinX := Trunc(s.x - s.radius);
      var sMaxX := Trunc(s.x + s.radius + 1.0);
      var sMinZ := Trunc(s.z - s.radius);
      var sMaxZ := Trunc(s.z + s.radius + 1.0);
      var sMinY := Trunc(s.y - s.radius);
      var sMaxY := Trunc(s.y + s.radius + 1.0);
      if sMaxX >= minWx && sMinX < maxWx && sMaxZ >= minWz && sMinZ < maxWz {
        var iterMinX := if sMinX > minWx then sMinX else minWx;
        var iterMaxX := if sMaxX < maxWx then sMaxX else maxWx;
        var iterMinZ := if sMinZ > minWz then sMinZ else minWz;
        var iterMaxZ := if sMaxZ < maxWz then sMaxZ else maxWz;
        var iterMinY := if sMinY > 1 then sMinY else 1;
        var iterMaxY := if sMaxY < SY - 1 then sMaxY else SY - 1;
        var bx := iterMinX;
        while bx < iterMaxX
          invariant forall c :: c in carved ==> CarvableCell(c, cx, cz, steps)
        {
          var bz := iterMinZ;
          while bz < iterMaxZ
            invariant forall c :: c in carved ==> CarvableCell(c, cx, cz, steps)
          {
            var y := iterMinY;
            while y < iterMaxY
              invariant forall c :: c in carved ==> CarvableCell(c, cx, cz, steps)
            {
              if InSphere(s, bx, y, bz) {
                carved := carved + {(bx - minWx, y, bz - minWz)};
              }
              y := y + 1;
            }
            bz := bz + 1;
          }
          bx := bx + 1;
        }
      }
      k := k + 1;
    }
  }

  // ---------------------------------------------------------------------
  // Order-preserving removal, as done by collecting the items to drop and
  // then calling `list.remove` on each of them.

  /** The elements of `s` whose flag in `keep` is set, in their original order. */
  function Select<T>(s: seq<T>, keep: seq<bool>): (r: seq<T>)
    requires |keep| == |s|
    ensures |r| <= |s|
  {
    if |s| == 0 then []
    else Select(s[..|s| - 1], keep[..|s| - 1]) + (if keep[|s| - 1] then [s[|s| - 1]] else [])
  }

  /** No element occurs twice. */
  predicate Distinct<T(==)>(s: seq<T>)
  {
    forall i, j :: 0 <= i < j < |s| ==> s[i] != s[j]
  }

  /** `Select` keeps every flagged element and invents none. */
  lemma {:induction false} SelectMembers<T>(s: seq<T>, keep: seq<bool>)
    requires |keep| == |s|
    ensures forall i :: 0 <= i < |s| && keep[i] ==> s[i] in Select(s, keep)
    ensures forall x :: x in Select(s, keep) ==> x in s
  {
    if |s| > 0 {
      var n := |s| - 1;
      SelectMembers(s[..n], keep[..n]);
      forall i | 0 <= i < n && keep[i]
        ensures s[i] in Select(s, keep)
      {
        assert keep[..n][i] && s[..n][i] == s[i];
      }
      forall x | x in Select(s, keep)
        ensures x in s
      {
        if x in Select(s[..n], keep[..n]) {
          assert x in s[..n];
        }
      }
    }
  }

  /** Selecting from a list without repetitions gives a list without repetitions. */
  lemma {:induction false} SelectDistinct<T>(s: seq<T>, keep: seq<bool>)
    requires |keep| == |s| && Distinct(s)
    ensures Distinct(Select(s, keep))
  {
    if |s| > 0 {
      var n := |s| - 1;
      assert Distinct(s[..n]);
      SelectDistinct(s[..n], keep[..n]);
      SelectMembers(s[..n], keep[..n]);
      if keep[n] {
        assert s[n] !in Select(s[..n], keep[..n]);
      }
    }
  }
}
