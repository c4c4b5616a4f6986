/**
 * Texture naming and atlas layout of voxel/texture_manager.py.  Images
 * are abstracted away: the atlas only records which names it holds and
 * the UV rectangle each name gets.
 */
module Textures {
  import opened Wrappers

  datatype Face = Top | Bottom | Side

  /** The `BLOCK_TEXTURES` table. */
  function BlockTextures(id: int): Option<string>
  {
    match id
    case 1 => Some("grass")
    case 2 => Some("dirt")
    case 3 => Some("stone")
    case 4 => Some("bedrock")
    case 5 => Some("sand")
    case 6 => Some("wood")
    case 7 => Some("leaves")
    case 8 => Some("cobblestone")
    case 9 => Some("brick")
    case 10 => Some("sandstone")
    case 11 => Some("cactus")
    case 12 => Some("planks")
    case 26 => Some("crafting_table")
    case 27 => Some("furnace")
    case 28 => Some("chest")
    case 30 => Some("jungle_log")
    case 31 => Some("jungle_leaves")
    case 32 => Some("birch_log")
    case 33 => Some("birch_leaves")
    case 34 => Some("coal_ore")
    case 35 => Some("iron_ore")
    case 36 => Some("diamond_ore")
    case 37 => Some("gold_ore")
    case 38 => Some("jungle_planks")
    case 39 => Some("birch_planks")
    case _ => None
  }

  /** Names the texture manager loads: the table's values plus the three log tops. */
  ghost predicate NeededTexture(name: string)
  {
    (exists id :: BlockTextures(id) == Some(name))
    || name == "wood_top" || name == "jungle_log_top" || name == "birch_log_top"
  }

  /** `get_block_texture_name`. */
  function GetBlockTextureName(id: int, face: Face): (r: Option<string>)
    ensures id == 1 ==> r == Some(if face == Bottom then "dirt" else "grass")
    ensures id == 6 && (face == Top || face == Bottom) ==> r == Some("wood_top")
    ensures id == 30 && (face == Top || face == Bottom) ==> r == Some("jungle_log_top")
    ensures id == 32 && (face == Top || face == Bottom) ==> r == Some("birch_log_top")
    ensures id != 1 && (face == Side || (id != 6 && id != 30 && id != 32)) ==> r == BlockTextures(id)
  {
    if id == 1 then
      (if face == Top then Some("grass") else if face == Bottom then Some("dirt") else Some("grass"))
    else if id == 6 then
      (if face == Top || face == Bottom then Some("wood_top") else Some("wood"))
    else if id == 30 then
      (if face == Top || face == Bottom then Some("jungle_log_top") else Some("jungle_log"))
    else if id == 32 then
      (if face == Top || face == Bottom then Some("birch_log_top") else Some("birch_log"))
    else BlockTextures(id)
  }

  /** Every name the lookup yields is one the texture manager loads. */
  lemma TextureNamesAreNeeded(id: int, face: Face)
    ensures GetBlockTextureName(id, face).Some? ==> NeededTexture(GetBlockTextureName(id, face).value)
  {
    var r := GetBlockTextureName(id, face);
    if r.Some? && r.value != "wood_top" && r.value != "jungle_log_top" && r.value != "birch_log_top" {
      if id == 1 {
        assert BlockTextures(if face == Bottom then 2 else 1) == r;
      } else {
        assert BlockTextures(id) == r;
      }
    }
  }

  // ---------------------------------------------------------------------
  // String order, as Python's `sorted` compares `str`

  predicate StrLe(a: string, b: string)
  {
    if |a| == 0 then true
    else if |b| == 0 then false
    else if a[0] != b[0] then a[0] < b[0]
    else StrLe(a[1..], b[1..])
  }

  lemma {:induction false} StrLeTotal(a: string, b: string)
    ensures StrLe(a, b) || StrLe(b, a)
  {
    if |a| > 0 && |b| > 0 && a[0] == b[0] {
      StrLeTotal(a[1..], b[1..]);
    }
  }

  lemma {:induction false} StrLeTrans(a: string, b: string, c: string)
    requires StrLe(a, b) && StrLe(b, c)
    ensures StrLe(a, c)
  {
    if |a| > 0 && |b| > 0 && |c| > 0 && a[0] == b[0] && b[0] == c[0] {
      StrLeTrans(a[1..], b[1..], c[1..]);
    }
  }

  lemma {:induction false} StrLeAntisym(a: string, b: string)
    requires StrLe(a, b) && StrLe(b, a)
    ensures a == b
  {
    if |a| > 0 && |b| > 0 {
      StrLeAntisym(a[1..], b[1..]);
      assert a == [a[0]] + a[1..];
      assert b == [b[0]] + b[1..];
    }
  }

  lemma {:induction false} MinExists(s: set<string>)
    requires s != {}
    ensures exists m :: m in s && forall y :: y in s ==> StrLe(m, y)
  {
    var x :| x in s;
    if s == {x} {
      assert forall y :: y in s ==> y == x;
      StrLeTotal(x, x);
    } else {
      MinExists(s - {x});
      var m :| m in s - {x} && forall y :: y in s - {x} ==> StrLe(m, y);
      StrLeTotal(m, x);
      if StrLe(m, x) {
        assert forall y :: y in s ==> StrLe(m, y);
      } else {
        forall y | y in s ensures StrLe(x, y) {
          if y != x {
            StrLeTrans(x, m, y);
          } else {
            StrLeTotal(x, x);
          }
        }
      }
    }
  }

  predicate Sorted(names: seq<string>)
  {
    forall i, j :: 0 <= i < j < |names| ==> StrLe(names[i], names[j])
  }

  /** `sorted(names)`: the names of a set in ascending order, each once. */
  function SortedNames(s: set<string>): (r: seq<string>)
    ensures |r| == |s|
    ensures forall n :: n in r <==> n in s
    ensures Sorted(r)
    ensures forall i, j :: 0 <= i < j < |r| ==> r[i] != r[j]
    decreases |s|
  {
    if s == {} then []
    else
      MinExists(s);
      MinUnique(s);
      var m :| m in s && IsMin(m, s);
      var rest := SortedNames(s - {m});
      ConsSorted(m, rest, s);
      [m] + rest
  }

  predicate IsMin(m: string, s: set<string>)
  {
    forall y :: y in s ==> StrLe(m, y)
  }

  lemma MinUnique(s: set<string>)
    ensures forall a, b :: a in s && b in s && IsMin(a, s) && IsMin(b, s) ==> a == b
  {
    forall a, b | a in s && b in s && IsMin(a, s) && IsMin(b, s)
      ensures a == b
    {
      StrLeAntisym(a, b);
    }
  }

  lemma ConsSorted(m: string, rest: seq<string>, s: set<string>)
    requires m in s && IsMin(m, s)
    requires forall n :: n in rest <==> n in s - {m}
    requires Sorted(rest)
    requires forall i, j :: 0 <= i < j < |rest| ==> rest[i] != rest[j]
    ensures Sorted([m] + rest)
    ensures forall i, j :: 0 <= i < j < |[m] + rest| ==> ([m] + rest)[i] != ([m] + rest)[j]
  {
    var r := [m] + rest;
    forall i, j | 0 <= i < j < |r| ensures StrLe(r[i], r[j]) && r[i] != r[j] {
      if i == 0 {
        assert r[j] == rest[j - 1] && rest[j - 1] in s - {m};
      } else {
        assert r[i] == rest[i - 1] && r[j] == rest[j - 1];
      }
    }
  }

  // ---------------------------------------------------------------------
  // Atlas layout

  /** `(u_min, v_min, u_max, v_max)`. */
  datatype Uv = Uv(uMin: real, vMin: real, uMax: real, vMax: real)

  /** `math.ceil(math.sqrt(n))`, computed exactly (see `CeilSqrtIsCeiling`). */
  function CeilSqrt(n: nat): (c: nat)
    ensures n > 0 ==> c > 0
  {
    CeilSqrtFrom(n, 0)
  }

  function CeilSqrtFrom(n: nat, c: nat): (r: nat)
    requires c == 0 || (c - 1) * (c - 1) < n
    ensures r >= c
    ensures n > 0 ==> r > 0
    decreases n - c
  {
    if c * c >= n then c
    else CeilSqrtFrom(n, c + 1)
  }

  /** `CeilSqrt(n)` is the least c with c * c >= n. */
  lemma CeilSqrtIsCeiling(n: nat)
    ensures CeilSqrt(n) * CeilSqrt(n) >= n
    ensures CeilSqrt(n) == 0 || (CeilSqrt(n) - 1) * (CeilSqrt(n) - 1) < n
  {
    CeilSqrtFromIsCeiling(n, 0);
  }

  lemma {:induction false} CeilSqrtFromIsCeiling(n: nat, c: nat)
    requires c == 0 || (c - 1) * (c - 1) < n
    ensures CeilSqrtFrom(n, c) * CeilSqrtFrom(n, c) >= n
    ensures CeilSqrtFrom(n, c) == 0 || (CeilSqrtFrom(n, c) - 1) * (CeilSqrtFrom(n, c) - 1) < n
    decreases n - c
  {
    if c * c < n {
      CeilSqrtFromIsCeiling(n, c + 1);
    }
  }

  /** `math.ceil(n / d)`, computed exactly (see `CeilDivIsCeiling`). */
  function CeilDiv(n: nat, d: nat): (q: nat)
    requires d > 0
    ensures n > 0 ==> q > 0
  {
    (n + d - 1) / d
  }

  /** `CeilDiv(n, d)` is the least q with q * d >= n. */
  lemma CeilDivIsCeiling(n: nat, d: nat)
    requires d > 0
    ensures CeilDiv(n, d) * d >= n
    ensures CeilDiv(n, d) == 0 || (CeilDiv(n, d) - 1) * d < n
  {
  }

  /** The UV rectangle of atlas cell `i` in a `cols` x `rows` grid, filled row by row. */
  function CellUv(i: nat, cols: nat, rows: nat, size: nat): (uv: Uv)
    requires cols > 0 && rows > 0 && size > 0
  {
    GridRect(i % cols, i / cols, cols, rows, size)
  }

  /**
   * The rectangle of grid cell (col, row): pixel x = col*size and y =
   * row*size over an atlas of cols*size by rows*size pixels, with v
   * flipped because image rows run downwards.
   */
  function GridRect(col: nat, row: nat, cols: nat, rows: nat, size: nat): (uv: Uv)
    requires cols > 0 && rows > 0 && size > 0
  {
    var x := col * size;
    var y := row * size;
    var width := (cols * size) as real;
    var height := (rows * size) as real;
    Uv(x as real / width, 1.0 - (y + size) as real / height,
       (x + size) as real / width, 1.0 - y as real / height)
  }

  /**
   * A cell inside the grid has a rectangle inside the unit square, one
   * column wide and one row high.
   */
  lemma CellUvInUnitSquare(i: nat, cols: nat, rows: nat, size: nat)
    requires cols > 0 && rows > 0 && size > 0 && i < cols * rows
    ensures var uv := CellUv(i, cols, rows, size);
      0.0 <= uv.uMin < uv.uMax <= 1.0 && 0.0 <= uv.vMin < uv.vMax <= 1.0
      && (uv.uMax - uv.uMin) * cols as real == 1.0
      && (uv.vMax - uv.vMin) * rows as real == 1.0
  {
    var col, row := i % cols, i / cols;
    RowInGrid(i, cols, rows);
    GridRectInUnitSquare(col, row, cols, rows, size);
    assert CellUv(i, cols, rows, size) == GridRect(col, row, cols, rows, size);
  }

  lemma GridRectInUnitSquare(col: nat, row: nat, cols: nat, rows: nat, size: nat)
    requires col < cols && row < rows && size > 0
    ensures var uv := GridRect(col, row, cols, rows, size);
      0.0 <= uv.uMin < uv.uMax <= 1.0 && 0.0 <= uv.vMin < uv.vMax <= 1.0
      && (uv.uMax - uv.uMin) * cols as real == 1.0
      && (uv.vMax - uv.vMin) * rows as real == 1.0
  {
    var w := (cols * size) as real;
    var h := (rows * size) as real;
    var v0, v1 := (row * size) as real / h, (row * size + size) as real / h;
    UnitSpan(col, cols, size);
    UnitSpan(row, rows, size);
    FlipSpan(v0, v1, rows as real);
  }

  /** An index below cols * rows lies in one of the rows. */
  lemma RowInGrid(i: nat, cols: nat, rows: nat)
    requires cols > 0 && i < cols * rows
    ensures i / cols < rows
  {
    var r := i / cols;
    assert i >= r * cols;
    if r >= rows {
      MulMono(rows, r, cols);
    }
  }

  /** Mirroring an interval of [0, 1] keeps it inside and keeps its length. */
  lemma FlipSpan(a: real, b: real, n: real)
    requires 0.0 <= a < b <= 1.0 && (b - a) * n == 1.0
    ensures 0.0 <= 1.0 - b < 1.0 - a <= 1.0 && ((1.0 - a) - (1.0 - b)) * n == 1.0
  {
  }

  /** For `k < n`, `k*s/(n*s)` and `(k+1)*s/(n*s)` split off one n-th of the unit interval. */
  lemma UnitSpan(k: nat, n: nat, s: nat)
    requires k < n && s > 0
    ensures var t := (n * s) as real;
      0.0 <= (k * s) as real / t < (k * s + s) as real / t <= 1.0
      && ((k * s + s) as real / t - (k * s) as real / t) * n as real == 1.0
  {
    MulMono(k + 1, n, s);
    assert k * s + s == (k + 1) * s;
    assert 0 < n * s by {
      MulMono(1, n, s);
    }
    RealOfMul(n, s);
    DivBounds((k * s) as real, (k * s + s) as real, (n * s) as real);
    DivSpan((k * s) as real, (k * s + s) as real, (n * s) as real, n as real, s as real);
  }

  lemma RealOfMul(a: int, b: int)
    ensures (a * b) as real == a as real * b as real
  {
  }

  lemma MulMono(a: nat, b: nat, s: nat)
    requires a <= b
    ensures a * s <= b * s
  {
  }

  lemma DivBounds(a: real, b: real, t: real)
    requires 0.0 < t && 0.0 <= a < b <= t
    ensures 0.0 <= a / t < b / t <= 1.0
  {
  }

  lemma DivSpan(a: real, b: real, t: real, n: real, s: real)
    requires t > 0.0 && b - a == s && s * n == t
    ensures (b / t - a / t) * n == 1.0
  {
    assert b / t - a / t == (b - a) / t;
    assert s / t * n == (s * n) / t;
  }

  /** Distinct atlas positions get distinct cells. */
  lemma CellsDistinct(i: nat, j: nat, cols: nat)
    requires cols > 0 && i != j
    ensures (i % cols, i / cols) != (j % cols, j / cols)
  {
  }

  /**
   * The layout `build` gives a non-empty set of names: ceil(sqrt(n))
   * columns, enough rows for every name, the i-th name in sorted order in
   * cell (i mod cols, i div cols), and older entries kept for other names.
   */
  ghost predicate AtlasLayout(textures: set<string>, before: map<string, Uv>, after: map<string, Uv>, size: nat)
    requires textures != {} && size > 0
  {
    var names := SortedNames(textures);
    var cols := CeilSqrt(|textures|);
    var rows := CeilDiv(|textures|, cols);
    (forall n :: n in after <==> n in before || n in textures)
    && (forall n :: n in before && n !in textures ==> after[n] == before[n])
    && (forall i :: 0 <= i < |names| ==> after[names[i]] == CellUv(i, cols, rows, size))
  }

  lemma LayoutComplete(textures: set<string>, before: map<string, Uv>, after: map<string, Uv>, size: nat)
    requires textures != {} && size > 0
    requires var names := SortedNames(textures);
      var cols := CeilSqrt(|textures|);
      var rows := CeilDiv(|textures|, cols);
      (forall n :: n in after <==> n in before || n in names)
      && (forall n :: n in before && n !in textures ==> after[n] == before[n])
      && (forall j :: 0 <= j < |names| ==> after[names[j]] == CellUv(j, cols, rows, size))
    ensures AtlasLayout(textures, before, after, size)
  {
  }

  /** The loop of `build`: the i-th name gets the rectangle of cell i. */
  method PlaceNames(names: seq<string>, before: map<string, Uv>, textures: set<string>,
                    cols: nat, rows: nat, size: nat) returns (m: map<string, Uv>)
    requires cols > 0 && rows > 0 && size > 0
    requires forall a, b :: 0 <= a < b < |names| ==> names[a] != names[b]
    requires forall n :: n in names ==> n in textures
    ensures forall n :: n in m <==> n in before || n in names
    ensures forall n :: n in before && n !in textures ==> m[n] == before[n]
    ensures forall j :: 0 <= j < |names| ==> m[names[j]] == CellUv(j, cols, rows, size)
  {
    m := before;
    var i := 0;
    while i < |names|
      invariant 0 <= i <= |names|
      invariant forall n :: n in m <==> n in before || n in names[..i]
      invariant forall n :: n in before && n !in textures ==> m[n] == before[n]
      invariant forall j :: 0 <= j < i ==> m[names[j]] == CellUv(j, cols, rows, size)
    {
      var name := names[i];
      var uv := CellUv(i, cols, rows, size);
      ExtendLayout(names, i, m, before, textures, uv, cols, rows, size);
      m := m[name := uv];
      i := i + 1;
    }
    assert names[..i] == names;
  }

  /** One step of `build`'s loop keeps the layout of the names placed so far. */
  lemma ExtendLayout(names: seq<string>, i: nat, m: map<string, Uv>, before: map<string, Uv>,
                     textures: set<string>, uv: Uv, cols: nat, rows: nat, size: nat)
    requires i < |names| && cols > 0 && rows > 0 && size > 0
    requires forall a, b :: 0 <= a < b < |names| ==> names[a] != names[b]
    requires forall n :: n in names ==> n in textures
    requires uv == CellUv(i, cols, rows, size)
    requires forall n :: n in m <==> n in before || n in names[..i]
    requires forall n :: n in before && n !in textures ==> m[n] == before[n]
    requires forall j :: 0 <= j < i ==> m[names[j]] == CellUv(j, cols, rows, size)
    ensures var m' := m[names[i] := uv];
      (forall n :: n in m' <==> n in before || n in names[..i + 1])
      && (forall n :: n in before && n !in textures ==> m'[n] == before[n])
      && (forall j :: 0 <= j < i + 1 ==> m'[names[j]] == CellUv(j, cols, rows, size))
  {
    assert names[..i + 1] == names[..i] + [names[i]];
    assert names[i] in textures;
  }

  /** The grid of a non-empty atlas has a cell for every name. */
  lemma AtlasGridFits(count: nat)
    requires count > 0
    ensures var cols := CeilSqrt(count);
      cols > 0 && CeilDiv(count, cols) > 0 && cols * CeilDiv(count, cols) >= count
  {
    var cols := CeilSqrt(count);
    var rows := CeilDiv(count, cols);
    CeilDivIsCeiling(count, cols);
    assert rows * cols >= count;
  }

  /** `TextureAtlas`: the names added so far and the UV map `build` fills. */
  class TextureAtlas {
    const textureSize: nat
    var textures: set<string>
    var uvMap: map<string, Uv>
    var hasAtlasTexture: bool

    constructor(textureSize: nat)
      requires textureSize > 0
      ensures this.textureSize == textureSize
      ensures textures == {} && uvMap == map[] && !hasAtlasTexture
    {
      this.textureSize := textureSize;
      textures := {};
      uvMap := map[];
      hasAtlasTexture := false;
    }

    method AddTexture(name: string)
      modifies this
      ensures textures == old(textures) + {name}
      ensures uvMap == old(uvMap) && hasAtlasTexture == old(hasAtlasTexture)
    {
      textures := textures + {name};
    }

    /**
     * `build`: a no-op on an empty atlas; otherwise a grid of
     * ceil(sqrt(n)) columns and enough rows, the i-th name in sorted order
     * in cell (i mod cols, i div cols).
     */
    method Build()
      requires textureSize > 0
      modifies this
      ensures textures == old(textures)
      ensures old(textures) == {} ==> uvMap == old(uvMap) && hasAtlasTexture == old(hasAtlasTexture)
      ensures old(textures) != {} ==> hasAtlasTexture && AtlasLayout(textures, old(uvMap), uvMap, textureSize)
    {
      if textures == {} {
        return;
      }
      var count := |textures|;
      var cols := CeilSqrt(count);
      var rows := CeilDiv(count, cols);
      var sortedNames := SortedNames(textures);
      uvMap := PlaceNames(sortedNames, uvMap, textures, cols, rows, textureSize);
      LayoutComplete(textures, old(uvMap), uvMap, textureSize);
      hasAtlasTexture := true;
    }

    /** `get_uvs`: the recorded rectangle, None for names never built. */
    function GetUvs(name: string): (r: Option<Uv>)
      reads this
      ensures name !in uvMap <==> r == None
      ensures name in uvMap ==> r == Some(uvMap[name])
    {
      if name in uvMap then Some(uvMap[name]) else None
    }
  }
}
