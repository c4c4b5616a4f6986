/**
 * The save logic of voxel/save_system.py with the file system taken out:
 * a save's `modified_chunks` dict becomes a map from chunk coordinates to
 * the chunk's list of edits, a per-chunk file store a map from chunk
 * coordinates to block lists, and the player part of a save the values
 * it carries.
 *
 * A chunk is saved as its difference to `block_id_at`, the analytic
 * terrain of `Worlds.BlockIdAt`, listed in the y, lz, lx order of the
 * three nested loops.
 */
module Saves {
  import opened Wrappers
  import opened Settings
  import opened Util
  import opened Slots
  import opened Chunks
  import opened Worlds
  import opened Game

  /** One `{"x", "y", "z", "block_id"}` entry of a chunk's edit list. */
  datatype BlockEdit = BlockEdit(x: int, y: int, z: int, blockId: int)

  /** A save's `modified_chunks`: the edits of each chunk that has any. */
  type Modified = map<(int, int), seq<BlockEdit>>

  // ---------------------------------------------------------------------
  // Diffs

  /** The cells of chunk (cx, cz) as `block_id_at` generates them, in packed order. */
  function PlainBlocks(noise: Noise, cx: int, cz: int): (r: seq<int>)
    ensures |r| == CHUNK_VOLUME
  {
    seq(CHUNK_VOLUME, i requires 0 <= i < CHUNK_VOLUME =>
      var c := Unpack(i);
      BlockIdAt(noise, cx * SX + c.0, c.1, cz * SZ + c.2))
  }

  /** The edit recording cell `i` of `blocks`. */
  function EditAt(blocks: seq<int>, i: int): (e: BlockEdit)
    requires |blocks| == CHUNK_VOLUME && 0 <= i < CHUNK_VOLUME
  {
    var c := Unpack(i);
    BlockEdit(c.0, c.1, c.2, blocks[i])
  }

  /**
   * The edits for the cells with packed index below `n` where `blocks`
   * differs from the reference `ref`, in packed order.
   */
  function Diff(ref: seq<int>, blocks: seq<int>, n: nat): seq<BlockEdit>
    requires |ref| == CHUNK_VOLUME && |blocks| == CHUNK_VOLUME && n <= CHUNK_VOLUME
  {
    if n == 0 then []
    else Diff(ref, blocks, n - 1) + (if blocks[n - 1] != ref[n - 1] then [EditAt(blocks, n - 1)] else [])
  }

  /** A chunk's edits as a save records them. */
  function ChunkEdits(noise: Noise, cx: int, cz: int, blocks: seq<int>): seq<BlockEdit>
    requires |blocks| == CHUNK_VOLUME
  {
    Diff(PlainBlocks(noise, cx, cz), blocks, CHUNK_VOLUME)
  }

  /** The position of an edit in packed order. */
  function EditIndex(e: BlockEdit): int
  {
    Index3D(e.x, e.y, e.z)
  }

  /**
   * Every listed edit is an in-chunk cell that differs from the
   * reference and carries the chunk's block there; the edits are in
   * strictly increasing packed order (y, then lz, then lx).
   */
  lemma {:induction false} DiffSound(ref: seq<int>, blocks: seq<int>, n: nat)
    requires |ref| == CHUNK_VOLUME && |blocks| == CHUNK_VOLUME && n <= CHUNK_VOLUME
    ensures forall k :: 0 <= k < |Diff(ref, blocks, n)| ==>
      var e := Diff(ref, blocks, n)[k];
      InChunk(e.x, e.y, e.z) && 0 <= EditIndex(e) < n
      && e.blockId == blocks[EditIndex(e)] && e.blockId != ref[EditIndex(e)]
    ensures forall j, k :: 0 <= j < k < |Diff(ref, blocks, n)| ==>
      EditIndex(Diff(ref, blocks, n)[j]) < EditIndex(Diff(ref, blocks, n)[k])
  {
    if n > 0 {
      DiffSound(ref, blocks, n - 1);
    }
  }

  /** Every cell below `n` that differs from the reference has an edit. */
  lemma {:induction false} DiffComplete(ref: seq<int>, blocks: seq<int>, n: nat, i: int)
    requires |ref| == CHUNK_VOLUME && |blocks| == CHUNK_VOLUME && n <= CHUNK_VOLUME
    requires 0 <= i < n && blocks[i] != ref[i]
    ensures EditAt(blocks, i) in Diff(ref, blocks, n)
  {
    if i < n - 1 {
      DiffComplete(ref, blocks, n - 1, i);
    }
  }

  /** There are no edits exactly when the chunk equals the reference. */
  lemma DiffEmpty(ref: seq<int>, blocks: seq<int>)
    requires |ref| == CHUNK_VOLUME && |blocks| == CHUNK_VOLUME
    ensures Diff(ref, blocks, CHUNK_VOLUME) == [] <==> blocks == ref
  {
    if Diff(ref, blocks, CHUNK_VOLUME) == [] {
      forall i | 0 <= i < CHUNK_VOLUME
        ensures blocks[i] == ref[i]
      {
        if blocks[i] != ref[i] {
          DiffComplete(ref, blocks, CHUNK_VOLUME, i);
        }
      }
    } else {
      DiffSound(ref, blocks, CHUNK_VOLUME);
      var e := Diff(ref, blocks, CHUNK_VOLUME)[0];
      assert blocks[EditIndex(e)] != ref[EditIndex(e)];
    }
  }

  // ---------------------------------------------------------------------
  // Applying edits

  /** The cells after `set_block_local` for each edit in turn. */
  function Applied(base: seq<int>, edits: seq<BlockEdit>): (r: seq<int>)
    requires |base| == CHUNK_VOLUME
    ensures |r| == CHUNK_VOLUME
  {
    if |edits| == 0 then base
    else
      var e := edits[|edits| - 1];
      WithCell(Applied(base, edits[..|edits| - 1]), e.x, e.y, e.z, e.blockId)
  }

  /** The edits of the cells below `n` turn the reference into the chunk there and nowhere else. */
  lemma {:induction false} DiffApplied(ref: seq<int>, blocks: seq<int>, n: nat)
    requires |ref| == CHUNK_VOLUME && |blocks| == CHUNK_VOLUME && n <= CHUNK_VOLUME
    ensures forall i :: 0 <= i < CHUNK_VOLUME ==>
      Applied(ref, Diff(ref, blocks, n))[i] == if i < n then blocks[i] else ref[i]
  {
    if n > 0 {
      DiffApplied(ref, blocks, n - 1);
      var d := Diff(ref, blocks, n - 1);
      if blocks[n - 1] != ref[n - 1] {
        var e := EditAt(blocks, n - 1);
        assert (d + [e])[..|d + [e]| - 1] == d;
        var c := Unpack(n - 1);
        forall i | 0 <= i < CHUNK_VOLUME
          ensures Applied(ref, d + [e])[i] == if i < n then blocks[i] else ref[i]
        {
        }
      } else {
        assert d + [] == d;
      }
    }
  }

  /**
   * Round trip: applying a chunk's edits to the reference it was diffed
   * against gives the chunk back.
   */
  lemma DiffRoundTrip(ref: seq<int>, blocks: seq<int>)
    requires |ref| == CHUNK_VOLUME && |blocks| == CHUNK_VOLUME
    ensures Applied(ref, Diff(ref, blocks, CHUNK_VOLUME)) == blocks
  {
    DiffApplied(ref, blocks, CHUNK_VOLUME);
  }

  /**
   * Loading applies the edits to the chunk `_ensure_chunk` rebuilds, not
   * to `block_id_at`'s: a cell that the saved chunk shares with
   * `block_id_at` but the rebuilt chunk does not (a generated tree block
   * the player broke back to air, say) is not restored.
   */
  lemma UnlistedCellKeepsBase(ref: seq<int>, base: seq<int>, blocks: seq<int>, i: int)
    requires |ref| == CHUNK_VOLUME && |base| == CHUNK_VOLUME && |blocks| == CHUNK_VOLUME
    requires 0 <= i < CHUNK_VOLUME && blocks[i] == ref[i]
    ensures Applied(base, Diff(ref, blocks, CHUNK_VOLUME))[i] == base[i]
  {
    var d := Diff(ref, blocks, CHUNK_VOLUME);
    DiffSound(ref, blocks, CHUNK_VOLUME);
    assert forall k :: 0 <= k < |d| ==> EditIndex(d[k]) != i;
    AppliedUnlisted(base, d, i);
  }

  /** A cell no edit names keeps its base value. */
  lemma {:induction false} AppliedUnlisted(base: seq<int>, edits: seq<BlockEdit>, i: int)
    requires |base| == CHUNK_VOLUME && 0 <= i < CHUNK_VOLUME
    requires forall k :: 0 <= k < |edits| ==> !(InChunk(edits[k].x, edits[k].y, edits[k].z) && EditIndex(edits[k]) == i)
    ensures Applied(base, edits)[i] == base[i]
  {
    if |edits| > 0 {
      AppliedUnlisted(base, edits[..|edits| - 1], i);
    }
  }

  // ---------------------------------------------------------------------
  // `_serialize_world` and `_save_modified_chunk`

  /** `_serialize_world`: every loaded chunk with edits, under its coordinates. */
  function Serialized(noise: Noise, view: map<(int, int), seq<int>>): (m: Modified)
    requires ViewOk(view)
  {
    map k | k in view && ChunkEdits(noise, k.0, k.1, view[k]) != [] :: ChunkEdits(noise, k.0, k.1, view[k])
  }

  /**
   * A save lists exactly the loaded chunks that differ from
   * `block_id_at`, and restoring each listed edit list onto `block_id_at`'s
   * chunk gives back every loaded chunk.
   */
  lemma SerializedChunks(noise: Noise, view: map<(int, int), seq<int>>, k: (int, int))
    requires ViewOk(view)
    ensures k in Serialized(noise, view) <==> k in view && view[k] != PlainBlocks(noise, k.0, k.1)
    ensures k in view ==>
      Applied(PlainBlocks(noise, k.0, k.1), if k in Serialized(noise, view) then Serialized(noise, view)[k] else []) == view[k]
  {
    if k in view {
      DiffEmpty(PlainBlocks(noise, k.0, k.1), view[k]);
      DiffRoundTrip(PlainBlocks(noise, k.0, k.1), view[k]);
    }
  }

  /** The diff dict after one chunk is saved: its edits, or no entry when it has none. */
  function Recorded(m: Modified, key: (int, int), edits: seq<BlockEdit>): (r: Modified)
  {
    if edits != [] then m[key := edits] else m - {key}
  }

  /**
   * Saving one chunk touches only its own entry, and saving a loaded
   * chunk into a full save of the same world changes nothing.
   */
  lemma RecordedAgreesWithFullSave(noise: Noise, view: map<(int, int), seq<int>>, m: Modified, key: (int, int))
    requires ViewOk(view)
    ensures forall k :: k != key ==> (k in Recorded(m, key, []) <==> k in m)
    ensures key in view ==>
      Recorded(Serialized(noise, view), key, ChunkEdits(noise, key.0, key.1, view[key])) == Serialized(noise, view)
  {
  }

  /** `save_block_edit`'s chunk: Python's floor division of the world coordinates. */
  function EditChunk(wx: int, wz: int): (key: (int, int))
    ensures key.0 * SX <= wx < key.0 * SX + SX && key.1 * SZ <= wz < key.1 * SZ + SZ
  {
    (FloorDiv(wx, SX), FloorDiv(wz, SZ))
  }

  /** Python's `//` for a positive divisor: the largest q with q * d <= x. */
  function FloorDiv(x: int, d: int): (q: int)
    requires d > 0
    ensures q * d <= x < q * d + d
  {
    if x >= 0 then x / d else -((-x + d - 1) / d)
  }

  /** `save_block_edit` saves the chunk the world reads that block from. */
  lemma EditChunkIsWorldChunk(wx: int, wz: int)
    ensures EditChunk(wx, wz) == WorldToChunk(wx, wz)
  {
  }

  /** `save_block_edit`: the edited block's chunk, when loaded, is written whole to its file. */
  function SavedEdit(view: map<(int, int), seq<int>>, files: map<(int, int), seq<int>>, wx: int, wz: int): (r: map<(int, int), seq<int>>)
  {
    var key := EditChunk(wx, wz);
    if key in view then files[key := view[key]] else files
  }

  /** After `save_block_edit` the chunk file holds the block the world shows at the edited cell. */
  lemma SavedEditReadsBack(view: map<(int, int), seq<int>>, noise: Noise, files: map<(int, int), seq<int>>, wx: int, wy: int, wz: int)
    requires ViewOk(view) && 0 <= wy < SY
    ensures var key := EditChunk(wx, wz);
      key in view ==>
        key in SavedEdit(view, files, wx, wz)
        && var l := LocalCoords(wx, wy, wz);
        Cell(SavedEdit(view, files, wx, wz)[key], l.0, wy, l.2) == BlockIn(view, noise, wx, wy, wz)
    ensures EditChunk(wx, wz) !in view ==> SavedEdit(view, files, wx, wz) == files
  {
    EditChunkIsWorldChunk(wx, wz);
  }

  // ---------------------------------------------------------------------
  // The player part of a save

  /** `max(0, min(selected, hotbar_size - 1))`. */
  function ClampedSelection(selected: int): (r: int)
    ensures 0 <= r < HOTBAR_SIZE
    ensures 0 <= selected < HOTBAR_SIZE ==> r == selected
    ensures selected < 0 ==> r == 0
    ensures selected >= HOTBAR_SIZE ==> r == HOTBAR_SIZE - 1
  {
    var m := if selected < HOTBAR_SIZE - 1 then selected else HOTBAR_SIZE - 1;
    if 0 < m then m else 0
  }

  /** The inventory after the saved list is copied over its first min(len(inventory), len(saved)) entries. */
  function Overlaid(inventory: seq<Slot>, saved: seq<Slot>): (r: seq<Slot>)
    ensures |r| == |inventory|
    ensures forall i :: 0 <= i < |r| ==> r[i] == if i < |saved| then saved[i] else inventory[i]
  {
    if |saved| < |inventory| then saved + inventory[|saved|..] else saved[..|inventory|]
  }

  /** Restoring what was saved from the same game gives the same hotbar choice and inventory. */
  lemma PlayerRoundTrip(inventory: seq<Slot>, selected: int)
    requires 0 <= selected < HOTBAR_SIZE
    ensures ClampedSelection(selected) == selected
    ensures Overlaid(inventory, inventory) == inventory
  {
  }

  // ---------------------------------------------------------------------
  // The imperative parts

  /**
   * The diff loops of `_serialize_world` and `_save_modified_chunk` for
   * one chunk.
   */
  method ChunkDiff(noise: Noise, chunk: Chunk) returns (edits: seq<BlockEdit>)
    requires chunk.Valid()
    ensures edits == ChunkEdits(noise, chunk.cx, chunk.cz, chunk.blocks)
  {
    edits := [];
    var y := 0;
    while y < SY
      invariant 0 <= y <= SY
      invariant edits == Diff(PlainBlocks(noise, chunk.cx, chunk.cz), chunk.blocks, Index3D(0, y, 0))
    {
      edits := LayerDiff(noise, chunk, y, edits);
      y := y + 1;
    }
    assert Index3D(0, SY, 0) == CHUNK_VOLUME;
  }

  /** The diff loops over layer `y`, appending its cells' edits to the diff of the layers below. */
  method LayerDiff(noise: Noise, chunk: Chunk, y: int, below: seq<BlockEdit>) returns (edits: seq<BlockEdit>)
    requires chunk.Valid() && 0 <= y < SY
    requires below == Diff(PlainBlocks(noise, chunk.cx, chunk.cz), chunk.blocks, Index3D(0, y, 0))
    ensures edits == Diff(PlainBlocks(noise, chunk.cx, chunk.cz), chunk.blocks, Index3D(0, y + 1, 0))
  {
    edits := below;
    var lz := 0;
    while lz < SZ
      invariant 0 <= lz <= SZ
      invariant edits == Diff(PlainBlocks(noise, chunk.cx, chunk.cz), chunk.blocks, Index3D(0, y, lz))
    {
      edits := RowDiff(noise, chunk, y, lz, edits);
      lz := lz + 1;
    }
    RowEnds(y, SZ - 1);
  }

  /** The innermost diff loop over row (`y`, `lz`), appending its cells' edits to the diff before it. */
  method RowDiff(noise: Noise, chunk: Chunk, y: int, lz: int, before: seq<BlockEdit>) returns (edits: seq<BlockEdit>)
    requires chunk.Valid() && 0 <= y < SY && 0 <= lz < SZ
    requires before == Diff(PlainBlocks(noise, chunk.cx, chunk.cz), chunk.blocks, Index3D(0, y, lz))
    ensures edits == Diff(PlainBlocks(noise, chunk.cx, chunk.cz), chunk.blocks, Index3D(0, y, lz + 1))
  {
    edits := before;
    var lx := 0;
    while lx < SX
      invariant 0 <= lx <= SX
      invariant edits == Diff(PlainBlocks(noise, chunk.cx, chunk.cz), chunk.blocks, Index3D(lx, y, lz))
    {
      edits := DiffCell(noise, chunk, lx, y, lz, edits);
      lx := lx + 1;
    }
    RowEnds(y, lz);
  }

  /**
   * The loop body of the diff: the chunk's block at a cell is compared
   * with `block_id_at` there, and an edit appended when they differ.
   */
  method DiffCell(noise: Noise, chunk: Chunk, lx: int, y: int, lz: int, before: seq<BlockEdit>) returns (edits: seq<BlockEdit>)
    requires chunk.Valid() && InChunk(lx, y, lz)
    requires before == Diff(PlainBlocks(noise, chunk.cx, chunk.cz), chunk.blocks, Index3D(lx, y, lz))
    ensures edits == Diff(PlainBlocks(noise, chunk.cx, chunk.cz), chunk.blocks, Index3D(lx + 1, y, lz))
  {
    ghost var ref := PlainBlocks(noise, chunk.cx, chunk.cz);
    var current := chunk.GetBlockLocal(lx, y, lz);
    var wx := chunk.cx * SX + lx;
    var wz := chunk.cz * SZ + lz;
    var generated := BlockIdAt(noise, wx, y, wz);
    PlainBlockAt(noise, chunk.cx, chunk.cz, lx, y, lz, wx, wz);
    DiffStep(ref, chunk.blocks, lx, y, lz);
    ghost var i := Index3D(lx, y, lz);
    if current != generated {
      edits := before + [BlockEdit(lx, y, lz, current)];
    } else {
      edits := before;
    }
  }

  /** A cell of the reference chunk is what `block_id_at` gives at its world position. */
  lemma PlainBlockAt(noise: Noise, cx: int, cz: int, lx: int, y: int, lz: int, wx: int, wz: int)
    requires InChunk(lx, y, lz) && wx == cx * SX + lx && wz == cz * SZ + lz
    ensures PlainBlocks(noise, cx, cz)[Index3D(lx, y, lz)] == BlockIdAt(noise, wx, y, wz)
  {
    UnpackIndex3D(lx, y, lz);
  }

  /** One cell of the diff loops: the edit it adds to the diff, if any. */
  lemma DiffStep(ref: seq<int>, blocks: seq<int>, lx: int, y: int, lz: int)
    requires |ref| == CHUNK_VOLUME && |blocks| == CHUNK_VOLUME && InChunk(lx, y, lz)
    ensures Index3D(lx + 1, y, lz) <= CHUNK_VOLUME
    ensures var i := Index3D(lx, y, lz);
      blocks[i] != ref[i] ==> Diff(ref, blocks, Index3D(lx + 1, y, lz)) == Diff(ref, blocks, i) + [BlockEdit(lx, y, lz, blocks[i])]
    ensures var i := Index3D(lx, y, lz);
      blocks[i] == ref[i] ==> Diff(ref, blocks, Index3D(lx + 1, y, lz)) == Diff(ref, blocks, i)
  {
    UnpackIndex3D(lx, y, lz);
    var i := Index3D(lx, y, lz);
    assert Index3D(lx + 1, y, lz) == i + 1;
    if blocks[i] == ref[i] {
      assert Diff(ref, blocks, i + 1) == Diff(ref, blocks, i) + [];
    }
  }

  /** `_serialize_world`: the diff of every loaded chunk that has one. */
  method SerializeWorld(world: World) returns (m: Modified)
    requires world.Valid()
    ensures m == Serialized(world.terrain.noise, world.View())
  {
    var noise := world.terrain.noise;
    ghost var view := world.View();
    m := map[];
    var todo := world.chunks.Keys;
    while todo != {}
      invariant todo <= view.Keys && SerializedBut(noise, view, todo, m)
      decreases |todo|
    {
      var key :| key in todo;
      m := SerializeChunk(world, view, todo, m, key);
      todo := todo - {key};
    }
    SerializedIs(noise, view, m);
  }

  /** The body of `_serialize_world`'s loop: the diff of chunk `key`, recorded when it is not empty. */
  method SerializeChunk(world: World, ghost view: map<(int, int), seq<int>>, ghost todo: set<(int, int)>, m: Modified, key: (int, int))
    returns (m': Modified)
    requires world.Valid() && view == world.View() && key in todo && todo <= view.Keys
    requires SerializedBut(world.terrain.noise, view, todo, m)
    ensures SerializedBut(world.terrain.noise, view, todo - {key}, m')
  {
    var chunk := world.chunks[key];
    var edits := ChunkDiff(world.terrain.noise, chunk);
    SerializedStep(world.terrain.noise, view, todo, m, key, edits);
    if edits != [] {
      m' := m[key := edits];
    } else {
      m' := m;
    }
  }

  /** `m` holds the non-empty edits of every chunk of the view outside `todo`, and nothing else. */
  ghost predicate SerializedBut(noise: Noise, view: map<(int, int), seq<int>>, todo: set<(int, int)>, m: Modified)
    requires ViewOk(view)
  {
    (forall k :: k in m <==> k in view && k !in todo && ChunkEdits(noise, k.0, k.1, view[k]) != [])
    && (forall k :: k in m ==> m[k] == ChunkEdits(noise, k.0, k.1, view[k]))
  }

  /** Recording the edits of one more chunk of `todo`. */
  lemma SerializedStep(noise: Noise, view: map<(int, int), seq<int>>, todo: set<(int, int)>, m: Modified, key: (int, int), edits: seq<BlockEdit>)
    requires ViewOk(view) && key in todo && todo <= view.Keys && SerializedBut(noise, view, todo, m)
    requires edits == ChunkEdits(noise, key.0, key.1, view[key])
    ensures SerializedBut(noise, view, todo - {key}, if edits != [] then m[key := edits] else m)
  {
  }

  /** Once `todo` is empty the map is `Serialized`. */
  lemma SerializedIs(noise: Noise, view: map<(int, int), seq<int>>, m: Modified)
    requires ViewOk(view) && SerializedBut(noise, view, {}, m)
    ensures m == Serialized(noise, view)
  {
  }

  /**
   * `_save_modified_chunk` on the save's `modified_chunks` dict: the
   * chunk is loaded or generated, then its entry is replaced by its
   * current edits, or dropped when there are none.
   */
  method SaveModifiedChunk(world: World, m: Modified, cx: int, cz: int) returns (r: Modified)
    requires world.Valid()
    modifies world`chunks
    ensures world.Valid() && (cx, cz) in world.chunks
    ensures forall k :: k in old(world.chunks) ==> k in world.chunks && world.chunks[k] == old(world.chunks[k])
    ensures r == Recorded(m, (cx, cz), ChunkEdits(world.terrain.noise, cx, cz, world.chunks[(cx, cz)].blocks))
  {
    var chunk := world.EnsureChunk(cx, cz);
    var edits := ChunkDiff(world.terrain.noise, chunk);
    if edits != [] {
      r := m[(cx, cz) := edits];
    } else {
      r := m - {(cx, cz)};
    }
  }

  /**
   * The hotbar and inventory part of `_deserialize_player`: the saved
   * slot list becomes the hotbar, the selection is clamped into it, and
   * the saved inventory is copied over the first entries.
   */
  method RestoreSlots(app: App, slots: seq<Slot>, selected: int, inventory: seq<Slot>)
    requires app.Valid()
    modifies app`hotbar, app`selectedHotbarSlot, app.inventory
    ensures fresh(app.hotbar) && app.hotbar[..] == slots
    ensures app.selectedHotbarSlot == ClampedSelection(selected)
    ensures app.inventory == old(app.inventory) && app.inventory[..] == Overlaid(old(app.inventory[..]), inventory)
    ensures |slots| == HOTBAR_SIZE ==> app.Valid()
  {
    var restored := new Slot[|slots|](i requires 0 <= i < |slots| => slots[i]);
    app.hotbar := restored;
    app.selectedHotbarSlot := ClampedSelection(selected);
    var inv := app.inventory;
    var n := if inv.Length < |inventory| then inv.Length else |inventory|;
    var i := 0;
    while i < n
      invariant 0 <= i <= n
      invariant app.hotbar == restored && app.inventory == inv && restored[..] == slots
      invariant app.selectedHotbarSlot == ClampedSelection(selected)
      invariant forall k :: 0 <= k < inv.Length ==> inv[k] == if k < i then inventory[k] else old(inv[k])
    {
      inv[i] := inventory[i];
      i := i + 1;
    }
  }

  /** The inner loop of `_deserialize_world`: `set_block_local` for each edit in turn. */
  method ApplyEdits(chunk: Chunk, edits: seq<BlockEdit>)
    requires chunk.Valid()
    modifies chunk
    ensures chunk.Valid() && chunk.blocks == Applied(old(chunk.blocks), edits)
    ensures chunk.node == old(chunk.node)
  {
    ghost var base := chunk.blocks;
    var i := 0;
    while i < |edits|
      invariant 0 <= i <= |edits|
      invariant chunk.Valid() && chunk.blocks == Applied(base, edits[..i])
      invariant chunk.node == old(chunk.node)
    {
      var e := edits[i];
      assert edits[..i + 1][..i] == edits[..i];
      chunk.SetBlockLocal(e.x, e.y, e.z, e.blockId);
      i := i + 1;
    }
    assert edits[..i] == edits;
  }

  /** Every chunk of `loaded` is still loaded under its key. */
  ghost predicate Keeps(world: World, loaded: map<(int, int), Chunk>)
    reads world
  {
    forall k :: k in loaded ==> k in world.chunks && world.chunks[k] == loaded[k]
  }

  /**
   * The tail of `_deserialize_world` for one loaded chunk: each edit is
   * written with `set_block_local` and the chunk is marked dirty. No
   * other chunk changes.
   */
  method RestoreLoaded(world: World, key: (int, int), edits: seq<BlockEdit>)
    requires world.Valid() && key in world.chunks
    modifies world.chunks[key]
    ensures world.Valid() && world.chunks == old(world.chunks) && world.meshed == old(world.meshed)
    ensures world.View() == old(world.View())[key := Applied(old(world.View())[key], edits)]
    ensures world.DirtyKeys() == old(world.DirtyKeys()) + {key}
  {
    var chunk := world.chunks[key];
    ApplyEdits(chunk, edits);
    chunk.dirty := true;
    assert world.View() == old(world.View())[key := chunk.blocks];
  }

  /**
   * The head of `_deserialize_world` for one chunk: `_ensure_chunk`
   * returns the loaded chunk, or generates and stores a new one, which
   * is dirty. `base` is what the chunk then holds.
   */
  method LoadChunk(world: World, key: (int, int), ghost loaded: map<(int, int), Chunk>) returns (ghost base: seq<int>)
    requires world.Valid() && Keeps(world, loaded)
    modifies world`chunks
    ensures world.Valid() && world.meshed == old(world.meshed) && Keeps(world, loaded) && key in world.chunks
    ensures world.View() == old(world.View())[key := base]
    ensures world.DirtyKeys() == if key in old(world.chunks) then old(world.DirtyKeys()) else old(world.DirtyKeys()) + {key}
    ensures key in old(world.chunks) ==> base == old(world.View())[key] && world.chunks[key] == old(world.chunks[key])
    ensures key !in old(world.chunks) ==> FreshChunkBlocks(world.terrain, key.0, key.1, base) && fresh(world.chunks[key])
  {
    ghost var view, dirty := world.View(), world.DirtyKeys();
    var chunk := world.EnsureChunk(key.0, key.1);
    base := chunk.blocks;
    if key !in view {
      assert world.DirtyKeys() == dirty + {key};
    }
  }

  /**
   * `_deserialize_world` for one chunk: the chunk is loaded or
   * generated, each edit is written with `set_block_local`, and it is
   * marked dirty. `base` is the chunk's content before the edits: its
   * loaded content, or a freshly made chunk. No other chunk changes.
   */
  method RestoreChunk(world: World, key: (int, int), edits: seq<BlockEdit>, ghost loaded: map<(int, int), Chunk>) returns (ghost base: seq<int>)
    requires world.Valid() && Keeps(world, loaded)
    modifies world`chunks, if key in world.chunks then {world.chunks[key]} else {}
    ensures world.Valid() && world.meshed == old(world.meshed) && Keeps(world, loaded)
    ensures |base| == CHUNK_VOLUME && world.View() == old(world.View())[key := Applied(base, edits)]
    ensures world.DirtyKeys() == old(world.DirtyKeys()) + {key}
    ensures key in old(world.chunks) ==> base == old(world.View())[key]
    ensures key !in old(world.chunks) ==> FreshChunkBlocks(world.terrain, key.0, key.1, base)
  {
    ghost var view, dirty := world.View(), world.DirtyKeys();
    base := LoadChunk(world, key, loaded);
    RestoreLoaded(world, key, edits);
    Rewritten(view, dirty, key, base, Applied(base, edits));
  }

  /** Writing a chunk twice leaves the second content; marking it dirty twice is marking it once. */
  lemma Rewritten(view: map<(int, int), seq<int>>, dirty: set<(int, int)>, key: (int, int), base: seq<int>, now: seq<int>)
    ensures view[key := base][key := now] == view[key := now]
    ensures (if key in view then dirty else dirty + {key}) + {key} == dirty + {key}
  {
    assert view[key := base][key := now].Keys == view[key := now].Keys;
  }

  /** Recording a restored chunk keeps the loaded chunks the earlier ones overlaid with the restored ones. */
  lemma OverlayStep(view: map<(int, int), seq<int>>, dirty: set<(int, int)>, before: map<(int, int), seq<int>>, wasDirty: set<(int, int)>,
                    after: map<(int, int), seq<int>>, key: (int, int), now: seq<int>)
    requires view == before + after && dirty == wasDirty + after.Keys
    ensures view[key := now] == before + after[key := now]
    ensures dirty + {key} == wasDirty + after[key := now].Keys
  {
    assert (before + after[key := now]).Keys == view[key := now].Keys;
  }

  /**
   * The bookkeeping of `_deserialize_world` after its first `i` entries:
   * `bases` holds what each restored chunk held before its edits (its
   * loaded content, or a freshly made chunk, of which `made` says what it
   * may hold) and `after` what it holds now.
   */
  ghost predicate Restored(made: ((int, int), seq<int>) -> bool, before: map<(int, int), seq<int>>, entries: seq<((int, int), seq<BlockEdit>)>, i: nat,
                           bases: map<(int, int), seq<int>>, after: map<(int, int), seq<int>>)
    requires i <= |entries|
  {
    after.Keys == bases.Keys == Listed(entries, i)
    && (forall k :: k in bases ==>
          |bases[k]| == CHUNK_VOLUME
          && (k in before ==> bases[k] == before[k])
          && (k !in before ==> made(k, bases[k])))
    && (forall j :: 0 <= j < i ==> after[entries[j].0] == Applied(bases[entries[j].0], entries[j].1))
  }

  /** Restoring entry `i`, whose chunk is not restored yet, extends the bookkeeping by that entry. */
  lemma RestoredStep(made: ((int, int), seq<int>) -> bool, before: map<(int, int), seq<int>>, entries: seq<((int, int), seq<BlockEdit>)>, i: nat,
                     bases: map<(int, int), seq<int>>, after: map<(int, int), seq<int>>, base: seq<int>, now: seq<int>)
    requires i < |entries| && Restored(made, before, entries, i, bases, after) && entries[i].0 !in bases
    requires |base| == CHUNK_VOLUME && now == Applied(base, entries[i].1)
    requires entries[i].0 in before ==> base == before[entries[i].0]
    requires entries[i].0 !in before ==> made(entries[i].0, base)
    ensures Restored(made, before, entries, i + 1, bases[entries[i].0 := base], after[entries[i].0 := now])
  {
    var key := entries[i].0;
    assert Listed(entries, i + 1) == Listed(entries, i) + {key};
    assert after[key := now].Keys == bases[key := base].Keys == Listed(entries, i + 1);
    RestoredBases(made, before, bases, key, base);
    RestoredAfter(entries, i, bases, after, base, now);
  }

  /** Adding entry `key`'s base keeps every base of the right size and origin. */
  lemma RestoredBases(made: ((int, int), seq<int>) -> bool, before: map<(int, int), seq<int>>,
                      bases: map<(int, int), seq<int>>, key: (int, int), base: seq<int>)
    requires forall k :: k in bases ==>
      |bases[k]| == CHUNK_VOLUME && (k in before ==> bases[k] == before[k]) && (k !in before ==> made(k, bases[k]))
    requires |base| == CHUNK_VOLUME && (key in before ==> base == before[key]) && (key !in before ==> made(key, base))
    ensures forall k :: k in bases[key := base] ==>
      |bases[key := base][k]| == CHUNK_VOLUME && (k in before ==> bases[key := base][k] == before[k])
      && (k !in before ==> made(k, bases[key := base][k]))
  {
  }

  /** Adding entry `i`'s result keeps every earlier entry's result. */
  lemma RestoredAfter(entries: seq<((int, int), seq<BlockEdit>)>, i: nat, bases: map<(int, int), seq<int>>, after: map<(int, int), seq<int>>,
                      base: seq<int>, now: seq<int>)
    requires i < |entries| && entries[i].0 !in bases && Listed(entries, i) == bases.Keys == after.Keys
    requires forall k :: k in bases ==> |bases[k]| == CHUNK_VOLUME
    requires forall j :: 0 <= j < i ==> after[entries[j].0] == Applied(bases[entries[j].0], entries[j].1)
    requires |base| == CHUNK_VOLUME && now == Applied(base, entries[i].1)
    ensures forall j :: 0 <= j < i + 1 ==>
      after[entries[i].0 := now][entries[j].0] == Applied(bases[entries[i].0 := base][entries[j].0], entries[j].1)
  {
  }

  /** The chunk keys of a save's first `n` entries. */
  function Listed(entries: seq<((int, int), seq<BlockEdit>)>, n: nat): (s: set<(int, int)>)
    requires n <= |entries|
    ensures forall j :: 0 <= j < n ==> entries[j].0 in s
  {
    if n == 0 then {} else Listed(entries, n - 1) + {entries[n - 1].0}
  }

  /** `Listed` holds exactly the keys of the entries' prefix. */
  lemma {:induction false} ListedKeys(entries: seq<((int, int), seq<BlockEdit>)>, n: nat)
    requires n <= |entries|
    ensures forall k :: k in Listed(entries, n) <==> k in KeysOf(entries)[..n]
  {
    if n > 0 {
      ListedKeys(entries, n - 1);
      var ks := KeysOf(entries);
      assert ks[..n] == ks[..n - 1] + [ks[n - 1]];
    }
  }

  /** With distinct keys, entry `i`'s key is not among the earlier ones. */
  lemma NextUnlisted(entries: seq<((int, int), seq<BlockEdit>)>, i: nat)
    requires i < |entries| && NoDup(KeysOf(entries))
    ensures entries[i].0 !in Listed(entries, i)
  {
    ListedKeys(entries, i);
    var ks := KeysOf(entries);
    assert forall j :: 0 <= j < i ==> ks[j] != ks[i];
  }

  /**
   * What `_deserialize_world` makes of a save's entries, given the
   * loaded chunks' blocks `before`: `after` holds exactly the listed
   * chunks, each with its edits applied to its base, which is its earlier
   * content or, for a chunk that was not loaded, a freshly made chunk.
   */
  ghost predicate DeserializedEntries(t: Terrain, before: map<(int, int), seq<int>>, entries: seq<((int, int), seq<BlockEdit>)>,
                                      bases: map<(int, int), seq<int>>, after: map<(int, int), seq<int>>)
  {
    (forall k :: k in after <==> k in KeysOf(entries))
    && forall i :: 0 <= i < |entries| ==>
      var k := entries[i].0;
      k in bases && k in after && |bases[k]| == CHUNK_VOLUME && after[k] == Applied(bases[k], entries[i].1)
      && (k in before ==> bases[k] == before[k])
      && (k !in before ==> FreshChunkBlocks(t, k.0, k.1, bases[k]))
  }

  /** The bookkeeping, once every entry is restored, gives `DeserializedEntries`. */
  lemma Deserialized(t: Terrain, before: map<(int, int), seq<int>>, made: ((int, int), seq<int>) -> bool,
                     entries: seq<((int, int), seq<BlockEdit>)>, bases: map<(int, int), seq<int>>, after: map<(int, int), seq<int>>)
    requires Restored(made, before, entries, |entries|, bases, after)
    requires forall k, b :: made(k, b) ==> FreshChunkBlocks(t, k.0, k.1, b)
    ensures DeserializedEntries(t, before, entries, bases, after)
  {
    ListedKeys(entries, |entries|);
    assert KeysOf(entries)[..|entries|] == KeysOf(entries);
  }

  /** The chunk coordinates listed in a save, in the dict's order. */
  function KeysOf(entries: seq<((int, int), seq<BlockEdit>)>): (ks: seq<(int, int)>)
    ensures |ks| == |entries| && forall i :: 0 <= i < |entries| ==> ks[i] == entries[i].0
  {
    seq(|entries|, i requires 0 <= i < |entries| => entries[i].0)
  }

  /**
   * What `_deserialize_world` has done after its first `i` entries: the
   * loaded chunks are the earlier ones (`before`) overlaid with the
   * restored ones (`after`), the dirty ones the earlier dirty ones
   * (`wasDirty`) and the restored ones, and `Restored` holds.
   */
  ghost predicate Restoring(world: World, made: ((int, int), seq<int>) -> bool, before: map<(int, int), seq<int>>, wasDirty: set<(int, int)>,
                            entries: seq<((int, int), seq<BlockEdit>)>, i: nat, bases: map<(int, int), seq<int>>, after: map<(int, int), seq<int>>)
    reads world, world.chunks.Values
    requires i <= |entries|
  {
    world.Valid() && world.View() == before + after && world.DirtyKeys() == wasDirty + after.Keys
    && Restored(made, before, entries, i, bases, after)
  }

  /**
   * One turn of `_deserialize_world`'s loop: entry `i` is restored and
   * the bookkeeping extended by it. `loaded` is the chunks loaded before
   * the loop; only those and new chunks change.
   */
  method RestoreEntry(world: World, entries: seq<((int, int), seq<BlockEdit>)>, i: nat, ghost made: ((int, int), seq<int>) -> bool,
                      ghost before: map<(int, int), seq<int>>, ghost wasDirty: set<(int, int)>, ghost loaded: map<(int, int), Chunk>,
                      ghost bases: map<(int, int), seq<int>>, ghost after: map<(int, int), seq<int>>)
    returns (ghost bases': map<(int, int), seq<int>>, ghost after': map<(int, int), seq<int>>)
    requires i < |entries| && NoDup(KeysOf(entries)) && Restoring(world, made, before, wasDirty, entries, i, bases, after)
    requires forall k: (int, int), b: seq<int> :: FreshChunkBlocks(world.terrain, k.0, k.1, b) ==> made(k, b)
    requires Keeps(world, loaded) && loaded.Keys == before.Keys
    modifies world`chunks, loaded.Values
    ensures world.meshed == old(world.meshed) && Restoring(world, made, before, wasDirty, entries, i + 1, bases', after')
    ensures Keeps(world, loaded)
  {
    var key := entries[i].0;
    NextUnlisted(entries, i);
    ghost var view, dirty := world.View(), world.DirtyKeys();
    ghost var base := RestoreChunk(world, key, entries[i].1, loaded);
    ghost var now := Applied(base, entries[i].1);
    OverlayStep(view, dirty, before, wasDirty, after, key, now);
    RestoredStep(made, before, entries, i, bases, after, base, now);
    bases', after' := bases[key := base], after[key := now];
  }

  /** The loop of `_deserialize_world`: every entry is restored in turn. */
  method RestoreAll(world: World, entries: seq<((int, int), seq<BlockEdit>)>, ghost made: ((int, int), seq<int>) -> bool,
                    ghost before: map<(int, int), seq<int>>, ghost wasDirty: set<(int, int)>)
    returns (ghost bases: map<(int, int), seq<int>>, ghost after: map<(int, int), seq<int>>)
    requires NoDup(KeysOf(entries)) && Restoring(world, made, before, wasDirty, entries, 0, map[], map[])
    requires forall k: (int, int), b: seq<int> :: FreshChunkBlocks(world.terrain, k.0, k.1, b) ==> made(k, b)
    modifies world`chunks, world.chunks.Values
    ensures world.meshed == old(world.meshed) && Restoring(world, made, before, wasDirty, entries, |entries|, bases, after)
  {
    bases := map[];
    after := map[];
    ghost var loaded := world.chunks;
    var i := 0;
    while i < |entries|
      invariant 0 <= i <= |entries| && world.meshed == old(world.meshed)
      invariant Restoring(world, made, before, wasDirty, entries, i, bases, after) && Keeps(world, loaded)
    {
      bases, after := RestoreEntry(world, entries, i, made, before, wasDirty, loaded, bases, after);
      i := i + 1;
    }
  }

  /**
   * `_deserialize_world` over the items of a save's `modified_chunks`
   * (distinct keys, as in a dict): afterwards the loaded chunks are the
   * earlier ones (`before`) overlaid with the restored ones (`after`,
   * as `DeserializedEntries` describes them), and the dirty ones are the
   * earlier dirty ones (`wasDirty`) and the restored ones.
   */
  method DeserializeWorld(world: World, entries: seq<((int, int), seq<BlockEdit>)>)
    returns (ghost before: map<(int, int), seq<int>>, ghost wasDirty: set<(int, int)>,
             ghost bases: map<(int, int), seq<int>>, ghost after: map<(int, int), seq<int>>)
    requires world.Valid() && NoDup(KeysOf(entries))
    modifies world`chunks, world.chunks.Values
    ensures before == old(world.View()) && wasDirty == old(world.DirtyKeys())
    ensures world.Valid() && world.meshed == old(world.meshed)
    ensures world.View() == before + after && world.DirtyKeys() == wasDirty + after.Keys
    ensures DeserializedEntries(world.terrain, before, entries, bases, after)
  {
    before := world.View();
    wasDirty := world.DirtyKeys();
    ghost var made := (k: (int, int), b: seq<int>) => FreshChunkBlocks(world.terrain, k.0, k.1, b);
    assert before + map[] == before;
    bases, after := RestoreAll(world, entries, made, before, wasDirty);
    Deserialized(world.terrain, before, made, entries, bases, after);
  }
}
