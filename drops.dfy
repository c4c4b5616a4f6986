/**
 * Dropped items of voxel/drop_system.py: their ageing, their physics
 * (gravity, the shared swept-box collision, ground friction) and their
 * collection by the player.  The world is seen only through `solid_at`.
 */
module Drops {
  import opened Wrappers
  import opened Settings
  import opened Util
  import opened Collision

  /** An item cannot be picked up before it is this old. */
  const PICKUP_DELAY: real := 0.5
  /** An item this old disappears. */
  const MAX_AGE: real := 300.0
  /** Half the edge of an item's collision cube. */
  const HALF_SIZE: real := 0.25
  /** The player picks up items strictly closer than this. */
  const COLLECTION_RADIUS: real := 1.5
  /** Horizontal velocity kept on landing. */
  const GROUND_FRICTION: real := 0.85

  /** `DroppedItem`: an item lying or flying in the world. */
  datatype DroppedItem = DroppedItem(itemType: int, x: real, y: real, z: real, vx: real, vy: real, vz: real,
                                     age: real, onGround: bool)
  {
    /** `get_aabb`. */
    function Box(): Aabb
    {
      ItemBox(x, y, z)
    }

    /** `is_collectable`. */
    predicate IsCollectable()
    {
      age >= PICKUP_DELAY
    }

    /** `should_despawn`. */
    predicate ShouldDespawn()
    {
      age >= MAX_AGE
    }
  }

  /** `DroppedItem.__init__`: a fresh item in the air, of age 0. */
  function NewItem(itemType: int, px: real, py: real, pz: real, v: (real, real, real)): (d: DroppedItem)
    ensures d.itemType == itemType && d.x == px && d.y == py && d.z == pz
    ensures d.vx == v.0 && d.vy == v.1 && d.vz == v.2 && d.age == 0.0 && !d.onGround
    ensures !d.IsCollectable() && !d.ShouldDespawn()
  {
    DroppedItem(itemType, px, py, pz, v.0, v.1, v.2, 0.0, false)
  }

  /** `DroppedItem.get_aabb`: the cube of half-edge 0.25 centred on the item. */
  function ItemBox(px: real, py: real, pz: real): (b: Aabb)
    ensures Proper(b)
    ensures b.maxX - b.minX == 2.0 * HALF_SIZE && b.maxY - b.minY == 2.0 * HALF_SIZE && b.maxZ - b.minZ == 2.0 * HALF_SIZE
    ensures b.minX + b.maxX == 2.0 * px && b.minY + b.maxY == 2.0 * py && b.minZ + b.maxZ == 2.0 * pz
  {
    Aabb(px - HALF_SIZE, py - HALF_SIZE, pz - HALF_SIZE, px + HALF_SIZE, py + HALF_SIZE, pz + HALF_SIZE)
  }

  /** `_check_player_collection`: the squared distance to the player is below the radius squared. */
  predicate Near(s: DroppedItem, px: real, py: real, pz: real)
  {
    var dx, dy, dz := s.x - px, s.y - py, s.z - pz;
    dx * dx + dy * dy + dz * dz < COLLECTION_RADIUS * COLLECTION_RADIUS
  }

  /**
   * The collision part of `_update_item_physics` for the displacement
   * (dx, dy, dz): each axis moves by what its sweep allows; a blocked X or Z
   * axis loses its velocity; a blocked Y axis stops the fall, and landing
   * (a blocked downward move) sets `on_ground` and applies ground friction
   * to what is left of the horizontal velocity; a free Y move clears
   * `on_ground`.
   */
  ghost predicate Moved(solid: (int, int, int) -> bool, s: DroppedItem, t: DroppedItem, dx: real, dy: real, dz: real)
  {
    var a := Sweeps(solid, s.Box(), dx, dy, dz);
    var landed := a.1 != dy && dy < 0.0;
    var vx1 := if a.0 != dx then 0.0 else s.vx;
    t.itemType == s.itemType && t.age == s.age
    && t.x == s.x + a.0 && t.y == s.y + a.1 && t.z == s.z + a.2
    && t.vx == (if landed then vx1 * GROUND_FRICTION else vx1)
    && t.vy == (if a.1 != dy then 0.0 else s.vy)
    && t.vz == (if a.2 != dz then 0.0 else if landed then s.vz * GROUND_FRICTION else s.vz)
    && t.onGround == (if a.1 != dy then landed || s.onGround else false)
  }

  /** `_update_item_physics`: gravity on the vertical velocity, then the moves of `Moved`. */
  ghost predicate Fell(solid: (int, int, int) -> bool, s: DroppedItem, t: DroppedItem, dt: real)
  {
    var vy := s.vy - GRAVITY * dt;
    Moved(solid, s.(vy := vy), t, s.vx * dt, vy * dt, s.vz * dt)
  }

  /** `Fell` is `Moved` for the displacement gravity and the velocity give. */
  lemma FellByMoved(solid: (int, int, int) -> bool, s: DroppedItem, t: DroppedItem, dt: real, dx: real, dy: real, dz: real)
    requires dx == s.vx * dt && dy == (s.vy - GRAVITY * dt) * dt && dz == s.vz * dt
    requires Moved(solid, s.(vy := s.vy - GRAVITY * dt), t, dx, dy, dz)
    ensures Fell(solid, s, t, dt)
  {
  }

  /**
   * An item clear of every solid block stays clear through the moves of a
   * physics step in which no sweep backs off, and its box moves with it.
   */
  lemma MovedKeepsClear(solid: (int, int, int) -> bool, s: DroppedItem, t: DroppedItem, dx: real, dy: real, dz: real)
    requires Moved(solid, s, t, dx, dy, dz) && Clear(solid, s.Box())
    requires var a := Sweeps(solid, s.Box(), dx, dy, dz); Toward(dx, a.0) && Toward(dy, a.1) && Toward(dz, a.2)
    ensures var a := Sweeps(solid, s.Box(), dx, dy, dz); t.Box() == s.Box().Moved(a.0, a.1, a.2)
    ensures Clear(solid, t.Box())
  {
    SweepsKeepClear(solid, s.Box(), dx, dy, dz);
  }

  /**
   * What `DropSystem.update` does to the item `s`, leaving `t`: the item
   * ages by `dt`; once it has reached MAX_AGE it is dropped silently and
   * not moved; otherwise it falls, and is then collected (dropped and
   * reported) exactly when it is old enough and near the player.
   */
  ghost predicate Visited(solid: (int, int, int) -> bool, dt: real, px: real, py: real, pz: real,
                          s: DroppedItem, t: DroppedItem, keep: bool, report: bool)
  {
    var aged := s.(age := s.age + dt);
    if aged.ShouldDespawn() then
      t == aged && !keep && !report
    else
      Fell(solid, aged, t, dt)
      && report == (t.IsCollectable() && Near(t, px, py, pz))
      && keep == !report
  }

  /** `Visited` holds at every position of the four lists, which are equally long. */
  ghost predicate AllVisited(solid: (int, int, int) -> bool, dt: real, px: real, py: real, pz: real,
                             s: seq<DroppedItem>, t: seq<DroppedItem>, keep: seq<bool>, report: seq<bool>)
    requires |t| == |s| && |keep| == |s| && |report| == |s|
  {
    if |s| == 0 then true
    else
      var n := |s| - 1;
      AllVisited(solid, dt, px, py, pz, s[..n], t[..n], keep[..n], report[..n])
      && Visited(solid, dt, px, py, pz, s[n], t[n], keep[n], report[n])
  }

  lemma {:induction false} AllVisitedAt(solid: (int, int, int) -> bool, dt: real, px: real, py: real, pz: real,
                                       s: seq<DroppedItem>, t: seq<DroppedItem>, keep: seq<bool>, report: seq<bool>)
    requires |t| == |s| && |keep| == |s| && |report| == |s|
    requires AllVisited(solid, dt, px, py, pz, s, t, keep, report)
    ensures forall j :: 0 <= j < |s| ==> Visited(solid, dt, px, py, pz, s[j], t[j], keep[j], report[j])
  {
    if |s| > 0 {
      var n := |s| - 1;
      AllVisitedAt(solid, dt, px, py, pz, s[..n], t[..n], keep[..n], report[..n]);
    }
  }

  /** Whether `spawn_drop` may draw this scatter velocity when none is given. */
  predicate ScatterRange(v: (real, real, real))
  {
    -1.5 <= v.0 <= 1.5 && 2.0 <= v.1 <= 4.0 && -1.5 <= v.2 <= 1.5
  }

  /** The item types of a list of items, in list order. */
  function TypesOf(s: seq<DroppedItem>): (r: seq<int>)
    ensures |r| == |s| && forall i :: 0 <= i < |s| ==> r[i] == s[i].itemType
  {
    if |s| == 0 then [] else TypesOf(s[..|s| - 1]) + [s[|s| - 1].itemType]
  }

  /** `_update_item_physics` on one item. */
  method ItemPhysics(solid: (int, int, int) -> bool, s: DroppedItem, dt: real) returns (t: DroppedItem)
    ensures Fell(solid, s, t, dt)
  {
    var vy := s.vy - GRAVITY * dt;
    var dx, dy, dz := s.vx * dt, vy * dt, s.vz * dt;
    assert dx == s.vx * dt && dy == (s.vy - GRAVITY * dt) * dt && dz == s.vz * dt;
    t := ItemMoves(solid, s.(vy := vy), dx, dy, dz);
    FellByMoved(solid, s, t, dt, dx, dy, dz);
  }

  /** The three sweeps of `_update_item_physics`, X, Y, Z in that order. */
  method ItemMoves(solid: (int, int, int) -> bool, s: DroppedItem, dx: real, dy: real, dz: real) returns (t: DroppedItem)
    ensures Moved(solid, s, t, dx, dy, dz)
  {
    var hit;
    var ax, ay, az;
    t := s;
    ax, hit := SweepAxis(solid, t.Box(), dx, X);
    if ax != dx {
      t := t.(vx := 0.0);
    }
    t := t.(x := t.x + ax);
    assert t.Box() == Shift(s.Box(), X, ax);
    ay, hit := SweepAxis(solid, t.Box(), dy, Y);
    if ay != dy {
      if dy < 0.0 {
        t := t.(onGround := true, vx := t.vx * GROUND_FRICTION, vz := t.vz * GROUND_FRICTION);
      }
      t := t.(vy := 0.0);
    } else {
      t := t.(onGround := false);
    }
    t := t.(y := t.y + ay);
    assert t.Box() == Shift(Shift(s.Box(), X, ax), Y, ay);
    az, hit := SweepAxis(solid, t.Box(), dz, Z);
    if az != dz {
      t := t.(vz := 0.0);
    }
    t := t.(z := t.z + az);
    assert Sweeps(solid, s.Box(), dx, dy, dz) == (ax, ay, az);
  }

  /** One item's turn in `DropSystem.update`. */
  method Visit(solid: (int, int, int) -> bool, dt: real, px: real, py: real, pz: real, s: DroppedItem)
    returns (t: DroppedItem, keep: bool, report: bool)
    ensures Visited(solid, dt, px, py, pz, s, t, keep, report)
  {
    t := s.(age := s.age + dt);
    if t.ShouldDespawn() {
      return t, false, false;
    }
    t := ItemPhysics(solid, t, dt);
    if t.IsCollectable() && Near(t, px, py, pz) {
      return t, false, true;
    }
    return t, true, false;
  }

  /** `DropSystem`: the dropped items in the world, in spawn order. */
  class DropSystem {
    var items: seq<DroppedItem>

    constructor()
      ensures items == []
    {
      items := [];
    }

    /**
     * `spawn_drop`: appends one new item of the given type at the given
     * position, moving with `velocity`, or with the random scatter
     * velocity `scatter` when none is given.
     */
    method SpawnDrop(itemType: int, px: real, py: real, pz: real, velocity: Option<(real, real, real)>, scatter: (real, real, real))
      returns (d: DroppedItem)
      requires velocity.None? ==> ScatterRange(scatter)
      modifies this`items
      ensures items == old(items) + [d]
      ensures d == NewItem(itemType, px, py, pz, velocity.GetOr(scatter))
    {
      var v := if velocity.Some? then velocity.value else scatter;
      d := NewItem(itemType, px, py, pz, v);
      items := items + [d];
    }

    /**
     * `update`: each item is handled as `Visited` says, becoming the
     * corresponding entry of `after`; the items that stay keep their
     * order, and the types of the collected items are returned in list
     * order.
     */
    method Update(solid: (int, int, int) -> bool, dt: real, px: real, py: real, pz: real)
      returns (collected: seq<int>, ghost after: seq<DroppedItem>, ghost keep: seq<bool>, ghost report: seq<bool>)
      modifies this`items
      ensures |after| == |old(items)| && |keep| == |old(items)| && |report| == |old(items)|
      ensures forall i :: 0 <= i < |old(items)| ==> Visited(solid, dt, px, py, pz, old(items)[i], after[i], keep[i], report[i])
      ensures items == Select(after, keep)
      ensures collected == TypesOf(Select(after, report))
    {
      var all := items;
      var kept: seq<DroppedItem> := [];
      collected, after, keep, report := [], [], [], [];
      var i := 0;
      while i < |all|
        invariant 0 <= i <= |all| && all == old(items)
        invariant |after| == i && |keep| == i && |report| == i
        invariant AllVisited(solid, dt, px, py, pz, all[..i], after, keep, report)
        invariant kept == Select(after, keep)
        invariant collected == TypesOf(Select(after, report))
      {
        var t, k, r := Visit(solid, dt, px, py, pz, all[i]);
        assert (after + [t])[..i] == after && (keep + [k])[..i] == keep && (report + [r])[..i] == report;
        assert all[..i + 1][..i] == all[..i];
        kept := kept + (if k then [t] else []);
        collected := collected + (if r then [t.itemType] else []);
        after, keep, report := after + [t], keep + [k], report + [r];
        i := i + 1;
      }
      assert all[..i] == all;
      AllVisitedAt(solid, dt, px, py, pz, all, after, keep, report);
      items := kept;
    }
  }
}
